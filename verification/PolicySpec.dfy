/**
 The AccessPolicy reconciler as a function of the world: internal/controller/accesspolicy_controller.go
 and accesspolicy_conditions.go.
 */
module PolicySpec {
  import opened Common
  import opened Conditions
  import opened Permissions
  import opened PolicyWorld

  const POLICY_CONDITIONS: seq<CondType> := [Ready, PolicyAccessKeyReady, PolicyBucketReady, PolicyReady]
  const POLICY_ORDER: seq<CondType> := [PolicyBucketReady, PolicyAccessKeyReady, PolicyReady]

  function Initialized(s: PolicyStatus): PolicyStatus {
    s.(conditions := InitAll(s.conditions, POLICY_CONDITIONS))
  }

  function Marked(s: PolicyStatus, t: CondType, status: CondStatus, reason: Reason, generation: int): PolicyStatus {
    s.(conditions := SetCondition(s.conditions, Condition(t, status, reason, generation)))
  }

  /** updateAccessPolicyCondition. */
  function Aggregated(s: PolicyStatus, generation: int): PolicyStatus {
    var ready := Verdict(s.conditions, POLICY_ORDER, DependenciesNotReady, generation);
    s.(conditions := SetCondition(s.conditions, ready),
       observedGeneration := if ready.status == True then generation else s.observedGeneration)
  }

  /** The labels after ensureLabels. */
  function EnsuredLabels(labels: Labels, key: Id, bucket: Id): Labels {
    var keyed := if LabelOf(labels, KeyLabel) != key then labels[KeyLabel := key] else labels;
    if LabelOf(keyed, BucketLabel) != bucket then keyed[BucketLabel := bucket] else keyed
  }

  /** What looking at a dependency yields: the status so far, and the dependency or an error. */
  datatype Check = Check(w: World, status: PolicyStatus, r: Result<Dependency>)

  /** The verdict on a dependency that was looked up; t is the condition that reports it. */
  function Judge(call: Call<Dependency>, found: PolicyStatus, s: PolicyStatus, t: CondType, missing: Reason, generation: int): Check {
    match call.r
    case Err(e) =>
      Check(call.w, if e == NotFound then Marked(s, t, False, missing, generation) else s, Err(e))
    case Ok(d) =>
      if !d.ready then Check(call.w, Marked(found, t, False, DependenciesNotReady, generation), Err(DependencyNotReady))
      else Check(call.w, Marked(found, t, True, Met, generation), Ok(d))
  }

  function CheckBucket(w: World, n: NsName, p: Policy, s: PolicyStatus): Check {
    var got := GetBucket(w, n, BucketOf(n, p));
    var found := if got.r.Ok? then s.(bucketID := got.r.value.id) else s;
    Judge(got, found, s, PolicyBucketReady, BucketMissing, p.generation)
  }

  function CheckAccessKey(w: World, n: NsName, p: Policy, s: PolicyStatus): Check {
    var got := GetKey(w, KeyOf(n, p));
    var found := if got.r.Ok? then s.(accessKeyID := got.r.value.id) else s;
    Judge(got, found, s, PolicyAccessKeyReady, AccessKeyMissing, p.generation)
  }

  function StatusPair(s: PolicyStatus): Pair {
    Pair(s.accessKeyID, s.bucketID)
  }

  /** The bucket half of reconcilePolicy: a bucket that is gone loses its grant, whatever Garage answers. */
  function BucketStage(w: World, n: NsName, p: Policy, s: PolicyStatus): Check {
    var check := CheckBucket(w, n, p, s);
    if check.r == Err(NotFound) && check.status.bucketID != NONE then
      var revoked := SetCall(check.w, StatusPair(check.status), NOTHING);
      Check(revoked.w, check.status.(bucketID := NONE), check.r)
    else check
  }

  function KeyStage(w: World, n: NsName, p: Policy, s: PolicyStatus): Check {
    var check := CheckAccessKey(w, n, p, s);
    if check.r == Err(NotFound) && check.status.accessKeyID != NONE then
      var revoked := SetCall(check.w, StatusPair(check.status), NOTHING);
      Check(revoked.w, check.status.(accessKeyID := NONE), check.r)
    else check
  }

  datatype PolicyRun = PolicyRun(w: World, status: PolicyStatus, errors: seq<Error>)

  function ErrorOf(r: Result<Dependency>): seq<Error> {
    if r.Err? then [r.error] else []
  }

  /** reconcilePolicy; s is the status with initialised conditions. */
  function ReconcilePolicy(w: World, n: NsName, p: Policy, s: PolicyStatus): PolicyRun {
    var bucket := BucketStage(w, n, p, s);
    var key := KeyStage(bucket.w, n, p, bucket.status);
    if bucket.r.Err? || key.r.Err? then PolicyRun(key.w, key.status, ErrorOf(bucket.r) + ErrorOf(key.r))
    else AssignStage(key.w, p, key.status, Pair(key.r.value.id, bucket.r.value.id))
  }

  function AssignStage(w: World, p: Policy, s: PolicyStatus, pair: Pair): PolicyRun {
    var set_ := SetCall(w, pair, p.permissions);
    if set_.error.Some? then
      PolicyRun(set_.w, Marked(s, PolicyReady, False, PolicyAssignmentFailed, p.generation), [ExternalFailure])
    else PolicyRun(set_.w, Marked(s, PolicyReady, True, Met, p.generation), [])
  }

  /**
   apierrors.IsNotFound on joined errors: whether the first one that the API server answered is a missing
   object. An unreachable server (Transient) has answered nothing.
   */
  predicate IsNotFound(errors: seq<Error>) {
    errors != [] &&
    match errors[0]
    case NotFound => true
    case Transient => IsNotFound(errors[1..])
    case DependencyNotReady => IsNotFound(errors[1..])
    case ExternalFailure => IsNotFound(errors[1..])
    case _ => false
  }

  function Classified(errors: seq<Error>): Outcome {
    if errors == [] then Done
    else if IsNotFound(errors) then RequeueAfter(15)
    else if DependencyNotReady in errors then RequeueAfter(10)
    else Failed(errors[0])
  }

  /** The run and the status that a reconcile of the live, labelled policy p computes. */
  function Computed(w: World, n: NsName, p: Policy): PolicyRun {
    var run := ReconcilePolicy(w, n, p, Initialized(p.status));
    run.(status := Aggregated(run.status, p.generation))
  }

  datatype End = End(w: World, outcome: Outcome)

  function ReconcileLive(w: World, n: NsName, p: Policy): End {
    var run := Computed(w, n, p);
    if run.status == p.status then End(run.w, Classified(run.errors))
    else
      var patch := PatchStatus(run.w, n, p.version, run.status);
      End(patch.w,
          if patch.r == Err(Conflict) then Done
          else if patch.r.Err? && !Classified(run.errors).Failed? then Failed(patch.r.error)
          else Classified(run.errors))
  }

  function Finalize(w: World, n: NsName, p: Policy): End {
    if !p.finalizer then End(w, Done)
    else if p.status.accessKeyID != NONE && p.status.bucketID != NONE then
      var revoked := SetCall(w, StatusPair(p.status), NOTHING);
      if revoked.error.Some? && revoked.error.value != NotFound then End(revoked.w, Failed(revoked.error.value))
      else DropFinalizer(revoked.w, n, p)
    else DropFinalizer(w, n, p)
  }

  function DropFinalizer(w: World, n: NsName, p: Policy): End {
    var u := UpdateMeta(w, n, p.version, EnsuredLabels(p.labels, p.key, p.bucket), false);
    End(u.w, if u.r.Err? then Failed(u.r.error) else Done)
  }

  /** Labels or finalizer are missing: this reconcile only writes them. */
  function WriteMeta(w: World, n: NsName, p: Policy): End {
    var u := UpdateMeta(w, n, p.version, EnsuredLabels(p.labels, p.key, p.bucket), true);
    End(u.w, if u.r.Err? && u.r.error != Conflict then Failed(u.r.error) else Done)
  }

  predicate MetaInOrder(p: Policy) {
    p.finalizer && EnsuredLabels(p.labels, p.key, p.bucket) == p.labels
  }

  function Reconcile(w: World, n: NsName): End {
    var got := GetPolicy(w, n);
    match got.r
    case Err(e) => End(got.w, if e == NotFound then Done else Failed(e))
    case Ok(p) =>
      if p.deleting then Finalize(got.w, n, p)
      else if !MetaInOrder(p) then WriteMeta(got.w, n, p)
      else ReconcileLive(got.w, n, p)
  }

  // ---------------------------------------------------------------- the work queue and runs

  /** The queue hears the outcome; a controller that crashed lists everything when it restarts. */
  function Requeued(c: Cluster, n: NsName, outcome: Outcome, crashed: bool): Cluster {
    if crashed then c.(queue := c.queue + c.policies.Keys, inHand := None)
    else if Retries(outcome) then c.(timers := c.timers + {n}, inHand := None)
    else c.(inHand := None)
  }

  /** The reconcile of n begins. */
  function Taken(c: Cluster, n: NsName): Cluster {
    c.(queue := c.queue - {n}, inHand := None)
  }

  /** Something others do on their own, or the reconcile of a queued request. */
  datatype Event = Other(action: Action) | Work(n: NsName, tape: seq<Fate>)

  function Worked(c: Cluster, n: NsName, tape: seq<Fate>): End {
    Reconcile(World(Taken(c, n), tape), n)
  }

  function Next(c: Cluster, e: Event): Cluster {
    match e
    case Other(a) => Perform(c, a)
    case Work(n, tape) =>
      if n !in c.queue then c
      else
        var end := Worked(c, n, tape);
        Requeued(end.w.c, n, end.outcome, end.w.tape == [])
  }

  function Run(c: Cluster, events: seq<Event>): Cluster
    decreases |events|
  {
    if events == [] then c else Run(Next(c, events[0]), events[1..])
  }
}
