/**
 The Bucket reconciler as a function of the world: internal/controller/bucket_controller.go and
 bucket_conditions.go.
 */
module BucketSpec {
  import opened Common
  import opened Conditions
  import opened Permissions
  import opened Quotas
  import opened BucketWorld
  import Backoff

  const BUCKET_CONDITIONS: seq<CondType> := [Ready, BucketReady, BucketConfigMapReady]
  const BUCKET_ORDER: seq<CondType> := [BucketReady, BucketConfigMapReady]

  /** What one reconcile is given: the Bucket's name, its age, and the configured endpoint. */
  datatype Job = Job(n: NsName, age: Backoff.Int64, endpoint: Id)

  function Initialized(s: BucketStatus): BucketStatus {
    s.(conditions := InitAll(s.conditions, BUCKET_CONDITIONS))
  }

  function Marked(s: BucketStatus, t: CondType, status: CondStatus, reason: Reason, generation: int): BucketStatus {
    s.(conditions := SetCondition(s.conditions, Condition(t, status, reason, generation)))
  }

  /** updateBucketReadyCondition. */
  function Aggregated(s: BucketStatus, generation: int): BucketStatus {
    var ready := Verdict(s.conditions, BUCKET_ORDER, WaitingForBucket, generation);
    s.(conditions := SetCondition(s.conditions, ready),
       observedGeneration := if ready.status == True then generation else s.observedGeneration)
  }

  /** What resolving the Garage bucket yields: the bucket, or the reason to report and an error. */
  datatype Resolved = Resolved(w: World, r: Result<S3Bucket>, reason: Reason)

  function ResolveNewBucket(w: World, alias: Alias): Resolved {
    var got := GarageGet(w, alias);
    match got.r
    case Ok(_) => Resolved(got.w, got.r, Met)
    case Err(e) =>
      if e != NotFound then Resolved(got.w, Err(e), UnknownState)
      else
        var created := GarageCreate(got.w, alias);
        Resolved(created.w, created.r, if created.r.Ok? then Met else CreateFailed)
  }

  function ResolveExistingBucket(w: World, alias: Alias, s: NsName): Resolved {
    var secret := GetSecret(w, s);
    match secret.r
    case Err(e) => Resolved(secret.w, Err(e), if e == Forbidden then SecretAccessForbidden else OwnerKeySecretNotFound)
    case Ok(keyID) =>
      var got := GarageGet(secret.w, alias);
      if got.r.Err? then Resolved(got.w, got.r, BucketNotFound) else VerifyOwner(got.w, keyID, got.r.value)
  }

  /** The key in the Secret must own the bucket. */
  function VerifyOwner(w: World, keyID: Id, b: S3Bucket): Resolved {
    var held := ReadPermissions(w, Pair(keyID, b.id));
    match held.r
    case Err(e) => Resolved(held.w, Err(e), OwnershipVerificationFailed)
    case Ok(p) => if p.owner then Resolved(held.w, Ok(b), Met) else Resolved(held.w, Err(ExternalFailure), OwnershipVerificationFailed)
  }

  function Resolve(w: World, q: Job, o: BucketObject): Resolved {
    match o.spec.source
    case New(_) => ResolveNewBucket(w, AliasOf(o))
    case Existing(alias, secret) => ResolveExistingBucket(w, alias, NsName(q.n.ns, secret))
  }

  datatype BucketRun = BucketRun(w: World, status: BucketStatus, outcome: Outcome)

  /** A bucket that cannot be imported is tried again later; any other failure is an error. */
  function ResolveFailure(q: Job, o: BucketObject, e: Error): Outcome {
    if o.spec.source.New? then Failed(e)
    else RequeueAfter(Backoff.OwnerSecretBackoff(q.age, Backoff.BASE_REQUEUE_INTERVAL, Backoff.MAX_REQUEUE_INTERVAL))
  }

  /** ID and alias are recorded once. */
  function Recorded(s: BucketStatus, id: Id, alias: Alias): BucketStatus {
    s.(bucketID := if s.bucketID == NONE then id else s.bucketID,
       bucketName := if s.bucketName == None then Some(alias) else s.bucketName)
  }

  /** compareSpec. */
  predicate Differs(b: S3Bucket, spec: Spec) {
    b.quotas.maxObjects != spec.quotas.maxObjects || b.quotas.maxSize != spec.quotas.maxSize
  }

  /** reconcileBucket; s is the status with initialised conditions. */
  function ReconcileBucket(w: World, q: Job, o: BucketObject, s: BucketStatus): BucketRun {
    var resolved := Resolve(w, q, o);
    if resolved.r.Err? then
      BucketRun(resolved.w, Marked(s, BucketReady, False, resolved.reason, o.generation), ResolveFailure(q, o, resolved.r.error))
    else QuotaStage(resolved.w, q, o, Recorded(s, resolved.r.value.id, AliasOf(o)), resolved.r.value)
  }

  function QuotaStage(w: World, q: Job, o: BucketObject, s: BucketStatus, b: S3Bucket): BucketRun {
    var ready := Marked(s, BucketReady, True, Met, o.generation);
    if !Differs(b, o.spec) then ConfigMapStage(w, q, o, ready)
    else
      var sent := GarageUpdate(w, b.id, o.spec.quotas);
      if sent.r.Err? then BucketRun(sent.w, Marked(s, BucketReady, False, UpdateFailed, o.generation), Failed(sent.r.error))
      else ConfigMapStage(sent.w, q, o, ready)
  }

  function ConfigMapFailure(e: Error): Reason {
    match e
    case NameConflict => ConfigMapNameConflict
    case Forbidden => ConfigMapAccessForbidden
    case _ => ConfigMapCreateError
  }

  function ConfigMapStage(w: World, q: Job, o: BucketObject, s: BucketStatus): BucketRun {
    var ensured := EnsureConfigMap(w, q, o, s);
    if ensured.r.Err? then
      BucketRun(ensured.w, Marked(s, BucketConfigMapReady, False, ConfigMapFailure(ensured.r.error), o.generation),
                if ensured.r.error == NameConflict then Done else Failed(ensured.r.error))
    else
      var cleaned := DeleteStaleConfigMaps(ensured.w, q.n, o);
      BucketRun(cleaned.w, Marked(s, BucketConfigMapReady, True, Met, o.generation), if cleaned.r.Err? then Failed(cleaned.r.error) else Done)
  }

  /** What the Bucket's ConfigMap should hold. */
  function DesiredConfigMap(q: Job, o: BucketObject, s: BucketStatus): ConfigMap {
    ConfigMap(Some(o.uid), q.n.name, s.bucketName, q.endpoint)
  }

  /** controllerutil.CreateOrUpdate, whose callback refuses a ConfigMap that the Bucket does not control. */
  function EnsureConfigMap(w: World, q: Job, o: BucketObject, s: BucketStatus): Call<()> {
    var name := ConfigMapOf(q.n, o.spec);
    var desired := DesiredConfigMap(q, o, s);
    var got := GetConfigMap(w, name);
    match got.r
    case Err(e) => if e == NotFound then CreateConfigMap(got.w, name, desired) else Call(got.w, Err(e))
    case Ok(existing) =>
      if existing.controller != Some(o.uid) then Call(got.w, Err(NameConflict))
      else if desired == existing then Call(got.w, Ok(()))
      else UpdateConfigMap(got.w, name, existing, desired)
  }

  function DeleteStaleConfigMaps(w: World, n: NsName, o: BucketObject): Call<()> {
    var listed := ListConfigMaps(w, n.ns, n.name);
    if listed.r.Err? then Call(listed.w, Err(listed.r.error))
    else DeleteEach(listed.w, n.ns, listed.r.value, ConfigMapOf(n, o.spec).name, o.uid)
  }

  predicate IsStale(i: Item, desired: Id, uid: Id) {
    i.name != desired && i.controller == Some(uid)
  }

  /** The loop of deleteStaleConfigMap; it ends at the first failure. */
  function DeleteEach(w: World, ns: Id, items: seq<Item>, desired: Id, uid: Id): Call<()>
    decreases |items|
  {
    if items == [] then Call(w, Ok(()))
    else if !IsStale(items[0], desired, uid) then DeleteEach(w, ns, items[1..], desired, uid)
    else
      var deleted := DeleteConfigMap(w, NsName(ns, items[0].name));
      if deleted.r.Err? && deleted.r.error != NotFound then deleted
      else DeleteEach(deleted.w, ns, items[1..], desired, uid)
  }

  /** The run and the status that a reconcile of o computes. */
  function Computed(w: World, q: Job, o: BucketObject): BucketRun {
    var run := ReconcileBucket(w, q, o, Initialized(o.status));
    run.(status := Aggregated(run.status, o.generation))
  }

  datatype End = End(w: World, outcome: Outcome)

  function ReconcileObject(w: World, q: Job, o: BucketObject): End {
    var run := Computed(w, q, o);
    if run.status == o.status then End(run.w, run.outcome)
    else
      var patch := PatchStatus(run.w, q.n, o.version, run.status);
      End(patch.w,
          if patch.r == Err(Conflict) then Done
          else if patch.r.Err? && !run.outcome.Failed? then Failed(patch.r.error)
          else run.outcome)
  }

  function Reconcile(w: World, q: Job): End {
    var got := GetObject(w, q.n);
    match got.r
    case Err(e) => End(got.w, if e == NotFound then Done else Failed(e))
    case Ok(o) => ReconcileObject(got.w, q, o)
  }

  // ---------------------------------------------------------------- runs

  /** Something others do on their own, or one reconcile, whose calls end as the tape says. */
  datatype Event = Other(action: Action) | Work(q: Job, tape: seq<Fate>)

  function Next(c: Cluster, e: Event): Cluster {
    match e
    case Other(a) => Perform(c, a)
    case Work(q, tape) => Reconcile(World(c, tape, []), q).w.c
  }

  function Run(c: Cluster, events: seq<Event>): Cluster
    decreases |events|
  {
    if events == [] then c else Run(Next(c, events[0]), events[1..])
  }
}
