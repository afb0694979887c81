/** What a policy's status and the outcome of its reconcile say, by the answers that caused it. */
module PolicyCauses {
  import opened Common
  import opened Conditions
  import opened Permissions
  import opened PolicyWorld
  import opened PolicySpec
  import opened PolicyProofs
  import PolicyLabels

  // ---------------------------------------------------------------- the Ready condition

  lemma FirstOfThree(cs: seq<Condition>, a: CondType, b: CondType, c: CondType, waiting: Reason)
    ensures FirstFailure(cs, [a, b, c], waiting) ==
            if Holds(cs, a, False) then Find(cs, a).value.reason
            else if Holds(cs, b, False) then Find(cs, b).value.reason
            else if Holds(cs, c, False) then Find(cs, c).value.reason
            else waiting
  {
    hide Find;
    assert [a, b, c][1..] == [b, c];
    FirstOfTwo(cs, b, c, waiting);
  }

  /** The three conditions, in the order in which they are reported. */
  function Three(s: PolicyStatus): (Option<Condition>, Option<Condition>, Option<Condition>) {
    (Find(s.conditions, PolicyBucketReady), Find(s.conditions, PolicyAccessKeyReady), Find(s.conditions, PolicyReady))
  }

  /** What Ready says about a bucket, a key and an assignment. */
  predicate ReportsBucketFirst(s: PolicyStatus, generation: int) {
    var (bucket, key, policy) := Three(s);
    && bucket.Some? && key.Some? && policy.Some?
    && var ready := Find(s.conditions, Ready);
    && (bucket.value.status == False ==> ready == Some(Condition(Ready, False, bucket.value.reason, generation)))
    && (bucket.value.status != False && key.value.status == False ==> ready == Some(Condition(Ready, False, key.value.reason, generation)))
    && (bucket.value.status != False && key.value.status != False && policy.value.status == False ==>
          ready == Some(Condition(Ready, False, policy.value.reason, generation)))
    && (bucket.value.status == key.value.status == policy.value.status == True ==> ready == Some(Condition(Ready, True, Available, generation)))
    && (bucket.value.status != False && key.value.status != False && policy.value.status != False
        && !(bucket.value.status == key.value.status == policy.value.status == True) ==>
          ready == Some(Condition(Ready, False, DependenciesNotReady, generation)))
  }

  lemma VerdictOfThree(cs: seq<Condition>, generation: int)
    requires Find(cs, PolicyBucketReady).Some? && Find(cs, PolicyAccessKeyReady).Some? && Find(cs, PolicyReady).Some?
    ensures var bucket, key, policy := Find(cs, PolicyBucketReady).value, Find(cs, PolicyAccessKeyReady).value, Find(cs, PolicyReady).value;
            Verdict(cs, POLICY_ORDER, DependenciesNotReady, generation) ==
            if bucket.status == key.status == policy.status == True then Condition(Ready, True, Available, generation)
            else Condition(Ready, False,
                           if bucket.status == False then bucket.reason else if key.status == False then key.reason
                           else if policy.status == False then policy.reason else DependenciesNotReady, generation)
  {
    hide Find, FirstFailure;
    FirstOfThree(cs, PolicyBucketReady, PolicyAccessKeyReady, PolicyReady, DependenciesNotReady);
    assert PolicyBucketReady in POLICY_ORDER && PolicyAccessKeyReady in POLICY_ORDER && PolicyReady in POLICY_ORDER;
    assert forall t | t in POLICY_ORDER :: t == PolicyBucketReady || t == PolicyAccessKeyReady || t == PolicyReady;
  }

  lemma AggregatedVerdict(s: PolicyStatus, generation: int)
    requires var (bucket, key, policy) := Three(s); bucket.Some? && key.Some? && policy.Some?
    ensures var r := Aggregated(s, generation);
            && ReportsBucketFirst(r, generation) && Three(r) == Three(s) && StatusPair(r) == StatusPair(s)
            && r.observedGeneration == (if Holds(r.conditions, Ready, True) then generation else s.observedGeneration)
  {
    hide Find, Verdict, FirstFailure;
    VerdictOfThree(s.conditions, generation);
  }

  // ---------------------------------------------------------------- the two dependencies

  /** A condition as a reconcile finds it; a missing one starts as Unknown. */
  function Before(s: PolicyStatus, t: CondType): Option<Condition> {
    if Find(s.conditions, t).Some? then Find(s.conditions, t) else Some(Condition(t, Unknown, Pending, 0))
  }

  lemma InitializedThree(s: PolicyStatus)
    ensures Three(Initialized(s)) == (Before(s, PolicyBucketReady), Before(s, PolicyAccessKeyReady), Before(s, PolicyReady))
    ensures Initialized(s).observedGeneration == s.observedGeneration && StatusPair(Initialized(s)) == StatusPair(s)
  {
    hide Find, InitAll;
    assert PolicyBucketReady in POLICY_CONDITIONS && PolicyAccessKeyReady in POLICY_CONDITIONS && PolicyReady in POLICY_CONDITIONS;
  }

  /** The answer about the bucket, and the world in which it has been dealt with. */
  function BucketAnswer(w: World, n: NsName, p: Policy): Call<Dependency> {
    GetBucket(w, n, NsName(n.ns, p.bucket))
  }

  function AfterBucket(w: World, n: NsName, p: Policy): World {
    var got := BucketAnswer(w, n, p);
    if got.r == Err(NotFound) && p.status.bucketID != NONE
    then SetCall(got.w, Pair(p.status.accessKeyID, p.status.bucketID), NOTHING).w else got.w
  }

  /** The same for the key, whatever the answer about the bucket was. */
  function KeyAnswer(w: World, n: NsName, p: Policy): Call<Dependency> {
    GetKey(AfterBucket(w, n, p), NsName(n.ns, p.key))
  }

  function AfterKey(w: World, n: NsName, p: Policy): World {
    var got := KeyAnswer(w, n, p);
    if got.r == Err(NotFound) && p.status.accessKeyID != NONE
    then SetCall(got.w, Pair(p.status.accessKeyID, Noted(BucketAnswer(w, n, p).r, p.status.bucketID)), NOTHING).w else got.w
  }

  /** The ID that is noted: the one that was read, none if the resource is gone, otherwise the old one. */
  function Noted(answer: Result<Dependency>, before: Id): Id {
    match answer
    case Ok(d) => d.id
    case Err(e) => if e == NotFound then NONE else before
  }

  /** What an answer says in the condition that reports it; a failure other than not found says nothing new. */
  function Reported(answer: Result<Dependency>, t: CondType, missing: Reason, generation: int, before: Option<Condition>): Option<Condition> {
    match answer
    case Ok(d) => Some(if d.ready then Condition(t, True, Met, generation) else Condition(t, False, DependenciesNotReady, generation))
    case Err(e) => if e == NotFound then Some(Condition(t, False, missing, generation)) else before
  }

  /** Why an answer keeps the permissions from being assigned, if it does. */
  function Trouble(answer: Result<Dependency>): Option<Error> {
    match answer
    case Ok(d) => if d.ready then None else Some(DependencyNotReady)
    case Err(e) => Some(e)
  }

  lemma JudgeByCause(call: Call<Dependency>, found: PolicyStatus, s: PolicyStatus, t: CondType, missing: Reason, generation: int)
    requires found.conditions == s.conditions && found.observedGeneration == s.observedGeneration
    ensures var check := Judge(call, found, s, t, missing, generation);
            && check.w == call.w && StatusPair(check.status) == (if call.r.Ok? then StatusPair(found) else StatusPair(s))
            && Find(check.status.conditions, t) == Reported(call.r, t, missing, generation, Find(s.conditions, t))
            && (forall u | u != t :: Find(check.status.conditions, u) == Find(s.conditions, u))
            && check.status.observedGeneration == s.observedGeneration
            && check.r == (if Trouble(call.r).Some? then Err(Trouble(call.r).value) else call.r)
  {
    hide Find, Marked;
    MarkedFinds(s, t, False, missing, generation);
    MarkedFinds(found, t, False, DependenciesNotReady, generation);
    MarkedFinds(found, t, True, Met, generation);
  }

  lemma MarkedFinds(s: PolicyStatus, t: CondType, status: CondStatus, reason: Reason, generation: int)
    ensures var r := Marked(s, t, status, reason, generation);
            && StatusPair(r) == StatusPair(s) && r.observedGeneration == s.observedGeneration
            && Find(r.conditions, t) == Some(Condition(t, status, reason, generation))
            && (forall u | u != t :: Find(r.conditions, u) == Find(s.conditions, u))
  {
    hide Find, SetCondition;
  }

  lemma BucketByCause(w: World, n: NsName, p: Policy, s: PolicyStatus)
    requires StatusPair(s) == StatusPair(p.status)
    ensures var stage := BucketStage(w, n, p, s);
            var answer := BucketAnswer(w, n, p).r;
            && stage.w == AfterBucket(w, n, p)
            && StatusPair(stage.status) == Pair(p.status.accessKeyID, Noted(answer, p.status.bucketID))
            && Find(stage.status.conditions, PolicyBucketReady)
               == Reported(answer, PolicyBucketReady, BucketMissing, p.generation, Find(s.conditions, PolicyBucketReady))
            && (forall t | t != PolicyBucketReady :: Find(stage.status.conditions, t) == Find(s.conditions, t))
            && stage.status.observedGeneration == s.observedGeneration
            && stage.r == (if Trouble(answer).Some? then Err(Trouble(answer).value) else answer)
  {
    hide Find, Judge, SetCall, GetBucket, Reported;
    var got := BucketAnswer(w, n, p);
    JudgeByCause(got, if got.r.Ok? then s.(bucketID := got.r.value.id) else s, s, PolicyBucketReady, BucketMissing, p.generation);
  }

  lemma KeyByCause(w: World, n: NsName, p: Policy, s: PolicyStatus)
    requires StatusPair(s) == Pair(p.status.accessKeyID, Noted(BucketAnswer(w, n, p).r, p.status.bucketID))
    ensures var stage := KeyStage(AfterBucket(w, n, p), n, p, s);
            var answer := KeyAnswer(w, n, p).r;
            && stage.w == AfterKey(w, n, p)
            && StatusPair(stage.status) == Pair(Noted(answer, p.status.accessKeyID), s.bucketID)
            && Find(stage.status.conditions, PolicyAccessKeyReady)
               == Reported(answer, PolicyAccessKeyReady, AccessKeyMissing, p.generation, Find(s.conditions, PolicyAccessKeyReady))
            && (forall t | t != PolicyAccessKeyReady :: Find(stage.status.conditions, t) == Find(s.conditions, t))
            && stage.status.observedGeneration == s.observedGeneration
            && stage.r == (if Trouble(answer).Some? then Err(Trouble(answer).value) else answer)
  {
    hide Find, Judge, SetCall, GetKey, Reported, AfterBucket, BucketAnswer, Noted;
    var got := KeyAnswer(w, n, p);
    JudgeByCause(got, if got.r.Ok? then s.(accessKeyID := got.r.value.id) else s, s, PolicyAccessKeyReady, AccessKeyMissing, p.generation);
    NotedMeaning(got.r, p.status.accessKeyID);
  }

  lemma NotedMeaning(answer: Result<Dependency>, before: Id)
    ensures Noted(answer, before) == if answer.Ok? then answer.value.id else if answer.error == NotFound then NONE else before
  {
  }

  // ---------------------------------------------------------------- the assignment

  /** The permissions are assigned exactly when both dependencies are ready. */
  predicate BothReady(w: World, n: NsName, p: Policy) {
    Trouble(BucketAnswer(w, n, p).r).None? && Trouble(KeyAnswer(w, n, p).r).None?
  }

  function Assignment(w: World, n: NsName, p: Policy): Admin
    requires BothReady(w, n, p)
  {
    SetCall(AfterKey(w, n, p), Pair(KeyAnswer(w, n, p).r.value.id, BucketAnswer(w, n, p).r.value.id), p.permissions)
  }

  function Errors(first: Option<Error>, second: Option<Error>): seq<Error> {
    (if first.Some? then [first.value] else []) + (if second.Some? then [second.value] else [])
  }

  /** The calls of a run, and the errors it collects. */
  lemma CallsByCause(w: World, n: NsName, p: Policy)
    ensures var run := Computed(w, n, p);
            var both := BothReady(w, n, p);
            && run.w == (if both then Assignment(w, n, p).w else AfterKey(w, n, p))
            && run.errors == (if !both then Errors(Trouble(BucketAnswer(w, n, p).r), Trouble(KeyAnswer(w, n, p).r))
                              else if Assignment(w, n, p).error.Some? then [ExternalFailure] else [])
  {
    hide Initialized, Aggregated, Marked, Find, SetCall, BucketStage, KeyStage, BucketAnswer, KeyAnswer, AfterBucket, AfterKey, Noted, Reported;
    InitializedThree(p.status);
    var bucket := BucketStage(w, n, p, Initialized(p.status));
    BucketByCause(w, n, p, Initialized(p.status));
    KeyByCause(w, n, p, bucket.status);
  }

  /**
   What a run computes. Both dependencies are looked at, whatever the first answer was, and each answer is
   reported in its own condition: a resource that is gone is missing, one that is not ready is waited for, and
   any other failure says nothing new. The assignment is reported only if it was attempted. The noted IDs
   follow the answers, and Ready reports the bucket before the key, and that before the assignment.
   */
  lemma StatusByCause(w: World, n: NsName, p: Policy)
    ensures var s := Computed(w, n, p).status;
            var bucket, key := BucketAnswer(w, n, p).r, KeyAnswer(w, n, p).r;
            && Find(s.conditions, PolicyBucketReady)
               == Reported(bucket, PolicyBucketReady, BucketMissing, p.generation, Before(p.status, PolicyBucketReady))
            && Find(s.conditions, PolicyAccessKeyReady)
               == Reported(key, PolicyAccessKeyReady, AccessKeyMissing, p.generation, Before(p.status, PolicyAccessKeyReady))
            && Find(s.conditions, PolicyReady)
               == (if !BothReady(w, n, p) then Before(p.status, PolicyReady)
                   else if Assignment(w, n, p).error.Some? then Some(Condition(PolicyReady, False, PolicyAssignmentFailed, p.generation))
                   else Some(Condition(PolicyReady, True, Met, p.generation)))
            && s.bucketID == Noted(bucket, p.status.bucketID) && s.accessKeyID == Noted(key, p.status.accessKeyID)
            && ReportsBucketFirst(s, p.generation)
            && s.observedGeneration == (if Holds(s.conditions, Ready, True) then p.generation else p.status.observedGeneration)
  {
    hide Initialized, Aggregated, Find, SetCondition, SetCall, BucketStage, KeyStage, BucketAnswer, KeyAnswer, AfterBucket, AfterKey, Noted,
      Reported, ReportsBucketFirst;
    InitializedThree(p.status);
    var bucket := BucketStage(w, n, p, Initialized(p.status));
    BucketByCause(w, n, p, Initialized(p.status));
    KeyByCause(w, n, p, bucket.status);
    AnswersAreReported(BucketAnswer(w, n, p).r, PolicyBucketReady, BucketMissing, p.generation, Before(p.status, PolicyBucketReady));
    AnswersAreReported(KeyAnswer(w, n, p).r, PolicyAccessKeyReady, AccessKeyMissing, p.generation, Before(p.status, PolicyAccessKeyReady));
    AggregatedVerdict(ReconcilePolicy(w, n, p, Initialized(p.status)).status, p.generation);
  }

  lemma AnswersAreReported(answer: Result<Dependency>, t: CondType, missing: Reason, generation: int, before: Option<Condition>)
    requires before.Some?
    ensures Reported(answer, t, missing, generation, before).Some?
  {
  }

  // ---------------------------------------------------------------- the outcome

  /** Garage and the network answer without a status of the API server; so does a dependency that is not ready. */
  predicate NoApiStatus(trouble: Option<Error>) {
    trouble in {None, Some(Transient), Some(DependencyNotReady), Some(ExternalFailure)}
  }

  /** The first answer of the API server that is an error says that something is gone. */
  predicate SaysGone(first: Option<Error>, second: Option<Error>) {
    first == Some(NotFound) || (NoApiStatus(first) && second == Some(NotFound))
  }

  lemma ClassifiedByCause(first: Option<Error>, second: Option<Error>)
    ensures var r := Classified(Errors(first, second));
            && (SaysGone(first, second) ==> r == RequeueAfter(15))
            && (!SaysGone(first, second) && Some(DependencyNotReady) in {first, second} ==> r == RequeueAfter(10))
            && (!SaysGone(first, second) && Some(DependencyNotReady) !in {first, second} ==>
                  r == if first.Some? then Failed(first.value) else if second.Some? then Failed(second.value) else Done)
    ensures Classified([ExternalFailure]) == Failed(ExternalFailure) && Classified([]) == Done
  {
    hide IsNotFound;
    IsNotFoundOne(ExternalFailure);
    if first.Some? {
      IsNotFoundOne(first.value);
      if second.Some? {
        IsNotFoundTwo(first.value, second.value);
        assert Errors(first, second) == [first.value, second.value];
      } else {
        assert Errors(first, second) == [first.value];
      }
    } else if second.Some? {
      IsNotFoundOne(second.value);
      assert Errors(first, second) == [second.value];
    }
  }

  lemma IsNotFoundOne(e: Error)
    ensures IsNotFound([e]) <==> e == NotFound
  {
    assert [e][1..] == [];
  }

  lemma IsNotFoundTwo(e: Error, f: Error)
    ensures IsNotFound([e, f]) <==> e == NotFound || (NoApiStatus(Some(e)) && f == NotFound)
  {
    assert [e, f][1..] == [f];
    IsNotFoundOne(f);
  }

  /** What a run amounts to before its status is written. */
  ghost predicate AmountsTo(w: World, n: NsName, p: Policy, outcome: Outcome) {
    var bucket, key := Trouble(BucketAnswer(w, n, p).r), Trouble(KeyAnswer(w, n, p).r);
    if BothReady(w, n, p) then outcome == if Assignment(w, n, p).error.Some? then Failed(ExternalFailure) else Done
    else if SaysGone(bucket, key) then outcome == RequeueAfter(15)
    else if Some(DependencyNotReady) in {bucket, key} then outcome == RequeueAfter(10)
    else outcome == Failed(if bucket.Some? then bucket.value else key.value)
  }

  /**
   The outcome of a reconcile. Something that is gone is looked for again after 15 seconds, something that is
   not ready after 10, other errors fail, and only an assignment that succeeded is done. A status write that
   meets a conflict is done in any case; one that fails otherwise fails a run that would not have failed.
   */
  lemma OutcomeByCause(w: World, n: NsName, p: Policy) returns (plain: Outcome)
    ensures AmountsTo(w, n, p, plain)
    ensures var run := Computed(w, n, p);
            var end := ReconcileLive(w, n, p);
            var patch := PatchStatus(run.w, n, p.version, run.status);
            && (run.status == p.status ==> end == End(run.w, plain))
            && (run.status != p.status ==>
                  && end.w == patch.w
                  && (patch.r.Ok? ==> end.outcome == plain)
                  && (patch.r == Err(Conflict) ==> end.outcome == Done)
                  && (patch.r.Err? && patch.r.error != Conflict ==> end.outcome == if plain.Failed? then plain else Failed(patch.r.error)))
  {
    hide Computed, BucketAnswer, KeyAnswer, SetCall, PatchStatus, SaysGone, Classified, Trouble;
    CallsByCause(w, n, p);
    plain := Classified(Computed(w, n, p).errors);
    ClassifiedByCause(Trouble(BucketAnswer(w, n, p).r), Trouble(KeyAnswer(w, n, p).r));
  }

  /** How a reconcile begins: labels and finalizer first, and nothing else in that reconcile. */
  lemma BeginningByCause(w: World, n: NsName)
    ensures var got := GetPolicy(w, n);
            var end := Reconcile(w, n);
            && (got.r == Err(NotFound) ==> end == End(got.w, Done))
            && (got.r.Err? && got.r.error != NotFound ==> end == End(got.w, Failed(got.r.error)))
            && (got.r.Ok? ==>
                  && var p := got.r.value;
                  var u := UpdateMeta(got.w, n, p.version, EnsuredLabels(p.labels, p.key, p.bucket), true);
                  && (p.deleting && !p.finalizer ==> end == End(got.w, Done))
                  && (!p.deleting && p.finalizer && LabelsMatch(p) ==> end == ReconcileLive(got.w, n, p))
                  && (!p.deleting && !(p.finalizer && LabelsMatch(p)) ==>
                        end == End(u.w, if u.r.Ok? || u.r.error == Conflict then Done else Failed(u.r.error))))
  {
    hide GetPolicy, UpdateMeta, ReconcileLive, EnsuredLabels;
    if GetPolicy(w, n).r.Ok? {
      var p := GetPolicy(w, n).r.value;
      PolicyLabels.EnsuredLabelsMeaning(p.labels, p.key, p.bucket);
    }
  }

  // ---------------------------------------------------------------- the two requests of an assignment

  /** When nobody acts between its two requests, a call sets the permissions as the client does. */
  lemma SetCallSetsPermissions(w: World, q: Pair, target: Permissions)
    requires |w.tape| >= 2 && w.tape[1].actions == []
    ensures var s := SetCall(w, q, target);
            var step := SetPermissions(Arrive(w).garage, Request(q, target, w.tape[0].admin, w.tape[1].admin));
            s.w.c == Arrive(w).(garage := step.g) && s.error == step.error
  {
    hide PerformAll, DenyBucketKey, AllowBucketKey;
    var denied := DenyCall(w, q, Complement(target));
    assert denied.w.tape[0] == w.tape[1];
    assert Arrive(denied.w) == denied.w.c by {
      NoActions(denied.w);
    }
  }

  lemma NoActions(w: World)
    requires w.tape != [] && w.tape[0].actions == []
    ensures Arrive(w) == w.c
  {
  }
}
