/** What a Bucket's status and the outcome of its reconcile say, by the answers that caused it. */
module BucketCauses {
  import opened Common
  import opened Conditions
  import opened Permissions
  import opened Quotas
  import opened BucketWorld
  import opened BucketSpec
  import Backoff

  ghost predicate IsMarked(s: BucketStatus, t: CondType, status: CondStatus, reason: Reason, generation: int) {
    Find(s.conditions, t) == Some(Condition(t, status, reason, generation))
  }

  // ---------------------------------------------------------------- the Ready condition

  /** A condition as a reconcile finds it; a missing one starts as Unknown. */
  function Before(s: BucketStatus, t: CondType): Option<Condition> {
    if Find(s.conditions, t).Some? then Find(s.conditions, t) else Some(Condition(t, Unknown, Pending, 0))
  }

  lemma InitializedMeaning(s: BucketStatus)
    ensures var r := Initialized(s);
            && Find(r.conditions, BucketReady) == Before(s, BucketReady) && Find(r.conditions, BucketConfigMapReady) == Before(s, BucketConfigMapReady)
            && r.observedGeneration == s.observedGeneration && r.bucketID == s.bucketID && r.bucketName == s.bucketName
  {
    hide Find, InitAll;
    assert BucketReady in BUCKET_CONDITIONS && BucketConfigMapReady in BUCKET_CONDITIONS;
  }

  lemma MarkedMeaning(s: BucketStatus, t: CondType, status: CondStatus, reason: Reason, generation: int)
    ensures var r := Marked(s, t, status, reason, generation);
            && IsMarked(r, t, status, reason, generation) && (forall u | u != t :: Find(r.conditions, u) == Find(s.conditions, u))
            && r.observedGeneration == s.observedGeneration && r.bucketID == s.bucketID && r.bucketName == s.bucketName
  {
    hide Find, SetCondition;
  }

  /** Ready reports the bucket before the ConfigMap. */
  ghost predicate ReportsBucketFirst(s: BucketStatus, generation: int) {
    var bucket, map_ := Find(s.conditions, BucketReady), Find(s.conditions, BucketConfigMapReady);
    && bucket.Some? && map_.Some?
    && (bucket.value.status == False ==> IsMarked(s, Ready, False, bucket.value.reason, generation))
    && (bucket.value.status != False && map_.value.status == False ==> IsMarked(s, Ready, False, map_.value.reason, generation))
    && (bucket.value.status == True && map_.value.status == True ==> IsMarked(s, Ready, True, Available, generation))
    && (bucket.value.status != False && map_.value.status != False && !(bucket.value.status == True && map_.value.status == True) ==>
          IsMarked(s, Ready, False, WaitingForBucket, generation))
  }

  lemma AggregatedReport(s: BucketStatus, generation: int)
    requires Find(s.conditions, BucketReady).Some? && Find(s.conditions, BucketConfigMapReady).Some?
    ensures var r := Aggregated(s, generation);
            && ReportsBucketFirst(r, generation)
            && Find(r.conditions, BucketReady) == Find(s.conditions, BucketReady)
            && Find(r.conditions, BucketConfigMapReady) == Find(s.conditions, BucketConfigMapReady)
            && r.bucketID == s.bucketID && r.bucketName == s.bucketName
            && r.observedGeneration == (if Holds(r.conditions, Ready, True) then generation else s.observedGeneration)
  {
    hide Find, SetCondition, Verdict, FirstFailure;
    VerdictOfTwo(s.conditions, BucketReady, BucketConfigMapReady, WaitingForBucket, generation);
  }

  // ---------------------------------------------------------------- the bucket

  /** The calls that resolve the bucket have succeeded: b is the bucket of the alias, found, created or imported by its owner. */
  ghost predicate Gets(w: World, q: Job, o: BucketObject, v: World, b: S3Bucket) {
    match o.spec.source
    case New(name) =>
      var got := GarageGet(w, Suffixed(name, o.uid));
      got == Call(v, Ok(b)) || (got.r == Err(NotFound) && GarageCreate(got.w, Suffixed(name, o.uid)) == Call(v, Ok(b)))
    case Existing(alias, secret) =>
      var key := GetSecret(w, NsName(q.n.ns, secret));
      var got := GarageGet(key.w, alias);
      && key.r.Ok? && got.r == Ok(b)
      && var held := ReadPermissions(got.w, Pair(key.r.value, b.id));
      held.r.Ok? && held.r.value.owner && v == held.w
  }

  /** One of them has failed with e, which is reported under this reason. */
  ghost predicate FailsToGet(w: World, q: Job, o: BucketObject, v: World, reason: Reason, e: Error) {
    match o.spec.source
    case New(name) =>
      var got := GarageGet(w, Suffixed(name, o.uid));
      || (e != NotFound && got == Call(v, Err(e)) && reason == UnknownState)
      || (got.r == Err(NotFound) && GarageCreate(got.w, Suffixed(name, o.uid)) == Call(v, Err(e)) && reason == CreateFailed)
    case Existing(alias, secret) =>
      var key := GetSecret(w, NsName(q.n.ns, secret));
      var got := GarageGet(key.w, alias);
      || (key == Call(v, Err(e)) && reason == (if e == Forbidden then SecretAccessForbidden else OwnerKeySecretNotFound))
      || (key.r.Ok? && got == Call(v, Err(e)) && reason == BucketNotFound)
      || (key.r.Ok? && got.r.Ok?
          && var held := ReadPermissions(got.w, Pair(key.r.value, got.r.value.id));
          && v == held.w && reason == OwnershipVerificationFailed
          && (held.r == Err(e) || (held.r.Ok? && !held.r.value.owner && e == ExternalFailure)))
  }

  lemma ResolveByCause(w: World, q: Job, o: BucketObject)
    ensures var resolved := Resolve(w, q, o);
            if resolved.r.Ok? then Gets(w, q, o, resolved.w, resolved.r.value)
            else FailsToGet(w, q, o, resolved.w, resolved.reason, resolved.r.error)
  {
    hide GetSecret, GarageGet, GarageCreate, ReadPermissions;
  }

  lemma GetsIsResolve(w: World, q: Job, o: BucketObject, v: World, b: S3Bucket)
    requires Gets(w, q, o, v, b)
    ensures Resolve(w, q, o).w == v && Resolve(w, q, o).r == Ok(b)
  {
    hide GetSecret, GarageGet, GarageCreate, ReadPermissions;
  }

  lemma FailsIsResolve(w: World, q: Job, o: BucketObject, v: World, reason: Reason, e: Error)
    requires FailsToGet(w, q, o, v, reason, e)
    ensures Resolve(w, q, o) == Resolved(v, Err(e), reason)
  {
    hide GetSecret, GarageGet, GarageCreate, ReadPermissions;
  }

  /** What a run reports as Ready, and the generation that it observes. */
  lemma ReadyReportsBucketFirst(w: World, q: Job, o: BucketObject)
    ensures var s := Computed(w, q, o).status;
            && ReportsBucketFirst(s, o.generation)
            && s.observedGeneration == (if Holds(s.conditions, Ready, True) then o.generation else o.status.observedGeneration)
  {
    hide Aggregated, Marked, Initialized, Resolve, Find, GarageUpdate, EnsureConfigMap, DeleteStaleConfigMaps, ReportsBucketFirst, ResolveFailure, Differs;
    InitializedMeaning(o.status);
    var run := ReconcileBucket(w, q, o, Initialized(o.status));
    HasBoth(w, q, o, Initialized(o.status));
    AggregatedReport(run.status, o.generation);
  }

  lemma HasBoth(w: World, q: Job, o: BucketObject, s: BucketStatus)
    requires Find(s.conditions, BucketReady).Some? && Find(s.conditions, BucketConfigMapReady).Some?
    ensures var r := ReconcileBucket(w, q, o, s).status;
            Find(r.conditions, BucketReady).Some? && Find(r.conditions, BucketConfigMapReady).Some? && r.observedGeneration == s.observedGeneration
  {
    hide SetCondition, Resolve, Find, GarageUpdate, EnsureConfigMap, DeleteStaleConfigMaps, ResolveFailure, Differs;
  }

  /** The status of a run that ends with the first of two verdicts. */
  lemma Reports(s: BucketStatus, t: CondType, status: CondStatus, reason: Reason, generation: int)
    requires t != Ready && Find(s.conditions, BucketReady).Some? && Find(s.conditions, BucketConfigMapReady).Some?
    ensures var r := Aggregated(Marked(s, t, status, reason, generation), generation);
            && IsMarked(r, t, status, reason, generation)
            && (t != BucketReady ==> Find(r.conditions, BucketReady) == Find(s.conditions, BucketReady))
            && (t != BucketConfigMapReady ==> Find(r.conditions, BucketConfigMapReady) == Find(s.conditions, BucketConfigMapReady))
            && r.bucketID == s.bucketID && r.bucketName == s.bucketName
  {
    hide Aggregated, Marked, Find;
    MarkedMeaning(s, t, status, reason, generation);
    OnlyTwo(Marked(s, t, status, reason, generation), generation, t);
  }

  lemma OnlyTwo(s: BucketStatus, generation: int, t: CondType)
    requires t != Ready && Find(s.conditions, BucketReady).Some? && Find(s.conditions, BucketConfigMapReady).Some?
    ensures var r := Aggregated(s, generation);
            && Find(r.conditions, t) == Find(s.conditions, t) && Find(r.conditions, BucketReady) == Find(s.conditions, BucketReady)
            && Find(r.conditions, BucketConfigMapReady) == Find(s.conditions, BucketConfigMapReady)
            && r.bucketID == s.bucketID && r.bucketName == s.bucketName
  {
    hide Find, Verdict, SetCondition;
    VerdictIsReady(s.conditions, generation);
  }

  lemma VerdictIsReady(cs: seq<Condition>, generation: int)
    ensures Verdict(cs, BUCKET_ORDER, WaitingForBucket, generation).kind == Ready
  {
    hide Find, FirstFailure;
  }

  /**
   A bucket that cannot be resolved is reported under the reason of the call that failed, and nothing else
   is done or recorded. The error of a new bucket is returned; that of an import is not.
   */
  lemma ResolveFailureByCause(w: World, q: Job, o: BucketObject, v: World, reason: Reason, e: Error)
    requires FailsToGet(w, q, o, v, reason, e)
    ensures var run := Computed(w, q, o);
            && run.w == v && IsMarked(run.status, BucketReady, False, reason, o.generation)
            && Find(run.status.conditions, BucketConfigMapReady) == Before(o.status, BucketConfigMapReady)
            && run.status.bucketID == o.status.bucketID && run.status.bucketName == o.status.bucketName
            && (o.spec.source.New? ==> run.outcome == Failed(e))
            && (o.spec.source.Existing? ==> run.outcome.RequeueAfter?)
  {
    hide Aggregated, Marked, Initialized, Resolve, Find, FailsToGet, Backoff.OwnerSecretBackoff;
    FailsIsResolve(w, q, o, v, reason, e);
    InitializedMeaning(o.status);
    Reports(Initialized(o.status), BucketReady, False, reason, o.generation);
  }

  /**
   The delay after a failed import: 5 seconds doubled n times but at most 15 minutes, n being the number of
   such waits that fit into the age of the Bucket.
   */
  lemma ImportDelayByAge(w: World, q: Job, o: BucketObject, v: World, reason: Reason, e: Error, n: nat)
    requires o.spec.source.Existing? && FailsToGet(w, q, o, v, reason, e)
    requires Backoff.InBracket(if q.age < 0 then 0 else q.age, 5_000_000_000, n)
    ensures Computed(w, q, o).outcome == RequeueAfter(Backoff.Min(Backoff.Doubled(5_000_000_000, n), 900_000_000_000))
  {
    hide Aggregated, Marked, Initialized, Resolve, Find, FailsToGet, Backoff.OwnerSecretBackoff, Backoff.Doubled;
    FailsIsResolve(w, q, o, v, reason, e);
    Backoff.ControllerConstantsNeverOverflow(q.age);
    Backoff.IntervalInBracket(if q.age < 0 then 0 else q.age, 5_000_000_000, 900_000_000_000, n);
  }

  // ---------------------------------------------------------------- the quotas

  /** The alias that the status names once the bucket is resolved: the one recorded before, or else the one asked for. */
  function NotedName(o: BucketObject): Alias {
    if o.status.bucketName.Some? then o.status.bucketName.value
    else
      match o.spec.source
      case New(name) => Suffixed(name, o.uid)
      case Existing(alias, _) => alias
  }

  /** ID and alias of b are recorded, unless others were recorded before. */
  ghost predicate Noted(o: BucketObject, s: BucketStatus, b: S3Bucket) {
    s.bucketID == (if o.status.bucketID == NONE then b.id else o.status.bucketID) && s.bucketName == Some(NotedName(o))
  }

  lemma RecordedIsNoted(o: BucketObject, b: S3Bucket)
    ensures var s := Recorded(Initialized(o.status), b.id, AliasOf(o));
            && Noted(o, s, b) && Find(s.conditions, BucketReady) == Before(o.status, BucketReady)
            && Find(s.conditions, BucketConfigMapReady) == Before(o.status, BucketConfigMapReady)
  {
    hide Initialized, Find;
    InitializedMeaning(o.status);
  }

  /** The quotas of b are the asked ones, or a request to set them was answered; v is the world after that. */
  ghost predicate QuotasSet(w: World, o: BucketObject, b: S3Bucket, v: World) {
    if b.quotas == o.spec.quotas then v == w else GarageUpdate(w, b.id, o.spec.quotas).r.Ok? && v == GarageUpdate(w, b.id, o.spec.quotas).w
  }

  /** Quotas that cannot be set end the run with that error. */
  lemma QuotaFailureByCause(w: World, q: Job, o: BucketObject, v: World, b: S3Bucket, e: Error)
    requires Gets(w, q, o, v, b) && b.quotas != o.spec.quotas && GarageUpdate(v, b.id, o.spec.quotas).r == Err(e)
    ensures var run := Computed(w, q, o);
            && run.w == GarageUpdate(v, b.id, o.spec.quotas).w && run.outcome == Failed(e) && Noted(o, run.status, b)
            && IsMarked(run.status, BucketReady, False, UpdateFailed, o.generation)
            && Find(run.status.conditions, BucketConfigMapReady) == Before(o.status, BucketConfigMapReady)
  {
    hide Aggregated, Marked, Initialized, Recorded, Resolve, Find, Gets, GarageUpdate, ConfigMapStage;
    GetsIsResolve(w, q, o, v, b);
    RecordedIsNoted(o, b);
    Reports(Recorded(Initialized(o.status), b.id, AliasOf(o)), BucketReady, False, UpdateFailed, o.generation);
  }

  // ---------------------------------------------------------------- the ConfigMap

  /** How publishing a ConfigMap can go: a read fails, somebody else has the name, nothing is to do, or a write is sent. */
  datatype Publication =
    | ReadFailed(w: World, error: Error)
    | Taken(w: World)
    | Unchanged(w: World)
    | Sent(call: Call<()>)

  /** s is the name that a Bucket called n asks for: spec.configMapName, or its own. */
  predicate AsksFor(n: NsName, o: BucketObject, s: NsName) {
    && (o.spec.configMapName != NONE ==> s == NsName(n.ns, o.spec.configMapName))
    && (o.spec.configMapName == NONE ==> s == n)
  }

  /** How publishing cm as s goes, by what the read answers. */
  ghost predicate Publishes(v: World, s: NsName, cm: ConfigMap, uid: Id, p: Publication) {
    var got := GetConfigMap(v, s);
    match p
    case ReadFailed(u, e) => e != NotFound && got == Call(u, Err(e))
    case Taken(u) => got.r.Ok? && got.r.value.controller != Some(uid) && u == got.w
    case Unchanged(u) => got.r == Ok(cm) && cm.controller == Some(uid) && u == got.w
    case Sent(call) =>
      || (got.r == Err(NotFound) && call == CreateConfigMap(got.w, s, cm))
      || (got.r.Ok? && got.r.value.controller == Some(uid) && got.r.value != cm && call == UpdateConfigMap(got.w, s, got.r.value, cm))
  }

  function After(p: Publication): World {
    match p
    case ReadFailed(u, _) => u
    case Taken(u) => u
    case Unchanged(u) => u
    case Sent(call) => call.w
  }

  function ErrorOf(p: Publication): Option<Error> {
    match p
    case ReadFailed(_, e) => Some(e)
    case Taken(_) => Some(NameConflict)
    case Unchanged(_) => None
    case Sent(call) => if call.r.Err? then Some(call.r.error) else None
  }

  lemma EnsurePublishes(v: World, q: Job, o: BucketObject, st: BucketStatus, s: NsName, p: Publication)
    requires AsksFor(q.n, o, s) && Publishes(v, s, ConfigMap(Some(o.uid), q.n.name, st.bucketName, q.endpoint), o.uid, p)
    ensures var e := EnsureConfigMap(v, q, o, st);
            e.w == After(p) && ErrorOf(p) == if e.r.Err? then Some(e.r.error) else None
  {
    hide GetConfigMap, CreateConfigMap, UpdateConfigMap;
  }

  /** The run past its quotas. */
  lemma RunWithBucket(w: World, q: Job, o: BucketObject, v: World, b: S3Bucket, u: World)
    requires Gets(w, q, o, v, b) && QuotasSet(v, o, b, u)
    ensures var st := Marked(Recorded(Initialized(o.status), b.id, AliasOf(o)), BucketReady, True, Met, o.generation);
            var run := ConfigMapStage(u, q, o, st);
            && Computed(w, q, o) == run.(status := Aggregated(run.status, o.generation))
            && IsMarked(st, BucketReady, True, Met, o.generation) && Find(st.conditions, BucketConfigMapReady).Some? && Noted(o, st, b)
  {
    hide Aggregated, Marked, Initialized, Recorded, Resolve, Find, Gets, GarageUpdate, ConfigMapStage;
    GetsIsResolve(w, q, o, v, b);
    RecordedIsNoted(o, b);
    MarkedMeaning(Recorded(Initialized(o.status), b.id, AliasOf(o)), BucketReady, True, Met, o.generation);
  }

  /** What the ConfigMap should hold. */
  function Asked(q: Job, o: BucketObject): ConfigMap {
    ConfigMap(Some(o.uid), q.n.name, Some(NotedName(o)), q.endpoint)
  }

  /**
   A ConfigMap that cannot be published is reported by the error that caused it. A foreign one is no error;
   access denied and everything else are errors under their own reasons.
   */
  lemma MapFailureByCause(w: World, q: Job, o: BucketObject, v: World, b: S3Bucket, u: World, s: NsName, p: Publication)
    requires Gets(w, q, o, v, b) && QuotasSet(v, o, b, u) && AsksFor(q.n, o, s) && Publishes(u, s, Asked(q, o), o.uid, p) && ErrorOf(p).Some?
    ensures var run := Computed(w, q, o);
            var e := ErrorOf(p).value;
            && run.w == After(p) && Noted(o, run.status, b) && IsMarked(run.status, BucketReady, True, Met, o.generation)
            && (e == NameConflict ==> run.outcome == Done && IsMarked(run.status, BucketConfigMapReady, False, ConfigMapNameConflict, o.generation))
            && (e == Forbidden ==>
                  run.outcome == Failed(Forbidden) && IsMarked(run.status, BucketConfigMapReady, False, ConfigMapAccessForbidden, o.generation))
            && (e != NameConflict && e != Forbidden ==>
                  run.outcome == Failed(e) && IsMarked(run.status, BucketConfigMapReady, False, ConfigMapCreateError, o.generation))
  {
    hide Computed, Aggregated, Marked, Initialized, Recorded, Find, Gets, QuotasSet, EnsureConfigMap, DeleteStaleConfigMaps, Publishes, AsksFor, NotedName;
    RunWithBucket(w, q, o, v, b, u);
    var st := Marked(Recorded(Initialized(o.status), b.id, AliasOf(o)), BucketReady, True, Met, o.generation);
    EnsurePublishes(u, q, o, st, s, p);
    Reports(st, BucketConfigMapReady, False, ConfigMapFailure(ErrorOf(p).value), o.generation);
  }

  /** Once it is published the stale ones are deleted; a failure to do so is returned, and the Bucket is Ready all the same. */
  lemma PublishedByCause(w: World, q: Job, o: BucketObject, v: World, b: S3Bucket, u: World, s: NsName, p: Publication)
    requires Gets(w, q, o, v, b) && QuotasSet(v, o, b, u) && AsksFor(q.n, o, s) && Publishes(u, s, Asked(q, o), o.uid, p) && ErrorOf(p).None?
    ensures var run := Computed(w, q, o);
            var cleaned := DeleteStaleConfigMaps(After(p), q.n, o);
            && run.w == cleaned.w && run.outcome == (if cleaned.r.Err? then Failed(cleaned.r.error) else Done) && Noted(o, run.status, b)
            && IsMarked(run.status, BucketReady, True, Met, o.generation) && IsMarked(run.status, BucketConfigMapReady, True, Met, o.generation)
  {
    hide Computed, Aggregated, Marked, Initialized, Recorded, Find, Gets, QuotasSet, EnsureConfigMap, DeleteStaleConfigMaps, Publishes, AsksFor, NotedName;
    RunWithBucket(w, q, o, v, b, u);
    var st := Marked(Recorded(Initialized(o.status), b.id, AliasOf(o)), BucketReady, True, Met, o.generation);
    EnsurePublishes(u, q, o, st, s, p);
    Reports(st, BucketConfigMapReady, True, Met, o.generation);
  }

  // ---------------------------------------------------------------- the outcome

  /**
   The outcome of the run is that of the reconcile when the status did not have to be written, or the write
   was answered. One that meets a conflict ends in Done; one that fails otherwise fails a run without error,
   also one that only asked for a delay.
   */
  lemma OutcomeByCause(w: World, q: Job, o: BucketObject)
    ensures var run := Computed(w, q, o);
            var end := ReconcileObject(w, q, o);
            var patch := PatchStatus(run.w, q.n, o.version, run.status);
            && (run.status == o.status ==> end == End(run.w, run.outcome))
            && (run.status != o.status ==>
                  && end.w == patch.w
                  && (patch.r.Ok? ==> end.outcome == run.outcome)
                  && (patch.r == Err(Conflict) ==> end.outcome == Done)
                  && (patch.r.Err? && patch.r.error != Conflict ==> end.outcome == if run.outcome.Failed? then run.outcome else Failed(patch.r.error)))
  {
    hide Computed, PatchStatus;
  }

  /**
   So a reconcile whose bucket cannot be resolved, and whose status write was answered or not needed, returns
   the error for a new bucket, and for an import asks to be run again after the delay of its age.
   */
  lemma UnresolvedOutcome(w: World, q: Job, o: BucketObject, v: World, reason: Reason, e: Error, n: nat)
    requires FailsToGet(w, q, o, v, reason, e) && Backoff.InBracket(if q.age < 0 then 0 else q.age, 5_000_000_000, n)
    requires var run := Computed(w, q, o); run.status == o.status || PatchStatus(run.w, q.n, o.version, run.status).r.Ok?
    ensures ReconcileObject(w, q, o).outcome ==
            if o.spec.source.New? then Failed(e) else RequeueAfter(Backoff.Min(Backoff.Doubled(5_000_000_000, n), 900_000_000_000))
  {
    hide Computed, PatchStatus, FailsToGet, Backoff.Doubled, ReconcileObject;
    OutcomeByCause(w, q, o);
    ResolveFailureByCause(w, q, o, v, reason, e);
    if o.spec.source.Existing? {
      ImportDelayByAge(w, q, o, v, reason, e, n);
    }
  }

  /** How a reconcile begins. */
  lemma BeginningByCause(w: World, q: Job)
    ensures var got := GetObject(w, q.n);
            var end := Reconcile(w, q);
            && (got.r == Err(NotFound) ==> end == End(got.w, Done))
            && (got.r.Err? && got.r.error != NotFound ==> end == End(got.w, Failed(got.r.error)))
            && (got.r.Ok? ==> end == ReconcileObject(got.w, q, got.r.value))
  {
    hide GetObject, ReconcileObject;
  }
}
