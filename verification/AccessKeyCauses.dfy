/** What an AccessKey's status and the outcome of its reconcile say, by the answers that caused it. */
module AccessKeyCauses {
  import opened Common
  import opened Conditions
  import opened AccessKeyWorld
  import opened AccessKeySpec
  import opened AccessKeyProofs
  import opened AccessKeyCreation

  // ---------------------------------------------------------------- the Ready condition

  /**
   Ready reports the key before the Secret: it carries the reason of AccessKeyReady if that is False, otherwise
   that of KeySecretReady if that is False. The generation counts as observed when Ready is True, or when
   a foreign Secret has the name.
   */
  lemma ReadyReportsKeyFirst(w: World, n: NsName, o: KeyObject)
    ensures var s := Computed(w, n, o).status;
            var key, secret := Find(s.conditions, AccessKeyReady), Find(s.conditions, KeySecretReady);
            && key.Some? && secret.Some?
            && (key.value.status == False ==> IsMarked(s, Ready, False, key.value.reason, o.generation))
            && (key.value.status != False && secret.value.status == False ==> IsMarked(s, Ready, False, secret.value.reason, o.generation))
            && (key.value.status == True && secret.value.status == True ==> IsMarked(s, Ready, True, Available, o.generation))
            && (key.value.status != False && secret.value.status != False && !(key.value.status == True && secret.value.status == True)
                ==> IsMarked(s, Ready, False, WaitingForResources, o.generation))
            && s.observedGeneration == (if Holds(s.conditions, Ready, True) || IsMarked(s, Ready, False, SecretNameConflict, o.generation)
                                        then o.generation else o.status.observedGeneration)
  {
    hide Initialized, Aggregated, Find, SetCondition, EnsureExternalKey, EnsureSecret, CleanupOldSecret;
    InitializedMeaning(o.status);
    InitializedRest(o.status);
    AggregatedMeaning(ReconcileAccessKey(w, n, o, Initialized(o.status)).status, o.generation);
  }

  lemma InitializedRest(s: KeyStatus)
    ensures Initialized(s).observedGeneration == s.observedGeneration
    ensures Initialized(s).accessKeyID == s.accessKeyID && Initialized(s).secretName == s.secretName
  {
    hide InitAll;
  }

  // ---------------------------------------------------------------- the key

  /** The condition as the reconcile found it; a missing one starts as Unknown. */
  function Before(o: KeyObject, t: CondType): Option<Condition> {
    if Find(o.status.conditions, t).Some? then Find(o.status.conditions, t) else Some(Condition(t, Unknown, Pending, 0))
  }

  /** This generation was observed with a key. */
  predicate HasObserved(o: KeyObject) {
    o.status.observedGeneration == o.generation && Holds(o.status.conditions, AccessKeyReady, True) && o.status.accessKeyID != NONE
  }

  lemma ShortcutIsObserved(o: KeyObject)
    ensures Shortcut(o, Initialized(o.status)) <==> HasObserved(o)
  {
    hide Find, InitAll;
    assert AccessKeyReady in KEY_CONDITIONS;
  }

  /** Garage gave the key k, as the answer to the first call or to a request to create one. */
  predicate Obtains(w: World, n: NsName, o: KeyObject, v: World, k: S3Key) {
    var first := FirstLook(w, n, o);
    first == Call(v, Ok(k)) || (first.r == Err(NotFound) && GarageCreate(first.w, ExtName(n, o.uid)) == Call(v, Ok(k)))
  }

  /** The last call about the key failed with e. */
  predicate FailsToObtain(w: World, n: NsName, o: KeyObject, v: World, e: Error) {
    var first := FirstLook(w, n, o);
    (e != NotFound && first == Call(v, Err(e))) || (first.r == Err(NotFound) && GarageCreate(first.w, ExtName(n, o.uid)) == Call(v, Err(e)))
  }

  /** Observed: nothing is called. */
  lemma ObservedCallsNothing(w: World, n: NsName, o: KeyObject)
    requires HasObserved(o)
    ensures var run := Computed(w, n, o);
            && run.w == w && run.error == None && run.status.accessKeyID == o.status.accessKeyID && run.status.secretName == o.status.secretName
            && Find(run.status.conditions, AccessKeyReady) == Find(o.status.conditions, AccessKeyReady)
            && Find(run.status.conditions, KeySecretReady) == Before(o, KeySecretReady)
  {
    hide Initialized, Aggregated, Find, Shortcut, FullPath;
    ShortcutIsObserved(o);
    BeforeIsInitialized(o);
    InitializedMeaning(o.status);
    InitializedRest(o.status);
    AggregatedMeaning(Initialized(o.status), o.generation);
  }

  lemma BeforeIsInitialized(o: KeyObject)
    ensures Find(Initialized(o.status).conditions, KeySecretReady) == Before(o, KeySecretReady)
  {
    hide Find, InitAll;
    assert KeySecretReady in KEY_CONDITIONS;
  }

  /** A call about the key that fails ends the reconcile: the key is reported as unknown, with that error. */
  lemma KeyFailureByCause(w: World, n: NsName, o: KeyObject, v: World, e: Error)
    requires !HasObserved(o) && FailsToObtain(w, n, o, v, e)
    ensures var run := Computed(w, n, o);
            && run.w == v && run.error == Some(e)
            && IsMarked(run.status, AccessKeyReady, False, AccessKeyUnknown, o.generation)
            && Find(run.status.conditions, KeySecretReady) == Before(o, KeySecretReady)
            && run.status.accessKeyID == o.status.accessKeyID && run.status.secretName == o.status.secretName
  {
    hide Initialized, Aggregated, Find, SetCondition, Shortcut, SecretStage, GarageGet, GarageLookup, GarageCreate, HasObserved;
    ShortcutIsObserved(o);
    BeforeIsInitialized(o);
    InitializedRest(o.status);
    AggregatedMeaning(Marked(Initialized(o.status), AccessKeyReady, False, AccessKeyUnknown, o.generation), o.generation);
  }

  // ---------------------------------------------------------------- the Secret

  /** How publishing a key can go: a read fails, somebody else has the name, nothing is to do, or a write is sent. */
  datatype Publication =
    | ReadFailed(w: World, error: Error)
    | Taken(w: World)
    | Unchanged(w: World)
    | Sent(call: Call<()>)

  /** How publishing the key k goes, by what the two reads of the Secret answer. */
  ghost predicate Publishes(v: World, n: NsName, o: KeyObject, k: S3Key, p: Publication) {
    var s := NsName(n.ns, o.secretName);
    var first := GetSecret(v, s);
    var second := GetSecret(first.w, s);
    var free := first.r == Err(NotFound) || (first.r.Ok? && first.r.value.controller == Some(o.uid));
    match p
    case ReadFailed(u, e) => e != NotFound && (first == Call(u, Err(e)) || (free && second == Call(u, Err(e))))
    case Taken(u) => first.r.Ok? && first.r.value.controller != Some(o.uid) && u == first.w
    case Unchanged(u) =>
      free && second.r.Ok? && second.r.value.accessKeyID == k.id && second.r.value.secretAccessKey == k.secret && u == second.w
    case Sent(call) =>
      || (free && second.r == Err(NotFound) && call == CreateSecret(second.w, s, Secret(Some(o.uid), k.id, k.secret)))
      || (free && second.r.Ok? && (second.r.value.accessKeyID != k.id || second.r.value.secretAccessKey != k.secret)
          && call == UpdateSecret(second.w, s, second.r.value, Secret(second.r.value.controller, k.id, k.secret)))
  }

  /** The world after it, and the error if it failed. */
  function After(p: Publication): World {
    match p
    case ReadFailed(u, _) => u
    case Taken(u) => u
    case Unchanged(u) => u
    case Sent(call) => call.w
  }

  function ErrorOf(p: Publication): Option<Error> {
    match p
    case ReadFailed(_, e) => Some(e)
    case Taken(_) => Some(NameConflict)
    case Unchanged(_) => None
    case Sent(call) => if call.r.Err? then Some(call.r.error) else None
  }

  lemma EnsureSecretPublishes(v: World, n: NsName, o: KeyObject, k: S3Key, p: Publication)
    requires Publishes(v, n, o, k, p)
    ensures var sec := EnsureSecret(v, n, o, k.id, k.secret);
            sec.w == After(p) && ErrorOf(p) == if sec.r.Err? then Some(sec.r.error) else None
  {
    hide GetSecret, CreateSecret, UpdateSecret;
    var s := NsName(n.ns, o.secretName);
    var second := GetSecret(GetSecret(v, s).w, s);
    if second.r.Ok? {
      var existing := second.r.value;
      assert existing.(accessKeyID := k.id, secretAccessKey := k.secret) == Secret(existing.controller, k.id, k.secret);
    }
  }

  /** One of the cases applies. */
  lemma SomePublication(v: World, n: NsName, o: KeyObject, k: S3Key) returns (p: Publication)
    ensures Publishes(v, n, o, k, p)
  {
    hide GetSecret, CreateSecret, UpdateSecret;
    var s := NsName(n.ns, o.secretName);
    var first := GetSecret(v, s);
    var second := GetSecret(first.w, s);
    if first.r.Err? && first.r.error != NotFound {
      p := ReadFailed(first.w, first.r.error);
    } else if first.r.Ok? && first.r.value.controller != Some(o.uid) {
      p := Taken(first.w);
    } else if second.r == Err(NotFound) {
      p := Sent(CreateSecret(second.w, s, Secret(Some(o.uid), k.id, k.secret)));
    } else if second.r.Err? {
      p := ReadFailed(second.w, second.r.error);
    } else if second.r.value.accessKeyID == k.id && second.r.value.secretAccessKey == k.secret {
      p := Unchanged(second.w);
    } else {
      p := Sent(UpdateSecret(second.w, s, second.r.value, Secret(second.r.value.controller, k.id, k.secret)));
    }
  }

  /** What is written down once Garage gave k: its ID, and that the key is there. */
  ghost predicate KeyRecorded(o: KeyObject, s: KeyStatus, k: S3Key) {
    s.accessKeyID == k.id && IsMarked(s, AccessKeyReady, True, Met, o.generation)
  }

  /** The Secret of another name that an earlier generation published. */
  predicate Renamed(o: KeyObject) {
    o.status.secretName != NONE && o.status.secretName != o.secretName
  }

  /** The run past the key, with its Secret published or not. */
  lemma RunWithKey(w: World, n: NsName, o: KeyObject, v: World, k: S3Key)
    requires !HasObserved(o) && Obtains(w, n, o, v, k)
    ensures var run := SecretStage(v, n, o, WithKey(o, k), k.secret);
            && Computed(w, n, o) == run.(status := Aggregated(run.status, o.generation))
            && WithKey(o, k).accessKeyID == k.id && WithKey(o, k).secretName == o.status.secretName
  {
    hide Initialized, Aggregated, SetCondition, Shortcut, SecretStage, GarageGet, GarageLookup, GarageCreate;
    ShortcutIsObserved(o);
    InitializedRest(o.status);
  }

  /** The status of a run with the key k and this verdict on the Secret. */
  lemma RecordedWithKey(o: KeyObject, k: S3Key, secretName: Id, status: CondStatus, reason: Reason)
    ensures var r := Aggregated(Marked(WithKey(o, k).(secretName := secretName), KeySecretReady, status, reason, o.generation), o.generation);
            KeyRecorded(o, r, k) && r.secretName == secretName && IsMarked(r, KeySecretReady, status, reason, o.generation)
  {
    hide Aggregated, SetCondition, Find, Initialized;
    AggregatedMeaning(Marked(WithKey(o, k).(secretName := secretName), KeySecretReady, status, reason, o.generation), o.generation);
  }

  /**
   A Secret that cannot be published is reported by the error that caused it. A foreign one is no error: the
   name is taken until the next edit. Access denied and everything else are errors under their own reasons.
   */
  lemma SecretFailureByCause(w: World, n: NsName, o: KeyObject, v: World, k: S3Key, p: Publication)
    requires !HasObserved(o) && Obtains(w, n, o, v, k) && Publishes(v, n, o, k, p) && ErrorOf(p).Some?
    ensures var run := Computed(w, n, o);
            var e := ErrorOf(p).value;
            && run.w == After(p) && KeyRecorded(o, run.status, k) && run.status.secretName == o.status.secretName
            && (e == NameConflict ==> run.error == None && IsMarked(run.status, KeySecretReady, False, SecretNameConflict, o.generation))
            && (e == Forbidden ==> run.error == Some(Forbidden) && IsMarked(run.status, KeySecretReady, False, SecretAccessForbidden, o.generation))
            && (e != NameConflict && e != Forbidden ==>
                  run.error == Some(e) && IsMarked(run.status, KeySecretReady, False, SecretSetupFailed, o.generation))
  {
    hide Computed, Aggregated, Marked, EnsureSecret, CleanupOldSecret, Published, IsMarked, KeyRecorded, WithKey, Publishes, Obtains, HasObserved;
    RunWithKey(w, n, o, v, k);
    EnsureSecretPublishes(v, n, o, k, p);
    RecordedWithKey(o, k, o.status.secretName, False, SecretFailure(ErrorOf(p).value));
    assert WithKey(o, k).(secretName := o.status.secretName) == WithKey(o, k);
  }

  /** Once it is published the Secret of the old name is deleted; only a failure to do so spoils it. */
  lemma CleanupByCause(w: World, n: NsName, o: KeyObject, v: World, k: S3Key, p: Publication)
    requires !HasObserved(o) && Obtains(w, n, o, v, k) && Publishes(v, n, o, k, p) && ErrorOf(p).None? && Renamed(o)
    ensures var run := Computed(w, n, o);
            var d := DeleteSecret(After(p), NsName(n.ns, o.status.secretName));
            && run.w == d.w && KeyRecorded(o, run.status, k)
            && (d.r.Err? && d.r.error != NotFound ==>
                  && run.error == Some(d.r.error) && run.status.secretName == o.status.secretName
                  && IsMarked(run.status, KeySecretReady, False, SecretCleanupFailed, o.generation))
            && (d.r.Ok? || d.r.error == NotFound ==>
                  && run.error == None && run.status.secretName == o.secretName
                  && IsMarked(run.status, KeySecretReady, True, Met, o.generation))
  {
    hide Computed, Aggregated, Marked, EnsureSecret, DeleteSecret, IsMarked, KeyRecorded, WithKey, Publishes, Obtains, HasObserved;
    RunWithKey(w, n, o, v, k);
    EnsureSecretPublishes(v, n, o, k, p);
    RecordedWithKey(o, k, o.status.secretName, False, SecretCleanupFailed);
    RecordedWithKey(o, k, o.secretName, True, Met);
    assert WithKey(o, k).(secretName := o.status.secretName) == WithKey(o, k);
  }

  /** Without an old name publishing is the last step. */
  lemma PublishedByCause(w: World, n: NsName, o: KeyObject, v: World, k: S3Key, p: Publication)
    requires !HasObserved(o) && Obtains(w, n, o, v, k) && Publishes(v, n, o, k, p) && ErrorOf(p).None? && !Renamed(o)
    ensures var run := Computed(w, n, o);
            && run.w == After(p) && run.error == None && KeyRecorded(o, run.status, k) && run.status.secretName == o.secretName
            && IsMarked(run.status, KeySecretReady, True, Met, o.generation)
  {
    hide Computed, Aggregated, Marked, EnsureSecret, DeleteSecret, IsMarked, KeyRecorded, WithKey, Publishes, Obtains, HasObserved;
    RunWithKey(w, n, o, v, k);
    EnsureSecretPublishes(v, n, o, k, p);
    RecordedWithKey(o, k, o.secretName, True, Met);
  }

  // ---------------------------------------------------------------- the outcome

  /**
   A run without error ends in Done exactly when its status did not have to be written, or the write was
   answered or met a conflict. A run with an error fails with that very error, unless the write met a
   conflict; a write that fails otherwise makes a run without error fail.
   */
  lemma OutcomeByCause(w: World, n: NsName, o: KeyObject)
    ensures var run := Computed(w, n, o);
            var end := ReconcileLive(w, n, o);
            var latest := GetObject(run.w, n);
            var put := UpdateStatus(latest.w, n, if latest.r.Ok? then latest.r.value.version else 0, run.status);
            && (run.status == o.status ==> end.w == run.w && end.outcome == if run.error.None? then Done else Failed(run.error.value))
            && (run.status != o.status && latest.r.Ok? ==>
                  && end.w == put.w
                  && (put.r.Ok? ==> end.outcome == if run.error.None? then Done else Failed(run.error.value))
                  && (put.r == Err(Conflict) ==> end.outcome == Done)
                  && (put.r.Err? && put.r.error != Conflict ==> end.outcome == Failed(if run.error.None? then put.r.error else run.error.value)))
            && (run.status != o.status && latest.r.Err? ==>
                  end.w == latest.w && end.outcome == Failed(if run.error.None? then latest.r.error else run.error.value))
  {
    hide Computed, UpdateStatus;
  }

  /** How a reconcile begins: an AccessKey without the finalizer gets it first, one that is gone or going has none left. */
  lemma BeginningByCause(w: World, n: NsName)
    ensures var got := GetObject(w, n);
            var end := Reconcile(w, n);
            var patched := PatchFinalizer(got.w, n);
            && (got.r == Err(NotFound) ==> end == End(got.w, Done))
            && (got.r.Err? && got.r.error != NotFound ==> end == End(got.w, Failed(got.r.error)))
            && (got.r.Ok? && got.r.value.deleting && !got.r.value.finalizer ==> end == End(got.w, Done))
            && (got.r.Ok? && !got.r.value.deleting && got.r.value.finalizer ==> end == ReconcileLive(got.w, n, got.r.value))
            && (got.r.Ok? && !got.r.value.deleting && !got.r.value.finalizer ==>
                  end == if patched.r.Err? then End(patched.w, Failed(patched.r.error)) else ReconcileLive(patched.w, n, patched.r.value))
  {
    hide GetObject, PatchFinalizer, ReconcileLive;
  }
}
