/** The promises of the AccessKey controller, over every run. */
module AccessKeyTheorems {
  import opened Common
  import opened Conditions
  import opened AccessKeyWorld
  import opened AccessKeySpec
  import opened AccessKeyProofs

  /**
   Over every run at most one Garage key is ever created for an AccessKey, and while it is in
   Garage its AccessKey exists and holds the finalizer; so the AccessKey goes only after its key.
   */
  lemma OneGuardedKeyPerAccessKey(start: Cluster, events: seq<Event>)
    requires Initial(start)
    ensures var c := Run(start, events);
            && (forall name: ExtName :: c.minted[name] <= 1)
            && (forall i, j | i in c.keys && j in c.keys && c.keys[i].name == c.keys[j].name :: i == j)
            && (forall id | id in c.keys ::
                  && c.keys[id].name.owner in c.objects
                  && c.objects[c.keys[id].name.owner].uid == c.keys[id].name.uid
                  && c.objects[c.keys[id].name.owner].finalizer)
  {
    InvAlways(start, events);
  }

  /**
   In every reachable state an AccessKey that is Ready at its current generation names the Secret it
   asks for, and that Secret is its own and holds the ID and secret of its own Garage key.
   */
  lemma CredentialsMatch(start: Cluster, events: seq<Event>, n: NsName)
    requires Initial(start) && n in Run(start, events).objects
    ensures var c := Run(start, events);
            var o := c.objects[n];
            Holds(o.status.conditions, Ready, True) && o.status.observedGeneration == o.generation ==>
              && o.status.secretName == o.secretName
              && o.status.accessKeyID in c.keys && c.keys[o.status.accessKeyID].name == ExtName(n, o.uid)
              && NsName(n.ns, o.secretName) in c.secrets
              && c.secrets[NsName(n.ns, o.secretName)]
                 == Secret(Some(o.uid), o.status.accessKeyID, c.keys[o.status.accessKeyID].secret)
  {
    InvAlways(start, events);
    assert ObjectInv(Run(start, events), n, Run(start, events).objects[n]);
  }

  // ---------------------------------------------------------------- the shortcut

  const QUIET := Fate([], Delivered)

  /** Nobody else acts and no call fails, for at least k more calls. */
  ghost predicate QuietFor(w: World, k: nat) {
    |w.tape| >= k && forall f | f in w.tape :: f == QUIET
  }

  lemma QuietCall<T>(w: World, k: nat, after: Cluster, r: Result<T>)
    requires QuietFor(w, k + 1)
    ensures w.tape != [] && Arrive(w) == w.c && Answer(w, after, r) == Call(World(after, w.tape[1..]), r)
    ensures QuietFor(World(after, w.tape[1..]), k)
  {
    assert w.tape[0] in w.tape;
    assert forall f | f in w.tape[1..] :: f in w.tape;
  }

  /** The Secret name that o asks for is taken by somebody else. */
  ghost predicate Blocked(c: Cluster, n: NsName, o: KeyObject) {
    SecretOf(n, o.secretName) in c.secrets && c.secrets[SecretOf(n, o.secretName)].controller != Some(o.uid)
  }

  lemma QuietKey(w: World, n: NsName, o: KeyObject)
    requires QuietFor(w, 8) && o.status.accessKeyID != NONE && o.status.accessKeyID in w.c.keys
    ensures EnsureExternalKey(w, n, o)
            == Call(World(w.c, w.tape[1..]), Ok(S3Key(o.status.accessKeyID, w.c.keys[o.status.accessKeyID].secret)))
    ensures QuietFor(World(w.c, w.tape[1..]), 7)
  {
    QuietCall(w, 7, w.c, Ok(S3Key(o.status.accessKeyID, w.c.keys[o.status.accessKeyID].secret)));
  }

  lemma QuietSecret(w: World, n: NsName, o: KeyObject, k: S3Key)
    requires QuietFor(w, 7)
    ensures Blocked(w.c, n, o) ==>
              EnsureSecret(w, n, o, k.id, k.secret) == Call(World(w.c, w.tape[1..]), Err(NameConflict))
    ensures Holding(w.c, n, o, k) ==>
              EnsureSecret(w, n, o, k.id, k.secret) == Call(World(w.c, w.tape[1..][1..]), Ok(()))
    ensures !Blocked(w.c, n, o) ==> EnsureSecret(w, n, o, k.id, k.secret).r == Ok(())
    ensures QuietFor(World(w.c, w.tape[1..][1..]), 5)
  {
    hide QuietFor;
    var s := SecretOf(n, o.secretName);
    QuietCall(w, 6, w.c, if s in w.c.secrets then Ok(w.c.secrets[s]) else Err(NotFound));
    var w1 := World(w.c, w.tape[1..]);
    QuietCall(w1, 5, w.c, if s in w.c.secrets then Ok(w.c.secrets[s]) else Err(NotFound));
    var w2 := World(w.c, w1.tape[1..]);
    var put := Secret(Some(o.uid), k.id, k.secret);
    QuietCall(w2, 4, w.c.(secrets := w.c.secrets[s := put]), Ok(()));
  }

  /** The full path rebuilds the status with key k and the given verdict on the Secret. */
  lemma RebuiltStatus(o: KeyObject, k: S3Key, status: CondStatus, reason: Reason)
    requires Recorded(o, o.status) && o.status.observedGeneration == o.generation && k.id == o.status.accessKeyID
    requires IsMarked(o.status, KeySecretReady, status, reason, o.generation)
    ensures Marked(Marked(Initialized(o.status).(accessKeyID := k.id), AccessKeyReady, True, Met, o.generation),
                   KeySecretReady, status, reason, o.generation) == o.status
  {
    hide Find, SetCondition;
    assert forall t | t in KEY_CONDITIONS :: Find(o.status.conditions, t).Some? by {
      assert forall t | t in KEY_CONDITIONS :: t == Ready || t == AccessKeyReady || t == KeySecretReady;
    }
    InitOfInitialised(o.status.conditions, KEY_CONDITIONS);
    MarkedAgain(o.status, AccessKeyReady, True, Met, o.generation);
    MarkedAgain(o.status, KeySecretReady, status, reason, o.generation);
  }

  lemma MarkedAgain(s: KeyStatus, t: CondType, status: CondStatus, reason: Reason, generation: int)
    requires IsMarked(s, t, status, reason, generation)
    ensures Marked(s, t, status, reason, generation) == s
  {
  }

  /**
   In every reachable state, when a reconcile takes its shortcut the object is fully Ready for its
   generation or recorded as blocked by a foreign Secret, and nothing is written. Left undisturbed,
   the full path would change neither the cluster nor the status of a Ready object; for a blocked
   one it would change neither exactly as long as the foreign Secret is there.
   */
  lemma ShortcutRefinesFullPath(w: World, n: NsName, o: KeyObject)
    requires JustRead(w.c, n, o) && Shortcut(o, Initialized(o.status)) && QuietFor(w, 8)
    ensures ReconcileLive(w, n, o) == End(w, Done)
    ensures RecordedReady(o, o.status) || RecordedConflict(o, o.status)
    ensures var run := FullPath(w, n, o, Initialized(o.status));
            (run.w.c == w.c && Aggregated(run.status, o.generation) == o.status && run.error == None)
            <==> (RecordedConflict(o, o.status) ==> Blocked(w.c, n, o))
  {
    hide Initialized, Aggregated, FullPath, Shortcut, QuietFor;
    assert Recorded(o, o.status) && o.status.observedGeneration == o.generation by {
      assert ObjectInv(w.c, n, o);
      ShortcutObserved(o);
    }
    ShortcutLeavesStatus(o);
    if RecordedReady(o, o.status) {
      assert !RecordedConflict(o, o.status);
      FullPathWhenReady(w, n, o);
    } else if Blocked(w.c, n, o) {
      FullPathWhenBlocked(w, n, o);
    } else {
      FullPathWhenUnblocked(w, n, o);
    }
  }

  lemma ShortcutObserved(o: KeyObject)
    requires Shortcut(o, Initialized(o.status))
    ensures o.status.observedGeneration == o.generation
  {
  }

  ghost predicate Observed(w: World, n: NsName, o: KeyObject) {
    JustRead(w.c, n, o) && o.status.observedGeneration == o.generation && Recorded(o, o.status)
  }

  lemma ObservedKey(w: World, n: NsName, o: KeyObject) returns (k: S3Key)
    requires Observed(w, n, o)
    ensures k.id == o.status.accessKeyID != NONE && k.id in w.c.keys && k.secret == w.c.keys[k.id].secret
    ensures RecordedReady(o, o.status) ==> Holding(w.c, n, o, k) && o.status.secretName == o.secretName
  {
    assert ObjectInv(w.c, n, o);
    k := S3Key(o.status.accessKeyID, w.c.keys[o.status.accessKeyID].secret);
  }

  lemma FullPathWhenReady(w: World, n: NsName, o: KeyObject)
    requires Observed(w, n, o) && QuietFor(w, 8) && RecordedReady(o, o.status)
    ensures var run := FullPath(w, n, o, Initialized(o.status));
            run.w.c == w.c && Aggregated(run.status, o.generation) == o.status && run.error == None
  {
    assert |w.tape| >= 8;
    hide QuietFor, Inv, Initialized, Aggregated, SetCondition, Find, EnsureExternalKey, EnsureSecret, Holding;
    var k := ObservedKey(w, n, o);
    QuietKey(w, n, o);
    QuietSecret(World(w.c, w.tape[1..]), n, o, k);
    RebuiltStatus(o, k, True, Met);
    ShortcutLeavesStatus(o);
    InitializedOf(o);
    assert o.status.(secretName := o.secretName) == o.status;
  }

  /** The status of an observed generation has every condition already. */
  lemma InitializedOf(o: KeyObject)
    requires Recorded(o, o.status) && o.status.observedGeneration == o.generation
    ensures Initialized(o.status) == o.status
  {
    assert forall t | t in KEY_CONDITIONS :: Find(o.status.conditions, t).Some? by {
      assert forall t | t in KEY_CONDITIONS :: t == Ready || t == AccessKeyReady || t == KeySecretReady;
    }
    InitOfInitialised(o.status.conditions, KEY_CONDITIONS);
  }

  lemma FullPathWhenBlocked(w: World, n: NsName, o: KeyObject)
    requires Observed(w, n, o) && QuietFor(w, 8) && RecordedConflict(o, o.status) && Blocked(w.c, n, o)
    ensures var run := FullPath(w, n, o, Initialized(o.status));
            run.w.c == w.c && Aggregated(run.status, o.generation) == o.status && run.error == None
  {
    assert |w.tape| >= 8;
    hide QuietFor, Inv, Initialized, Aggregated, SetCondition, Find, EnsureExternalKey, EnsureSecret, Blocked, FullPath;
    var k := ObservedKey(w, n, o);
    var w1 := World(w.c, w.tape[1..]);
    QuietKey(w, n, o);
    QuietSecret(w1, n, o, k);
    FullPathSteps(w, n, o, k, w1);
    RebuiltStatus(o, k, False, SecretNameConflict);
    ShortcutLeavesStatus(o);
    InitializedOf(o);
  }

  /** The verdict of the full path once the key is known. */
  lemma FullPathSteps(w: World, n: NsName, o: KeyObject, k: S3Key, w1: World)
    requires EnsureExternalKey(w, n, o) == Call(w1, Ok(k))
    ensures var sec := EnsureSecret(w1, n, o, k.id, k.secret);
            var run := FullPath(w, n, o, Initialized(o.status));
            && (sec.r == Err(NameConflict) ==>
                  run == KeyRun(sec.w, Marked(WithKey(o, k), KeySecretReady, False, SecretNameConflict, o.generation), None))
            && (sec.r.Ok? ==>
                  || run.status.conditions == Marked(WithKey(o, k), KeySecretReady, True, Met, o.generation).conditions
                  || run.status.conditions == Marked(WithKey(o, k), KeySecretReady, False, SecretCleanupFailed, o.generation).conditions)
  {
    hide Initialized, Find, SetCondition, WithKey, EnsureExternalKey, EnsureSecret, CleanupOldSecret;
    WithKeyIs(o, k);
  }

  lemma WithKeyIs(o: KeyObject, k: S3Key)
    ensures WithKey(o, k) == Marked(Initialized(o.status).(accessKeyID := k.id), AccessKeyReady, True, Met, o.generation)
    ensures WithKey(o, k).accessKeyID == k.id
    ensures Initialized(o.status).secretName == o.status.secretName
  {
    hide Find, SetCondition, InitAll;
  }

  lemma FullPathWhenUnblocked(w: World, n: NsName, o: KeyObject)
    requires Observed(w, n, o) && QuietFor(w, 8) && RecordedConflict(o, o.status) && !Blocked(w.c, n, o)
    ensures Aggregated(FullPath(w, n, o, Initialized(o.status)).status, o.generation) != o.status
  {
    assert |w.tape| >= 8;
    hide QuietFor, Inv, Initialized, Aggregated, SetCondition, Find, EnsureExternalKey, EnsureSecret, Blocked, FullPath, WithKey;
    var k := ObservedKey(w, n, o);
    var w1 := World(w.c, w.tape[1..]);
    QuietKey(w, n, o);
    QuietSecret(w1, n, o, k);
    FullPathSteps(w, n, o, k, w1);
    WithKeyMeaning(o, k);
    AggregatedMeaning(FullPath(w, n, o, Initialized(o.status)).status, o.generation);
  }

  // ---------------------------------------------------------------- retries

  /**
   A reconcile of a live object asks to be run again unless it leaves the object Ready, finds a
   foreign Secret in the way, or lost the status write to a newer version, whose own event follows.
   */
  lemma LiveReconcileRetries(w: World, n: NsName, o: KeyObject)
    requires JustRead(w.c, n, o)
    ensures var run := Computed(w, n, o);
            || Retries(ReconcileLive(w, n, o).outcome)
            || Holds(run.status.conditions, Ready, True)
            || IsMarked(run.status, Ready, False, SecretNameConflict, o.generation)
            || WriteStatus(run.w, n, run.status).r == Err(Conflict)
  {
    hide Inv, JustRead, ObjectInv, Recorded, Aggregated, Shortcut, Initialized, FullPath, WriteStatus, IsMarked, Holds, KeysInv, MintInv;
    if o.status.observedGeneration == o.generation {
      ObservedIsRecorded(w.c, n, o);
      ShortcutLeavesStatus(o);
      RecordedIsFinal(o);
    } else {
      NotShortcut(o);
      FullPathVerdict(w, n, o);
    }
  }

  lemma ObservedIsRecorded(c: Cluster, n: NsName, o: KeyObject)
    requires JustRead(c, n, o) && o.status.observedGeneration == o.generation
    ensures Recorded(o, o.status)
  {
    assert ObjectInv(c, n, o);
  }

  lemma RecordedIsFinal(o: KeyObject)
    requires Recorded(o, o.status) && o.status.observedGeneration == o.generation
    ensures Holds(o.status.conditions, Ready, True) || IsMarked(o.status, Ready, False, SecretNameConflict, o.generation)
  {
  }

  /** The full path returns no error only when it is done or blocked. */
  lemma FullPathVerdict(w: World, n: NsName, o: KeyObject)
    ensures var run := FullPath(w, n, o, Initialized(o.status));
            run.error == None ==>
              || Holds(Aggregated(run.status, o.generation).conditions, Ready, True)
              || IsMarked(Aggregated(run.status, o.generation), Ready, False, SecretNameConflict, o.generation)
  {
    hide Aggregated, Initialized, Find, SetCondition, EnsureExternalKey, EnsureSecret, CleanupOldSecret;
    var run := FullPath(w, n, o, Initialized(o.status));
    if run.error == None {
      var k := EnsureExternalKey(w, n, o).r.value;
      WithKeyMeaning(o, k);
      AggregatedMeaning(run.status, o.generation);
    }
  }
}
