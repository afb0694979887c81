/**
 Where the AccessKey controller falls short of its promises once the base assumptions are dropped: exactly
 when, over all worlds and tapes, and on runs from an empty cluster.
 */
module AccessKeyLimits {
  import opened Common
  import opened Conditions
  import opened AccessKeyWorld
  import opened AccessKeySpec
  import opened AccessKeyProofs
  import opened AccessKeyTheorems
  import opened AccessKeyCreation
  import AccessKeyShortcut

  // ---------------------------------------------------------------- a foreign Secret adopted

  /** The second read of the Secret, which is the one that CreateOrUpdate acts on. */
  function SecondRead(w: World, n: NsName, o: KeyObject): Call<Secret> {
    var s := SecretOf(n, o.secretName);
    GetSecret(GetSecret(w, s).w, s)
  }

  predicate FoundForeign(second: Call<Secret>, o: KeyObject) {
    second.r.Ok? && second.r.value.controller != Some(o.uid)
  }

  /**
   ensureSecret checks who controls the Secret, and then CreateOrUpdate reads it again. What it publishes is
   controlled by somebody else exactly when that second read finds a Secret of somebody else.
   */
  lemma AdoptsForeignSecretExactlyWhen(w: World, n: NsName, o: KeyObject, k: S3Key)
    ensures var s := SecretOf(n, o.secretName);
            var end := EnsureSecret(w, n, o, k.id, k.secret);
            end.r.Ok? ==>
              && s in end.w.c.secrets && end.w.c.secrets[s].accessKeyID == k.id && end.w.c.secrets[s].secretAccessKey == k.secret
              && (end.w.c.secrets[s].controller != Some(o.uid) <==> FoundForeign(SecondRead(w, n, o), o))
  {
    hide Arrive, ReplyTo;
  }

  /** The Secret is the same in both clusters. */
  predicate SameSecret(c: Cluster, d: Cluster, s: NsName) {
    s in c.secrets && s in d.secrets && c.secrets[s] == d.secrets[s]
  }

  /** A full reconcile that computes Ready has ensured key and Secret, and removed the Secret of the old name. */
  lemma ReadyWentAllTheWay(w: World, n: NsName, o: KeyObject)
    requires !Shortcut(o, Initialized(o.status)) && Holds(Computed(w, n, o).status.conditions, Ready, True)
    ensures var ext := EnsureExternalKey(w, n, o);
            && ext.r.Ok?
            && var sec := EnsureSecret(ext.w, n, o, ext.r.value.id, ext.r.value.secret);
            && sec.r.Ok?
            && Computed(w, n, o).w == if o.status.secretName == NONE || o.status.secretName == o.secretName then sec.w
                                      else CleanupOldSecret(sec.w, SecretOf(n, o.status.secretName)).w
  {
    hide Shortcut, Initialized, Aggregated, Find, SetCondition, EnsureExternalKey, EnsureSecret, CleanupOldSecret;
    var run := FullPath(w, n, o, Initialized(o.status));
    InitializedMeaning(o.status);
    AggregatedMeaning(run.status, o.generation) by {
      StillHasBoth(w, n, o);
    }
    InitializedNames(o.status);
  }

  lemma InitializedNames(s: KeyStatus)
    ensures Initialized(s).secretName == s.secretName
  {
    hide InitAll;
  }

  lemma StillHasBoth(w: World, n: NsName, o: KeyObject)
    ensures var cs := FullPath(w, n, o, Initialized(o.status)).status.conditions;
            Find(cs, AccessKeyReady).Some? && Find(cs, KeySecretReady).Some?
  {
    hide Initialized, Find, SetCondition, EnsureExternalKey, EnsureSecret, CleanupOldSecret;
    InitializedMeaning(o.status);
  }

  /**
   Over all worlds and tapes: a full reconcile that computes Ready ends with a Secret that somebody else
   controls exactly when its second read of the Secret found one of somebody else; unless others change the
   Secret after it was published.
   */
  lemma ReadyWithForeignSecretExactlyWhen(w: World, n: NsName, o: KeyObject)
    requires !Shortcut(o, Initialized(o.status)) && Holds(Computed(w, n, o).status.conditions, Ready, True)
    ensures var s := SecretOf(n, o.secretName);
            var ext := EnsureExternalKey(w, n, o);
            && ext.r.Ok?
            && var sec := EnsureSecret(ext.w, n, o, ext.r.value.id, ext.r.value.secret);
            var c := Computed(w, n, o).w.c;
            && s in sec.w.c.secrets
            && (SameSecret(sec.w.c, c, s) ==> (c.secrets[s].controller != Some(o.uid) <==> FoundForeign(SecondRead(ext.w, n, o), o)))
            && (o.status.secretName == NONE || o.status.secretName == o.secretName || SameSecret(sec.w.c, Arrive(sec.w), s) ==>
                  SameSecret(sec.w.c, c, s))
  {
    hide Computed, Shortcut, Initialized, Holds, EnsureExternalKey, EnsureSecret, SecondRead, FoundForeign, Arrive, ReplyTo;
    ReadyWentAllTheWay(w, n, o);
    var ext := EnsureExternalKey(w, n, o);
    AdoptsForeignSecretExactlyWhen(ext.w, n, o, ext.r.value);
  }

  // ---------------------------------------------------------------- a foreign Secret deleted

  /**
   After a rename the Secret of the old name is deleted whoever controls it. If it is there when the delete
   arrives, it goes exactly when the new Secret was published and the delete is not refused.
   */
  lemma RenameDeletesExactlyWhen(w: World, n: NsName, o: KeyObject, s: KeyStatus, secret: Id)
    requires s.secretName != NONE && s.secretName != o.secretName
    requires var sec := EnsureSecret(w, n, o, s.accessKeyID, secret);
             SecretOf(n, s.secretName) in (if sec.r.Ok? then Arrive(sec.w) else sec.w.c).secrets
    ensures var sec := EnsureSecret(w, n, o, s.accessKeyID, secret);
            SecretOf(n, s.secretName) !in SecretStage(w, n, o, s, secret).w.c.secrets <==> sec.r.Ok? && !ReplyTo(sec.w).Refused?
  {
    hide EnsureSecret, SetCondition, Arrive, ReplyTo;
  }

  // ---------------------------------------------------------------- keys removed by others

  /** A Ready AccessKey of a reachable state rests, so that a key removed from Garage is not missed. */
  lemma ReadyRests(start: Cluster, events: seq<Event>, n: NsName)
    requires Initial(start) && n in Run(start, events).objects
    requires var o := Run(start, events).objects[n];
             o.finalizer && !o.deleting && Holds(o.status.conditions, Ready, True) && o.status.observedGeneration == o.generation
    ensures AccessKeyShortcut.Resting(Run(start, events).objects[n])
  {
    InvAlways(start, events);
    hide Run;
    var c := Run(start, events);
    assert ObjectInv(c, n, c.objects[n]);
    ShortcutLeavesStatus(c.objects[n]);
  }

  // ---------------------------------------------------------------- runs from an empty cluster

  const NAME := NsName(1, 1)
  const UID: Id := 7
  const EXT := ExtName(NAME, UID)
  const SECRET := NsName(1, 5)
  const KEY_ID: Id := 22
  const REFUSED := Fate([], Refused(Unreachable))

  /** Others may do anything. */
  const EMPTY := Cluster(map[], map[], map[], multiset{}, {}, map[], 20, false)

  const CREATED := KeyObject(UID, 1, 5, false, false, 20, EMPTY_STATUS)
  const ADOPTED := CREATED.(finalizer := true, version := 21)

  function WithObject(o: KeyObject, clock: int): Cluster {
    Cluster(map[NAME := o], map[], map[], multiset{}, {UID}, map[SECRET := NAME], clock, false)
  }

  /** The first reconcile adds the finalizer and creates the key. */
  lemma FirstReconcile(rest: seq<Fate>)
    ensures var tape := [QUIET, QUIET, QUIET, QUIET] + rest;
            var w := World(WithObject(ADOPTED, 22), tape[2..]);
            && Reconcile(World(WithObject(CREATED, 21), tape), NAME) == ReconcileLive(w, NAME, ADOPTED)
            && EnsureExternalKey(w, NAME, ADOPTED) == Call(World(Minted(WithObject(ADOPTED, 22), EXT), rest), Ok(S3Key(KEY_ID, -KEY_ID)))
  {
    hide ReconcileLive;
    var tape := [QUIET, QUIET, QUIET, QUIET] + rest;
    var c0, c1 := WithObject(CREATED, 21), WithObject(ADOPTED, 22);
    var w0, w1, w2 := World(c0, tape), World(c0, tape[1..]), World(c1, tape[2..]);
    assert tape[1..][1..] == tape[2..];
    assert GetObject(w0, NAME) == Call(w1, Ok(CREATED));
    assert map[NAME := CREATED][NAME := ADOPTED] == map[NAME := ADOPTED];
    assert PatchFinalizer(w1, NAME) == Call(w2, Ok(ADOPTED));
    var w3 := World(c1, tape[3..]);
    assert tape[2..][1..] == tape[3..] && tape[3..][1..] == rest;
    assert GarageLookup(w2, EXT) == Call(w3, Err(NotFound));
    assert GarageCreate(w3, EXT) == Call(World(Minted(c1, EXT), rest), Ok(S3Key(KEY_ID, -KEY_ID)));
  }

  lemma CreationIsPossible()
    ensures Next(EMPTY, Other(CreateKeyObject(NAME, UID, 5))) == WithObject(CREATED, 21)
  {
    assert {} + {UID} == {UID};
  }

  const USER := Secret(None, 1, 1)
  const RACE := Fate([CreateUserSecret(SECRET, USER)], Delivered)

  /** A Secret that a user makes between the two reads is overwritten. */
  lemma RacedSecret(w: World)
    requires w == World(Minted(WithObject(ADOPTED, 22), EXT), [QUIET, RACE, QUIET, QUIET, QUIET])
    ensures var call := EnsureSecret(w, NAME, ADOPTED, KEY_ID, -KEY_ID);
            && call.r == Ok(()) && call.w == World(w.c.(secrets := map[SECRET := Secret(None, KEY_ID, -KEY_ID)]), [QUIET, QUIET])
  {
    var tape := w.tape;
    assert tape[1..] == [RACE, QUIET, QUIET, QUIET] && tape[1..][1..] == [QUIET, QUIET, QUIET];
    var w1 := World(w.c, tape[1..]);
    assert GetSecret(w, SECRET) == Call(w1, Err(NotFound));
    var c2 := w.c.(secrets := map[SECRET := USER]);
    assert w.c.secrets[SECRET := USER] == map[SECRET := USER];
    assert RACE.actions[1..] == [];
    assert PerformAll(c2, []) == c2 == Perform(w.c, CreateUserSecret(SECRET, USER));
    assert Arrive(w1) == c2;
    var w2 := World(c2, [QUIET, QUIET, QUIET]);
    assert GetSecret(w1, SECRET) == Call(w2, Ok(USER));
    assert w2.tape[1..] == [QUIET, QUIET];
    assert c2.secrets[SECRET := Secret(None, KEY_ID, -KEY_ID)] == map[SECRET := Secret(None, KEY_ID, -KEY_ID)];
  }

  lemma ReadyAfter(w: World, sec: World)
    requires EnsureExternalKey(w, NAME, ADOPTED).r == Ok(S3Key(KEY_ID, -KEY_ID))
    requires EnsureSecret(EnsureExternalKey(w, NAME, ADOPTED).w, NAME, ADOPTED, KEY_ID, -KEY_ID) == Call(sec, Ok(()))
    ensures var run := Computed(w, NAME, ADOPTED);
            && run.w == sec && run.error == None && run.status != ADOPTED.status
            && Holds(run.status.conditions, Ready, True) && run.status.observedGeneration == 1
  {
    hide Aggregated, Initialized, Find, SetCondition, EnsureSecret, EnsureExternalKey;
    var k := S3Key(KEY_ID, -KEY_ID);
    NotObserved(ADOPTED);
    WithKeyIs(ADOPTED, k);
    WithKeyMeaning(ADOPTED, k);
    AggregatedMeaning(Published(sec, ADOPTED, WithKey(ADOPTED, k)).status, 1);
  }

  /** The shortcut is not taken at a generation that was never observed. */
  lemma NotObserved(o: KeyObject)
    requires o.status.observedGeneration != o.generation
    ensures !Shortcut(o, Initialized(o.status)) && Initialized(o.status).observedGeneration == o.status.observedGeneration
    ensures Initialized(o.status).secretName == o.status.secretName
  {
    hide InitAll;
  }

  /** An undisturbed status write replaces the status. */
  lemma QuietWrite(w: World, n: NsName, s: KeyStatus)
    requires |w.tape| >= 2 && w.tape[0] == QUIET && w.tape[1] == QUIET && n in w.c.objects
    ensures WriteStatus(w, n, s) == Call(World(StatusReplaced(w.c, n, s), w.tape[2..]), Ok(()))
  {
    var w1 := World(w.c, w.tape[1..]);
    assert GetObject(w, n) == Call(w1, Ok(w.c.objects[n]));
    assert Arrive(w1) == w.c && w1.tape[1..] == w.tape[2..];
  }

  const RACED_TAPE := [QUIET, QUIET, QUIET, QUIET] + [QUIET, RACE, QUIET, QUIET, QUIET]

  lemma RacedReconcile()
    ensures var c := Next(WithObject(CREATED, 21), Work(NAME, RACED_TAPE));
            && NAME in c.objects && SECRET in c.secrets
            && Holds(c.objects[NAME].status.conditions, Ready, True)
            && c.objects[NAME].status.observedGeneration == c.objects[NAME].generation
            && c.secrets[SECRET].controller == None
  {
    hide Computed, Holds, WriteStatus, EnsureExternalKey, EnsureSecret, Reconcile;
    FirstReconcile([QUIET, RACE, QUIET, QUIET, QUIET]);
    var w := World(WithObject(ADOPTED, 22), RACED_TAPE[2..]);
    var ext := EnsureExternalKey(w, NAME, ADOPTED);
    RacedSecret(ext.w);
    var sec := EnsureSecret(ext.w, NAME, ADOPTED, KEY_ID, -KEY_ID).w;
    ReadyAfter(w, sec);
    QuietWrite(sec, NAME, Computed(w, NAME, ADOPTED).status);
  }

  /**
   So, from an empty cluster, an AccessKey can end Ready at its current generation with a Secret that it does
   not control: a user makes the Secret between the two reads.
   */
  lemma ReadyWithForeignSecret()
    ensures var c := Run(EMPTY, [Other(CreateKeyObject(NAME, UID, 5)), Work(NAME, RACED_TAPE)]);
            && NAME in c.objects && SECRET in c.secrets
            && Holds(c.objects[NAME].status.conditions, Ready, True)
            && c.objects[NAME].status.observedGeneration == c.objects[NAME].generation
            && c.secrets[SECRET].controller == None
  {
    hide Next, Holds;
    CreationIsPossible();
    RacedReconcile();
    TwoEvents(EMPTY, Other(CreateKeyObject(NAME, UID, 5)), Work(NAME, RACED_TAPE));
  }

  lemma TwoEvents(c: Cluster, d: Event, e: Event)
    ensures Run(c, [d, e]) == Next(Next(c, d), e)
  {
    hide Next;
    assert [d, e][1..] == [e] && [e][1..] == [];
    assert Run(Next(c, d), [e]) == Run(Next(Next(c, d), e), []);
  }

  // ---------------------------------------------------------------- two keys

  const FAILING_TAPE := [QUIET, QUIET, QUIET, QUIET] + [REFUSED, QUIET, QUIET, QUIET]

  /** The key is created and recorded, and the Secret cannot be read. */
  lemma FailedSecret(w: World)
    requires w == World(Minted(WithObject(ADOPTED, 22), EXT), [REFUSED, QUIET, QUIET, QUIET])
    ensures EnsureSecret(w, NAME, ADOPTED, KEY_ID, -KEY_ID) == Call(World(w.c, [QUIET, QUIET, QUIET]), Err(Transient))
  {
    assert w.tape[1..] == [QUIET, QUIET, QUIET];
  }

  lemma FailedAfter(w: World, sec: World)
    requires EnsureExternalKey(w, NAME, ADOPTED).r == Ok(S3Key(KEY_ID, -KEY_ID))
    requires EnsureSecret(EnsureExternalKey(w, NAME, ADOPTED).w, NAME, ADOPTED, KEY_ID, -KEY_ID) == Call(sec, Err(Transient))
    ensures var run := Computed(w, NAME, ADOPTED);
            && run.w == sec && run.error == Some(Transient) && run.status != ADOPTED.status
            && run.status.accessKeyID == KEY_ID && run.status.observedGeneration == 0
  {
    hide Aggregated, Initialized, Find, SetCondition, EnsureSecret, EnsureExternalKey;
    var k := S3Key(KEY_ID, -KEY_ID);
    NotObserved(ADOPTED);
    WithKeyIs(ADOPTED, k);
    WithKeyMeaning(ADOPTED, k);
    AggregatedMeaning(Marked(WithKey(ADOPTED, k), KeySecretReady, False, SecretSetupFailed, 1), 1);
  }

  /** The AccessKey has recorded its key without being Ready. */
  ghost predicate HasRecorded(c: Cluster, id: Id) {
    && NAME in c.objects
    && var o := c.objects[NAME];
    && o.uid == UID && o.finalizer && !o.deleting && o.status.accessKeyID == id && o.status.observedGeneration != o.generation
  }

  lemma RecordedByRun()
    ensures var c := Next(WithObject(CREATED, 21), Work(NAME, FAILING_TAPE));
            HasRecorded(c, KEY_ID) && c.keys == map[KEY_ID := GarageKey(EXT, -KEY_ID)] && !c.lawful && c.clock == 24
  {
    hide Computed, WriteStatus, EnsureExternalKey, EnsureSecret, Reconcile;
    FirstReconcile([REFUSED, QUIET, QUIET, QUIET]);
    var w := World(WithObject(ADOPTED, 22), FAILING_TAPE[2..]);
    var ext := EnsureExternalKey(w, NAME, ADOPTED);
    FailedSecret(ext.w);
    var sec := EnsureSecret(ext.w, NAME, ADOPTED, KEY_ID, -KEY_ID).w;
    FailedAfter(w, sec);
    QuietWrite(sec, NAME, Computed(w, NAME, ADOPTED).status);
  }

  const CRASH := [QUIET, QUIET, QUIET]

  /** After a crash nothing is done to Secrets. */
  lemma CrashedSecret(w: World, n: NsName, o: KeyObject, id: Id, secret: Id)
    requires w.tape == []
    ensures EnsureSecret(w, n, o, id, secret) == Call(w, Err(Transient))
  {
  }

  lemma CrashedFullPath(w: World, crashed: World, n: NsName, o: KeyObject)
    requires var ext := EnsureExternalKey(w, n, o);
             ext.w == crashed && ext.r.Ok? && EnsureSecret(crashed, n, o, ext.r.value.id, ext.r.value.secret) == Call(crashed, Err(Transient))
    ensures FullPath(w, n, o, Initialized(o.status)).w == crashed
  {
    hide Initialized, Find, SetCondition, EnsureExternalKey, EnsureSecret;
  }

  /**
   A recorded key that is not in Garage is created anew by a reconcile that does not take its shortcut, and
   the new ID is lost if the controller crashes before it writes the status.
   */
  lemma CrashAfterRecreation(c: Cluster, n: NsName, o: KeyObject)
    requires n in c.objects && c.objects[n] == o && o.finalizer && !o.deleting
    requires o.status.accessKeyID != NONE && o.status.accessKeyID !in c.keys && !Shortcut(o, Initialized(o.status))
    ensures Next(c, Work(n, CRASH)) == Minted(c, ExtName(n, o.uid))
  {
    hide Aggregated, Initialized, Shortcut, Find, SetCondition, FullPath;
    var w0, w1, w2 := World(c, CRASH), World(c, [QUIET, QUIET]), World(c, [QUIET]);
    assert w0.tape[1..] == w1.tape && w1.tape[1..] == w2.tape && w2.tape[1..] == [];
    assert GetObject(w0, n) == Call(w1, Ok(o));
    var w3 := World(Minted(c, ExtName(n, o.uid)), []);
    assert EnsureExternalKey(w1, n, o) == Call(w3, Ok(S3Key(c.clock, -c.clock)));
    CrashedSecret(w3, n, o, c.clock, -c.clock);
    CrashedFullPath(w1, w3, n, o);
  }

  ghost predicate TwoKeysOfOneName(c: Cluster) {
    exists i, j | i in c.keys && j in c.keys :: i != j && c.keys[i].name == c.keys[j].name
  }

  lemma TwoCrashes(c: Cluster)
    requires HasRecorded(c, KEY_ID) && c.keys == map[] && c.clock == 24
    ensures TwoKeysOfOneName(Next(Next(c, Work(NAME, CRASH)), Work(NAME, CRASH)))
  {
    hide Next, Shortcut, Initialized;
    NotObserved(c.objects[NAME]);
    CrashAfterRecreation(c, NAME, c.objects[NAME]);
    var d := Minted(c, EXT);
    CrashAfterRecreation(d, NAME, c.objects[NAME]);
    var e := Minted(d, EXT);
    assert 24 in e.keys && 25 in e.keys && e.keys[24].name == e.keys[25].name;
  }

  /**
   So, from an empty cluster: a key is created and recorded while its Secret cannot be read, somebody removes
   the key, and after two crashes the AccessKey has two keys in Garage.
   */
  lemma TwoKeysAfterRemoval()
    ensures TwoKeysOfOneName(Run(EMPTY, [Other(CreateKeyObject(NAME, UID, 5)), Work(NAME, FAILING_TAPE), Other(RemoveKeyOutOfBand(KEY_ID)),
                                         Work(NAME, CRASH), Work(NAME, CRASH)]))
  {
    hide Next, Run, TwoKeysOfOneName;
    var create, work, remove, crash := Other(CreateKeyObject(NAME, UID, 5)), Work(NAME, FAILING_TAPE), Other(RemoveKeyOutOfBand(KEY_ID)), Work(NAME, CRASH);
    CreationIsPossible();
    RecordedByRun();
    var c2 := Next(WithObject(CREATED, 21), work);
    RemovalLeavesNoKey(c2);
    TwoCrashes(Next(c2, remove));
    FiveEvents(EMPTY, create, work, remove, crash, crash);
  }

  lemma RemovalLeavesNoKey(c: Cluster)
    requires HasRecorded(c, KEY_ID) && c.keys == map[KEY_ID := GarageKey(EXT, -KEY_ID)] && !c.lawful && c.clock == 24
    ensures var d := Next(c, Other(RemoveKeyOutOfBand(KEY_ID)));
            HasRecorded(d, KEY_ID) && d.keys == map[] && d.clock == 24
  {
    assert c.keys - {KEY_ID} == map[];
  }

  lemma FiveEvents(c: Cluster, e1: Event, e2: Event, e3: Event, e4: Event, e5: Event)
    ensures Run(c, [e1, e2, e3, e4, e5]) == Next(Next(Next(Next(Next(c, e1), e2), e3), e4), e5)
  {
    hide Next;
    assert [e1, e2, e3, e4, e5][1..] == [e2, e3, e4, e5];
    assert [e2, e3, e4, e5][1..] == [e3, e4, e5];
    assert [e3, e4, e5][1..] == [e4, e5];
    TwoEvents(Next(Next(Next(c, e1), e2), e3), e4, e5);
    assert Run(Next(Next(c, e1), e2), [e3, e4, e5]) == Run(Next(Next(Next(c, e1), e2), e3), [e4, e5]);
    assert Run(Next(c, e1), [e2, e3, e4, e5]) == Run(Next(Next(c, e1), e2), [e3, e4, e5]);
  }
}
