/** Exactly when the AccessKey controller creates a key in Garage, in one call, one reconcile and a whole run. */
module AccessKeyCreation {
  import opened Common
  import opened Conditions
  import opened AccessKeyWorld
  import opened AccessKeySpec

  // ---------------------------------------------------------------- nobody else creates keys

  lemma ActionMintsNothing(c: Cluster, a: Action)
    ensures Perform(c, a).minted == c.minted
  {
    hide AliveUid, Permitted;
  }

  lemma {:induction false} ActionsMintNothing(c: Cluster, actions: seq<Action>)
    ensures PerformAll(c, actions).minted == c.minted
    decreases |actions|
  {
    hide Perform;
    if actions != [] {
      ActionMintsNothing(c, actions[0]);
      ActionsMintNothing(Perform(c, actions[0]), actions[1..]);
    }
  }

  lemma ArrivalMintsNothing(w: World)
    ensures Arrive(w).minted == w.c.minted
  {
    hide Perform;
    if w.tape != [] {
      ActionsMintNothing(w.c, w.tape[0].actions);
    }
  }

  lemma ReadsMintNothing(w: World, n: NsName, id: Id, name: ExtName, s: NsName)
    ensures GetObject(w, n).w.c.minted == w.c.minted && GarageGet(w, id).w.c.minted == w.c.minted
    ensures GarageLookup(w, name).w.c.minted == w.c.minted && GetSecret(w, s).w.c.minted == w.c.minted
  {
    hide Arrive, ReplyTo;
    ArrivalMintsNothing(w);
  }

  lemma WritesMintNothing(w: World, s: NsName, read: Secret, secret: Secret)
    ensures CreateSecret(w, s, secret).w.c.minted == w.c.minted && UpdateSecret(w, s, read, secret).w.c.minted == w.c.minted
    ensures DeleteSecret(w, s).w.c.minted == w.c.minted
  {
    hide Arrive, ReplyTo;
    ArrivalMintsNothing(w);
  }

  lemma ObjectWritesMintNothing(w: World, n: NsName, version: int, s: KeyStatus, id: Id)
    ensures PatchFinalizer(w, n).w.c.minted == w.c.minted && UpdateWithoutFinalizer(w, n, version).w.c.minted == w.c.minted
    ensures UpdateStatus(w, n, version, s).w.c.minted == w.c.minted && GarageDelete(w, id).w.c.minted == w.c.minted
  {
    hide Arrive, ReplyTo;
    ArrivalMintsNothing(w);
  }

  // ---------------------------------------------------------------- ensureExternalKey

  /** The first call of ensureExternalKey: a get by the recorded ID, or a lookup by name. */
  function FirstLook(w: World, n: NsName, o: KeyObject): Call<S3Key> {
    if o.status.accessKeyID != NONE then GarageGet(w, o.status.accessKeyID) else GarageLookup(w, ExtName(n, o.uid))
  }

  /** It is answered that there is no such key, and the create is not refused. */
  predicate Creates(w: World, n: NsName, o: KeyObject) {
    var first := FirstLook(w, n, o);
    first.r == Err(NotFound) && !ReplyTo(first.w).Refused?
  }

  function Created(creates: bool, name: ExtName): multiset<ExtName> {
    if creates then multiset{name} else multiset{}
  }

  lemma CreateMints(w: World, name: ExtName)
    ensures GarageCreate(w, name).w.c.minted == w.c.minted + Created(!ReplyTo(w).Refused?, name)
  {
    hide Arrive, ReplyTo;
    ArrivalMintsNothing(w);
  }

  /** A key is created exactly when none is found and the request to create one is not refused. */
  lemma EnsureMintsExactlyWhen(w: World, n: NsName, o: KeyObject)
    ensures EnsureExternalKey(w, n, o).w.c.minted == w.c.minted + Created(Creates(w, n, o), ExtName(n, o.uid))
  {
    hide GarageGet, GarageLookup, GarageCreate, Created;
    var name := ExtName(n, o.uid);
    ReadsMintNothing(w, n, o.status.accessKeyID, name, n);
    CreateMints(FirstLook(w, n, o).w, name);
    NoneCreated(w.c.minted, name);
  }

  lemma NoneCreated(m: multiset<ExtName>, name: ExtName)
    ensures m + Created(false, name) == m
  {
  }

  // ---------------------------------------------------------------- one reconcile

  lemma CreateOrUpdateMintsNothing(w: World, s: NsName, uid: Id, id: Id, secret: Id)
    ensures CreateOrUpdateSecret(w, s, uid, id, secret).w.c.minted == w.c.minted
  {
    hide GetSecret, CreateSecret, UpdateSecret;
    ReadsMintNothing(w, s, NONE, ExtName(s, NONE), s);
    var got := GetSecret(w, s);
    var existing := if got.r.Ok? then got.r.value else Secret(None, NONE, NONE);
    WritesMintNothing(got.w, s, existing, Secret(Some(uid), id, secret));
    WritesMintNothing(got.w, s, existing, existing.(accessKeyID := id, secretAccessKey := secret));
  }

  lemma SecretStageMintsNothing(w: World, n: NsName, o: KeyObject, s: KeyStatus, secret: Id)
    ensures SecretStage(w, n, o, s, secret).w.c.minted == w.c.minted
  {
    hide GetSecret, CreateOrUpdateSecret, DeleteSecret, Marked;
    var name := SecretOf(n, o.secretName);
    ReadsMintNothing(w, n, NONE, ExtName(n, NONE), name);
    CreateOrUpdateMintsNothing(GetSecret(w, name).w, name, o.uid, s.accessKeyID, secret);
    var sec := EnsureSecret(w, n, o, s.accessKeyID, secret);
    WritesMintNothing(sec.w, SecretOf(n, s.secretName), Secret(None, NONE, NONE), Secret(None, NONE, NONE));
  }

  lemma WriteMintsNothing(w: World, n: NsName, s: KeyStatus)
    ensures WriteStatus(w, n, s).w.c.minted == w.c.minted
  {
    hide GetObject, UpdateStatus;
    ReadsMintNothing(w, n, NONE, ExtName(n, NONE), n);
    var got := GetObject(w, n);
    ObjectWritesMintNothing(got.w, n, if got.r.Ok? then got.r.value.version else 0, s, NONE);
  }

  /** A reconcile of the live object o creates a key. */
  predicate LiveCreates(w: World, n: NsName, o: KeyObject) {
    !Shortcut(o, Initialized(o.status)) && Creates(w, n, o)
  }

  lemma RunMints(w: World, n: NsName, o: KeyObject)
    ensures Computed(w, n, o).w.c.minted == w.c.minted + Created(LiveCreates(w, n, o), ExtName(n, o.uid))
  {
    hide EnsureExternalKey, SecretStage, Creates, Created, Shortcut, Initialized, Aggregated, Marked;
    EnsureMintsExactlyWhen(w, n, o);
    NoneCreated(w.c.minted, ExtName(n, o.uid));
    var ext := EnsureExternalKey(w, n, o);
    if ext.r.Ok? {
      SecretStageMintsNothing(ext.w, n, o, Marked(Initialized(o.status).(accessKeyID := ext.r.value.id), AccessKeyReady, True, Met, o.generation), ext.r.value.secret);
    }
  }

  /**
   A reconcile of a live object creates a key exactly when it does not take its shortcut, Garage answers that
   the recorded key, or any key of its name, is not there, and the request to create one is not refused.
   */
  lemma ReconcileCreatesExactlyWhen(w: World, n: NsName, o: KeyObject)
    ensures ReconcileLive(w, n, o).w.c.minted == w.c.minted + Created(LiveCreates(w, n, o), ExtName(n, o.uid))
  {
    hide Computed, WriteStatus, LiveCreates, Created;
    RunMints(w, n, o);
    var run := Computed(w, n, o);
    WriteMintsNothing(run.w, n, run.status);
  }

  /** The keys that one reconcile creates: at most one. */
  function KeysCreated(w: World, n: NsName): multiset<ExtName> {
    var got := GetObject(w, n);
    if got.r.Err? || got.r.value.deleting then multiset{}
    else if got.r.value.finalizer then Created(LiveCreates(got.w, n, got.r.value), ExtName(n, got.r.value.uid))
    else
      var patched := PatchFinalizer(got.w, n);
      if patched.r.Err? then multiset{}
      else Created(LiveCreates(patched.w, n, patched.r.value), ExtName(n, patched.r.value.uid))
  }

  lemma FinalizeMintsNothing(w: World, n: NsName, o: KeyObject)
    ensures Finalize(w, n, o).w.c.minted == w.c.minted
  {
    hide GarageLookup, GarageDelete, UpdateWithoutFinalizer;
    ReadsMintNothing(w, n, NONE, ExtName(n, o.uid), n);
    var id := ResolveKeyID(w, n, o);
    ObjectWritesMintNothing(id.w, n, o.version, o.status, if id.r.Ok? then id.r.value else NONE);
    if id.r.Ok? {
      ObjectWritesMintNothing(GarageDelete(id.w, id.r.value).w, n, o.version, o.status, NONE);
    }
  }

  lemma ReconcileMints(w: World, n: NsName)
    ensures Reconcile(w, n).w.c.minted == w.c.minted + KeysCreated(w, n)
  {
    hide GetObject, PatchFinalizer, Finalize, ReconcileLive, LiveCreates, Created;
    ReadsMintNothing(w, n, NONE, ExtName(n, NONE), n);
    var got := GetObject(w, n);
    if got.r.Ok? {
      var o := got.r.value;
      FinalizeMintsNothing(got.w, n, o);
      ReconcileCreatesExactlyWhen(got.w, n, o);
      ObjectWritesMintNothing(got.w, n, o.version, o.status, NONE);
      var patched := PatchFinalizer(got.w, n);
      if patched.r.Ok? {
        ReconcileCreatesExactlyWhen(patched.w, n, patched.r.value);
      }
    }
  }

  // ---------------------------------------------------------------- a run

  /** The k-th event of a run is a reconcile that creates a key of this name. */
  predicate CreatesAt(c: Cluster, events: seq<Event>, k: nat, name: ExtName)
    requires k < |events|
  {
    events[k].Work? && KeysCreated(World(Run(c, events[..k]), events[k].tape), events[k].n)[name] > 0
  }

  /** How many reconciles of a run create a key of this name. */
  function Creations(c: Cluster, events: seq<Event>, name: ExtName): nat
    decreases |events|
  {
    if events == [] then 0
    else (if CreatesAt(c, events, 0, name) then 1 else 0) + Creations(Next(c, events[0]), events[1..], name)
  }

  lemma AtMostOne(w: World, n: NsName, name: ExtName)
    ensures KeysCreated(w, n)[name] <= 1
  {
    hide GetObject, PatchFinalizer, LiveCreates;
  }

  lemma NextMints(c: Cluster, e: Event, name: ExtName)
    ensures Next(c, e).minted[name] == c.minted[name] + if CreatesAt(c, [e], 0, name) then 1 else 0
  {
    hide Reconcile, KeysCreated, Perform;
    match e {
      case Other(a) => ActionMintsNothing(c, a);
      case Work(n, tape) =>
        ReconcileMints(World(c, tape), n);
        AtMostOne(World(c, tape), n, name);
        assert [e][..0] == [];
    }
  }

  /** The keys of a name that were ever created are those that the reconciles of the run created. */
  lemma {:induction false} MintedCountsCreations(c: Cluster, events: seq<Event>, name: ExtName)
    ensures Run(c, events).minted[name] == c.minted[name] + Creations(c, events, name)
    decreases |events|
  {
    hide Next, KeysCreated;
    if events != [] {
      NextMints(c, events[0], name);
      assert [events[0]][..0] == events[..0];
      MintedCountsCreations(Next(c, events[0]), events[1..], name);
    }
  }

  /** An event of the rest of a run is the next event of the whole run. */
  lemma RestOfRun(c: Cluster, events: seq<Event>, k: nat, name: ExtName)
    requires k < |events| - 1
    ensures CreatesAt(Next(c, events[0]), events[1..], k, name) <==> CreatesAt(c, events, k + 1, name)
  {
    hide Next, KeysCreated;
    assert events[..k + 1][1..] == events[1..][..k];
    assert events[..k + 1][0] == events[0];
  }

  lemma {:induction false} SomeCreation(c: Cluster, events: seq<Event>, name: ExtName)
    ensures Creations(c, events, name) >= 1 <==> exists k | 0 <= k < |events| :: CreatesAt(c, events, k, name)
    decreases |events|
  {
    hide Next, CreatesAt;
    if events != [] {
      var d, rest := Next(c, events[0]), events[1..];
      SomeCreation(d, rest, name);
      forall k: nat | k < |rest| ensures CreatesAt(d, rest, k, name) <==> CreatesAt(c, events, k + 1, name) {
        RestOfRun(c, events, k, name);
      }
      if k :| 0 <= k < |events| && CreatesAt(c, events, k, name) {
        assert k == 0 || CreatesAt(d, rest, k - 1, name);
      }
      if Creations(c, events, name) >= 1 && !CreatesAt(c, events, 0, name) {
        var k :| 0 <= k < |rest| && CreatesAt(d, rest, k, name);
        assert CreatesAt(c, events, k + 1, name);
      }
    }
  }

  lemma {:induction false} TwoCreations(c: Cluster, events: seq<Event>, name: ExtName)
    ensures Creations(c, events, name) >= 2 <==>
            exists j, k | 0 <= j < k < |events| :: CreatesAt(c, events, j, name) && CreatesAt(c, events, k, name)
    decreases |events|
  {
    hide Next, CreatesAt;
    if events != [] {
      var d, rest := Next(c, events[0]), events[1..];
      TwoCreations(d, rest, name);
      SomeCreation(d, rest, name);
      forall k: nat | k < |rest| ensures CreatesAt(d, rest, k, name) <==> CreatesAt(c, events, k + 1, name) {
        RestOfRun(c, events, k, name);
      }
      if j, k :| 0 <= j < k < |events| && CreatesAt(c, events, j, name) && CreatesAt(c, events, k, name) {
        assert CreatesAt(d, rest, k - 1, name);
        assert j == 0 || CreatesAt(d, rest, j - 1, name);
      }
      if Creations(c, events, name) >= 2 {
        if CreatesAt(c, events, 0, name) {
          var k :| 0 <= k < |rest| && CreatesAt(d, rest, k, name);
          assert CreatesAt(c, events, k + 1, name);
        } else {
          var j, k :| 0 <= j < k < |rest| && CreatesAt(d, rest, j, name) && CreatesAt(d, rest, k, name);
          assert CreatesAt(c, events, j + 1, name) && CreatesAt(c, events, k + 1, name);
        }
      }
    }
  }

  /**
   Over any run, lawful or not, an AccessKey that had no key gets a second one exactly when two of its
   reconciles each pass the shortcut by, are told that there is no key, and send a create that is not refused.
   */
  lemma SecondKeyExactlyWhen(c: Cluster, events: seq<Event>, name: ExtName)
    requires c.minted[name] == 0
    ensures Run(c, events).minted[name] >= 2 <==>
            exists j, k | 0 <= j < k < |events| :: CreatesAt(c, events, j, name) && CreatesAt(c, events, k, name)
  {
    hide CreatesAt, Run;
    MintedCountsCreations(c, events, name);
    TwoCreations(c, events, name);
  }
}
