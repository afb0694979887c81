/** A deleted AccessKey goes, and its key with it: exactly when, for any tape, and always when left undisturbed. */
module AccessKeyDeletion {
  import opened Common
  import opened Conditions
  import opened AccessKeyWorld
  import opened AccessKeySpec
  import opened AccessKeyProofs
  import opened AccessKeyTheorems

  // ---------------------------------------------------------------- nobody else removes it

  /** n is being deleted and waits for its finalizer. */
  predicate Waits(c: Cluster, n: NsName) {
    n in c.objects && c.objects[n].deleting && c.objects[n].finalizer
  }

  lemma ActionKeepsWaiting(c: Cluster, a: Action, n: NsName)
    requires Waits(c, n)
    ensures Waits(Perform(c, a), n)
  {
    hide AliveUid, Permitted;
  }

  lemma {:induction false} ActionsKeepWaiting(c: Cluster, actions: seq<Action>, n: NsName)
    requires Waits(c, n)
    ensures Waits(PerformAll(c, actions), n)
    decreases |actions|
  {
    hide Perform, Waits;
    if actions != [] {
      ActionKeepsWaiting(c, actions[0], n);
      ActionsKeepWaiting(Perform(c, actions[0]), actions[1..], n);
    }
  }

  lemma ArrivalKeepsWaiting(w: World, n: NsName)
    requires Waits(w.c, n)
    ensures Waits(Arrive(w), n)
  {
    hide Perform, Waits;
    if w.tape != [] {
      ActionsKeepWaiting(w.c, w.tape[0].actions, n);
    }
  }

  lemma GarageCallsKeepWaiting(w: World, n: NsName, id: Id, name: ExtName)
    requires Waits(w.c, n)
    ensures Waits(GarageLookup(w, name).w.c, n) && Waits(GarageDelete(w, id).w.c, n)
  {
    hide Arrive, ReplyTo;
    ArrivalKeepsWaiting(w, n);
  }

  // ---------------------------------------------------------------- exactly when it goes

  /** Garage answered that the key is gone. */
  predicate Removed(d: Call<()>) {
    d.r.Ok? || d.r == Err(NotFound)
  }

  /**
   From w to v Garage has told the controller that o has no key any more: the recorded key, or else the one
   of its name, was removed or is not there.
   */
  predicate KeyIsOut(w: World, n: NsName, o: KeyObject, v: World) {
    if o.status.accessKeyID != NONE then
      Removed(GarageDelete(w, o.status.accessKeyID)) && v == GarageDelete(w, o.status.accessKeyID).w
    else
      var found := GarageLookup(w, ExtName(n, o.uid));
      match found.r
      case Err(e) => e == NotFound && v == found.w
      case Ok(k) =>
        if k.id == NONE then v == found.w else Removed(GarageDelete(found.w, k.id)) && v == GarageDelete(found.w, k.id).w
  }

  /** The request to drop the finalizer finds the version that was read, and takes effect. */
  predicate Lands(v: World, n: NsName, o: KeyObject) {
    n in Arrive(v).objects && Arrive(v).objects[n].version == o.version && !ReplyTo(v).Refused?
  }

  /** An update that lands removes the object; any other leaves it there. */
  lemma DropMeaning(v: World, n: NsName, o: KeyObject)
    requires Waits(v.c, n)
    ensures var u := UpdateWithoutFinalizer(v, n, o.version);
            && (n !in u.w.c.objects <==> Lands(v, n, o))
            && (u.r.Ok? <==> Lands(v, n, o) && ReplyTo(v).Delivered?)
  {
    hide Arrive, ReplyTo;
    ArrivalKeepsWaiting(v, n);
  }

  /** What follows the answers about the key. */
  lemma ThenDropped(w: World, n: NsName, o: KeyObject, v: World)
    requires GetObject(w, n).r == Ok(o) && o.deleting && o.finalizer && KeyIsOut(GetObject(w, n).w, n, o, v)
    ensures var u := UpdateWithoutFinalizer(v, n, o.version);
            Reconcile(w, n) == End(u.w, if u.r.Err? then Failed(u.r.error) else Done)
  {
    hide GetObject, GarageLookup, GarageDelete, UpdateWithoutFinalizer;
  }

  /** A key that may still be there ends the reconcile with the error of the call that failed. */
  lemma OtherwiseStays(w: World, n: NsName, o: KeyObject)
    requires GetObject(w, n).r == Ok(o) && o.deleting && o.finalizer && Waits(GetObject(w, n).w.c, n)
    requires forall v :: !KeyIsOut(GetObject(w, n).w, n, o, v)
    ensures Waits(Reconcile(w, n).w.c, n) && Reconcile(w, n).outcome.Failed?
  {
    hide GetObject, GarageLookup, GarageDelete, UpdateWithoutFinalizer, Waits;
    var w1 := GetObject(w, n).w;
    var name := ExtName(n, o.uid);
    GarageCallsKeepWaiting(w1, n, o.status.accessKeyID, name);
    var found := GarageLookup(w1, name);
    if o.status.accessKeyID == NONE {
      assert !KeyIsOut(w1, n, o, found.w);
      if found.r.Ok? {
        assert !KeyIsOut(w1, n, o, GarageDelete(found.w, found.r.value.id).w);
        GarageCallsKeepWaiting(found.w, n, found.r.value.id, name);
      }
    } else {
      assert !KeyIsOut(w1, n, o, GarageDelete(w1, o.status.accessKeyID).w);
    }
  }

  lemma ReadWaits(w: World, n: NsName)
    requires GetObject(w, n).r.Ok? && GetObject(w, n).r.value.deleting && GetObject(w, n).r.value.finalizer
    ensures Waits(GetObject(w, n).w.c, n)
  {
  }

  lemma KeyIsOutOnce(w: World, n: NsName, o: KeyObject, u: World, v: World)
    requires KeyIsOut(w, n, o, u) && KeyIsOut(w, n, o, v)
    ensures u == v
  {
    hide GarageLookup, GarageDelete;
  }

  /**
   For every tape: the reconcile of an AccessKey that is being deleted removes it exactly when Garage has
   answered that its key is gone and the update then lands at the version that was read. It is done exactly
   when the answer to that update arrives too, and asks for a retry in every other case.
   */
  lemma GoesExactlyWhen(w: World, n: NsName, o: KeyObject)
    requires GetObject(w, n).r == Ok(o) && o.deleting && o.finalizer
    ensures var w1 := GetObject(w, n).w;
            var end := Reconcile(w, n);
            && (n !in end.w.c.objects <==> exists v :: KeyIsOut(w1, n, o, v) && Lands(v, n, o))
            && (end.outcome == Done <==> exists v :: KeyIsOut(w1, n, o, v) && Lands(v, n, o) && ReplyTo(v).Delivered?)
            && (end.outcome != Done ==> Retries(end.outcome))
  {
    hide GetObject, Reconcile, KeyIsOut, Lands, Waits, UpdateWithoutFinalizer, ReplyTo;
    ReadWaits(w, n);
    var w1 := GetObject(w, n).w;
    if v :| KeyIsOut(w1, n, o, v) {
      ThenDropped(w, n, o, v);
      OutStillWaits(w1, n, o, v);
      DropMeaning(v, n, o);
      forall u | KeyIsOut(w1, n, o, u) ensures u == v {
        KeyIsOutOnce(w1, n, o, u, v);
      }
    } else {
      OtherwiseStays(w, n, o);
      StillThere(Reconcile(w, n).w.c, n);
    }
  }

  lemma StillThere(c: Cluster, n: NsName)
    requires Waits(c, n)
    ensures n in c.objects
  {
  }

  lemma OutStillWaits(w: World, n: NsName, o: KeyObject, v: World)
    requires Waits(w.c, n) && KeyIsOut(w, n, o, v)
    ensures Waits(v.c, n)
  {
    hide GarageLookup, GarageDelete, Waits;
    var name := ExtName(n, o.uid);
    GarageCallsKeepWaiting(w, n, o.status.accessKeyID, name);
    var found := GarageLookup(w, name);
    if found.r.Ok? {
      GarageCallsKeepWaiting(found.w, n, found.r.value.id, name);
    }
  }

  // ---------------------------------------------------------------- undisturbed

  /** The key that an undisturbed deletion removes: the recorded one, or else the one of its name. */
  function Doomed(c: Cluster, n: NsName, o: KeyObject): set<Id> {
    if o.status.accessKeyID != NONE then {o.status.accessKeyID} else Matches(c, ExtName(n, o.uid))
  }

  lemma QuietLookup(w: World, k: nat, name: ExtName)
    requires QuietFor(w, k + 1)
    ensures var found := GarageLookup(w, name);
            && found.w == World(w.c, w.tape[1..]) && QuietFor(found.w, k)
            && (Matches(w.c, name) == {} ==> found.r == Err(NotFound))
            && (forall id | Matches(w.c, name) == {id} :: found.r == Ok(S3Key(id, w.c.keys[id].secret)))
            && (|Matches(w.c, name)| > 1 ==> found.r == Err(MultipleMatches))
  {
    hide QuietFor, Matches;
    var m := Matches(w.c, name);
    NamesInKeys(w.c, name);
    if id :| m == {id} {
      assert id in m;
      QuietCall(w, k, w.c, Ok(S3Key(id, w.c.keys[id].secret)));
    } else if m == {} {
      QuietCall<S3Key>(w, k, w.c, Err(NotFound));
    } else {
      QuietCall<S3Key>(w, k, w.c, Err(MultipleMatches));
    }
  }

  lemma NamesInKeys(c: Cluster, name: ExtName)
    ensures Matches(c, name) <= c.keys.Keys
  {
  }

  lemma QuietDelete(w: World, k: nat, id: Id)
    requires QuietFor(w, k + 1)
    ensures var d := GarageDelete(w, id);
            d.w == World(w.c.(keys := w.c.keys - {id}), w.tape[1..]) && QuietFor(d.w, k) && Removed(d)
  {
    hide QuietFor;
    QuietCall(w, k, w.c.(keys := w.c.keys - {id}), if id in w.c.keys then Ok(()) else Err(NotFound));
    assert id !in w.c.keys ==> w.c.keys - {id} == w.c.keys;
  }

  lemma QuietDrop(w: World, k: nat, n: NsName, version: int)
    requires QuietFor(w, k + 1) && Waits(w.c, n) && w.c.objects[n].version == version
    ensures UpdateWithoutFinalizer(w, n, version) == Call(World(Gone(w.c, n), w.tape[1..]), Ok(()))
  {
    hide QuietFor;
    QuietCall(w, k, Gone(w.c, n), Ok(()));
  }

  /** The world in which Garage has answered, undisturbed. */
  lemma QuietKeyIsOut(w: World, n: NsName, o: KeyObject) returns (v: World)
    requires QuietFor(w, 3) && NONE !in w.c.keys && (o.status.accessKeyID == NONE ==> |Matches(w.c, ExtName(n, o.uid))| <= 1)
    ensures KeyIsOut(w, n, o, v) && v.c == w.c.(keys := w.c.keys - Doomed(w.c, n, o)) && QuietFor(v, 1)
  {
    hide QuietFor, GarageLookup, GarageDelete;
    var name := ExtName(n, o.uid);
    if o.status.accessKeyID != NONE {
      QuietDelete(w, 2, o.status.accessKeyID);
      v := GarageDelete(w, o.status.accessKeyID).w;
      QuietLess(v, 1);
    } else {
      QuietLookup(w, 2, name);
      var found := GarageLookup(w, name);
      if Matches(w.c, name) == {} {
        v := found.w;
        QuietLess(v, 1);
        assert w.c.keys - {} == w.c.keys;
      } else {
        var id := Member(Matches(w.c, name));
        OnlyMember(Matches(w.c, name), id);
        QuietDelete(found.w, 1, id);
        v := GarageDelete(found.w, id).w;
      }
    }
  }

  lemma QuietLess(w: World, k: nat)
    requires QuietFor(w, k + 1)
    ensures QuietFor(w, k)
  {
  }

  lemma OnlyMember(s: set<Id>, id: Id)
    requires id in s && |s| <= 1
    ensures s == {id}
  {
    assert |s - {id}| == 0;
  }

  /**
   Left undisturbed, whatever the cluster: a deleted AccessKey goes in one reconcile, with the recorded key or
   else the key of its name, and nothing else changes. Only when it has recorded no key and Garage has
   several of its name does it stay.
   */
  lemma QuietDeletion(c: Cluster, n: NsName, tape: seq<Fate>)
    requires Waits(c, n) && NONE !in c.keys && QuietFor(World(c, tape), 4)
    ensures var o := c.objects[n];
            var end := Reconcile(World(c, tape), n);
            if o.status.accessKeyID == NONE && |Matches(c, ExtName(n, o.uid))| > 1
            then end.w.c == c && end.outcome == Failed(MultipleMatches)
            else end.w.c == c.(objects := c.objects - {n}, keys := c.keys - Doomed(c, n, o)) && end.outcome == Done
  {
    hide QuietFor, GarageLookup, KeyIsOut, UpdateWithoutFinalizer, Doomed, Matches, Reconcile;
    var o := c.objects[n];
    var w := World(c, tape);
    QuietCall(w, 3, c, Ok(o));
    var w1 := World(c, tape[1..]);
    assert GetObject(w, n) == Call(w1, Ok(o));
    if o.status.accessKeyID == NONE && |Matches(c, ExtName(n, o.uid))| > 1 {
      QuietLookup(w1, 2, ExtName(n, o.uid));
      SeveralMatches(w, w1, n, o);
    } else {
      var v := QuietKeyIsOut(w1, n, o);
      ThenDropped(w, n, o, v);
      QuietDrop(v, 0, n, o.version);
    }
  }

  lemma SeveralMatches(w: World, w1: World, n: NsName, o: KeyObject)
    requires GetObject(w, n) == Call(w1, Ok(o)) && o.deleting && o.finalizer && o.status.accessKeyID == NONE
    requires GarageLookup(w1, ExtName(n, o.uid)).r == Err(MultipleMatches)
    ensures Reconcile(w, n) == End(GarageLookup(w1, ExtName(n, o.uid)).w, Failed(MultipleMatches))
  {
    hide GetObject, GarageLookup;
  }

  /**
   So in every reachable state a deleted AccessKey that is left undisturbed goes in its next reconcile, no key
   of its name stays in Garage, and all else stays as it was.
   */
  lemma DeletedKeyGoes(start: Cluster, events: seq<Event>, n: NsName, tape: seq<Fate>)
    requires Initial(start) && n in Run(start, events).objects && Run(start, events).objects[n].deleting
    requires QuietFor(World(Run(start, events), tape), 4)
    ensures var c := Run(start, events);
            var end := Reconcile(World(c, tape), n);
            && end.outcome == Done && n !in end.w.c.objects
            && (forall id :: id in end.w.c.keys <==> id in c.keys && c.keys[id].name != ExtName(n, c.objects[n].uid))
            && end.w.c == c.(objects := c.objects - {n}, keys := end.w.c.keys)
  {
    InvAlways(start, events);
    hide Run, QuietFor, Reconcile;
    var c := Run(start, events);
    DoomedIsOwn(c, n);
    QuietDeletion(c, n, tape);
  }

  /** In a reachable state the doomed key is the only one of its name. */
  lemma DoomedIsOwn(c: Cluster, n: NsName)
    requires Inv(c) && n in c.objects && c.objects[n].deleting
    ensures var o := c.objects[n];
            && Waits(c, n) && NONE !in c.keys && |Matches(c, ExtName(n, o.uid))| <= 1
            && (forall id | id in c.keys :: c.keys[id].name == ExtName(n, o.uid) <==> id in Doomed(c, n, o))
  {
    hide MintInv;
    var o := c.objects[n];
    assert ObjectInv(c, n, o);
    var m := Matches(c, ExtName(n, o.uid));
    if m != {} {
      var id := Member(m);
      assert forall x | x in m :: x == id;
      assert m == {id};
    }
  }

  /**
   Out of reach of these runs, when somebody removes Garage keys or a key was created twice: the object goes
   and a key of its name stays exactly when a key is recorded and another one has the name.
   */
  lemma LeavesKeyExactlyWhen(c: Cluster, n: NsName, tape: seq<Fate>)
    requires Waits(c, n) && NONE !in c.keys && QuietFor(World(c, tape), 4)
    ensures var o := c.objects[n];
            var d := Reconcile(World(c, tape), n).w.c;
            n !in d.objects && Matches(d, ExtName(n, o.uid)) != {}
            <==> o.status.accessKeyID != NONE && Matches(c, ExtName(n, o.uid)) - {o.status.accessKeyID} != {}
  {
    hide QuietFor, Reconcile;
    QuietDeletion(c, n, tape);
    var o := c.objects[n];
    var name := ExtName(n, o.uid);
    var d := Reconcile(World(c, tape), n).w.c;
    if n !in d.objects {
      assert Matches(d, name) == Matches(c, name) - Doomed(c, n, o);
    }
  }
}
