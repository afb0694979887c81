/** Left undisturbed, the AccessKey controller settles an AccessKey in one reconcile. */
module AccessKeyConvergence {
  import opened Common
  import opened Conditions
  import opened AccessKeyWorld
  import opened AccessKeySpec
  import opened AccessKeyProofs
  import opened AccessKeyTheorems
  import opened AccessKeyCreation
  import opened AccessKeyDeletion
  import opened AccessKeyCauses

  // ---------------------------------------------------------------- the key

  /** c, perhaps with a new key for o. */
  ghost predicate WithItsKey(c: Cluster, d: Cluster, n: NsName, o: KeyObject) {
    d == c || d == Minted(c, ExtName(n, o.uid))
  }

  lemma QuietCreate(w: World, k: nat, name: ExtName)
    requires QuietFor(w, k + 1)
    ensures GarageCreate(w, name) == Call(World(Minted(w.c, name), w.tape[1..]), Ok(S3Key(w.c.clock, -w.c.clock)))
    ensures QuietFor(World(Minted(w.c, name), w.tape[1..]), k)
  {
    hide QuietFor;
    QuietCall(w, k, Minted(w.c, name), Ok(S3Key(w.c.clock, -w.c.clock)));
  }

  lemma QuietObtain(w: World, m: nat, n: NsName, o: KeyObject) returns (v: World, k: S3Key)
    requires JustRead(w.c, n, o) && QuietFor(w, m + 2)
    ensures Obtains(w, n, o, v, k) && WithItsKey(w.c, v.c, n, o) && QuietFor(v, m)
  {
    hide QuietFor, Matches, GarageLookup, GarageCreate, Inv;
    var name := ExtName(n, o.uid);
    if o.status.accessKeyID != NONE {
      RecordedKeyIsThere(w.c, n, o);
      k := S3Key(o.status.accessKeyID, w.c.keys[o.status.accessKeyID].secret);
      QuietCall(w, m + 1, w.c, Ok(k));
      v := World(w.c, w.tape[1..]);
      QuietLess(v, m);
    } else {
      AtMostOneMatch(w.c, name);
      QuietLookup(w, m + 1, name);
      var found := GarageLookup(w, name);
      if Matches(w.c, name) == {} {
        QuietCreate(found.w, m, name);
        v, k := GarageCreate(found.w, name).w, S3Key(w.c.clock, -w.c.clock);
      } else {
        var id := Member(Matches(w.c, name));
        OnlyMember(Matches(w.c, name), id);
        v, k := found.w, found.r.value;
        QuietLess(v, m);
      }
    }
  }

  lemma RecordedKeyIsThere(c: Cluster, n: NsName, o: KeyObject)
    requires JustRead(c, n, o) && o.status.accessKeyID != NONE
    ensures o.status.accessKeyID in c.keys
  {
    assert ObjectInv(c, n, o);
  }

  lemma AtMostOneMatch(c: Cluster, name: ExtName)
    requires Inv(c)
    ensures |Matches(c, name)| <= 1
  {
    var m := Matches(c, name);
    if m != {} {
      var id := Member(m);
      assert forall x | x in m :: x == id;
      assert m == {id};
    }
  }

  // ---------------------------------------------------------------- the Secret

  /** The cluster with the credentials k in the Secret s of uid. */
  function WithSecret(c: Cluster, s: NsName, uid: Id, k: S3Key): Cluster {
    c.(secrets := c.secrets[s := Secret(Some(uid), k.id, k.secret)])
  }

  lemma QuietRead(v: World, m: nat, s: NsName)
    requires QuietFor(v, m + 1)
    ensures v.tape != [] && GetSecret(v, s) == Call(World(v.c, v.tape[1..]), if s in v.c.secrets then Ok(v.c.secrets[s]) else Err(NotFound))
    ensures QuietFor(World(v.c, v.tape[1..]), m)
  {
    hide QuietFor;
    QuietCall(v, m, v.c, if s in v.c.secrets then Ok(v.c.secrets[s]) else Err(NotFound));
  }

  lemma QuietTaken(v: World, m: nat, n: NsName, o: KeyObject, k: S3Key) returns (p: Publication)
    requires QuietFor(v, m + 1) && Blocked(v.c, n, o)
    ensures p.Taken? && Publishes(v, n, o, k, p) && After(p).c == v.c && QuietFor(After(p), m)
  {
    hide QuietFor, GetSecret;
    QuietRead(v, m, NsName(n.ns, o.secretName));
    p := Taken(GetSecret(v, NsName(n.ns, o.secretName)).w);
  }

  lemma QuietPublish(v: World, m: nat, n: NsName, o: KeyObject, k: S3Key) returns (p: Publication)
    requires QuietFor(v, m + 3) && !Blocked(v.c, n, o)
    ensures Publishes(v, n, o, k, p) && ErrorOf(p) == None && QuietFor(After(p), m)
    ensures After(p).c == WithSecret(v.c, NsName(n.ns, o.secretName), o.uid, k)
  {
    hide QuietFor, GetSecret;
    var s := NsName(n.ns, o.secretName);
    QuietRead(v, m + 2, s);
    var w1 := GetSecret(v, s).w;
    QuietRead(w1, m + 1, s);
    var w2 := GetSecret(w1, s).w;
    QuietCall(w2, m, WithSecret(v.c, s, o.uid, k), Ok(()));
    if s !in v.c.secrets {
      p := Sent(CreateSecret(w2, s, Secret(Some(o.uid), k.id, k.secret)));
    } else if v.c.secrets[s].accessKeyID == k.id && v.c.secrets[s].secretAccessKey == k.secret {
      p := Unchanged(w2);
      assert v.c.secrets[s := Secret(Some(o.uid), k.id, k.secret)] == v.c.secrets;
      QuietLess(w2, m);
    } else {
      p := Sent(UpdateSecret(w2, s, v.c.secrets[s], Secret(Some(o.uid), k.id, k.secret)));
    }
  }

  lemma QuietCleanup(v: World, m: nat, s: NsName)
    requires QuietFor(v, m + 1)
    ensures var d := DeleteSecret(v, s);
            && d.w == World(v.c.(secrets := v.c.secrets - {s}), v.tape[1..]) && QuietFor(d.w, m)
            && (d.r.Ok? || d.r.error == NotFound)
  {
    hide QuietFor;
    QuietCall(v, m, v.c.(secrets := v.c.secrets - {s}), if s in v.c.secrets then Ok(()) else Err(NotFound));
    assert s !in v.c.secrets ==> v.c.secrets - {s} == v.c.secrets;
  }

  // ---------------------------------------------------------------- the run

  /** The Secrets after publishing: the own one holds the credentials, that of an old name is gone. */
  function Settled(c: Cluster, n: NsName, o: KeyObject, k: S3Key): Cluster {
    var d := WithSecret(c, NsName(n.ns, o.secretName), o.uid, k);
    if Renamed(o) then d.(secrets := d.secrets - {NsName(n.ns, o.status.secretName)}) else d
  }

  /** The status that records either end. */
  ghost predicate Says(o: KeyObject, s: KeyStatus, taken: bool) {
    && s.observedGeneration == o.generation
    && (if taken then IsMarked(s, Ready, False, SecretNameConflict, o.generation)
        else IsMarked(s, Ready, True, Available, o.generation) && s.secretName == o.secretName)
  }

  lemma QuietRunTaken(v: World, w: World, m: nat, n: NsName, o: KeyObject, k: S3Key)
    requires !HasObserved(o) && Obtains(w, n, o, v, k) && QuietFor(v, m + 1) && Blocked(v.c, n, o)
    ensures var run := Computed(w, n, o);
            run.error == None && run.w.c == v.c && QuietFor(run.w, m) && Says(o, run.status, true) && run.status.accessKeyID == k.id
  {
    hide Computed, QuietFor, Obtains, Publishes, Find, Blocked, HasObserved;
    var p := QuietTaken(v, m, n, o, k);
    SecretFailureByCause(w, n, o, v, k, p);
    ReadyReportsKeyFirst(w, n, o);
  }

  lemma QuietRunFree(v: World, w: World, m: nat, n: NsName, o: KeyObject, k: S3Key)
    requires !HasObserved(o) && Obtains(w, n, o, v, k) && QuietFor(v, m + 4) && !Blocked(v.c, n, o)
    ensures var run := Computed(w, n, o);
            && run.error == None && run.w.c == Settled(v.c, n, o, k) && QuietFor(run.w, m)
            && Says(o, run.status, false) && run.status.accessKeyID == k.id
  {
    hide Computed, QuietFor, Obtains, Publishes, Find, Blocked, HasObserved, DeleteSecret, After, ErrorOf;
    var p := QuietPublish(v, m + 1, n, o, k);
    ReadyReportsKeyFirst(w, n, o);
    if Renamed(o) {
      CleanupByCause(w, n, o, v, k, p);
      QuietCleanup(After(p), m, NsName(n.ns, o.status.secretName));
    } else {
      PublishedByCause(w, n, o, v, k, p);
      QuietLess(After(p), m);
    }
  }

  /** An undisturbed write of a status that differs. */
  lemma QuietEnd(w: World, n: NsName, o: KeyObject)
    requires var run := Computed(w, n, o); run.error == None && run.status != o.status && QuietFor(run.w, 2) && n in run.w.c.objects
    ensures var run := Computed(w, n, o);
            ReconcileLive(w, n, o).outcome == Done && ReconcileLive(w, n, o).w.c == StatusReplaced(run.w.c, n, run.status)
  {
    hide Computed, QuietFor;
    var run := Computed(w, n, o);
    QuietCall(run.w, 1, run.w.c, Ok(run.w.c.objects[n]));
    var w1 := World(run.w.c, run.w.tape[1..]);
    QuietCall(w1, 0, StatusReplaced(run.w.c, n, run.status), Ok(()));
  }

  /** What one undisturbed reconcile of an unobserved generation does. */
  ghost predicate SettledFrom(c: Cluster, d: Cluster, n: NsName, o: KeyObject) {
    && n in d.objects && d.objects == c.objects[n := o.(status := d.objects[n].status, version := d.objects[n].version)]
    && exists b: Cluster, k: S3Key :: WithItsKey(c, b, n, o) && d.objects[n].status.accessKeyID == k.id && Says(o, d.objects[n].status, Blocked(c, n, o))
                      && d.keys == b.keys && d.secrets == (if Blocked(c, n, o) then c.secrets else Settled(b, n, o, k).secrets)
  }

  lemma QuietLive(w: World, n: NsName, o: KeyObject)
    requires JustRead(w.c, n, o) && QuietFor(w, 8) && o.status.observedGeneration != o.generation
    ensures ReconcileLive(w, n, o).outcome == Done && SettledFrom(w.c, ReconcileLive(w, n, o).w.c, n, o)
  {
    hide Inv, QuietFor, Obtains, Computed, Blocked, ReconcileLive, Find, Settled;
    var v, k := QuietObtain(w, 6, n, o);
    KeyLeavesSecrets(w.c, v.c, n, o);
    assert !HasObserved(o);
    if Blocked(w.c, n, o) {
      QuietRunTaken(v, w, 5, n, o, k);
      QuietLess(Computed(w, n, o).w, 4);
      QuietLess(Computed(w, n, o).w, 3);
    } else {
      QuietRunFree(v, w, 2, n, o, k);
    }
    SettledLeavesObjects(v.c, n, o, k);
    var run := Computed(w, n, o);
    if Blocked(w.c, n, o) {
      QuietLess(run.w, 2);
    }
    QuietEnd(w, n, o);
    var d := ReconcileLive(w, n, o).w.c;
    assert WithItsKey(w.c, v.c, n, o) && d.objects[n].status.accessKeyID == k.id && Says(o, d.objects[n].status, Blocked(w.c, n, o));
  }

  lemma SettledLeavesObjects(c: Cluster, n: NsName, o: KeyObject, k: S3Key)
    ensures Settled(c, n, o, k).objects == c.objects && Settled(c, n, o, k).keys == c.keys
  {
  }

  lemma KeyLeavesSecrets(c: Cluster, d: Cluster, n: NsName, o: KeyObject)
    requires WithItsKey(c, d, n, o)
    ensures d.secrets == c.secrets && d.objects == c.objects && (Blocked(d, n, o) <==> Blocked(c, n, o))
  {
  }

  // ---------------------------------------------------------------- from every reachable state

  /** A foreign Secret has the name now, or was found to have it at this generation already. */
  ghost predicate NameIsTaken(c: Cluster, n: NsName, o: KeyObject) {
    var s := NsName(n.ns, o.secretName);
    if HasObserved(o) then IsMarked(o.status, Ready, False, SecretNameConflict, o.generation)
    else s in c.secrets && c.secrets[s].controller != Some(o.uid)
  }

  /** Everything about n is as it should be, but for a Secret whose name is taken. */
  ghost predicate InOrder(d: Cluster, n: NsName, taken: bool) {
    && n in d.objects && d.objects[n].finalizer && d.objects[n].status.observedGeneration == d.objects[n].generation
    && var p := d.objects[n];
    && p.status.accessKeyID in d.keys && d.keys[p.status.accessKeyID].name == ExtName(n, p.uid)
    && (Holds(p.status.conditions, Ready, True) <==> !taken)
    && (taken ==> IsMarked(p.status, Ready, False, SecretNameConflict, p.generation))
    && (!taken ==>
          && var s := NsName(n.ns, p.secretName);
          && p.status.secretName == p.secretName && s in d.secrets
          && d.secrets[s] == Secret(Some(p.uid), p.status.accessKeyID, d.keys[p.status.accessKeyID].secret))
  }

  lemma SaysInOrder(d: Cluster, n: NsName, taken: bool)
    requires Inv(d) && n in d.objects && d.objects[n].finalizer && !d.objects[n].deleting && Says(d.objects[n], d.objects[n].status, taken)
    ensures InOrder(d, n, taken)
  {
    assert ObjectInv(d, n, d.objects[n]);
  }

  /** What the undisturbed reconcile changes besides the status: a key may be new, the own Secret, and the old one. */
  ghost predicate OnlyOwn(c: Cluster, d: Cluster, n: NsName, o: KeyObject, taken: bool) {
    && n in c.objects && d.objects.Keys == c.objects.Keys && (forall m | m in c.objects && m != n :: d.objects[m] == c.objects[m])
    && d.objects[n] == o.(finalizer := true, status := d.objects[n].status, version := d.objects[n].version)
    && (forall id | id in c.keys :: id in d.keys && d.keys[id] == c.keys[id])
    && (taken ==> d.secrets == c.secrets)
    && (forall s | s != NsName(n.ns, o.secretName) && s != NsName(n.ns, o.status.secretName) ::
          (s in d.secrets <==> s in c.secrets) && (s in d.secrets ==> d.secrets[s] == c.secrets[s]))
    && (!taken && Renamed(o) ==> NsName(n.ns, o.status.secretName) !in d.secrets)
  }

  lemma SettledIsOnlyOwn(c: Cluster, d: Cluster, n: NsName, o: KeyObject)
    requires JustRead(c, n, o) && SettledFrom(c, d, n, o) && o.status.observedGeneration != o.generation
    ensures OnlyOwn(c, d, n, o, NameIsTaken(c, n, o)) && Says(d.objects[n], d.objects[n].status, NameIsTaken(c, n, o))
  {
    hide Find, Says, Settled, WithItsKey, Inv;
    assert !HasObserved(o);
    assert NameIsTaken(c, n, o) <==> Blocked(c, n, o);
    var b: Cluster, k: S3Key :| WithItsKey(c, b, n, o) && d.objects[n].status.accessKeyID == k.id && Says(o, d.objects[n].status, Blocked(c, n, o))
                                && d.keys == b.keys && d.secrets == (if Blocked(c, n, o) then c.secrets else Settled(b, n, o, k).secrets);
    KeysStay(c, b, n, o);
    SettledSecrets(b, n, o, k);
    KeyLeavesSecrets(c, b, n, o);
    SaysAgain(o, d.objects[n], Blocked(c, n, o));
  }

  lemma KeysStay(c: Cluster, b: Cluster, n: NsName, o: KeyObject)
    requires Inv(c) && WithItsKey(c, b, n, o)
    ensures forall id | id in c.keys :: id in b.keys && b.keys[id] == c.keys[id]
  {
    assert KeysInv(c);
  }

  lemma SettledSecrets(c: Cluster, n: NsName, o: KeyObject, k: S3Key)
    ensures var d := Settled(c, n, o, k);
            && (forall s | s != NsName(n.ns, o.secretName) && s != NsName(n.ns, o.status.secretName) ::
                  (s in d.secrets <==> s in c.secrets) && (s in d.secrets ==> d.secrets[s] == c.secrets[s]))
            && (Renamed(o) ==> NsName(n.ns, o.status.secretName) !in d.secrets)
  {
  }

  lemma SaysAgain(o: KeyObject, p: KeyObject, taken: bool)
    requires Says(o, p.status, taken) && p.generation == o.generation && p.secretName == o.secretName
    ensures Says(p, p.status, taken)
  {
    hide Find;
  }

  /** An observed generation is left as it is. */
  lemma ObservedIsLeft(w: World, n: NsName, o: KeyObject)
    requires JustRead(w.c, n, o) && o.status.observedGeneration == o.generation
    ensures ReconcileLive(w, n, o) == End(w, Done) && InOrder(w.c, n, NameIsTaken(w.c, n, o)) && OnlyOwn(w.c, w.c, n, o, NameIsTaken(w.c, n, o))
  {
    hide Aggregated, Initialized, Shortcut, FullPath;
    ObservedIsRecorded(w.c, n, o);
    ShortcutLeavesStatus(o);
    ShortcutIsObserved(o);
    assert ObjectInv(w.c, n, o);
  }

  lemma QuietLiveSettles(w: World, n: NsName, o: KeyObject)
    requires JustRead(w.c, n, o) && QuietFor(w, 8)
    ensures var end := ReconcileLive(w, n, o);
            end.outcome == Done && InOrder(end.w.c, n, NameIsTaken(w.c, n, o)) && OnlyOwn(w.c, end.w.c, n, o, NameIsTaken(w.c, n, o))
  {
    hide QuietFor, ReconcileLive, NameIsTaken, InOrder, SettledFrom, Says;
    if o.status.observedGeneration == o.generation {
      ObservedIsLeft(w, n, o);
    } else {
      QuietLive(w, n, o);
      SettledIsOnlyOwn(w.c, ReconcileLive(w, n, o).w.c, n, o);
      ReconcileLiveKeepsInv(w, n, o);
      SaysInOrder(ReconcileLive(w, n, o).w.c, n, NameIsTaken(w.c, n, o));
    }
  }

  /** The first reconcile of an AccessKey adds the finalizer and goes on. */
  lemma QuietBeginning(c: Cluster, n: NsName, tape: seq<Fate>) returns (w: World, o: KeyObject)
    requires Inv(c) && n in c.objects && !c.objects[n].deleting && QuietFor(World(c, tape), 10)
    ensures Reconcile(World(c, tape), n) == ReconcileLive(w, n, o) && JustRead(w.c, n, o) && QuietFor(w, 8)
    ensures o == c.objects[n].(finalizer := true, version := o.version) && w.c == c.(objects := c.objects[n := o], clock := w.c.clock)
  {
    hide QuietFor, Inv, ReconcileLive;
    var read := c.objects[n];
    QuietCall(World(c, tape), 9, c, Ok(read));
    var w1 := World(c, tape[1..]);
    if read.finalizer {
      w, o := w1, read;
      QuietLess(w1, 8);
      assert c.objects[n := o] == c.objects;
    } else {
      o := read.(finalizer := true, version := c.clock);
      var after := c.(objects := c.objects[n := o], clock := c.clock + 1);
      QuietCall(w1, 8, after, Ok(o));
      PatchKeepsInv(w1, n);
      w := World(after, w1.tape[1..]);
    }
  }

  /**
   In every reachable state one undisturbed reconcile of a live AccessKey settles it: it ends without error
   and with this generation observed, the AccessKey has its key, and it is Ready with current credentials in
   its own Secret, the one of an old name being gone; unless the name of the Secret is taken, which is then
   what its status says.
   */
  lemma QuietReconcileSettles(start: Cluster, events: seq<Event>, n: NsName, tape: seq<Fate>)
    requires Initial(start) && n in Run(start, events).objects && !Run(start, events).objects[n].deleting
    requires QuietFor(World(Run(start, events), tape), 10)
    ensures var c := Run(start, events);
            var o := c.objects[n];
            var end := Reconcile(World(c, tape), n);
            end.outcome == Done && InOrder(end.w.c, n, NameIsTaken(c, n, o)) && OnlyOwn(c, end.w.c, n, o, NameIsTaken(c, n, o))
  {
    InvAlways(start, events);
    hide Run, QuietFor, Reconcile, ReconcileLive, Inv, InOrder;
    var c := Run(start, events);
    var w, o := QuietBeginning(c, n, tape);
    QuietLiveSettles(w, n, o);
    SameBeginning(c, w.c, ReconcileLive(w, n, o).w.c, n, c.objects[n], o);
  }

  /** The finalizer and the version do not matter. */
  lemma SameBeginning(c: Cluster, b: Cluster, d: Cluster, n: NsName, o: KeyObject, p: KeyObject)
    requires n in c.objects && c.objects[n] == o && p == o.(finalizer := true, version := p.version) && b == c.(objects := c.objects[n := p], clock := b.clock)
    requires OnlyOwn(b, d, n, p, NameIsTaken(b, n, p))
    ensures (NameIsTaken(b, n, p) <==> NameIsTaken(c, n, o)) && OnlyOwn(c, d, n, o, NameIsTaken(c, n, o))
  {
    hide Find;
  }
}
