/**
 Where the Bucket controller falls short of its promises once the base assumptions are dropped: exactly
 when, and on concrete runs.
 */
module BucketLimits {
  import opened Common
  import opened Conditions
  import opened Quotas
  import opened BucketWorld
  import opened BucketSpec
  import opened BucketProofs
  import opened BucketMaps
  import opened BucketTheorems
  import opened BucketQuiescence

  // ---------------------------------------------------------------- the recorded ID

  /**
   Bucket ID and alias are recorded once. A Ready reconcile that has just configured the bucket its alias
   leads to names that bucket in its status exactly when no other was recorded before, as it is when
   spec.name was exchanged for spec.existingBucket.
   */
  lemma ReadyNamesItsBucketExactlyWhen(w: World, q: Job, o: BucketObject)
    requires Held(w.c, q.n, o) && Holds(Computed(w, q, o).status.conditions, Ready, True)
    ensures var run := Computed(w, q, o);
            && AliasOf(o) in run.w.c.aliases
            && var id := run.w.c.aliases[AliasOf(o)];
            && id in run.w.c.buckets && Meets(run.w.c.buckets[id], o.spec.quotas)
            && (run.status.bucketID == id <==> o.status.bucketID == NONE || o.status.bucketID == id)
  {
    hide Held, Kept, Resolve, SendQuotas, EnsureConfigMap, DeleteStaleConfigMaps, AliasOf, Meets, StatusInv, Computed, Holds, Succeeds, Cleanup, Publishing;
    ReadyExactlyWhen(w, q, o);
    ReadyBucketIsConfigured(w, q, o);
    SuccessIdentity(w, q, o);
    SuccessResolves(w, q, o);
    PublishingID(o, Resolve(w, q, o).r.value);
  }

  lemma SuccessResolves(w: World, q: Job, o: BucketObject)
    requires Succeeds(w, q, o)
    ensures Resolve(w, q, o).r.Ok?
  {
  }

  lemma PublishingID(o: BucketObject, b: S3Bucket)
    ensures Publishing(o, b).bucketID == if o.status.bucketID == NONE then b.id else o.status.bucketID
  {
    hide InitAll, SetCondition, AliasOf;
  }

  // ---------------------------------------------------------------- a failed import

  /**
   An import that fails returns no error, only a delay, and does not look at the ConfigMap: its condition
   says what it said before.
   */
  lemma FailedImportKeepsMapCondition(w: World, q: Job, o: BucketObject)
    requires o.spec.source.Existing? && Resolve(w, q, o).r.Err?
    ensures var run := Computed(w, q, o);
            && run.outcome.RequeueAfter? && run.w == Resolve(w, q, o).w
            && Find(run.status.conditions, BucketConfigMapReady) == Find(Initialized(o.status).conditions, BucketConfigMapReady)
  {
    hide Find, SetCondition, InitAll, Resolve, Aggregated;
    AggregatedMeaning(ReconcileBucket(w, q, o, Initialized(o.status)).status, o.generation);
  }

  // ---------------------------------------------------------------- a foreign ConfigMap deleted

  /** Between the two worlds a delete has taken away s, which uid did not control. */
  ghost predicate TookForeign(v: World, w: World, s: NsName, uid: Id) {
    exists i | |v.log| <= i < |w.log| :: IsForeignVictim(w.log[i], s, uid)
  }

  predicate IsForeignVictim(e: Entry, s: NsName, uid: Id) {
    e.ConfigMapDeleted? && e.s == s && e.victim.Some? && e.victim.value.controller != Some(uid)
  }

  /** The world in which item i of the list has its turn, unless the loop has ended before. */
  function TurnOf(w: World, ns: Id, items: seq<Item>, desired: Id, uid: Id, i: nat): Option<World>
    requires i < |items|
    decreases |items|
  {
    if i == 0 then Some(w)
    else if !IsStale(items[0], desired, uid) then TurnOf(w, ns, items[1..], desired, uid, i - 1)
    else
      var deleted := DeleteConfigMap(w, NsName(ns, items[0].name));
      if deleted.r.Err? && deleted.r.error != NotFound then None else TurnOf(deleted.w, ns, items[1..], desired, uid, i - 1)
  }

  /** A delete of s in this world takes away what uid does not control. */
  predicate HitsForeign(w: World, s: NsName, uid: Id) {
    s in Arrive(w).configMaps && Arrive(w).configMaps[s].controller != Some(uid) && !ReplyTo(w).Refused?
  }

  /** Item i was listed as stale under the name of s; when its delete arrives, s is foreign. */
  predicate Strikes(w: World, ns: Id, items: seq<Item>, desired: Id, uid: Id, s: NsName, i: nat)
    requires i < |items|
  {
    && IsStale(items[i], desired, uid) && NsName(ns, items[i].name) == s
    && TurnOf(w, ns, items, desired, uid, i).Some? && HitsForeign(TurnOf(w, ns, items, desired, uid, i).value, s, uid)
  }

  lemma DeleteTakes(w: World, t: NsName, s: NsName, uid: Id)
    ensures var d := DeleteConfigMap(w, t).w;
            && |d.log| == |w.log| + 1 && d.log[..|w.log|] == w.log
            && (IsForeignVictim(d.log[|w.log|], s, uid) <==> t == s && HitsForeign(w, s, uid))
  {
    hide Arrive, Rest, ReplyTo;
  }

  lemma {:induction false} DeleteEachExtends(w: World, ns: Id, items: seq<Item>, desired: Id, uid: Id)
    ensures var d := DeleteEach(w, ns, items, desired, uid).w;
            |w.log| <= |d.log| && d.log[..|w.log|] == w.log
    decreases |items|
  {
    hide DeleteConfigMap;
    if items != [] {
      if IsStale(items[0], desired, uid) {
        var t := NsName(ns, items[0].name);
        DeleteTakes(w, t, t, uid);
        var deleted := DeleteConfigMap(w, t).w;
        DeleteEachExtends(deleted, ns, items[1..], desired, uid);
        var d := DeleteEach(deleted, ns, items[1..], desired, uid).w;
        assert d.log[..|w.log|] == d.log[..|deleted.log|][..|w.log|];
      } else {
        DeleteEachExtends(w, ns, items[1..], desired, uid);
      }
    }
  }

  /** Of three worlds with growing logs. */
  lemma TookInEither(u: World, v: World, w: World, s: NsName, uid: Id)
    requires |u.log| <= |v.log| <= |w.log| && w.log[..|v.log|] == v.log
    ensures TookForeign(u, w, s, uid) <==> TookForeign(u, v, s, uid) || TookForeign(v, w, s, uid)
  {
    assert forall i | 0 <= i < |v.log| :: w.log[i] == v.log[i] by {
      assert forall i | 0 <= i < |v.log| :: w.log[..|v.log|][i] == w.log[i];
    }
  }

  lemma TookByOne(v: World, w: World, s: NsName, uid: Id)
    requires |w.log| == |v.log| + 1
    ensures TookForeign(v, w, s, uid) <==> IsForeignVictim(w.log[|v.log|], s, uid)
  {
  }

  ghost predicate SomeStrike(w: World, ns: Id, items: seq<Item>, desired: Id, uid: Id, s: NsName) {
    exists i | 0 <= i < |items| :: Strikes(w, ns, items, desired, uid, s, i)
  }

  lemma LaterStrikes(w: World, v: World, ns: Id, items: seq<Item>, desired: Id, uid: Id, s: NsName)
    requires items != []
    requires forall i: nat | i < |items| - 1 :: TurnOf(w, ns, items, desired, uid, i + 1) == TurnOf(v, ns, items[1..], desired, uid, i)
    ensures SomeStrike(w, ns, items, desired, uid, s) <==>
            Strikes(w, ns, items, desired, uid, s, 0) || SomeStrike(v, ns, items[1..], desired, uid, s)
  {
    hide TurnOf, HitsForeign;
    forall i: nat | i < |items| - 1
      ensures Strikes(w, ns, items, desired, uid, s, i + 1) <==> Strikes(v, ns, items[1..], desired, uid, s, i)
    {
      assert items[1..][i] == items[i + 1];
    }
    if i :| 0 <= i < |items| && Strikes(w, ns, items, desired, uid, s, i) {
      assert i == 0 || Strikes(v, ns, items[1..], desired, uid, s, i - 1);
    }
    if i :| 0 <= i < |items| - 1 && Strikes(v, ns, items[1..], desired, uid, s, i) {
      assert Strikes(w, ns, items, desired, uid, s, i + 1);
    }
  }

  lemma NoneLater(w: World, ns: Id, items: seq<Item>, desired: Id, uid: Id, s: NsName)
    requires items != [] && forall i: nat | 0 < i < |items| :: TurnOf(w, ns, items, desired, uid, i) == None
    ensures SomeStrike(w, ns, items, desired, uid, s) <==> Strikes(w, ns, items, desired, uid, s, 0)
  {
    hide TurnOf, HitsForeign;
    assert forall i: nat | 0 < i < |items| :: !Strikes(w, ns, items, desired, uid, s, i);
  }

  lemma TookNothing(w: World, s: NsName, uid: Id)
    ensures !TookForeign(w, w, s, uid)
  {
  }

  lemma {:induction false} LoopTakesExactlyWhen(w: World, ns: Id, items: seq<Item>, desired: Id, uid: Id, s: NsName)
    ensures TookForeign(w, DeleteEach(w, ns, items, desired, uid).w, s, uid) <==> SomeStrike(w, ns, items, desired, uid, s)
    decreases |items|
  {
    hide DeleteConfigMap, HitsForeign, IsForeignVictim, TookForeign;
    TookNothing(w, s, uid);
    if items != [] {
      if !IsStale(items[0], desired, uid) {
        LoopTakesExactlyWhen(w, ns, items[1..], desired, uid, s);
        LaterStrikes(w, w, ns, items, desired, uid, s);
      } else {
        var t := NsName(ns, items[0].name);
        var deleted := DeleteConfigMap(w, t);
        DeleteTakes(w, t, s, uid);
        TookByOne(w, deleted.w, s, uid);
        if deleted.r.Err? && deleted.r.error != NotFound {
          NoneLater(w, ns, items, desired, uid, s);
        } else {
          LoopTakesExactlyWhen(deleted.w, ns, items[1..], desired, uid, s);
          LaterStrikes(w, deleted.w, ns, items, desired, uid, s);
          DeleteEachExtends(deleted.w, ns, items[1..], desired, uid);
          TookInEither(w, deleted.w, DeleteEach(w, ns, items, desired, uid).w, s, uid);
        }
      }
    }
  }

  /** Item i is stale, the loop comes to it, and its delete fails with e. */
  predicate FailsAt(w: World, ns: Id, items: seq<Item>, desired: Id, uid: Id, e: Error, i: nat)
    requires i < |items|
  {
    && IsStale(items[i], desired, uid) && TurnOf(w, ns, items, desired, uid, i).Some?
    && e != NotFound && DeleteConfigMap(TurnOf(w, ns, items, desired, uid, i).value, NsName(ns, items[i].name)).r == Err(e)
  }

  ghost predicate SomeFailure(w: World, ns: Id, items: seq<Item>, desired: Id, uid: Id, e: Error) {
    exists i | 0 <= i < |items| :: FailsAt(w, ns, items, desired, uid, e, i)
  }

  lemma LaterFailures(w: World, v: World, ns: Id, items: seq<Item>, desired: Id, uid: Id, e: Error)
    requires items != []
    requires forall i: nat | i < |items| - 1 :: TurnOf(w, ns, items, desired, uid, i + 1) == TurnOf(v, ns, items[1..], desired, uid, i)
    ensures SomeFailure(w, ns, items, desired, uid, e) <==>
            FailsAt(w, ns, items, desired, uid, e, 0) || SomeFailure(v, ns, items[1..], desired, uid, e)
  {
    hide TurnOf, DeleteConfigMap;
    forall i: nat | i < |items| - 1
      ensures FailsAt(w, ns, items, desired, uid, e, i + 1) <==> FailsAt(v, ns, items[1..], desired, uid, e, i)
    {
      assert items[1..][i] == items[i + 1];
    }
    if i :| 0 <= i < |items| && FailsAt(w, ns, items, desired, uid, e, i) {
      assert i == 0 || FailsAt(v, ns, items[1..], desired, uid, e, i - 1);
    }
    if i :| 0 <= i < |items| - 1 && FailsAt(v, ns, items[1..], desired, uid, e, i) {
      assert FailsAt(w, ns, items, desired, uid, e, i + 1);
    }
  }

  lemma NoFailureLater(w: World, ns: Id, items: seq<Item>, desired: Id, uid: Id, e: Error)
    requires items != [] && forall i: nat | 0 < i < |items| :: TurnOf(w, ns, items, desired, uid, i) == None
    ensures SomeFailure(w, ns, items, desired, uid, e) <==> FailsAt(w, ns, items, desired, uid, e, 0)
  {
    hide TurnOf, DeleteConfigMap;
    assert forall i: nat | 0 < i < |items| :: !FailsAt(w, ns, items, desired, uid, e, i);
  }

  /** The loop returns an error exactly when a delete that it came to failed with it; one that found nothing is no failure. */
  lemma {:induction false} LoopFailsExactlyWhen(w: World, ns: Id, items: seq<Item>, desired: Id, uid: Id, e: Error)
    ensures DeleteEach(w, ns, items, desired, uid).r == Err(e) <==> SomeFailure(w, ns, items, desired, uid, e)
    decreases |items|
  {
    hide DeleteConfigMap;
    if items != [] {
      if !IsStale(items[0], desired, uid) {
        LoopFailsExactlyWhen(w, ns, items[1..], desired, uid, e);
        LaterFailures(w, w, ns, items, desired, uid, e);
      } else {
        var deleted := DeleteConfigMap(w, NsName(ns, items[0].name));
        if deleted.r.Err? && deleted.r.error != NotFound {
          NoFailureLater(w, ns, items, desired, uid, e);
        } else {
          LoopFailsExactlyWhen(deleted.w, ns, items[1..], desired, uid, e);
          LaterFailures(w, deleted.w, ns, items, desired, uid, e);
        }
      }
    }
  }

  /** A cleanup fails with e exactly when its list does, or a delete that it comes to. */
  lemma CleanupFailsExactlyWhen(w: World, n: NsName, o: BucketObject, e: Error)
    ensures var listed := ListConfigMaps(w, n.ns, n.name);
            var desired := if o.spec.configMapName != NONE then o.spec.configMapName else n.name;
            DeleteStaleConfigMaps(w, n, o).r == Err(e) <==>
            listed.r == Err(e) || (listed.r.Ok? && SomeFailure(listed.w, n.ns, listed.r.value, desired, o.uid, e))
  {
    hide DeleteEach, SomeFailure, ListConfigMaps;
    var listed := ListConfigMaps(w, n.ns, n.name);
    if listed.r.Ok? {
      LoopFailsExactlyWhen(listed.w, n.ns, listed.r.value, ConfigMapOf(n, o.spec).name, o.uid, e);
    }
  }

  /**
   For all worlds and tapes: a cleanup deletes a ConfigMap that the Bucket does not control exactly when the
   list showed a stale one of that name, the loop comes to it, somebody else controls the name when its delete
   arrives, and the delete is not refused.
   */
  lemma CleanupDeletesForeignExactlyWhen(w: World, n: NsName, o: BucketObject, s: NsName)
    ensures var listed := ListConfigMaps(w, n.ns, n.name);
            TookForeign(w, DeleteStaleConfigMaps(w, n, o).w, s, o.uid) <==>
            listed.r.Ok? && SomeStrike(listed.w, n.ns, listed.r.value, ConfigMapOf(n, o.spec).name, o.uid, s)
  {
    hide DeleteEach, SomeStrike, Items, Listing, Tagged, Arrive, Rest, ReplyTo;
    var listed := ListConfigMaps(w, n.ns, n.name);
    assert listed.w.log == w.log;
    if listed.r.Ok? {
      LoopTakesExactlyWhen(listed.w, n.ns, listed.r.value, ConfigMapOf(n, o.spec).name, o.uid, s);
    }
  }

  /** For instance: somebody removes a listed ConfigMap, and a user makes a new one of that name. */
  lemma RecreatedConfigMapIsDeleted(w: World, ns: Id, item: Item, desired: Id, uid: Id, user: ConfigMap)
    requires IsStale(item, desired, uid) && user.controller == None
    requires w.tape == [Fate([DeleteConfigMapObject(NsName(ns, item.name)), PutUserConfigMap(NsName(ns, item.name), user)], Delivered)]
    ensures var s := NsName(ns, item.name);
            && Published(Arrive(w), s, user) && Strikes(w, ns, [item], desired, uid, s, 0)
            && s !in DeleteEach(w, ns, [item], desired, uid).w.c.configMaps
            && DeleteEach(w, ns, [item], desired, uid).r == Ok(())
  {
    var s := NsName(ns, item.name);
    var actions := w.tape[0].actions;
    assert actions[1..] == [PutUserConfigMap(s, user)] && actions[1..][1..] == [];
    var c1 := w.c.(configMaps := w.c.configMaps - {s});
    var c2 := c1.(configMaps := c1.configMaps[s := user]);
    assert Perform(w.c, actions[0]) == c1 && Perform(c1, actions[1]) == c2;
    assert PerformAll(c1, actions[1..]) == PerformAll(c2, []) == c2;
    assert [item][1..] == [];
  }

  // ---------------------------------------------------------------- two buckets for one resource

  const NAME := NsName(1, 2)
  const UID: Id := 7
  const JOB := Job(NAME, 0, 1)

  function ObjectWith(source: Source, generation: int, version: int): BucketObject {
    BucketObject(UID, generation, Spec(source, Quotas(0, 0), NONE), version, EMPTY_STATUS)
  }

  lemma CrashedStages(w: World, q: Job, o: BucketObject, s: BucketStatus)
    requires w.tape == []
    ensures ConfigMapStage(w, q, o, s).w.c == w.c && GarageUpdate(w, NONE, o.spec.quotas).w.c == w.c
    ensures PatchStatus(w, q.n, o.version, s).w.c == w.c && PatchStatus(w, q.n, o.version, s).r == Err(Transient)
    ensures ConfigMapStage(w, q, o, s).w.tape == []
  {
    hide SetCondition, Malformed, WithStatus;
  }

  /** The controller crashes right after it has created a bucket. */
  lemma CrashAfterCreation(c: Cluster, source: Source, generation: int, version: int)
    requires source.New? && NAME in c.objects && c.objects[NAME] == ObjectWith(source, generation, version)
    requires Suffixed(source.name, UID) !in c.aliases
    ensures Next(c, Work(JOB, [QUIET, QUIET, QUIET])) == Minted(c, Suffixed(source.name, UID))
  {
    hide ConfigMapStage, Marked, Initialized, Recorded, Aggregated, PatchStatus;
    var o := c.objects[NAME];
    var alias := Suffixed(source.name, UID);
    var w0 := World(c, [QUIET, QUIET, QUIET], []);
    var w1 := World(c, [QUIET, QUIET], []);
    var w2 := World(c, [QUIET], []);
    assert w0.tape[1..] == w1.tape && w1.tape[1..] == w2.tape && w2.tape[1..] == [];
    assert GetObject(w0, NAME) == Call(w1, Ok(o));
    var w3 := World(Minted(c, alias), [], [BucketCreated(alias)]);
    ResolveCreates(w1, w2, w3, alias);
    CrashedRun(w1, w3, o, S3Bucket(c.clock, Quotas(0, 0)));
  }

  lemma ResolveCreates(w1: World, w2: World, w3: World, alias: Alias)
    requires w1.tape == [QUIET, QUIET] && w2 == World(w1.c, [QUIET], []) && w1.log == [] && alias !in w1.c.aliases
    requires w3 == World(Minted(w1.c, alias), [], [BucketCreated(alias)])
    ensures ResolveNewBucket(w1, alias) == Resolved(w3, Ok(S3Bucket(w1.c.clock, Quotas(0, 0))), Met)
  {
    hide WithBucket;
    assert w1.tape[1..] == w2.tape && w2.tape[1..] == [];
    assert GarageGet(w1, alias) == Call(w2, Err(NotFound));
  }

  lemma CrashedRun(w: World, crashed: World, o: BucketObject, b: S3Bucket)
    requires Resolve(w, JOB, o) == Resolved(crashed, Ok(b), Met) && crashed.tape == [] && !Differs(b, o.spec)
    ensures ReconcileObject(w, JOB, o).w.c == crashed.c
  {
    hide ConfigMapStage, Marked, Initialized, Recorded, Aggregated, PatchStatus, Resolve, AliasOf;
    CrashedStages(crashed, JOB, o, Marked(Recorded(Initialized(o.status), b.id, AliasOf(o)), BucketReady, True, Met, o.generation));
    var run := Computed(w, JOB, o);
    CrashedStages(run.w, JOB, o, run.status);
  }

  /** Others may do anything. */
  const EMPTY := Cluster(map[], map[], map[], map[], map[], {}, map[], multiset{}, map[], {}, 1, false)

  const ASKED := Spec(New(1), Quotas(0, 0), NONE)

  function Start(): Cluster {
    Cluster(map[NAME := ObjectWith(New(1), 1, 1)], map[], map[], map[], map[], {}, map[], multiset{}, map[UID := 1], {UID}, 2, false)
  }

  lemma CreationIsPossible()
    ensures Next(EMPTY, Other(CreateBucketObject(NAME, UID, ASKED))) == Start() && Initial(EMPTY)
  {
    assert {} + {UID} == {UID};
  }

  const BORROWED := Spec(Existing(Plain(9), 5), Quotas(0, 0), NONE)
  const RENAMED := Spec(New(2), Quotas(0, 0), NONE)

  /**
   spec.name is immutable, but it can be exchanged for spec.existingBucket and that for another name. With a
   crash before the status is written, each name gets a Garage bucket of its own.
   */
  lemma TwoBucketsAfterSwitching()
    ensures Initial(EMPTY)
    ensures var c := Run(EMPTY, [Other(CreateBucketObject(NAME, UID, ASKED)), Work(JOB, [QUIET, QUIET, QUIET]),
                                 Other(EditSpec(NAME, BORROWED)), Other(EditSpec(NAME, RENAMED)), Work(JOB, [QUIET, QUIET, QUIET])]);
            c.minted[Suffixed(1, UID)] == 1 && c.minted[Suffixed(2, UID)] == 1
  {
    hide Reconcile, Next, Run, Initial;
    CreationIsPossible();
    var work := Work(JOB, [QUIET, QUIET, QUIET]);
    var borrow, rename := Other(EditSpec(NAME, BORROWED)), Other(EditSpec(NAME, RENAMED));
    var c1 := Minted(Start(), Suffixed(1, UID));
    CrashAfterCreation(Start(), New(1), 1, 1);
    SwitchedTwice(c1);
    OthersAct(c1, EditSpec(NAME, BORROWED));
    OthersAct(Perform(c1, EditSpec(NAME, BORROWED)), EditSpec(NAME, RENAMED));
    CrashAfterCreation(Next(Next(c1, borrow), rename), New(2), 3, 4);
    FiveEvents(EMPTY, Other(CreateBucketObject(NAME, UID, ASKED)), work, borrow, rename, work);
  }

  lemma OthersAct(c: Cluster, a: Action)
    ensures Next(c, Other(a)) == Perform(c, a)
  {
  }

  lemma FiveEvents(c: Cluster, e1: Event, e2: Event, e3: Event, e4: Event, e5: Event)
    ensures Run(c, [e1, e2, e3, e4, e5]) == Next(Next(Next(Next(Next(c, e1), e2), e3), e4), e5)
  {
    hide Next;
    assert [e1, e2, e3, e4, e5][1..] == [e2, e3, e4, e5];
    assert [e2, e3, e4, e5][1..] == [e3, e4, e5];
    assert [e3, e4, e5][1..] == [e4, e5] && [e4, e5][1..] == [e5] && [e5][1..] == [];
    var c3 := Next(Next(Next(c, e1), e2), e3);
    assert Run(c3, [e4, e5]) == Run(Next(c3, e4), [e5]) == Run(Next(Next(c3, e4), e5), []);
    assert Run(Next(Next(c, e1), e2), [e3, e4, e5]) == Run(c3, [e4, e5]);
    assert Run(Next(c, e1), [e2, e3, e4, e5]) == Run(Next(Next(c, e1), e2), [e3, e4, e5]);
  }

  lemma SwitchedTwice(c: Cluster)
    requires c == Minted(Start(), Suffixed(1, UID))
    ensures var d := Perform(Perform(c, EditSpec(NAME, BORROWED)), EditSpec(NAME, RENAMED));
            && d.objects == map[NAME := ObjectWith(New(2), 3, 4)] && d.minted == multiset{Suffixed(1, UID)}
            && d.aliases == map[Suffixed(1, UID) := 2]
  {
    var c2 := Perform(c, EditSpec(NAME, BORROWED));
    assert c2.objects[NAME] == BucketObject(UID, 2, BORROWED, 3, EMPTY_STATUS);
    var c3 := Perform(c2, EditSpec(NAME, RENAMED));
    assert c3.objects[NAME] == ObjectWith(New(2), 3, 4);
    assert c3.objects.Keys == {NAME};
  }
}
