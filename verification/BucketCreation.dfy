/** Exactly when the Bucket controller creates a bucket in Garage, in one reconcile and in a whole run. */
module BucketCreation {
  import opened Common
  import opened Conditions
  import opened Permissions
  import opened Quotas
  import opened BucketWorld
  import opened BucketSpec
  import opened BucketProofs

  // ---------------------------------------------------------------- nobody else mints

  lemma ActionMintsNothing(c: Cluster, a: Action)
    ensures Perform(c, a).minted == c.minted
  {
    hide AliveUid, Admitted, Switches;
  }

  lemma {:induction false} ActionsMintNothing(c: Cluster, actions: seq<Action>)
    ensures PerformAll(c, actions).minted == c.minted
    decreases |actions|
  {
    hide Perform;
    if actions != [] {
      ActionMintsNothing(c, actions[0]);
      ActionsMintNothing(Perform(c, actions[0]), actions[1..]);
    }
  }

  lemma ArrivalMintsNothing(w: World)
    ensures Arrive(w).minted == w.c.minted
  {
    hide Perform;
    if w.tape != [] {
      ActionsMintNothing(w.c, w.tape[0].actions);
    }
  }

  lemma ReadsMintNothing(w: World, n: NsName, alias: Alias, pair: Pair)
    ensures GetObject(w, n).w.c.minted == w.c.minted && GetSecret(w, n).w.c.minted == w.c.minted
    ensures GarageGet(w, alias).w.c.minted == w.c.minted && ReadPermissions(w, pair).w.c.minted == w.c.minted
    ensures GetConfigMap(w, n).w.c.minted == w.c.minted
  {
    hide Arrive, Rest, ReplyTo, ToS3;
    ArrivalMintsNothing(w);
  }

  lemma WritesMintNothing(w: World, s: NsName, read: ConfigMap, cm: ConfigMap, id: Id, quotas: Quotas)
    ensures CreateConfigMap(w, s, cm).w.c.minted == w.c.minted && UpdateConfigMap(w, s, read, cm).w.c.minted == w.c.minted
    ensures DeleteConfigMap(w, s).w.c.minted == w.c.minted && GarageUpdate(w, id, quotas).w.c.minted == w.c.minted
  {
    hide CreateConfigMap, UpdateConfigMap, DeleteConfigMap, GarageUpdate;
    MapWritesMintNothing(w, s, read, cm);
    DeleteMintsNothing(w, s);
    UpdateMintsNothing(w, id, quotas);
  }

  lemma MapWritesMintNothing(w: World, s: NsName, read: ConfigMap, cm: ConfigMap)
    ensures CreateConfigMap(w, s, cm).w.c.minted == w.c.minted && UpdateConfigMap(w, s, read, cm).w.c.minted == w.c.minted
  {
    hide Arrive, Rest, ReplyTo;
    ArrivalMintsNothing(w);
  }

  lemma DeleteMintsNothing(w: World, s: NsName)
    ensures DeleteConfigMap(w, s).w.c.minted == w.c.minted
  {
    hide Arrive, Rest, ReplyTo, Victim;
    ArrivalMintsNothing(w);
  }

  lemma UpdateMintsNothing(w: World, id: Id, quotas: Quotas)
    ensures GarageUpdate(w, id, quotas).w.c.minted == w.c.minted
  {
    hide Arrive, Rest, ReplyTo, FromS3;
    ArrivalMintsNothing(w);
  }

  lemma PatchMintsNothing(w: World, n: NsName, version: int, s: BucketStatus)
    ensures PatchStatus(w, n, version, s).w.c.minted == w.c.minted
  {
    hide Arrive, Rest, ReplyTo, Malformed;
    ArrivalMintsNothing(w);
  }

  lemma ListMintsNothing(w: World, ns: Id, tag: Id)
    ensures ListConfigMaps(w, ns, tag).w.c.minted == w.c.minted
  {
    hide Arrive, Rest, ReplyTo, Items, Listing, Tagged;
    ArrivalMintsNothing(w);
  }

  // ---------------------------------------------------------------- one reconcile

  function Made(made: bool, alias: Alias): multiset<Alias> {
    if made then multiset{alias} else multiset{}
  }

  lemma NoneMade(m: multiset<Alias>, alias: Alias)
    ensures m + Made(false, alias) == m
  {
  }

  /** Garage answers that nothing has this alias, and the create is not refused and finds it still free. */
  predicate Creates(w: World, alias: Alias) {
    var got := GarageGet(w, alias);
    got.r == Err(NotFound) && !ReplyTo(got.w).Refused? && alias !in Arrive(got.w).aliases
  }

  lemma CreateMints(w: World, alias: Alias)
    ensures GarageCreate(w, alias).w.c.minted == w.c.minted + Made(!ReplyTo(w).Refused? && alias !in Arrive(w).aliases, alias)
  {
    hide Arrive, Rest, ReplyTo;
    ArrivalMintsNothing(w);
  }

  /** The bucket that resolving o creates. */
  predicate ObjectCreates(w: World, o: BucketObject) {
    o.spec.source.New? && Creates(w, AliasOf(o))
  }

  lemma ResolveMintsExactlyWhen(w: World, q: Job, o: BucketObject)
    ensures Resolve(w, q, o).w.c.minted == w.c.minted + Made(ObjectCreates(w, o), AliasOf(o))
  {
    hide GarageGet, GarageCreate, GetSecret, ReadPermissions, Made, AliasOf;
    var alias := AliasOf(o);
    NoneMade(w.c.minted, alias);
    match o.spec.source {
      case New(_) =>
        ReadsMintNothing(w, q.n, alias, Pair(NONE, NONE));
        CreateMints(GarageGet(w, alias).w, alias);
      case Existing(name, secretName) => ImportMintsNothing(w, name, NsName(q.n.ns, secretName));
    }
  }

  lemma ImportMintsNothing(w: World, alias: Alias, s: NsName)
    ensures ResolveExistingBucket(w, alias, s).w.c.minted == w.c.minted
  {
    hide GarageGet, GetSecret, ReadPermissions;
    ReadsMintNothing(w, s, alias, Pair(NONE, NONE));
    var secret := GetSecret(w, s);
    ReadsMintNothing(secret.w, s, alias, Pair(NONE, NONE));
    var got := GarageGet(secret.w, alias);
    if secret.r.Ok? && got.r.Ok? {
      ReadsMintNothing(got.w, s, alias, Pair(secret.r.value, got.r.value.id));
    }
  }

  lemma EnsureMintsNothing(w: World, q: Job, o: BucketObject, s: BucketStatus)
    ensures EnsureConfigMap(w, q, o, s).w.c.minted == w.c.minted
  {
    hide GetConfigMap, CreateConfigMap, UpdateConfigMap, DesiredConfigMap, ConfigMapOf;
    var name := ConfigMapOf(q.n, o.spec);
    var desired := DesiredConfigMap(q, o, s);
    ReadsMintNothing(w, name, Plain(NONE), Pair(NONE, NONE));
    var got := GetConfigMap(w, name);
    WritesMintNothing(got.w, name, if got.r.Ok? then got.r.value else desired, desired, NONE, o.spec.quotas);
  }

  lemma {:induction false} DeleteEachMintsNothing(w: World, ns: Id, items: seq<Item>, desired: Id, uid: Id)
    ensures DeleteEach(w, ns, items, desired, uid).w.c.minted == w.c.minted
    decreases |items|
  {
    hide DeleteConfigMap;
    if items != [] {
      if IsStale(items[0], desired, uid) {
        var s := NsName(ns, items[0].name);
        var cm := ConfigMap(None, NONE, None, NONE);
        WritesMintNothing(w, s, cm, cm, NONE, Quotas(0, 0));
        DeleteEachMintsNothing(DeleteConfigMap(w, s).w, ns, items[1..], desired, uid);
      } else {
        DeleteEachMintsNothing(w, ns, items[1..], desired, uid);
      }
    }
  }

  lemma StagesMintNothing(w: World, q: Job, o: BucketObject, s: BucketStatus, b: S3Bucket)
    ensures QuotaStage(w, q, o, s, b).w.c.minted == w.c.minted
  {
    hide ConfigMapStage, GarageUpdate, Marked, Differs;
    var ready := Marked(s, BucketReady, True, Met, o.generation);
    var cm := ConfigMap(None, NONE, None, NONE);
    MapStageMintsNothing(w, q, o, ready);
    WritesMintNothing(w, q.n, cm, cm, b.id, o.spec.quotas);
    MapStageMintsNothing(GarageUpdate(w, b.id, o.spec.quotas).w, q, o, ready);
  }

  lemma MapStageMintsNothing(w: World, q: Job, o: BucketObject, s: BucketStatus)
    ensures ConfigMapStage(w, q, o, s).w.c.minted == w.c.minted
  {
    hide EnsureConfigMap, ListConfigMaps, DeleteEach, Marked;
    EnsureMintsNothing(w, q, o, s);
    var e := EnsureConfigMap(w, q, o, s).w;
    ListMintsNothing(e, q.n.ns, q.n.name);
    var listed := ListConfigMaps(e, q.n.ns, q.n.name);
    if listed.r.Ok? {
      DeleteEachMintsNothing(listed.w, q.n.ns, listed.r.value, ConfigMapOf(q.n, o.spec).name, o.uid);
    }
  }

  /**
   A reconcile creates a bucket exactly when the Bucket asks for a new one, Garage answers that nothing has its
   alias, and the create is not refused and finds the alias free.
   */
  lemma ReconcileCreatesExactlyWhen(w: World, q: Job, o: BucketObject)
    ensures ReconcileObject(w, q, o).w.c.minted == w.c.minted + Made(ObjectCreates(w, o), AliasOf(o))
  {
    hide Resolve, QuotaStage, PatchStatus, Initialized, Aggregated, Marked, Recorded, ObjectCreates, Made, AliasOf, ResolveFailure;
    ResolveMintsExactlyWhen(w, q, o);
    var resolved := Resolve(w, q, o);
    if resolved.r.Ok? {
      StagesMintNothing(resolved.w, q, o, Recorded(Initialized(o.status), resolved.r.value.id, AliasOf(o)), resolved.r.value);
    }
    var run := Computed(w, q, o);
    PatchMintsNothing(run.w, q.n, o.version, run.status);
  }

  /** The bucket that a reconcile creates, if any. */
  function BucketsMade(w: World, q: Job): multiset<Alias> {
    var got := GetObject(w, q.n);
    if got.r.Err? then multiset{} else Made(ObjectCreates(got.w, got.r.value), AliasOf(got.r.value))
  }

  lemma ReconcileMints(w: World, q: Job)
    ensures Reconcile(w, q).w.c.minted == w.c.minted + BucketsMade(w, q)
  {
    hide GetObject, ReconcileObject, ObjectCreates, Made, AliasOf;
    ReadsMintNothing(w, q.n, Plain(NONE), Pair(NONE, NONE));
    var got := GetObject(w, q.n);
    if got.r.Ok? {
      ReconcileCreatesExactlyWhen(got.w, q, got.r.value);
    }
  }

  // ---------------------------------------------------------------- a run

  /** The k-th event of a run is a reconcile that creates a bucket under this alias. */
  predicate CreatesAt(c: Cluster, events: seq<Event>, k: nat, alias: Alias)
    requires k < |events|
  {
    events[k].Work? && alias in BucketsMade(World(Run(c, events[..k]), events[k].tape, []), events[k].q)
  }

  lemma NextMints(c: Cluster, e: Event, alias: Alias)
    ensures alias in Next(c, e).minted <==> alias in c.minted || CreatesAt(c, [e], 0, alias)
  {
    hide Reconcile, BucketsMade, Perform;
    match e {
      case Other(a) => ActionMintsNothing(c, a);
      case Work(q, tape) =>
        ReconcileMints(World(c, tape, []), q);
        assert [e][..0] == [];
    }
  }

  lemma RestOfRun(c: Cluster, events: seq<Event>, k: nat, alias: Alias)
    requires k < |events| - 1
    ensures CreatesAt(Next(c, events[0]), events[1..], k, alias) <==> CreatesAt(c, events, k + 1, alias)
  {
    hide Next, BucketsMade;
    assert events[..k + 1][1..] == events[1..][..k];
    assert events[..k + 1][0] == events[0];
  }

  /** A bucket was created under an alias exactly when some reconcile of the run created it. */
  lemma {:induction false} MintedExactlyWhen(c: Cluster, events: seq<Event>, alias: Alias)
    ensures alias in Run(c, events).minted <==> alias in c.minted || exists k | 0 <= k < |events| :: CreatesAt(c, events, k, alias)
    decreases |events|
  {
    hide Next, CreatesAt;
    if events != [] {
      var d, rest := Next(c, events[0]), events[1..];
      FirstOfRun(c, events, alias);
      MintedExactlyWhen(d, rest, alias);
      forall k: nat | k < |rest| ensures CreatesAt(d, rest, k, alias) <==> CreatesAt(c, events, k + 1, alias) {
        RestOfRun(c, events, k, alias);
      }
      if k :| 0 <= k < |rest| && CreatesAt(d, rest, k, alias) {
        assert CreatesAt(c, events, k + 1, alias);
      }
      if k :| 0 <= k < |events| && CreatesAt(c, events, k, alias) {
        assert k == 0 || CreatesAt(d, rest, k - 1, alias);
      }
    }
  }

  lemma FirstOfRun(c: Cluster, events: seq<Event>, alias: Alias)
    requires events != []
    ensures alias in Next(c, events[0]).minted <==> alias in c.minted || CreatesAt(c, events, 0, alias)
  {
    hide Next, BucketsMade;
    NextMints(c, events[0], alias);
    assert [events[0]][..0] == events[..0];
  }

  ghost predicate TwoBuckets(c: Cluster, uid: Id) {
    exists x, y :: x != y && Suffixed(x, uid) in c.minted && Suffixed(y, uid) in c.minted
  }

  /** Two reconciles of a run create buckets for one UID under different names. */
  ghost predicate CreatesTwice(c: Cluster, events: seq<Event>, uid: Id) {
    exists j, k, x, y | 0 <= j < |events| && 0 <= k < |events| && x != y ::
      CreatesAt(c, events, j, Suffixed(x, uid)) && CreatesAt(c, events, k, Suffixed(y, uid))
  }

  /**
   Over any run, lawful or not, a second bucket is created for one Bucket resource exactly when two of its
   reconciles, at different values of spec.name, are each told that nothing has their alias and send a create
   that is not refused and finds it free.
   */
  lemma SecondBucketExactlyWhen(start: Cluster, events: seq<Event>, uid: Id)
    requires Initial(start)
    ensures TwoBuckets(Run(start, events), uid) <==> CreatesTwice(start, events, uid)
  {
    hide Run, CreatesAt, GarageInv;
    var c := Run(start, events);
    forall alias: Alias ensures alias in c.minted <==> exists k | 0 <= k < |events| :: CreatesAt(start, events, k, alias) {
      MintedExactlyWhen(start, events, alias);
    }
    if x, y :| x != y && Suffixed(x, uid) in c.minted && Suffixed(y, uid) in c.minted {
      var j :| 0 <= j < |events| && CreatesAt(start, events, j, Suffixed(x, uid));
      var k :| 0 <= k < |events| && CreatesAt(start, events, k, Suffixed(y, uid));
    }
  }
}
