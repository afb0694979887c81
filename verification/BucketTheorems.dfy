/** The promises of the Bucket controller. */
module BucketTheorems {
  import opened Common
  import opened Conditions
  import opened Permissions
  import opened Quotas
  import opened BucketWorld
  import opened BucketSpec
  import opened BucketProofs
  import opened BucketMaps
  import Backoff

  // ---------------------------------------------------------------- when a reconcile computes Ready

  lemma AggregatedMeaning(s: BucketStatus, generation: int)
    ensures var r := Aggregated(s, generation);
            && r.bucketID == s.bucketID && r.bucketName == s.bucketName
            && (Holds(r.conditions, Ready, True) <==>
                  Holds(s.conditions, BucketReady, True) && Holds(s.conditions, BucketConfigMapReady, True))
            && (forall t | t != Ready :: Find(r.conditions, t) == Find(s.conditions, t))
            && r.observedGeneration == if Holds(r.conditions, Ready, True) then generation else s.observedGeneration
  {
    hide Find, SetCondition, FirstFailure;
    assert BUCKET_ORDER[0] == BucketReady && BUCKET_ORDER[1] == BucketConfigMapReady;
    assert forall t | t in BUCKET_ORDER :: t == BucketReady || t == BucketConfigMapReady;
  }

  /** The quota step: a call only if the quotas differ. */
  function SendQuotas(w: World, o: BucketObject, b: S3Bucket): Call<()> {
    if Differs(b, o.spec) then GarageUpdate(w, b.id, o.spec.quotas) else Call(w, Ok(()))
  }

  /** The status with which the ConfigMap is published. */
  function Publishing(o: BucketObject, b: S3Bucket): BucketStatus {
    Marked(Recorded(Initialized(o.status), b.id, AliasOf(o)), BucketReady, True, Met, o.generation)
  }

  /** The bucket was resolved, its quotas are in place and the ConfigMap is published. */
  predicate Succeeds(w: World, q: Job, o: BucketObject) {
    var resolved := Resolve(w, q, o);
    && resolved.r.Ok?
    && var sent := SendQuotas(resolved.w, o, resolved.r.value);
    && sent.r.Ok?
    && EnsureConfigMap(sent.w, q, o, Publishing(o, resolved.r.value)).r.Ok?
  }

  /** The cleanup that follows. */
  function Cleanup(w: World, q: Job, o: BucketObject): Call<()>
    requires Succeeds(w, q, o)
  {
    var resolved := Resolve(w, q, o);
    var sent := SendQuotas(resolved.w, o, resolved.r.value);
    DeleteStaleConfigMaps(EnsureConfigMap(sent.w, q, o, Publishing(o, resolved.r.value)).w, q.n, o)
  }

  /**
   A reconcile computes Ready exactly when it has resolved the bucket, put its quotas in place and
   published the ConfigMap in this very run. The one error that leaves Ready True is a failed cleanup.
   */
  lemma ReadyExactlyWhen(w: World, q: Job, o: BucketObject)
    ensures var run := Computed(w, q, o);
            && (Holds(run.status.conditions, Ready, True) <==> Succeeds(w, q, o))
            && (Succeeds(w, q, o) ==>
                  && run.w == Cleanup(w, q, o).w
                  && run.outcome == (if Cleanup(w, q, o).r.Err? then Failed(Cleanup(w, q, o).r.error) else Done)
                  && run.status.observedGeneration == o.generation
                  && run.status.bucketID == Publishing(o, Resolve(w, q, o).r.value).bucketID
                  && run.status.bucketName == Publishing(o, Resolve(w, q, o).r.value).bucketName)
            && (!Succeeds(w, q, o) ==> Holds(run.status.conditions, Ready, False))
  {
    hide Find, SetCondition, InitAll, Resolve, GarageUpdate, EnsureConfigMap, DeleteStaleConfigMaps, Aggregated, Differs;
    AggregatedMeaning(ReconcileBucket(w, q, o, Initialized(o.status)).status, o.generation);
    AggregatedIsDecided(ReconcileBucket(w, q, o, Initialized(o.status)).status, o.generation);
  }

  lemma AggregatedIsDecided(s: BucketStatus, generation: int)
    ensures var r := Aggregated(s, generation);
            Holds(r.conditions, Ready, True) || Holds(r.conditions, Ready, False)
  {
    hide Find, FirstFailure;
  }

  // ---------------------------------------------------------------- quotas stay as they are

  ghost predicate Valued(c: Cluster, id: Id, wire: WireQuotas) {
    id in c.buckets && c.buckets[id] == wire
  }

  lemma ActionKeepsValued(c: Cluster, a: Action, id: Id, wire: WireQuotas)
    requires GarageInv(c) && Valued(c, id, wire)
    ensures Valued(Perform(c, a), id, wire)
  {
    hide AliveUid, Admitted, Switches;
  }

  lemma {:induction false} ActionsKeepValued(c: Cluster, actions: seq<Action>, id: Id, wire: WireQuotas)
    requires Inv(c) && Valued(c, id, wire)
    ensures Valued(PerformAll(c, actions), id, wire)
    decreases |actions|
  {
    hide ObjectsInv, ConfigMapsInv, GarageInv, Valued, Perform, Larger, SameStatuses;
    if actions != [] {
      ActionKeepsValued(c, actions[0], id, wire);
      ActionKeepsInv(c, actions[0]);
      ActionsKeepValued(Perform(c, actions[0]), actions[1..], id, wire);
    }
  }

  lemma ArrivalKeepsValued(w: World, n: NsName, o: BucketObject, id: Id, wire: WireQuotas)
    requires Held(w.c, n, o) && Valued(w.c, id, wire)
    ensures Valued(Arrive(w), id, wire)
  {
    hide Valued, Inv, Known, PerformAll;
    if w.tape != [] {
      ActionsKeepValued(w.c, w.tape[0].actions, id, wire);
    }
  }

  lemma MapWritesKeepValued(w: World, s: NsName, read: ConfigMap, cm: ConfigMap, n: NsName, o: BucketObject, id: Id, wire: WireQuotas)
    requires Held(w.c, n, o) && Valued(w.c, id, wire)
    ensures Valued(CreateConfigMap(w, s, cm).w.c, id, wire) && Valued(UpdateConfigMap(w, s, read, cm).w.c, id, wire)
    ensures Valued(DeleteConfigMap(w, s).w.c, id, wire) && Valued(GetConfigMap(w, s).w.c, id, wire)
  {
    hide Held, Arrive, Rest, ReplyTo;
    ArrivalKeepsValued(w, n, o, id, wire);
  }

  lemma EnsureKeepsValued(w: World, q: Job, o: BucketObject, s: BucketStatus, id: Id, wire: WireQuotas)
    requires Held(w.c, q.n, o) && Valued(w.c, id, wire)
    ensures Valued(EnsureConfigMap(w, q, o, s).w.c, id, wire)
  {
    hide Held, Kept, Valued, GetConfigMap, CreateConfigMap, UpdateConfigMap, DesiredConfigMap;
    var name := ConfigMapOf(q.n, o.spec);
    var desired := DesiredConfigMap(q, o, s);
    MapWritesKeepValued(w, name, desired, desired, q.n, o, id, wire);
    MapReadKeeps(w, name, q.n, o);
    var got := GetConfigMap(w, name);
    MapWritesKeepValued(got.w, name, if got.r.Ok? then got.r.value else desired, desired, q.n, o, id, wire);
  }

  lemma MapReadKeeps(w: World, s: NsName, n: NsName, o: BucketObject)
    requires Held(w.c, n, o)
    ensures Held(GetConfigMap(w, s).w.c, n, o)
  {
    hide Held, Arrive, Rest, ReplyTo;
    HeldOnArrival(w, n, o);
  }

  lemma {:induction false} DeleteEachKeepsValued(w: World, items: seq<Item>, desired: Id, n: NsName, o: BucketObject, id: Id, wire: WireQuotas)
    requires Held(w.c, n, o) && Valued(w.c, id, wire)
    ensures Valued(DeleteEach(w, n.ns, items, desired, o.uid).w.c, id, wire)
    decreases |items|
  {
    hide Held, Grown, Valued, DeleteConfigMap;
    if items != [] {
      if IsStale(items[0], desired, o.uid) {
        var s := NsName(n.ns, items[0].name);
        MapDeleteKeeps(w, s, n, o);
        MapWritesKeepValued(w, s, ConfigMap(None, NONE, None, NONE), ConfigMap(None, NONE, None, NONE), n, o, id, wire);
        DeleteEachKeepsValued(DeleteConfigMap(w, s).w, items[1..], desired, n, o, id, wire);
      } else {
        DeleteEachKeepsValued(w, items[1..], desired, n, o, id, wire);
      }
    }
  }

  lemma CleanupKeepsValued(w: World, n: NsName, o: BucketObject, id: Id, wire: WireQuotas)
    requires Held(w.c, n, o) && Valued(w.c, id, wire)
    ensures Valued(DeleteStaleConfigMaps(w, n, o).w.c, id, wire)
  {
    hide Held, Grown, Valued, Arrive, Rest, ReplyTo, DeleteEach, Items, Listing, Tagged;
    HeldOnArrival(w, n, o);
    ArrivalKeepsValued(w, n, o, id, wire);
    var listed := ListConfigMaps(w, n.ns, n.name);
    if listed.r.Ok? {
      DeleteEachKeepsValued(listed.w, listed.r.value, ConfigMapOf(n, o.spec).name, n, o, id, wire);
    }
  }

  // ---------------------------------------------------------------- what Ready means

  /** The bucket that was found has the quotas that the lookup returned. */
  ghost predicate AsReturned(c: Cluster, r: Result<S3Bucket>) {
    r.Ok? ==> r.value.id in c.buckets && ToS3(c.buckets[r.value.id]) == r.value.quotas
  }

  lemma LookupReturns(w: World, alias: Alias)
    ensures AsReturned(GarageGet(w, alias).w.c, GarageGet(w, alias).r)
    ensures AsReturned(GarageCreate(w, alias).w.c, GarageCreate(w, alias).r)
  {
    hide Arrive, Rest, ReplyTo;
  }

  lemma VerifyReturns(w: World, keyID: Id, b: S3Bucket, n: NsName, o: BucketObject)
    requires Held(w.c, n, o) && AsReturned(w.c, Ok(b))
    ensures VerifyOwner(w, keyID, b).r.Ok? ==> AsReturned(VerifyOwner(w, keyID, b).w.c, Ok(b)) && VerifyOwner(w, keyID, b).r == Ok(b)
  {
    hide Held, Arrive, Rest, ReplyTo;
    ArrivalKeepsValued(w, n, o, b.id, w.c.buckets[b.id]);
  }

  lemma ResolveReturns(w: World, q: Job, o: BucketObject)
    requires Held(w.c, q.n, o)
    ensures AsReturned(Resolve(w, q, o).w.c, Resolve(w, q, o).r)
  {
    hide Held, Grown, GarageGet, GarageCreate, GetSecret, VerifyOwner;
    match o.spec.source {
      case New(_) =>
        LookupReturns(w, AliasOf(o));
        LookupReturns(GarageGet(w, AliasOf(o)).w, AliasOf(o));
      case Existing(alias, name) =>
        SecretReadKeeps(w, NsName(q.n.ns, name), q.n, o);
        var secret := GetSecret(w, NsName(q.n.ns, name));
        LookupReturns(secret.w, alias);
        LookupKeeps(secret.w, alias, q.n, o);
        var got := GarageGet(secret.w, alias);
        if secret.r.Ok? && got.r.Ok? {
          VerifyReturns(got.w, secret.r.value, got.r.value, q.n, o);
        }
    }
  }

  /** After the quota step the bucket has the quotas that the spec asks for. */
  lemma SendConfigures(w: World, q: Job, o: BucketObject, b: S3Bucket)
    requires Held(w.c, q.n, o) && AsReturned(w.c, Ok(b))
    ensures var sent := SendQuotas(w, o, b);
            && Kept(w.c, sent.w.c, q.n, o)
            && (sent.r.Ok? ==> b.id in sent.w.c.buckets && Meets(sent.w.c.buckets[b.id], o.spec.quotas))
  {
    hide Held, Kept, GarageUpdate, FromS3, ToS3;
    UpdateKeeps(w, b.id, o.spec.quotas, q.n, o);
    KeptItself(w.c, q.n, o);
    UpdateSets(w, b.id, o.spec.quotas);
  }

  lemma UpdateSets(w: World, id: Id, quotas: Quotas)
    ensures var sent := GarageUpdate(w, id, quotas);
            sent.r.Ok? ==> id in sent.w.c.buckets && sent.w.c.buckets[id] == FromS3(quotas)
  {
    hide Arrive, Rest, ReplyTo, FromS3;
  }

  lemma SendKeepsTape(w: World, o: BucketObject, b: S3Bucket)
    ensures forall f | f in SendQuotas(w, o, b).w.tape :: f in w.tape
  {
    hide Arrive, Differs;
  }

  lemma CallsKeepTape(w: World, s: NsName, alias: Alias, pair: Pair)
    ensures forall f | f in GetSecret(w, s).w.tape :: f in w.tape
    ensures forall f | f in GarageGet(w, alias).w.tape :: f in w.tape
    ensures forall f | f in ReadPermissions(w, pair).w.tape :: f in w.tape
    ensures forall f | f in GarageCreate(w, alias).w.tape :: f in w.tape
  {
    hide Arrive, ReplyTo, ToS3, WithBucket;
  }

  lemma ResolveKeepsTape(w: World, q: Job, o: BucketObject)
    ensures forall f | f in Resolve(w, q, o).w.tape :: f in w.tape
  {
    hide GetSecret, GarageGet, GarageCreate, ReadPermissions, AliasOf;
    match o.spec.source {
      case New(_) =>
        CallsKeepTape(w, q.n, AliasOf(o), Pair(NONE, NONE));
        CallsKeepTape(GarageGet(w, AliasOf(o)).w, q.n, AliasOf(o), Pair(NONE, NONE));
      case Existing(alias, name) =>
        var s := NsName(q.n.ns, name);
        CallsKeepTape(w, s, alias, Pair(NONE, NONE));
        var secret := GetSecret(w, s);
        CallsKeepTape(secret.w, s, alias, Pair(NONE, NONE));
        var got := GarageGet(secret.w, alias);
        if secret.r.Ok? && got.r.Ok? {
          CallsKeepTape(got.w, s, alias, Pair(secret.r.value, got.r.value.id));
        }
    }
  }

  /** The world in which the ConfigMap is published. */
  function SentWorld(w: World, q: Job, o: BucketObject): World
    requires Succeeds(w, q, o)
  {
    SendQuotas(Resolve(w, q, o).w, o, Resolve(w, q, o).r.value).w
  }

  lemma EarnedBucket(w: World, q: Job, o: BucketObject)
    requires Held(w.c, q.n, o) && Succeeds(w, q, o)
    ensures var b := Resolve(w, q, o).r.value;
            var c := SentWorld(w, q, o).c;
            Held(c, q.n, o) && Carries(c, AliasOf(o), b.id) && Meets(c.buckets[b.id], o.spec.quotas) && b.id != NONE
  {
    hide Held, Resolve, SendQuotas, EnsureConfigMap, Grown, AliasOf, Meets;
    var resolved := Resolve(w, q, o);
    var b := resolved.r.value;
    ResolveKeeps(w, q, o);
    ResolveReturns(w, q, o);
    assert resolved.r == Ok(b);
    SendConfigures(resolved.w, q, o, b);
    CarriesGrown(resolved.w.c, SendQuotas(resolved.w, o, b).w.c, AliasOf(o), b.id);
  }

  lemma EarnedToTheEnd(w: World, q: Job, o: BucketObject, s: BucketStatus, id: Id, wire: WireQuotas)
    requires Held(w.c, q.n, o) && Carries(w.c, AliasOf(o), id) && Valued(w.c, id, wire)
    ensures var c := DeleteStaleConfigMaps(EnsureConfigMap(w, q, o, s).w, q.n, o).w.c;
            Held(c, q.n, o) && Carries(c, AliasOf(o), id) && Valued(c, id, wire)
  {
    hide Held, Grown, Carries, Valued, EnsureConfigMap, DeleteStaleConfigMaps, AliasOf;
    EnsureKeeps(w, q, o, s);
    EnsureKeepsValued(w, q, o, s, id, wire);
    var e := EnsureConfigMap(w, q, o, s).w;
    CarriesGrown(w.c, e.c, AliasOf(o), id);
    DeleteStaleKeeps(e, q.n, o);
    CleanupKeepsValued(e, q.n, o, id, wire);
    CarriesGrown(e.c, DeleteStaleConfigMaps(e, q.n, o).w.c, AliasOf(o), id);
  }

  /** In a lawful cluster the status names the bucket that the alias leads to. */
  lemma EarnedIdentity(c: Cluster, o: BucketObject, s: BucketStatus, id: Id)
    requires StatusInv(c, o, s) && c.lawful && s.bucketID != NONE && Carries(c, AliasOf(o), id)
    ensures s.bucketID == id && s.bucketName == Some(AliasOf(o))
  {
  }

  /**
   A reconcile that computes Ready leaves the bucket of the Bucket's alias with the quotas of the spec,
   and in a lawful cluster that bucket is the one the status names.
   */
  lemma ReadyBucketIsConfigured(w: World, q: Job, o: BucketObject)
    requires Held(w.c, q.n, o) && Holds(Computed(w, q, o).status.conditions, Ready, True)
    ensures var run := Computed(w, q, o);
            && AliasOf(o) in run.w.c.aliases
            && var id := run.w.c.aliases[AliasOf(o)];
            && id in run.w.c.buckets && Meets(run.w.c.buckets[id], o.spec.quotas)
            && run.status.observedGeneration == o.generation
            && (run.w.c.lawful ==> run.status.bucketID == id && run.status.bucketName == Some(AliasOf(o)))
  {
    hide Held, Kept, Resolve, SendQuotas, EnsureConfigMap, DeleteStaleConfigMaps, Publishing, AliasOf, Meets, StatusInv, Computed, Holds;
    ReadyExactlyWhen(w, q, o);
    EarnedBucket(w, q, o);
    ComputedSound(w, q, o);
    var b := Resolve(w, q, o).r.value;
    var sent := SentWorld(w, q, o);
    EarnedToTheEnd(sent, q, o, Publishing(o, b), b.id, sent.c.buckets[b.id]);
    PublishingHasID(o, b);
    var run := Computed(w, q, o);
    if run.w.c.lawful {
      EarnedIdentity(run.w.c, o, run.status, b.id);
    }
  }

  /**
   What Garage enforces when a reconcile computes Ready: the limits of the spec, where anything that is not
   positive means unlimited; exactly if the bucket has no limit of zero left over from before.
   */
  lemma ReadyEnforcesSpecExactlyWhen(w: World, q: Job, o: BucketObject)
    requires Held(w.c, q.n, o) && Holds(Computed(w, q, o).status.conditions, Ready, True)
    ensures var run := Computed(w, q, o);
            && AliasOf(o) in run.w.c.aliases && run.w.c.aliases[AliasOf(o)] in run.w.c.buckets
            && var wire := run.w.c.buckets[run.w.c.aliases[AliasOf(o)]];
            ((forall objects: nat, size: nat :: Admits(wire, objects, size) <==> Allows(o.spec.quotas, objects, size))
             <==> wire.maxObjects != Some(0) && wire.maxSize != Some(0))
  {
    hide Held, Kept, Computed, Holds, AliasOf, Meets, StatusInv, Admits, Allows, Unsigned;
    ReadyBucketIsConfigured(w, q, o);
    ComputedSound(w, q, o);
    var run := Computed(w, q, o);
    SoundBuckets(w.c, run, q.n, o);
    MeetsExactly(run.w.c.buckets[run.w.c.aliases[AliasOf(o)]], o.spec.quotas);
  }

  lemma SoundBuckets(c: Cluster, run: BucketRun, n: NsName, o: BucketObject)
    requires Sound(c, run, n, o)
    ensures forall id | id in run.w.c.buckets :: Unsigned(run.w.c.buckets[id])
  {
    hide ObjectsInv, ConfigMapsInv, Known, StatusInv, Grown;
  }

  lemma PublishingHasID(o: BucketObject, b: S3Bucket)
    ensures b.id != NONE ==> Publishing(o, b).bucketID != NONE
  {
    hide InitAll, SetCondition;
  }

  lemma SparesLess(w: World, v: World, s: NsName, cm: ConfigMap)
    requires Spares(w.tape, s, cm) && forall f | f in v.tape :: f in w.tape
    ensures Spares(v.tape, s, cm)
  {
  }

  lemma DesiredMapIsCurrent(w: World, q: Job, o: BucketObject)
    requires Holds(Computed(w, q, o).status.conditions, Ready, True)
    ensures var run := Computed(w, q, o);
            var s := ConfigMapOf(q.n, o.spec);
            var cm := ConfigMap(Some(o.uid), q.n.name, run.status.bucketName, q.endpoint);
            Spares(w.tape, s, cm) ==> s in run.w.c.configMaps && run.w.c.configMaps[s] == cm
  {
    hide Resolve, SendQuotas, EnsureConfigMap, DeleteStaleConfigMaps, Publishing, Computed, Holds, ConfigMapOf, Spares;
    ReadyExactlyWhen(w, q, o);
    var resolved := Resolve(w, q, o);
    var b := resolved.r.value;
    var sent := SendQuotas(resolved.w, o, b);
    var e := EnsureConfigMap(sent.w, q, o, Publishing(o, b));
    var s := ConfigMapOf(q.n, o.spec);
    var cm := DesiredConfigMap(q, o, Publishing(o, b));
    ResolveKeepsTape(w, q, o);
    SendKeepsTape(resolved.w, o, b);
    EnsureKeepsTape(sent.w, q, o, Publishing(o, b));
    EnsurePublishes(sent.w, q, o, Publishing(o, b));
    if Spares(w.tape, s, cm) {
      SparesLess(w, e.w, s, cm);
      CleanupKeepsSteady(e.w, q.n, o, s, cm);
    }
  }

  /** Unless others remove it, s holds what the status and the configuration say. */
  ghost predicate HoldsCurrent(w: World, q: Job, o: BucketObject, s: NsName) {
    var run := Computed(w, q, o);
    var cm := ConfigMap(Some(o.uid), q.n.name, run.status.bucketName, q.endpoint);
    Spares(w.tape, s, cm) ==> s in run.w.c.configMaps && run.w.c.configMaps[s] == cm
  }

  /**
   And its ConfigMap, under the name in spec.configMapName or else under the Bucket's own name, holds what the
   status and the configuration say, unless somebody removes it.
   */
  lemma ReadyConfigMapIsCurrent(w: World, q: Job, o: BucketObject)
    requires Holds(Computed(w, q, o).status.conditions, Ready, True)
    ensures o.spec.configMapName != NONE ==> HoldsCurrent(w, q, o, NsName(q.n.ns, o.spec.configMapName))
    ensures o.spec.configMapName == NONE ==> HoldsCurrent(w, q, o, NsName(q.n.ns, q.n.name))
  {
    hide Computed, Holds, Spares;
    DesiredMapIsCurrent(w, q, o);
  }

  // ---------------------------------------------------------------- cleanup without a history

  /** A reconcile without error that reports its ConfigMap ready has gone all the way. */
  lemma DoneMeansCleaned(w: World, q: Job, o: BucketObject)
    requires var run := Computed(w, q, o); run.outcome == Done && Holds(run.status.conditions, BucketConfigMapReady, True)
    ensures Succeeds(w, q, o) && Cleanup(w, q, o).r.Ok?
  {
    hide Find, SetCondition, InitAll, Resolve, GarageUpdate, EnsureConfigMap, DeleteStaleConfigMaps, Aggregated, Differs;
    AggregatedMeaning(ReconcileBucket(w, q, o, Initialized(o.status)).status, o.generation);
  }

  /** s is the only ConfigMap that the Bucket controls, with current data; others can only have removed it. */
  ghost predicate OnlyMap(w: World, q: Job, o: BucketObject, s: NsName) {
    var c := Computed(w, q, o).w.c;
    var cm := ConfigMap(Some(o.uid), q.n.name, Computed(w, q, o).status.bucketName, q.endpoint);
    && Owned(c, o.uid) <= {s}
    && (Spares(w.tape, s, cm) ==> Owned(c, o.uid) == {s} && c.configMaps[s] == cm)
  }

  /**
   However many ConfigMaps earlier names and failed deletes have left: when a reconcile ends without
   error or delay and reports its ConfigMap ready, the Bucket controls exactly one ConfigMap, under the
   name it asks for and with current data. Only somebody who removed that one meanwhile makes it none.
   */
  lemma CleanupNeedsNoHistory(w: World, q: Job, o: BucketObject)
    requires Held(w.c, q.n, o)
    requires var run := Computed(w, q, o); run.outcome == Done && Holds(run.status.conditions, BucketConfigMapReady, True)
    ensures o.spec.configMapName != NONE ==> OnlyMap(w, q, o, NsName(q.n.ns, o.spec.configMapName))
    ensures o.spec.configMapName == NONE ==> OnlyMap(w, q, o, NsName(q.n.ns, q.n.name))
  {
    hide Computed, Holds, Held, OnlyMap;
    DesiredMapIsOnly(w, q, o);
  }

  lemma DesiredMapIsOnly(w: World, q: Job, o: BucketObject)
    requires Held(w.c, q.n, o)
    requires var run := Computed(w, q, o); run.outcome == Done && Holds(run.status.conditions, BucketConfigMapReady, True)
    ensures OnlyMap(w, q, o, ConfigMapOf(q.n, o.spec))
  {
    hide Held, Resolve, SendQuotas, EnsureConfigMap, DeleteStaleConfigMaps, Publishing, Computed, Holds, ConfigMapOf, Spares;
    DoneMeansCleaned(w, q, o);
    ReadyExactlyWhen(w, q, o);
    EarnedBucket(w, q, o);
    var sent := SentWorld(w, q, o);
    var published := Publishing(o, Resolve(w, q, o).r.value);
    EnsureKeeps(sent, q, o, published);
    CleanupLeavesOne(EnsureConfigMap(sent, q, o, published).w, q.n, o);
    DesiredMapIsCurrent(w, q, o);
  }

  // ---------------------------------------------------------------- foreign ConfigMaps

  lemma ReadsKeepSteady(w: World, n: NsName, t: NsName, alias: Alias, keyID: Id, b: S3Bucket, s: NsName, cm: ConfigMap)
    requires Steady(w, s, cm)
    ensures Steady(GetSecret(w, t).w, s, cm) && Steady(GarageGet(w, alias).w, s, cm) && Steady(VerifyOwner(w, keyID, b).w, s, cm)
    ensures Steady(GetConfigMap(w, t).w, s, cm)
  {
    hide Arrive, Rest, ReplyTo, Spares, Published;
    forall log: seq<Entry> ensures Steady(World(Arrive(w), Rest(w), log), s, cm) {
      ArrivalKeepsSteady(w, s, cm, log);
    }
  }

  lemma GarageWritesKeepSteady(w: World, alias: Alias, id: Id, quotas: Quotas, s: NsName, cm: ConfigMap)
    requires Steady(w, s, cm)
    ensures Steady(GarageCreate(w, alias).w, s, cm) && Steady(GarageUpdate(w, id, quotas).w, s, cm)
  {
    hide Arrive, Rest, ReplyTo, Spares, FromS3;
    ArrivalKeepsSteady(w, s, cm, []);
  }

  lemma ResolveKeepsSteady(w: World, q: Job, o: BucketObject, s: NsName, cm: ConfigMap)
    requires Steady(w, s, cm)
    ensures Steady(Resolve(w, q, o).w, s, cm)
  {
    hide Steady, GarageGet, GarageCreate, GetSecret, VerifyOwner;
    var t := NsName(q.n.ns, if o.spec.source.Existing? then o.spec.source.ownerKeySecret else NONE);
    var b := S3Bucket(NONE, Quotas(0, 0));
    ReadsKeepSteady(w, q.n, t, AliasOf(o), NONE, b, s, cm);
    GarageWritesKeepSteady(GarageGet(w, AliasOf(o)).w, AliasOf(o), NONE, Quotas(0, 0), s, cm);
    var secret := GetSecret(w, t);
    ReadsKeepSteady(secret.w, q.n, t, AliasOf(o), NONE, b, s, cm);
    var got := GarageGet(secret.w, AliasOf(o));
    if secret.r.Ok? && got.r.Ok? {
      ReadsKeepSteady(got.w, q.n, t, AliasOf(o), secret.r.value, got.r.value, s, cm);
    }
  }

  lemma OtherMapWritesKeepSteady(w: World, t: NsName, read: ConfigMap, put: ConfigMap, s: NsName, cm: ConfigMap)
    requires Steady(w, s, cm) && (t == s ==> read != cm)
    ensures Steady(CreateConfigMap(w, t, put).w, s, cm) && Steady(UpdateConfigMap(w, t, read, put).w, s, cm)
  {
    hide Arrive, Rest, ReplyTo, Spares;
    ArrivalKeepsSteady(w, s, cm, w.log + [ConfigMapSent(t, put)]);
  }

  /** ensureConfigMap only overwrites what the Bucket controls. */
  lemma EnsureKeepsSteady(w: World, q: Job, o: BucketObject, st: BucketStatus, s: NsName, cm: ConfigMap)
    requires Steady(w, s, cm) && cm.controller != Some(o.uid)
    ensures Steady(EnsureConfigMap(w, q, o, st).w, s, cm)
  {
    hide Steady, GetConfigMap, CreateConfigMap, UpdateConfigMap;
    var name := ConfigMapOf(q.n, o.spec);
    ReadsKeepSteady(w, q.n, name, Plain(NONE), NONE, S3Bucket(NONE, Quotas(0, 0)), s, cm);
    var got := GetConfigMap(w, name);
    var desired := DesiredConfigMap(q, o, st);
    if got.r.Ok? && got.r.value.controller == Some(o.uid) {
      OtherMapWritesKeepSteady(got.w, name, got.r.value, desired, s, cm);
    } else {
      OtherMapWritesKeepSteady(got.w, name, desired, desired, s, cm);
    }
  }

  /**
   A reconcile changes or deletes no ConfigMap that the Bucket does not control: one that was there at
   the start and that nobody else touches is there unchanged at the end, however the calls end.
   */
  lemma ForeignConfigMapStays(w: World, q: Job, o: BucketObject, s: NsName, cm: ConfigMap)
    requires s in w.c.configMaps && w.c.configMaps[s] == cm && cm.controller != Some(o.uid) && Spares(w.tape, s, cm)
    ensures var c := ReconcileObject(w, q, o).w.c;
            s in c.configMaps && c.configMaps[s] == cm
  {
    assert Steady(w, s, cm);
    RunKeepsSteady(w, q, o, Initialized(o.status), s, cm);
    PatchKeepsSteady(Computed(w, q, o).w, q.n, o.version, Computed(w, q, o).status, s, cm);
    hide ReconcileBucket, Aggregated, Initialized, PatchStatus, Spares;
  }

  lemma PatchKeepsSteady(w: World, n: NsName, version: int, st: BucketStatus, s: NsName, cm: ConfigMap)
    requires Steady(w, s, cm)
    ensures Steady(PatchStatus(w, n, version, st).w, s, cm)
  {
    hide Arrive, Rest, ReplyTo, Spares, Malformed;
    ArrivalKeepsSteady(w, s, cm, w.log + [StatusSent(n)]);
  }

  lemma RunKeepsSteady(w: World, q: Job, o: BucketObject, st: BucketStatus, s: NsName, cm: ConfigMap)
    requires Steady(w, s, cm) && cm.controller != Some(o.uid)
    ensures Steady(ReconcileBucket(w, q, o, st).w, s, cm)
  {
    hide Steady, Resolve, GarageUpdate, ConfigMapStage, Marked, Recorded, Differs;
    ResolveKeepsSteady(w, q, o, s, cm);
    var resolved := Resolve(w, q, o);
    if resolved.r.Ok? {
      var b := resolved.r.value;
      var ready := Marked(Recorded(st, b.id, AliasOf(o)), BucketReady, True, Met, o.generation);
      GarageWritesKeepSteady(resolved.w, AliasOf(o), b.id, o.spec.quotas, s, cm);
      MapStageKeepsSteady(resolved.w, q, o, ready, s, cm);
      MapStageKeepsSteady(GarageUpdate(resolved.w, b.id, o.spec.quotas).w, q, o, ready, s, cm);
    }
  }

  lemma MapStageKeepsSteady(w: World, q: Job, o: BucketObject, st: BucketStatus, s: NsName, cm: ConfigMap)
    requires Steady(w, s, cm) && cm.controller != Some(o.uid)
    ensures Steady(ConfigMapStage(w, q, o, st).w, s, cm)
  {
    hide Steady, EnsureConfigMap, DeleteStaleConfigMaps, Marked;
    EnsureKeepsSteady(w, q, o, st, s, cm);
    CleanupKeepsSteady(EnsureConfigMap(w, q, o, st).w, q.n, o, s, cm);
  }

  // ---------------------------------------------------------------- retries

  /** The delay after a failed import is positive. */
  lemma ImportDelayIsPositive(q: Job, o: BucketObject, e: Error)
    ensures Retries(ResolveFailure(q, o, e))
  {
    Backoff.ControllerConstantsNeverOverflow(q.age);
    hide Backoff.OwnerSecretBackoff;
  }

  /** A foreign ConfigMap has the name that the Bucket asks for. */
  predicate NameTaken(s: BucketStatus, generation: int) {
    Find(s.conditions, BucketConfigMapReady) == Some(Condition(BucketConfigMapReady, False, ConfigMapNameConflict, generation))
  }

  /** The last stage, however its calls end. */
  lemma MapStageRetries(w: World, q: Job, o: BucketObject, s: BucketStatus)
    ensures var run := ConfigMapStage(w, q, o, s);
            Retries(run.outcome) || EnsureConfigMap(w, q, o, s).r.Ok? || NameTaken(run.status, o.generation)
  {
    hide SetCondition, EnsureConfigMap, DeleteStaleConfigMaps;
  }

  lemma ResolvedRetries(w: World, q: Job, o: BucketObject)
    requires Resolve(w, q, o).r.Ok?
    ensures var run := ReconcileBucket(w, q, o, Initialized(o.status));
            Retries(run.outcome) || Succeeds(w, q, o) || NameTaken(run.status, o.generation)
  {
    hide Marked, Recorded, Initialized, Resolve, GarageUpdate, EnsureConfigMap, ConfigMapStage, Differs, ResolveFailure, NameTaken;
    var resolved := Resolve(w, q, o);
    MapStageRetries(SendQuotas(resolved.w, o, resolved.r.value).w, q, o, Publishing(o, resolved.r.value));
  }

  lemma FailureRetries(w: World, q: Job, o: BucketObject)
    ensures var run := Computed(w, q, o);
            Retries(run.outcome) || Succeeds(w, q, o) || NameTaken(run.status, o.generation)
  {
    hide Find, Initialized, Resolve, QuotaStage, Marked, Recorded, Aggregated, ResolveFailure, Succeeds;
    AggregatedMeaning(ReconcileBucket(w, q, o, Initialized(o.status)).status, o.generation);
    var resolved := Resolve(w, q, o);
    if resolved.r.Err? {
      ImportDelayIsPositive(q, o, resolved.r.error);
    } else {
      ResolvedRetries(w, q, o);
    }
  }

  /**
   A reconcile of a Bucket that does not compute Ready asks to be run again, unless a foreign ConfigMap
   has the name it needs, or the status write met a conflict, whose cause is an event of its own.
   */
  lemma LiveReconcileRetries(w: World, q: Job, o: BucketObject)
    ensures var run := Computed(w, q, o);
            || Retries(ReconcileObject(w, q, o).outcome)
            || Holds(run.status.conditions, Ready, True)
            || NameTaken(run.status, o.generation)
            || (run.status != o.status && PatchStatus(run.w, q.n, o.version, run.status).r == Err(Conflict))
  {
    hide Computed, Succeeds, PatchStatus, Find, NameTaken, Holds;
    FailureRetries(w, q, o);
    ReadyExactlyWhen(w, q, o);
  }

  // ---------------------------------------------------------------- quotas that cannot be set

  /**
   When the quotas cannot be set the status that says so breaks the CRD's rule for reasons: the API server
   rejects it, so the stored status, be it Ready or not, stays as it was. The error makes the queue retry.
   */
  lemma FailedQuotasAreNotRecorded(w: World, q: Job, o: BucketObject)
    requires var resolved := Resolve(w, q, o); resolved.r.Ok? && SendQuotas(resolved.w, o, resolved.r.value).r.Err?
    ensures var run := Computed(w, q, o);
            Retries(ReconcileObject(w, q, o).outcome) || PatchStatus(run.w, q.n, o.version, run.status).r == Err(Conflict)
    ensures ReconcileObject(w, q, o).w.c.objects == Arrive(Computed(w, q, o).w).objects
            || ReconcileObject(w, q, o).w.c.objects == Computed(w, q, o).w.c.objects
  {
    hide Find, SetCondition, InitAll, Resolve, GarageUpdate, Differs, Arrive, Aggregated, Malformed;
    var resolved := Resolve(w, q, o);
    var s := Marked(Recorded(Initialized(o.status), resolved.r.value.id, AliasOf(o)), BucketReady, False, UpdateFailed, o.generation);
    AggregatedMeaning(s, o.generation);
    MalformedReason(Aggregated(s, o.generation), o.generation) by {
      assert Find(s.conditions, BucketReady) == Some(Condition(BucketReady, False, UpdateFailed, o.generation));
    }
  }

  lemma MalformedReason(s: BucketStatus, generation: int)
    requires Find(s.conditions, BucketReady) == Some(Condition(BucketReady, False, UpdateFailed, generation))
    ensures Malformed(s)
  {
  }

  /** So no reachable state ever records the failure. */
  lemma UpdateFailedIsNeverStored(start: Cluster, events: seq<Event>, n: NsName)
    requires Initial(start) && n in Run(start, events).objects
    ensures forall c | c in Run(start, events).objects[n].status.conditions :: c.reason != UpdateFailed
  {
    InvAlways(start, events);
    assert ObjectInv(Run(start, events), Run(start, events).objects[n]);
  }

  // ---------------------------------------------------------------- one bucket, one identity

  lemma MintedOnce(c: Cluster)
    requires Inv(c)
    ensures forall alias: Alias :: c.minted[alias] <= 1
    ensures forall a, b | c.lawful && a in c.minted && b in c.minted && a.Suffixed? && b.Suffixed? && a.uid == b.uid :: a == b
    ensures forall a | a in c.minted :: a.Suffixed?
  {
    hide ObjectsInv, ConfigMapsInv;
    forall alias: Alias ensures c.minted[alias] <= 1 {
      if alias in c.minted {
        assert c.minted[alias] == 1;
      }
    }
  }

  lemma BucketsStay(c: Cluster, d: Cluster)
    requires Larger(c, d)
    ensures c.buckets.Keys <= d.buckets.Keys && c.lawful == d.lawful
  {
    forall id | id in c.buckets.Keys ensures id in d.buckets.Keys {
      assert id in c.buckets;
    }
  }

  /**
   Over every run the controller creates at most one Garage bucket per alias and, in a lawful cluster, at
   most one per Bucket, whatever replies are lost and wherever it crashes. Garage never loses one.
   */
  lemma OneBucketPerResource(start: Cluster, events: seq<Event>)
    requires Initial(start)
    ensures var c := Run(start, events);
            && (forall alias: Alias :: c.minted[alias] <= 1)
            && (start.lawful ==> forall a, b | a in c.minted && b in c.minted && a.Suffixed? && b.Suffixed? && a.uid == b.uid :: a == b)
            && start.buckets.Keys <= c.buckets.Keys
  {
    hide Initial, Run, Inv, Larger;
    InvAlways(start, events);
    MintedOnce(Run(start, events));
    BucketsStay(start, Run(start, events));
  }

  /** The Bucket uid has recorded this ID and this alias. */
  ghost predicate Remembers(c: Cluster, n: NsName, uid: Id, id: Id, alias: Alias) {
    && uid in c.uids
    && (n in c.objects && c.objects[n].uid == uid ==> c.objects[n].status.bucketID == id && c.objects[n].status.bucketName == Some(alias))
  }

  lemma GrownKeepsMemory(c: Cluster, d: Cluster, n: NsName, uid: Id, id: Id, alias: Alias)
    requires Grown(c, d) && Remembers(c, n, uid, id, alias)
    ensures Remembers(d, n, uid, id, alias)
  {
  }

  /** What is recorded is not computed anew. */
  lemma ComputedKeepsIdentity(w: World, q: Job, o: BucketObject)
    requires o.status.bucketID != NONE && o.status.bucketName.Some?
    ensures var run := Computed(w, q, o);
            run.status.bucketID == o.status.bucketID && run.status.bucketName == o.status.bucketName
  {
    hide Find, SetCondition, InitAll, Resolve, GarageUpdate, EnsureConfigMap, DeleteStaleConfigMaps, Aggregated, Differs, ResolveFailure;
    AggregatedMeaning(ReconcileBucket(w, q, o, Initialized(o.status)).status, o.generation);
  }

  lemma PatchKeepsMemory(w: World, n: NsName, o: BucketObject, s: BucketStatus, m: NsName, uid: Id, id: Id, alias: Alias)
    requires Held(w.c, n, o) && Remembers(w.c, m, uid, id, alias) && id != NONE
    requires o.status.bucketID != NONE ==> s.bucketID == o.status.bucketID && s.bucketName == o.status.bucketName
    ensures Remembers(PatchStatus(w, n, o.version, s).w.c, m, uid, id, alias)
  {
    hide Inv, ObjectInv, OwnMaps, Grown, Arrive, Rest, ReplyTo, Malformed;
    HeldOnArrival(w, n, o);
    GrownKeepsMemory(w.c, Arrive(w), m, uid, id, alias);
  }

  lemma ReconcileKeepsMemory(w: World, q: Job, m: NsName, uid: Id, id: Id, alias: Alias)
    requires Inv(w.c) && Remembers(w.c, m, uid, id, alias) && id != NONE
    ensures Remembers(Reconcile(w, q).w.c, m, uid, id, alias)
  {
    hide Inv, Held, Grown, Remembers, Computed, PatchStatus, Arrive, Rest, ReplyTo, StatusInv;
    InvOnArrival(w);
    GrownKeepsMemory(w.c, Arrive(w), m, uid, id, alias);
    var got := GetObject(w, q.n);
    if got.r.Ok? {
      var o := got.r.value;
      JustReadIsHeld(got.w.c, q.n);
      ComputedSound(got.w, q, o);
      var run := Computed(got.w, q, o);
      GrownKeepsMemory(got.w.c, run.w.c, m, uid, id, alias);
      HeldIdentity(got.w.c, q.n, o);
      if o.status.bucketID != NONE {
        ComputedKeepsIdentity(got.w, q, o);
      }
      PatchKeepsMemory(run.w, q.n, o, run.status, m, uid, id, alias);
    }
  }

  lemma HeldIdentity(c: Cluster, n: NsName, o: BucketObject)
    requires Held(c, n, o)
    ensures o.status.bucketID != NONE <==> o.status.bucketName.Some?
  {
  }

  lemma {:induction false} MemoryAlways(c: Cluster, events: seq<Event>, m: NsName, uid: Id, id: Id, alias: Alias)
    requires Inv(c) && Remembers(c, m, uid, id, alias) && id != NONE
    ensures Remembers(Run(c, events), m, uid, id, alias)
    decreases |events|
  {
    hide Inv, Remembers, Reconcile, Perform, Grown, Larger;
    if events != [] {
      NextKeepsInv(c, events[0]);
      match events[0] {
        case Other(a) =>
          ActionKeepsInv(c, a);
          GrownKeepsMemory(c, Perform(c, a), m, uid, id, alias);
        case Work(q, tape) => ReconcileKeepsMemory(World(c, tape, []), q, m, uid, id, alias);
      }
      MemoryAlways(Next(c, events[0]), events[1..], m, uid, id, alias);
    }
  }

  /**
   Once a Bucket has recorded an ID and an alias they never change, in any run, for as long as it exists;
   in a lawful cluster the alias leads to that very bucket in Garage, then and ever after.
   */
  lemma IdentityIsStable(start: Cluster, before: seq<Event>, events: seq<Event>, n: NsName)
    requires Initial(start)
    requires var c := Run(start, before);
             && n in c.objects && c.objects[n].status.bucketID != NONE
             && n in Run(c, events).objects && Run(c, events).objects[n].uid == c.objects[n].uid
    ensures var c := Run(start, before);
            var d := Run(c, events);
            var s := d.objects[n].status;
            && s.bucketID == c.objects[n].status.bucketID && s.bucketName == c.objects[n].status.bucketName
            && (start.lawful ==> s.bucketName == Some(AliasOf(c.objects[n])) && AliasOf(c.objects[n]) in d.aliases
                                 && d.aliases[AliasOf(c.objects[n])] == s.bucketID && s.bucketID in d.buckets)
  {
    InvAlways(start, before);
    var c := Run(start, before);
    InvAlways(c, events);
    var o := c.objects[n];
    hide Run;
    assert ObjectInv(c, o);
    MemoryAlways(c, events, n, o.uid, o.status.bucketID, o.status.bucketName.value);
  }
}
