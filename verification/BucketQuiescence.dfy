/** Left undisturbed, a Bucket that is Ready stays at rest: the next reconcile writes nothing. */
module BucketQuiescence {
  import opened Common
  import opened Conditions
  import opened Permissions
  import opened Quotas
  import opened BucketWorld
  import opened BucketSpec
  import opened BucketProofs
  import opened BucketMaps
  import opened BucketTheorems

  const QUIET := Fate([], Delivered)

  /** Nobody else acts and no call fails for as long as the tape lasts. */
  ghost predicate Calm(tape: seq<Fate>) {
    forall i | 0 <= i < |tape| :: tape[i] == QUIET
  }

  lemma CalmCall(w: World)
    requires Calm(w.tape)
    ensures Arrive(w) == w.c && Calm(Rest(w))
    ensures w.tape != [] ==> ReplyTo(w) == Delivered && Rest(w) == w.tape[1..]
    ensures w.tape == [] ==> ReplyTo(w) == Refused(Unreachable)
  {
    if w.tape != [] {
      assert w.tape[0].actions == [];
    }
  }

  /** The reads of a reconcile look at things that the reconcile itself does not change. */
  ghost predicate Backdrop(c: Cluster, d: Cluster) {
    && d.objects == c.objects && d.secrets == c.secrets && d.keys == c.keys && d.rows == c.rows
  }

  /** A calm world stays calm and its backdrop the same. */
  ghost predicate Onward(v: World, w: World) {
    Calm(w.tape) && Backdrop(v.c, w.c)
  }

  lemma CallsAreOnward(w: World, s: NsName, alias: Alias, pair: Pair)
    requires Calm(w.tape)
    ensures Onward(w, GetSecret(w, s).w) && Onward(w, GarageGet(w, alias).w) && Onward(w, ReadPermissions(w, pair).w)
    ensures Onward(w, GarageCreate(w, alias).w) && Onward(w, GetConfigMap(w, s).w) && Onward(w, DeleteConfigMap(w, s).w)
  {
    hide Arrive, Rest, ReplyTo, Calm;
    CalmCall(w);
  }

  lemma WritesAreOnward(w: World, s: NsName, read: ConfigMap, cm: ConfigMap, id: Id, quotas: Quotas)
    requires Calm(w.tape)
    ensures Onward(w, CreateConfigMap(w, s, cm).w) && Onward(w, UpdateConfigMap(w, s, read, cm).w)
    ensures Onward(w, GarageUpdate(w, id, quotas).w)
  {
    hide Arrive, Rest, ReplyTo, Calm, FromS3;
    CalmCall(w);
  }

  lemma NewIsOnward(w: World, alias: Alias)
    requires Calm(w.tape)
    ensures Onward(w, ResolveNewBucket(w, alias).w)
  {
    hide Calm, GarageGet, GarageCreate;
    CallsAreOnward(w, NsName(NONE, NONE), alias, Pair(NONE, NONE));
    CallsAreOnward(GarageGet(w, alias).w, NsName(NONE, NONE), alias, Pair(NONE, NONE));
  }

  lemma OnwardTwice(u: World, v: World, w: World)
    requires Onward(u, v) && Onward(v, w)
    ensures Onward(u, w)
  {
    hide Calm;
  }

  lemma VerifyIsOnward(w: World, keyID: Id, b: S3Bucket)
    requires Calm(w.tape)
    ensures Onward(w, VerifyOwner(w, keyID, b).w)
  {
    hide Calm, Backdrop, ReadPermissions;
    CallsAreOnward(w, NsName(NONE, NONE), Plain(NONE), Pair(keyID, b.id));
  }

  lemma ExistingIsOnward(w: World, alias: Alias, s: NsName)
    requires Calm(w.tape)
    ensures Onward(w, ResolveExistingBucket(w, alias, s).w)
  {
    hide Calm, Backdrop, GetSecret, GarageGet, VerifyOwner;
    CallsAreOnward(w, s, alias, Pair(NONE, NONE));
    var secret := GetSecret(w, s);
    CallsAreOnward(secret.w, s, alias, Pair(NONE, NONE));
    var got := GarageGet(secret.w, alias);
    OnwardTwice(w, secret.w, got.w);
    if secret.r.Ok? && got.r.Ok? {
      VerifyIsOnward(got.w, secret.r.value, got.r.value);
      OnwardTwice(w, got.w, VerifyOwner(got.w, secret.r.value, got.r.value).w);
    }
  }

  lemma ResolveIsOnward(w: World, q: Job, o: BucketObject)
    requires Calm(w.tape)
    ensures Onward(w, Resolve(w, q, o).w)
  {
    hide Onward, Calm, ResolveNewBucket, ResolveExistingBucket;
    match o.spec.source {
      case New(_) => NewIsOnward(w, AliasOf(o));
      case Existing(alias, secret) => ExistingIsOnward(w, alias, NsName(q.n.ns, secret));
    }
  }

  lemma EnsureIsOnward(w: World, q: Job, o: BucketObject, s: BucketStatus)
    requires Calm(w.tape)
    ensures Onward(w, EnsureConfigMap(w, q, o, s).w)
  {
    hide Calm, GetConfigMap, CreateConfigMap, UpdateConfigMap, DesiredConfigMap;
    var name := ConfigMapOf(q.n, o.spec);
    var desired := DesiredConfigMap(q, o, s);
    CallsAreOnward(w, name, Plain(NONE), Pair(NONE, NONE));
    var got := GetConfigMap(w, name);
    WritesAreOnward(got.w, name, if got.r.Ok? then got.r.value else desired, desired, NONE, o.spec.quotas);
  }

  lemma {:induction false} DeleteEachIsOnward(w: World, ns: Id, items: seq<Item>, desired: Id, uid: Id)
    requires Calm(w.tape)
    ensures Onward(w, DeleteEach(w, ns, items, desired, uid).w)
    decreases |items|
  {
    hide Calm, DeleteConfigMap;
    if items != [] {
      if IsStale(items[0], desired, uid) {
        var s := NsName(ns, items[0].name);
        CallsAreOnward(w, s, Plain(NONE), Pair(NONE, NONE));
        DeleteEachIsOnward(DeleteConfigMap(w, s).w, ns, items[1..], desired, uid);
      } else {
        DeleteEachIsOnward(w, ns, items[1..], desired, uid);
      }
    }
  }

  lemma CleanupIsOnward(w: World, n: NsName, o: BucketObject)
    requires Calm(w.tape)
    ensures Onward(w, DeleteStaleConfigMaps(w, n, o).w)
  {
    hide Calm, Arrive, Rest, ReplyTo, DeleteEach, Items, Listing, Tagged;
    CalmCall(w);
    var listed := ListConfigMaps(w, n.ns, n.name);
    if listed.r.Ok? {
      DeleteEachIsOnward(listed.w, n.ns, listed.r.value, ConfigMapOf(n, o.spec).name, o.uid);
    }
  }

  lemma SuccessIsOnward(w: World, q: Job, o: BucketObject)
    requires Calm(w.tape) && Succeeds(w, q, o)
    ensures Onward(w, Cleanup(w, q, o).w)
  {
    hide Calm, Resolve, GarageUpdate, EnsureConfigMap, DeleteStaleConfigMaps, Publishing, Differs;
    ResolveIsOnward(w, q, o);
    var resolved := Resolve(w, q, o);
    WritesAreOnward(resolved.w, q.n, DesiredConfigMap(q, o, o.status), DesiredConfigMap(q, o, o.status), resolved.r.value.id, o.spec.quotas);
    var sent := SendQuotas(resolved.w, o, resolved.r.value);
    EnsureIsOnward(sent.w, q, o, Publishing(o, resolved.r.value));
    CleanupIsOnward(EnsureConfigMap(sent.w, q, o, Publishing(o, resolved.r.value)).w, q.n, o);
  }

  // ---------------------------------------------------------------- at rest

  /** An import is authorised by the Secret, the key and the permissions as they are. */
  ghost predicate Importable(c: Cluster, n: NsName, o: BucketObject, id: Id) {
    o.spec.source.Existing? ==>
      && var s := NsName(n.ns, o.spec.source.ownerKeySecret);
      && s in c.secrets && c.secrets[s] in c.keys
      && Pair(c.secrets[s], id) in c.rows && c.rows[Pair(c.secrets[s], id)].owner
  }

  ghost predicate IsMarked(s: BucketStatus, t: CondType, reason: Reason, generation: int) {
    Find(s.conditions, t) == Some(Condition(t, True, reason, generation))
  }

  /** The status of a Bucket for which everything is in place. */
  ghost predicate RestStatus(o: BucketObject, s: BucketStatus) {
    && s.observedGeneration == o.generation && s.bucketID != NONE && s.bucketName.Some?
    && IsMarked(s, BucketReady, Met, o.generation) && IsMarked(s, BucketConfigMapReady, Met, o.generation)
    && IsMarked(s, Ready, Available, o.generation)
  }

  /** Everything that o asks for is in place, with this Garage bucket. */
  ghost predicate AtRest(c: Cluster, q: Job, o: BucketObject, id: Id) {
    && Carries(c, AliasOf(o), id) && Meets(c.buckets[id], o.spec.quotas) && Importable(c, q.n, o, id)
    && Published(c, ConfigMapOf(q.n, o.spec), DesiredConfigMap(q, o, o.status))
    && Owned(c, o.uid) <= {ConfigMapOf(q.n, o.spec)}
    && RestStatus(o, o.status)
  }

  // ---------------------------------------------------------------- the reconcile of a Bucket at rest

  /** Nothing was written. */
  ghost predicate NoWrites(log: seq<Entry>) {
    forall i | 0 <= i < |log| :: log[i].SecretRead? || log[i].PermissionsRead?
  }

  lemma RestResolve(w: World, q: Job, o: BucketObject, id: Id)
    requires Calm(w.tape) && |w.tape| >= 3 && NoWrites(w.log) && Carries(w.c, AliasOf(o), id) && Importable(w.c, q.n, o, id)
    ensures var resolved := Resolve(w, q, o);
            && resolved.r == Ok(S3Bucket(id, ToS3(w.c.buckets[id])))
            && resolved.w.c == w.c && Calm(resolved.w.tape) && |resolved.w.tape| >= |w.tape| - 3 && NoWrites(resolved.w.log)
  {
    hide Calm, Arrive, Rest, ReplyTo, ToS3;
    CalmCall(w);
    if o.spec.source.Existing? {
      var s := NsName(q.n.ns, o.spec.source.ownerKeySecret);
      var secret := GetSecret(w, s);
      CalmCall(secret.w);
      var got := GarageGet(secret.w, AliasOf(o));
      CalmCall(got.w);
    }
  }

  lemma RestQuotas(w: World, o: BucketObject, id: Id)
    requires Calm(w.tape) && |w.tape| >= 1 && NoWrites(w.log) && id in w.c.buckets
    requires Meets(w.c.buckets[id], o.spec.quotas) && Unsigned(w.c.buckets[id])
    ensures var sent := SendQuotas(w, o, S3Bucket(id, ToS3(w.c.buckets[id])));
            && sent.r == Ok(()) && sent.w.c == w.c && Calm(sent.w.tape) && |sent.w.tape| >= |w.tape| - 1
            && (NoWrites(sent.w.log) <==> o.spec.quotas.maxObjects >= 0 && o.spec.quotas.maxSize >= 0)
            && |sent.w.log| >= |w.log|
  {
    hide Calm, Arrive, Rest, ReplyTo;
    CalmCall(w);
    WireRoundTrip(o.spec.quotas);
    var b := S3Bucket(id, ToS3(w.c.buckets[id]));
    if Differs(b, o.spec) {
      assert w.c.buckets[id] == FromS3(o.spec.quotas);
      assert w.c.buckets[id := FromS3(o.spec.quotas)] == w.c.buckets;
      var log := SendQuotas(w, o, b).w.log;
      assert log[|w.log|].QuotasSent?;
    }
  }

  lemma RestEnsure(w: World, q: Job, o: BucketObject, s: BucketStatus)
    requires Calm(w.tape) && |w.tape| >= 1 && Published(w.c, ConfigMapOf(q.n, o.spec), DesiredConfigMap(q, o, s))
    ensures EnsureConfigMap(w, q, o, s) == Call(World(w.c, w.tape[1..], w.log), Ok(()))
  {
    hide Calm, Arrive, Rest, ReplyTo, ConfigMapOf;
    CalmCall(w);
    assert w.log + [] == w.log;
  }

  lemma {:induction false} NothingToDelete(w: World, ns: Id, items: seq<Item>, desired: Id, uid: Id)
    requires forall i | i in items :: !IsStale(i, desired, uid)
    ensures DeleteEach(w, ns, items, desired, uid) == Call(w, Ok(()))
    decreases |items|
  {
    if items != [] {
      assert items[0] in items;
      assert forall i | i in items[1..] :: i in items;
      NothingToDelete(w, ns, items[1..], desired, uid);
    }
  }

  lemma RestCleanup(w: World, n: NsName, o: BucketObject)
    requires Calm(w.tape) && |w.tape| >= 1 && Owned(w.c, o.uid) <= {ConfigMapOf(n, o.spec)}
    ensures DeleteStaleConfigMaps(w, n, o) == Call(World(w.c, w.tape[1..], w.log), Ok(()))
  {
    hide Calm, Arrive, Rest, ReplyTo, DeleteEach, Items, Listing, Tagged, Owned, ConfigMapOf;
    CalmCall(w);
    assert w.log + [] == w.log;
    var items := Items(w.c, n.ns, Listing(Tagged(w.c, n.ns, n.name)));
    var desired := ConfigMapOf(n, o.spec);
    assert Stale(w.c, n, o) == {};
    forall i | i in items ensures !IsStale(i, desired.name, o.uid) {
      if IsStale(i, desired.name, o.uid) {
        ListedIsStale(w.c, n, o, i);
      }
    }
    NothingToDelete(World(w.c, w.tape[1..], w.log), n.ns, items, desired.name, o.uid);
  }

  // ---------------------------------------------------------------- its status

  lemma MarkedAgain(s: BucketStatus, t: CondType, reason: Reason, generation: int)
    requires IsMarked(s, t, reason, generation)
    ensures Marked(s, t, True, reason, generation) == s
  {
  }

  lemma RestInitialized(o: BucketObject, s: BucketStatus)
    requires RestStatus(o, s)
    ensures Initialized(s) == s
  {
    hide Find, InitAll;
    assert forall t | t in BUCKET_CONDITIONS :: Find(s.conditions, t).Some? by {
      assert forall t | t in BUCKET_CONDITIONS :: t == Ready || t == BucketReady || t == BucketConfigMapReady;
    }
    InitOfInitialised(s.conditions, BUCKET_CONDITIONS);
  }

  lemma RestAggregated(o: BucketObject, s: BucketStatus)
    requires RestStatus(o, s)
    ensures Aggregated(s, o.generation) == s
  {
    hide FirstFailure, IndexOf;
    assert forall t | t in BUCKET_ORDER :: t == BucketReady || t == BucketConfigMapReady;
    assert Verdict(s.conditions, BUCKET_ORDER, WaitingForBucket, o.generation) == Condition(Ready, True, Available, o.generation);
  }

  lemma RestRecorded(o: BucketObject, s: BucketStatus, id: Id)
    requires RestStatus(o, s)
    ensures Recorded(s, id, AliasOf(o)) == s
  {
    hide Find, AliasOf;
  }

  lemma RestStatusAgain(o: BucketObject, b: S3Bucket)
    requires RestStatus(o, o.status)
    ensures Publishing(o, b) == o.status
    ensures Marked(o.status, BucketConfigMapReady, True, Met, o.generation) == o.status
    ensures Aggregated(o.status, o.generation) == o.status
  {
    var s := o.status;
    RestInitialized(o, s);
    RestRecorded(o, s, b.id);
    RestAggregated(o, s);
    MarkedAgain(s, BucketReady, Met, o.generation);
    MarkedAgain(s, BucketConfigMapReady, Met, o.generation);
    hide Find, Initialized, Recorded, Marked, Aggregated, AliasOf;
  }

  /** What an undisturbed reconcile of a Bucket at rest does. */
  lemma RestReconcile(w: World, q: Job, o: BucketObject, id: Id)
    requires AtRest(w.c, q, o, id) && Unsigned(w.c.buckets[id]) && Calm(w.tape) && |w.tape| >= 6 && NoWrites(w.log)
    ensures var end := ReconcileObject(w, q, o);
            && end.outcome == Done && end.w.c == w.c
            && (NoWrites(end.w.log) <==> o.spec.quotas.maxObjects >= 0 && o.spec.quotas.maxSize >= 0)
  {
    hide Calm, Resolve, GarageUpdate, EnsureConfigMap, DeleteStaleConfigMaps, Marked, Recorded, Initialized, Aggregated, Differs, NoWrites,
      Published, Owned, Importable, Meets, Carries, RestStatus, ConfigMapOf, AliasOf, ToS3, Unsigned;
    CarriesABucket(w.c, AliasOf(o), id);
    RestResolve(w, q, o, id);
    var resolved := Resolve(w, q, o);
    var b := S3Bucket(id, ToS3(w.c.buckets[id]));
    RestQuotas(resolved.w, o, id);
    var sent := SendQuotas(resolved.w, o, b);
    RestStatusAgain(o, b);
    RestEnsure(sent.w, q, o, o.status);
    var ensured := World(sent.w.c, sent.w.tape[1..], sent.w.log);
    CalmRest(sent.w.tape);
    RestCleanup(ensured, q.n, o);
  }

  lemma CarriesABucket(c: Cluster, alias: Alias, id: Id)
    requires Carries(c, alias, id)
    ensures id in c.buckets
  {
  }

  lemma CalmRest(tape: seq<Fate>)
    requires Calm(tape) && tape != []
    ensures Calm(tape[1..])
  {
  }

  // ---------------------------------------------------------------- how a Bucket comes to rest

  lemma ResolveImports(w: World, q: Job, o: BucketObject)
    requires Calm(w.tape) && Resolve(w, q, o).r.Ok?
    ensures Importable(w.c, q.n, o, Resolve(w, q, o).r.value.id)
  {
    hide Calm, Arrive, Rest, ReplyTo, ToS3;
    if o.spec.source.Existing? {
      CalmCall(w);
      var s := NsName(q.n.ns, o.spec.source.ownerKeySecret);
      var secret := GetSecret(w, s);
      CalmCall(secret.w);
      var got := GarageGet(secret.w, AliasOf(o));
      CalmCall(got.w);
    }
  }

  lemma SuccessStatus(w: World, q: Job, o: BucketObject)
    requires Succeeds(w, q, o)
    ensures var s := Computed(w, q, o).status;
            && IsMarked(s, BucketReady, Met, o.generation) && IsMarked(s, BucketConfigMapReady, Met, o.generation)
            && IsMarked(s, Ready, Available, o.generation)
  {
    hide Find, SetCondition, InitAll, Resolve, GarageUpdate, EnsureConfigMap, DeleteStaleConfigMaps, Aggregated, Differs;
    var plain := ReconcileBucket(w, q, o, Initialized(o.status));
    AggregatedMeaning(plain.status, o.generation);
    AggregatedTrue(plain.status, o.generation);
  }

  lemma AggregatedTrue(s: BucketStatus, generation: int)
    requires Holds(s.conditions, BucketReady, True) && Holds(s.conditions, BucketConfigMapReady, True)
    ensures IsMarked(Aggregated(s, generation), Ready, Available, generation)
  {
    hide Find, FirstFailure;
    assert forall t | t in BUCKET_ORDER :: t == BucketReady || t == BucketConfigMapReady;
  }

  lemma CalmSpares(tape: seq<Fate>, s: NsName, cm: ConfigMap)
    requires Calm(tape)
    ensures Spares(tape, s, cm)
  {
  }

  /** The result of a successful undisturbed run, before its status is written. */
  lemma SuccessRests(w: World, q: Job, o: BucketObject) returns (id: Id)
    requires Held(w.c, q.n, o) && Calm(w.tape)
    requires var run := Computed(w, q, o); run.outcome == Done && Holds(run.status.conditions, Ready, True)
    ensures var run := Computed(w, q, o);
            && AtRest(run.w.c, q, o.(status := run.status), id) && Unsigned(run.w.c.buckets[id])
            && Onward(w, run.w)
  {
    hide Held, Kept, Calm, Resolve, SendQuotas, EnsureConfigMap, DeleteStaleConfigMaps, Publishing, Computed, Holds, ConfigMapOf, Spares,
      Meets, StatusInv, AliasOf, Owned, IsMarked, Importable, Succeeds, Cleanup;
    ReadyExactlyWhen(w, q, o);
    ReadyBucketIsConfigured(w, q, o);
    DesiredMapIsCurrent(w, q, o);
    SuccessStatus(w, q, o);
    SuccessIsOnward(w, q, o);
    var run := Computed(w, q, o);
    var cm := ConfigMap(Some(o.uid), q.n.name, run.status.bucketName, q.endpoint);
    CalmSpares(w.tape, ConfigMapOf(q.n, o.spec), cm);
    DesiredMapIsOnly(w, q, o) by {
      MarkedHolds(run.status, o.generation);
    }
    id := run.w.c.aliases[AliasOf(o)];
    SuccessIdentity(w, q, o);
    ImportableAfter(w, q, o, run, id);
    ComputedSound(w, q, o);
    SoundBuckets(w.c, run, q.n, o);
    SameSpec(run.w.c, q.n, o, run.status, id);
  }

  lemma MarkedHolds(s: BucketStatus, generation: int)
    requires IsMarked(s, BucketConfigMapReady, Met, generation)
    ensures Holds(s.conditions, BucketConfigMapReady, True)
  {
  }

  lemma SameSpec(c: Cluster, n: NsName, o: BucketObject, s: BucketStatus, id: Id)
    requires Importable(c, n, o, id)
    ensures AliasOf(o.(status := s)) == AliasOf(o) && Importable(c, n, o.(status := s), id)
  {
  }

  /** The bucket that was resolved is the one the alias leads to in the end. */
  lemma SuccessIdentity(w: World, q: Job, o: BucketObject)
    requires Held(w.c, q.n, o) && Succeeds(w, q, o)
    ensures var run := Computed(w, q, o);
            && AliasOf(o) in run.w.c.aliases && run.w.c.aliases[AliasOf(o)] == Resolve(w, q, o).r.value.id
            && run.status.bucketID != NONE && run.status.bucketName.Some?
  {
    hide Held, Kept, Resolve, SendQuotas, EnsureConfigMap, DeleteStaleConfigMaps, Publishing, AliasOf, Meets, StatusInv, Computed, Holds;
    ReadyExactlyWhen(w, q, o);
    EarnedBucket(w, q, o);
    var b := Resolve(w, q, o).r.value;
    var sent := SentWorld(w, q, o);
    EarnedToTheEnd(sent, q, o, Publishing(o, b), b.id, sent.c.buckets[b.id]);
    PublishingHasID(o, b);
    PublishingHasName(o, b);
  }

  lemma PublishingHasName(o: BucketObject, b: S3Bucket)
    ensures Publishing(o, b).bucketName.Some?
  {
    hide InitAll, SetCondition, AliasOf;
  }

  lemma ImportableAfter(w: World, q: Job, o: BucketObject, run: BucketRun, id: Id)
    requires Calm(w.tape) && Succeeds(w, q, o) && id == Resolve(w, q, o).r.value.id && Backdrop(w.c, run.w.c)
    ensures Importable(run.w.c, q.n, o, id)
  {
    hide Calm, Resolve, GarageUpdate, EnsureConfigMap;
    ResolveImports(w, q, o);
  }

  lemma RestFrame(c: Cluster, d: Cluster, q: Job, later: Job, o: BucketObject, p: BucketObject, id: Id)
    requires AtRest(c, q, o, id) && d == c.(objects := d.objects, clock := d.clock) && p == o.(version := p.version)
    requires later.n == q.n && later.endpoint == q.endpoint
    ensures AtRest(d, later, p, id)
  {
    hide Find, Meets, ConfigMapOf;
  }

  lemma CalmPatch(w: World, n: NsName, o: BucketObject, s: BucketStatus)
    requires Calm(w.tape) && n in w.c.objects && w.c.objects[n] == o
    ensures var patch := PatchStatus(w, n, o.version, s);
            && patch.r != Err(Conflict)
            && (patch.r.Ok? ==> patch.w.c == WithStatus(w.c, n, s))
  {
    hide Calm, Arrive, Rest, ReplyTo, Malformed;
    CalmCall(w);
  }

  /** An undisturbed reconcile that computes Ready and reports no error records what it computed. */
  lemma ReadyIsRecorded(w: World, q: Job, o: BucketObject)
    requires q.n in w.c.objects && w.c.objects[q.n] == o && Calm(w.tape)
    requires Holds(Computed(w, q, o).status.conditions, Ready, True) && ReconcileObject(w, q, o).outcome == Done
    ensures var run := Computed(w, q, o);
            var c := ReconcileObject(w, q, o).w.c;
            && run.outcome == Done && q.n in run.w.c.objects && run.w.c.objects[q.n] == o
            && c == if run.status == o.status then run.w.c else WithStatus(run.w.c, q.n, run.status)
  {
    hide Calm, Computed, PatchStatus, Holds, WithStatus;
    var run := Computed(w, q, o);
    ReadyKeepsObjects(w, q, o);
    CalmPatch(run.w, q.n, o, run.status);
  }

  lemma ReadyKeepsObjects(w: World, q: Job, o: BucketObject)
    requires Calm(w.tape) && Holds(Computed(w, q, o).status.conditions, Ready, True)
    ensures var run := Computed(w, q, o);
            Calm(run.w.tape) && run.w.c.objects == w.c.objects && (run.outcome == Done || run.outcome.Failed?)
  {
    hide Calm, Computed, Succeeds, Cleanup, Holds;
    ReadyExactlyWhen(w, q, o);
    SuccessIsOnward(w, q, o);
  }

  /** What an undisturbed reconcile of o that computes Ready and reports no error leaves behind. */
  lemma ReadyRests(w: World, q: Job, later: Job, o: BucketObject) returns (id: Id)
    requires Held(w.c, q.n, o) && q.n in w.c.objects && w.c.objects[q.n] == o && Calm(w.tape)
    requires Holds(Computed(w, q, o).status.conditions, Ready, True) && ReconcileObject(w, q, o).outcome == Done
    requires later.n == q.n && later.endpoint == q.endpoint
    ensures var c := ReconcileObject(w, q, o).w.c;
            && q.n in c.objects && c.objects[q.n].spec == o.spec
            && AtRest(c, later, c.objects[q.n], id) && Unsigned(c.buckets[id])
  {
    hide Held, Calm, Computed, ReconcileObject, AtRest, Unsigned, Holds;
    var run := Computed(w, q, o);
    ReadyIsRecorded(w, q, o);
    id := SuccessRests(w, q, o);
    var c := ReconcileObject(w, q, o).w.c;
    RestFrame(run.w.c, c, q, later, o.(status := run.status), c.objects[q.n], id);
  }

  /**
   In an undisturbed world, after one reconcile that computed Ready and reported no error, the next one is
   done, changes nothing in the cluster, and sends nothing to anybody, not even an update without effect,
   exactly when no quota of the spec is negative.
   */
  lemma Quiescence(w: World, q: Job, later: Job, o: BucketObject, tape: seq<Fate>)
    requires Inv(w.c) && q.n in w.c.objects && w.c.objects[q.n] == o && Calm(w.tape)
    requires Holds(Computed(w, q, o).status.conditions, Ready, True) && ReconcileObject(w, q, o).outcome == Done
    requires later.n == q.n && later.endpoint == q.endpoint && Calm(tape) && |tape| >= 7
    ensures var c := ReconcileObject(w, q, o).w.c;
            var end := Reconcile(World(c, tape, []), later);
            && end.outcome == Done && end.w.c == c
            && (NoWrites(end.w.log) <==> o.spec.quotas.maxObjects >= 0 && o.spec.quotas.maxSize >= 0)
  {
    hide Inv, Held, Calm, Computed, ReconcileObject, AtRest, Unsigned, Holds, NoWrites, Arrive, Rest, ReplyTo;
    JustReadIsHeld(w.c, q.n);
    var id := ReadyRests(w, q, later, o);
    var c := ReconcileObject(w, q, o).w.c;
    var w0 := World(c, tape, []);
    CalmCall(w0);
    NothingWritten();
    RestHasBucket(c, later, c.objects[q.n], id);
    var w1 := World(c, tape[1..], []);
    assert GetObject(w0, q.n) == Call(w1, Ok(c.objects[q.n]));
    RestReconcile(w1, later, c.objects[q.n], id);
  }

  lemma RestHasBucket(c: Cluster, q: Job, o: BucketObject, id: Id)
    requires AtRest(c, q, o, id)
    ensures id in c.buckets
  {
  }

  lemma NothingWritten()
    ensures NoWrites([])
  {
  }
}
