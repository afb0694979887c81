/** Left undisturbed, the Bucket controller brings a Bucket to rest in one reconcile whenever that is possible. */
module BucketConvergence {
  import opened Common
  import opened Conditions
  import opened Permissions
  import opened Quotas
  import opened BucketWorld
  import opened BucketSpec
  import opened BucketProofs
  import opened BucketMaps
  import opened BucketTheorems
  import opened BucketQuiescence
  import Backoff
  import BucketCauses

  // ---------------------------------------------------------------- the calls

  /** Everything that a Bucket needs from others is there: nothing for a new one; for an import the bucket, the Secret, and an owner's key. */
  ghost predicate Obtainable(c: Cluster, n: NsName, source: Source) {
    match source
    case New(_) => true
    case Existing(alias, secret) =>
      && alias in c.aliases && NsName(n.ns, secret) in c.secrets && c.secrets[NsName(n.ns, secret)] in c.keys
      && var pair := Pair(c.secrets[NsName(n.ns, secret)], c.aliases[alias]);
      pair in c.rows && c.rows[pair].owner
  }

  /** What an import that is not obtainable lacks first. */
  function Missing(c: Cluster, n: NsName, alias: Alias, secret: Id): Reason {
    if NsName(n.ns, secret) !in c.secrets then OwnerKeySecretNotFound
    else if alias !in c.aliases then BucketNotFound
    else OwnershipVerificationFailed
  }

  /** Somebody else has the name that the ConfigMap should have. */
  ghost predicate NameIsTaken(c: Cluster, n: NsName, o: BucketObject) {
    var s := NsName(n.ns, if o.spec.configMapName != NONE then o.spec.configMapName else n.name);
    s in c.configMaps && c.configMaps[s].controller != Some(o.uid)
  }

  /** v follows from w by at most k calls, none of which concerned ConfigMaps. */
  ghost predicate NotMaps(w: World, v: World, k: nat) {
    Calm(v.tape) && |v.tape| + k >= |w.tape| && v.c.configMaps == w.c.configMaps && v.c.objects == w.c.objects
  }

  lemma CalmNew(w: World, alias: Alias)
    requires Calm(w.tape) && |w.tape| >= 2 && GarageInv(w.c)
    ensures var r := ResolveNewBucket(w, alias);
            r.r.Ok? && NotMaps(w, r.w, 2) && r.r.value.id in r.w.c.buckets
  {
    hide Calm, Arrive, Rest, ReplyTo, ToS3;
    CalmCall(w);
    CalmCall(GarageGet(w, alias).w);
  }

  lemma CalmExisting(w: World, alias: Alias, n: NsName, secret: Id)
    requires Calm(w.tape) && |w.tape| >= 3 && GarageInv(w.c)
    ensures var r := ResolveExistingBucket(w, alias, NsName(n.ns, secret));
            && NotMaps(w, r.w, 3)
            && (r.r.Ok? <==> Obtainable(w.c, n, Existing(alias, secret)))
            && (r.r.Ok? ==> r.r.value.id in r.w.c.buckets) && (r.r.Err? ==> r.reason == Missing(w.c, n, alias, secret))
  {
    hide Calm, GetSecret, GarageGet, VerifyOwner;
    var s := NsName(n.ns, secret);
    CalmReads(w, s, alias);
    var key := GetSecret(w, s);
    CalmReads(key.w, s, alias);
    var got := GarageGet(key.w, alias);
    if key.r.Ok? && got.r.Ok? {
      CalmVerify(got.w, key.r.value, got.r.value);
    }
  }

  lemma CalmReads(w: World, s: NsName, alias: Alias)
    requires Calm(w.tape) && |w.tape| >= 1 && GarageInv(w.c)
    ensures var key, got := GetSecret(w, s), GarageGet(w, alias);
            && NotMaps(w, key.w, 1) && NotMaps(w, got.w, 1) && key.w.c == w.c && got.w.c == w.c
            && key.r == (if s in w.c.secrets then Ok(w.c.secrets[s]) else Err(NotFound))
            && (got.r.Ok? <==> alias in w.c.aliases) && (got.r.Ok? ==> got.r.value.id == w.c.aliases[alias] && got.r.value.id in w.c.buckets)
  {
    hide Calm, Arrive, Rest, ReplyTo, ToS3;
    CalmCall(w);
  }

  lemma CalmVerify(w: World, keyID: Id, b: S3Bucket)
    requires Calm(w.tape) && |w.tape| >= 1
    ensures var r := VerifyOwner(w, keyID, b);
            && NotMaps(w, r.w, 1) && r.w.c == w.c && (r.r.Ok? ==> r.r == Ok(b)) && (r.r.Err? ==> r.reason == OwnershipVerificationFailed)
            && (r.r.Ok? <==> keyID in w.c.keys && Pair(keyID, b.id) in w.c.rows && w.c.rows[Pair(keyID, b.id)].owner)
  {
    hide Calm, Arrive, Rest, ReplyTo;
    CalmCall(w);
  }

  lemma CalmResolve(w: World, q: Job, o: BucketObject)
    requires Calm(w.tape) && |w.tape| >= 3 && GarageInv(w.c)
    ensures var r := Resolve(w, q, o);
            && NotMaps(w, r.w, 3)
            && (r.r.Ok? <==> Obtainable(w.c, q.n, o.spec.source))
            && (r.r.Ok? ==> r.r.value.id in r.w.c.buckets)
            && (r.r.Err? ==> o.spec.source.Existing? && r.reason == Missing(w.c, q.n, o.spec.source.alias, o.spec.source.ownerKeySecret))
  {
    hide Calm, ResolveNewBucket, ResolveExistingBucket, GarageInv, Missing;
    match o.spec.source {
      case New(name) => CalmNew(w, AliasOf(o));
      case Existing(alias, secret) => CalmExisting(w, alias, q.n, secret);
    }
  }

  lemma CalmSend(w: World, o: BucketObject, b: S3Bucket)
    requires Calm(w.tape) && |w.tape| >= 1 && b.id in w.c.buckets
    ensures SendQuotas(w, o, b).r.Ok? && NotMaps(w, SendQuotas(w, o, b).w, 1)
  {
    hide Calm, Arrive, Rest, ReplyTo, FromS3, Differs;
    CalmCall(w);
  }

  /** Publishing succeeds unless the name is taken, and adds at most one ConfigMap. */
  lemma CalmEnsure(w: World, q: Job, o: BucketObject, s: BucketStatus)
    requires Calm(w.tape) && |w.tape| >= 2
    ensures var e := EnsureConfigMap(w, q, o, s);
            && Calm(e.w.tape) && |e.w.tape| + 2 >= |w.tape| && e.w.c.configMaps.Keys <= w.c.configMaps.Keys + {ConfigMapOf(q.n, o.spec)}
            && (NameIsTaken(w.c, q.n, o) ==> e.r == Err(NameConflict) && e.w.c == w.c)
            && (!NameIsTaken(w.c, q.n, o) ==> e.r.Ok?)
  {
    hide Calm, Arrive, Rest, ReplyTo;
    CalmCall(w);
    CalmCall(GetConfigMap(w, ConfigMapOf(q.n, o.spec)).w);
  }

  lemma {:induction false} CalmDeletes(w: World, ns: Id, items: seq<Item>, desired: Id, uid: Id)
    requires Calm(w.tape) && |w.tape| >= |items|
    ensures var d := DeleteEach(w, ns, items, desired, uid);
            d.r.Ok? && Calm(d.w.tape) && |d.w.tape| + |items| >= |w.tape|
    decreases |items|
  {
    hide Calm, DeleteConfigMap;
    if items != [] {
      if IsStale(items[0], desired, uid) {
        CalmDelete(w, NsName(ns, items[0].name));
        CalmDeletes(DeleteConfigMap(w, NsName(ns, items[0].name)).w, ns, items[1..], desired, uid);
      } else {
        CalmDeletes(w, ns, items[1..], desired, uid);
      }
    }
  }

  lemma CalmDelete(w: World, s: NsName)
    requires Calm(w.tape) && |w.tape| >= 1
    ensures var d := DeleteConfigMap(w, s);
            Calm(d.w.tape) && |d.w.tape| + 1 == |w.tape| && (d.r.Err? ==> d.r.error == NotFound)
  {
    hide Calm, Arrive, Rest, ReplyTo, Victim;
    CalmCall(w);
  }

  // ---------------------------------------------------------------- how many ConfigMaps there are to look at

  lemma {:induction false} ListingCount(s: set<Id>)
    ensures |Listing(s)| == |s|
    decreases |s|
  {
    if s != {} {
      LeastExists(s);
      var m := Listing(s)[0];
      ListingCount(s - {m});
    }
  }

  /** The names in one namespace are no more than the ConfigMaps. */
  lemma {:induction false} TaggedCount(names: set<Id>, ns: Id, maps: set<NsName>)
    requires forall x | x in names :: NsName(ns, x) in maps
    ensures |names| <= |maps|
    decreases |names|
  {
    if names != {} {
      var x := Member(names);
      TaggedCount(names - {x}, ns, maps - {NsName(ns, x)});
    }
  }

  lemma CalmCleanup(w: World, n: NsName, o: BucketObject)
    requires Calm(w.tape) && |w.tape| > |w.c.configMaps.Keys|
    ensures var d := DeleteStaleConfigMaps(w, n, o);
            d.r.Ok? && Calm(d.w.tape) && |d.w.tape| + |w.c.configMaps.Keys| + 1 >= |w.tape|
  {
    hide Calm, Arrive, Rest, ReplyTo, DeleteEach, Items, Listing, ConfigMapOf;
    CalmCall(w);
    var tagged := Tagged(w.c, n.ns, n.name);
    ListingCount(tagged);
    TaggedCount(tagged, n.ns, w.c.configMaps.Keys);
    var listed := ListConfigMaps(w, n.ns, n.name);
    CalmDeletes(listed.w, n.ns, listed.r.value, ConfigMapOf(n, o.spec).name, o.uid);
  }

  // ---------------------------------------------------------------- one reconcile

  /** Calls enough for one reconcile. */
  ghost predicate LongCalm(w: World) {
    Calm(w.tape) && |w.tape| >= 9 + |w.c.configMaps.Keys|
  }

  /** What the three stages do. */
  lemma CalmStages(w: World, q: Job, o: BucketObject)
    requires LongCalm(w) && GarageInv(w.c)
    ensures var resolved := Resolve(w, q, o);
            && (resolved.r.Ok? <==> Obtainable(w.c, q.n, o.spec.source)) && NotMaps(w, resolved.w, 3)
            && (resolved.r.Ok? ==>
                  && var sent := SendQuotas(resolved.w, o, resolved.r.value);
                  && sent.r.Ok? && NotMaps(w, sent.w, 4)
                  && var e := EnsureConfigMap(sent.w, q, o, Publishing(o, resolved.r.value));
                  && (e.r == Err(NameConflict) <==> NameIsTaken(w.c, q.n, o)) && (e.r.Err? ==> e.r == Err(NameConflict))
                  && Calm(e.w.tape) && |e.w.tape| + 6 >= |w.tape| && (e.r.Err? ==> e.w.c.objects == w.c.objects)
                  && (e.r.Ok? ==> |e.w.tape| >= 2 + |e.w.c.configMaps.Keys|))
  {
    hide Calm, GarageInv, Resolve, SendQuotas, EnsureConfigMap, Publishing, Obtainable, ConfigMapOf;
    CalmResolve(w, q, o);
    var resolved := Resolve(w, q, o);
    if resolved.r.Ok? {
      CalmSend(resolved.w, o, resolved.r.value);
      var sent := SendQuotas(resolved.w, o, resolved.r.value);
      CalmEnsure(sent.w, q, o, Publishing(o, resolved.r.value));
      OneMore(w.c.configMaps.Keys, EnsureConfigMap(sent.w, q, o, Publishing(o, resolved.r.value)).w.c.configMaps.Keys, ConfigMapOf(q.n, o.spec));
    }
  }

  lemma OneMore(s: set<NsName>, t: set<NsName>, x: NsName)
    ensures t <= s + {x} ==> |t| <= |s| + 1
  {
    if t <= s + {x} {
      SubsetIsSmaller(t, s + {x});
    }
  }

  lemma {:induction false} SubsetIsSmaller(s: set<NsName>, t: set<NsName>)
    requires s <= t
    ensures |s| <= |t|
  {
    assert t == s + (t - s);
  }

  /** An undisturbed reconcile computes Ready exactly when the bucket can be had and the name of the ConfigMap is free. */
  lemma ComputesReadyExactlyWhen(w: World, q: Job, o: BucketObject)
    requires LongCalm(w) && GarageInv(w.c)
    ensures var run := Computed(w, q, o);
            && (Holds(run.status.conditions, Ready, True) <==> Obtainable(w.c, q.n, o.spec.source) && !NameIsTaken(w.c, q.n, o))
            && (Holds(run.status.conditions, Ready, True) ==> run.outcome == Done && Calm(run.w.tape) && run.w.tape != [])
  {
    hide Calm, GarageInv, Resolve, SendQuotas, EnsureConfigMap, DeleteStaleConfigMaps, Publishing, Obtainable, NameIsTaken, Computed, Holds;
    CalmStages(w, q, o);
    ReadyExactlyWhen(w, q, o);
    if Succeeds(w, q, o) {
      var sent := SendQuotas(Resolve(w, q, o).w, o, Resolve(w, q, o).r.value);
      CalmCleanup(EnsureConfigMap(sent.w, q, o, Publishing(o, Resolve(w, q, o).r.value)).w, q.n, o);
    }
  }

  // ---------------------------------------------------------------- reasons that the API server accepts

  predicate WellFormed(cs: seq<Condition>) {
    forall c | c in cs :: c.reason != UpdateFailed
  }

  lemma SetKeepsWellFormed(cs: seq<Condition>, c: Condition)
    requires WellFormed(cs) && c.reason != UpdateFailed
    ensures WellFormed(SetCondition(cs, c))
  {
    hide Find;
  }

  lemma {:induction false} InitKeepsWellFormed(cs: seq<Condition>, types: seq<CondType>)
    requires WellFormed(cs)
    ensures WellFormed(InitAll(cs, types))
    decreases |types|
  {
    hide SetCondition, WellFormed, Find;
    if types != [] {
      SetKeepsWellFormed(cs, Condition(types[0], Unknown, Pending, 0));
      InitKeepsWellFormed(if Find(cs, types[0]).None? then SetCondition(cs, Condition(types[0], Unknown, Pending, 0)) else cs, types[1..]);
    }
  }

  lemma AggregateKeepsWellFormed(s: BucketStatus, generation: int)
    requires WellFormed(s.conditions)
    ensures WellFormed(Aggregated(s, generation).conditions)
  {
    hide SetCondition, IndexOf;
    FirstOfTwo(s.conditions, BucketReady, BucketConfigMapReady, WaitingForBucket);
    SetKeepsWellFormed(s.conditions, Verdict(s.conditions, BUCKET_ORDER, WaitingForBucket, generation));
  }

  lemma MarkedIsWellFormed(s: BucketStatus, t: CondType, status: CondStatus, reason: Reason, generation: int)
    requires WellFormed(s.conditions) && reason != UpdateFailed
    ensures WellFormed(Marked(s, t, status, reason, generation).conditions)
  {
    hide SetCondition, WellFormed;
    SetKeepsWellFormed(s.conditions, Condition(t, status, reason, generation));
  }

  lemma MapStageIsWellFormed(w: World, q: Job, o: BucketObject, s: BucketStatus)
    requires WellFormed(s.conditions)
    ensures WellFormed(ConfigMapStage(w, q, o, s).status.conditions)
  {
    hide Marked, EnsureConfigMap, DeleteStaleConfigMaps, WellFormed;
    var e := EnsureConfigMap(w, q, o, s);
    if e.r.Err? {
      MarkedIsWellFormed(s, BucketConfigMapReady, False, ConfigMapFailure(e.r.error), o.generation);
    } else {
      MarkedIsWellFormed(s, BucketConfigMapReady, True, Met, o.generation);
    }
  }

  /** Only quotas that cannot be set give a reason that the API server rejects. */
  lemma RunIsWellFormed(w: World, q: Job, o: BucketObject, s: BucketStatus)
    requires WellFormed(s.conditions)
    requires Resolve(w, q, o).r.Ok? ==> SendQuotas(Resolve(w, q, o).w, o, Resolve(w, q, o).r.value).r.Ok?
    ensures WellFormed(ReconcileBucket(w, q, o, s).status.conditions)
  {
    hide Marked, Resolve, GarageUpdate, ConfigMapStage, Differs, WellFormed, ResolveFailure, AliasOf;
    var resolved := Resolve(w, q, o);
    if resolved.r.Err? {
      ReasonIsKnown(w, q, o);
      MarkedIsWellFormed(s, BucketReady, False, resolved.reason, o.generation);
    } else {
      var b := resolved.r.value;
      var noted := Recorded(s, b.id, AliasOf(o));
      MarkedIsWellFormed(noted, BucketReady, True, Met, o.generation);
      MapStageIsWellFormed(SendQuotas(resolved.w, o, b).w, q, o, Marked(noted, BucketReady, True, Met, o.generation));
    }
  }

  lemma ComputedIsWellFormed(w: World, q: Job, o: BucketObject)
    requires !Malformed(o.status)
    requires Resolve(w, q, o).r.Ok? ==> SendQuotas(Resolve(w, q, o).w, o, Resolve(w, q, o).r.value).r.Ok?
    ensures !Malformed(Computed(w, q, o).status)
  {
    hide InitAll, Resolve, SendQuotas, ReconcileBucket, Aggregated, WellFormed, Malformed;
    NotMalformed(o.status);
    InitKeepsWellFormed(o.status.conditions, BUCKET_CONDITIONS);
    RunIsWellFormed(w, q, o, Initialized(o.status));
    AggregateKeepsWellFormed(ReconcileBucket(w, q, o, Initialized(o.status)).status, o.generation);
    NotMalformed(Computed(w, q, o).status);
  }

  lemma NotMalformed(s: BucketStatus)
    ensures Malformed(s) <==> !WellFormed(s.conditions)
  {
  }

  lemma ReasonIsKnown(w: World, q: Job, o: BucketObject)
    ensures Resolve(w, q, o).reason != UpdateFailed
  {
    hide GarageGet, GarageCreate, GetSecret, ReadPermissions;
  }

  // ---------------------------------------------------------------- what is recorded

  /** An undisturbed write of a status that the API server accepts. */
  lemma CalmWrite(w: World, q: Job, o: BucketObject)
    requires var run := Computed(w, q, o);
             Calm(run.w.tape) && run.w.tape != [] && q.n in run.w.c.objects && run.w.c.objects[q.n] == o && !Malformed(run.status)
    ensures var run := Computed(w, q, o);
            var end := ReconcileObject(w, q, o);
            && end.outcome == run.outcome
            && end.w.c == (if run.status == o.status then run.w.c else WithStatus(run.w.c, q.n, run.status))
  {
    hide Computed, Calm, Arrive, Rest, ReplyTo, Malformed, WithStatus;
    CalmCall(Computed(w, q, o).w);
  }

  /** d is c but for the status of n, and for what is not a Bucket. */
  ghost predicate OnlyStatus(c: Cluster, d: Cluster, n: NsName, o: BucketObject, s: BucketStatus) {
    && n in d.objects && d.objects[n] == o.(status := s, version := d.objects[n].version) && d.objects == c.objects[n := d.objects[n]]
  }

  lemma WriteIsOnlyStatus(c: Cluster, b: Cluster, n: NsName, o: BucketObject, s: BucketStatus)
    requires n in c.objects && c.objects[n] == o && b.objects == c.objects
    ensures OnlyStatus(c, WithStatus(b, n, s), n, o, s) && (s == o.status ==> OnlyStatus(c, b, n, o, s))
  {
  }

  /** Where an undisturbed run ends, whatever it computes. */
  lemma CalmRun(w: World, q: Job, o: BucketObject)
    requires LongCalm(w) && Inv(w.c) && q.n in w.c.objects && w.c.objects[q.n] == o
    ensures var run := Computed(w, q, o);
            Calm(run.w.tape) && run.w.tape != [] && run.w.c.objects == w.c.objects && !Malformed(run.status)
  {
    hide Calm, Resolve, SendQuotas, EnsureConfigMap, DeleteStaleConfigMaps, Publishing, Obtainable, NameIsTaken, Computed, Holds, Malformed, Backdrop;
    CalmStages(w, q, o);
    assert !Malformed(o.status) by {
      assert ObjectInv(w.c, o);
    }
    ComputedIsWellFormed(w, q, o);
    ComputesReadyExactlyWhen(w, q, o);
    if Succeeds(w, q, o) {
      ReadyExactlyWhen(w, q, o);
      ReadyKeepsObjects(w, q, o);
    } else {
      FailedRunEnds(w, q, o);
    }
  }

  /** A run that does not succeed ends with the stage that failed. */
  lemma FailedRunEnds(w: World, q: Job, o: BucketObject)
    requires !Succeeds(w, q, o)
    requires var resolved := Resolve(w, q, o); resolved.r.Ok? ==> SendQuotas(resolved.w, o, resolved.r.value).r.Ok?
    ensures var resolved := Resolve(w, q, o);
            Computed(w, q, o).w ==
            if resolved.r.Err? then resolved.w
            else EnsureConfigMap(SendQuotas(resolved.w, o, resolved.r.value).w, q, o, Publishing(o, resolved.r.value)).w
  {
    hide Resolve, GarageUpdate, EnsureConfigMap, Aggregated, Marked, Recorded, Initialized, ResolveFailure, Differs, AliasOf;
  }

  /** Everything that o asks for is in place, and its status says so. */
  ghost predicate InPlace(d: Cluster, q: Job, o: BucketObject) {
    var s := NsName(q.n.ns, if o.spec.configMapName != NONE then o.spec.configMapName else q.n.name);
    var alias := match o.spec.source case New(name) => Suffixed(name, o.uid) case Existing(alias, _) => alias;
    && BucketCauses.IsMarked(o.status, Ready, True, Available, o.generation) && o.status.observedGeneration == o.generation
    && alias in d.aliases && d.aliases[alias] in d.buckets && Meets(d.buckets[d.aliases[alias]], o.spec.quotas)
    && s in d.configMaps && d.configMaps[s] == ConfigMap(Some(o.uid), q.n.name, o.status.bucketName, q.endpoint)
    && (forall t | t in d.configMaps && d.configMaps[t].controller == Some(o.uid) :: t == s)
  }

  lemma RestIsInPlace(d: Cluster, q: Job, o: BucketObject, id: Id)
    requires AtRest(d, q, o, id)
    ensures InPlace(d, q, o)
  {
    hide Find, Meets, Importable;
    assert forall t | t in d.configMaps && d.configMaps[t].controller == Some(o.uid) :: t in Owned(d, o.uid);
  }

  /** An undisturbed run that reports a taken name or a missing bucket. */
  lemma CalmFailure(w: World, q: Job, o: BucketObject, n: nat)
    requires LongCalm(w) && GarageInv(w.c) && Backoff.InBracket(if q.age < 0 then 0 else q.age, 5_000_000_000, n)
    ensures var run := Computed(w, q, o);
            && (!Obtainable(w.c, q.n, o.spec.source) ==>
                  && run.outcome == RequeueAfter(Backoff.Min(Backoff.Doubled(5_000_000_000, n), 900_000_000_000))
                  && BucketCauses.IsMarked(run.status, Ready, False, Missing(w.c, q.n, o.spec.source.alias, o.spec.source.ownerKeySecret), o.generation))
            && (Obtainable(w.c, q.n, o.spec.source) && NameIsTaken(w.c, q.n, o) ==>
                  run.outcome == Done && BucketCauses.IsMarked(run.status, Ready, False, ConfigMapNameConflict, o.generation))
  {
    hide Calm, Resolve, GarageUpdate, EnsureConfigMap, DeleteStaleConfigMaps, Obtainable, NameIsTaken, Computed, GarageInv, Missing, Find, Backoff.Doubled;
    CalmResolve(w, q, o);
    CalmStages(w, q, o);
    BucketCauses.ReadyReportsBucketFirst(w, q, o);
    var resolved := Resolve(w, q, o);
    BucketCauses.ResolveByCause(w, q, o);
    if resolved.r.Err? {
      BucketCauses.ResolveFailureByCause(w, q, o, resolved.w, resolved.reason, resolved.r.error);
      BucketCauses.ImportDelayByAge(w, q, o, resolved.w, resolved.reason, resolved.r.error, n);
    } else if NameIsTaken(w.c, q.n, o) {
      ConflictIsReported(w, q, o);
    }
  }

  lemma ConflictIsReported(w: World, q: Job, o: BucketObject)
    requires var resolved := Resolve(w, q, o);
             && resolved.r.Ok?
             && var sent := SendQuotas(resolved.w, o, resolved.r.value);
             sent.r.Ok? && EnsureConfigMap(sent.w, q, o, Publishing(o, resolved.r.value)).r == Err(NameConflict)
    ensures var run := Computed(w, q, o);
            && run.outcome == Done && BucketCauses.IsMarked(run.status, BucketReady, True, Met, o.generation)
            && BucketCauses.IsMarked(run.status, BucketConfigMapReady, False, ConfigMapNameConflict, o.generation)
  {
    hide Resolve, GarageUpdate, EnsureConfigMap, DeleteStaleConfigMaps, Aggregated, Marked, Recorded, Initialized, Find, Differs, AliasOf;
    var st := Publishing(o, Resolve(w, q, o).r.value);
    BucketCauses.RecordedIsNoted(o, Resolve(w, q, o).r.value);
    BucketCauses.MarkedMeaning(Recorded(Initialized(o.status), Resolve(w, q, o).r.value.id, AliasOf(o)), BucketReady, True, Met, o.generation);
    BucketCauses.Reports(st, BucketConfigMapReady, False, ConfigMapNameConflict, o.generation);
  }

  /** What one undisturbed reconcile leaves. */
  ghost predicate Settles(c: Cluster, end: End, q: Job, o: BucketObject, n: nat) {
    var d := end.w.c;
    && q.n in d.objects && OnlyStatus(c, d, q.n, o, d.objects[q.n].status)
    && var s := d.objects[q.n].status;
    if !Obtainable(c, q.n, o.spec.source) then
      && end.outcome == RequeueAfter(Backoff.Min(Backoff.Doubled(5_000_000_000, n), 900_000_000_000))
      && BucketCauses.IsMarked(s, Ready, False, Missing(c, q.n, o.spec.source.alias, o.spec.source.ownerKeySecret), o.generation)
    else
      && end.outcome == Done
      && if NameIsTaken(c, q.n, o) then BucketCauses.IsMarked(s, Ready, False, ConfigMapNameConflict, o.generation)
         else InPlace(d, q, d.objects[q.n])
  }

  lemma CalmReconcile(w: World, q: Job, o: BucketObject, n: nat)
    requires LongCalm(w) && Inv(w.c) && q.n in w.c.objects && w.c.objects[q.n] == o
    requires Backoff.InBracket(if q.age < 0 then 0 else q.age, 5_000_000_000, n)
    ensures Settles(w.c, ReconcileObject(w, q, o), q, o, n)
  {
    hide Computed, Calm, Inv, Obtainable, NameIsTaken, InPlace, Holds, WithStatus, Missing, ReconcileObject, Malformed, Backoff.Doubled,
      BucketCauses.IsMarked;
    assert Calm(w.tape);
    CalmRun(w, q, o);
    CalmWrite(w, q, o);
    var run := Computed(w, q, o);
    WriteIsOnlyStatus(w.c, run.w.c, q.n, o, run.status);
    assert GarageInv(w.c) by {
      InvParts(w.c);
    }
    ComputesReadyExactlyWhen(w, q, o);
    CalmFailure(w, q, o, n);
    if Holds(run.status.conditions, Ready, True) {
      JustReadIsHeld(w.c, q.n);
      var id := ReadyRests(w, q, q, o);
      RestIsInPlace(ReconcileObject(w, q, o).w.c, q, ReconcileObject(w, q, o).w.c.objects[q.n], id);
    }
  }

  lemma InvParts(c: Cluster)
    requires Inv(c)
    ensures GarageInv(c)
  {
  }

  lemma CalmBeginning(c: Cluster, q: Job, tape: seq<Fate>) returns (w: World)
    requires q.n in c.objects && Calm(tape) && |tape| >= 10 + |c.configMaps.Keys|
    ensures w.c == c && LongCalm(w) && Reconcile(World(c, tape, []), q) == ReconcileObject(w, q, c.objects[q.n])
  {
    hide Calm, ReconcileObject, Arrive, Rest, ReplyTo;
    CalmCall(World(c, tape, []));
    w := World(c, tape[1..], []);
    assert GetObject(World(c, tape, []), q.n) == Call(w, Ok(c.objects[q.n]));
  }

  /**
   In every reachable state one undisturbed reconcile of a Bucket does all that can be done, and records it. If
   the bucket can be had and the name of the ConfigMap is free, everything is in place and Ready. If the name is
   taken, that is what the status says. If an import lacks something, the first thing it lacks is the reason,
   and it is tried again after the delay of its age.
   */
  lemma QuietReconcileSettles(start: Cluster, events: seq<Event>, q: Job, tape: seq<Fate>, n: nat)
    requires Initial(start) && q.n in Run(start, events).objects
    requires Calm(tape) && |tape| >= 10 + |Run(start, events).configMaps.Keys|
    requires Backoff.InBracket(if q.age < 0 then 0 else q.age, 5_000_000_000, n)
    ensures var c := Run(start, events);
            Settles(c, Reconcile(World(c, tape, []), q), q, c.objects[q.n], n)
  {
    InvAlways(start, events);
    hide Run, Calm, Inv, Settles, Reconcile, ReconcileObject, LongCalm, Backoff.Doubled;
    var c := Run(start, events);
    var w := CalmBeginning(c, q, tape);
    CalmReconcile(w, q, c.objects[q.n], n);
  }
}
