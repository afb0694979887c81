/** The promises of the AccessPolicy controller, over every run. */
module PolicyTheorems {
  import opened Common
  import opened Conditions
  import opened Permissions
  import opened PolicyWorld
  import opened PolicySpec
  import opened PolicyProofs
  import opened PolicyGrants

  // ---------------------------------------------------------------- no policy is stranded

  /**
   Whatever fails, crashes or changes between any two calls: every policy is queued, waits on a timer, or
   is not being deleted and has everything in place. In the last case its labels are right, its key and
   bucket exist and are ready, its status is Ready for the current generation and names both, and Garage
   grants exactly what it asks for, unless its key is on the way out.
   */
  lemma NoStrandedPolicy(start: Cluster, events: seq<Event>, n: NsName)
    requires Initial(start) && n in Run(start, events).policies
    ensures var c := Run(start, events);
            var p := c.policies[n];
            var key, bucket := NsName(n.ns, p.key), NsName(n.ns, p.bucket);
            n !in c.queue && n !in c.timers ==>
              && !p.deleting && LabelsMatch(p) && p.finalizer
              && key in c.keys && c.keys[key].ready && bucket in c.buckets && c.buckets[bucket].ready
              && Holds(p.status.conditions, Ready, True) && p.status.observedGeneration == p.generation
              && p.status.accessKeyID == c.keys[key].id && p.status.bucketID == c.buckets[bucket].id
              && (c.keys[key].deleting || PermissionsOf(c.garage, Pair(c.keys[key].id, c.buckets[bucket].id)) == p.permissions)
  {
    InvAlways(start, events);
    assert Tended(Run(start, events), n);
  }

  // ---------------------------------------------------------------- retries

  /**
   A reconcile of a live policy returns neither an error nor a delay only when its status write met a
   conflict, whose cause queues the policy again, or when it has just computed Ready for this
   generation after assigning the permissions.
   */
  lemma LiveReconcileRetries(w: World, n: NsName, p: Policy)
    ensures var run := Computed(w, n, p);
            var end := ReconcileLive(w, n, p);
            Retries(end.outcome)
            || (run.status != p.status && PatchStatus(run.w, n, p.version, run.status).r == Err(Conflict))
            || (run.errors == [] && Holds(run.status.conditions, Ready, True) && run.status.observedGeneration == p.generation)
  {
    hide Find, SetCondition, Initialized, SetCall, GetBucket, GetKey, PatchStatus, Aggregated;
    var plain := ReconcilePolicy(w, n, p, Initialized(p.status));
    AggregatedMeaning(plain.status, p.generation);
    ErrorsRetry(plain.errors);
    if plain.errors == [] {
      NoErrorsMeansAllTrue(w, n, p, Initialized(p.status));
    }
  }

  lemma NoErrorsMeansAllTrue(w: World, n: NsName, p: Policy, s: PolicyStatus)
    requires ReconcilePolicy(w, n, p, s).errors == []
    ensures var r := ReconcilePolicy(w, n, p, s).status;
            forall t | t in [PolicyBucketReady, PolicyAccessKeyReady, PolicyReady] :: Holds(r.conditions, t, True)
  {
    hide Find, SetCall, GetBucket, GetKey;
  }

  /** The status of a dependency condition is what this reconcile saw, or is left over from an earlier one. */
  predicate SeenReady(check: Check, before: PolicyStatus, t: CondType) {
    check.r.Ok?
    || (check.r.error != NotFound && check.r.error != DependencyNotReady && Holds(before.conditions, t, True))
  }

  /**
   Exactly when a reconcile computes Ready. When both dependencies were read, they were ready and the
   permissions were assigned just now. When the API server failed to answer for one of them, what
   the conditions said before is taken over, although the reconcile stamps it with the new generation.
   */
  lemma ReadyMeaning(w: World, n: NsName, p: Policy)
    ensures var bucket := BucketStage(w, n, p, Initialized(p.status));
            var key := KeyStage(bucket.w, n, p, bucket.status);
            var run := Computed(w, n, p);
            Holds(run.status.conditions, Ready, True) <==>
            && SeenReady(bucket, p.status, PolicyBucketReady) && SeenReady(key, p.status, PolicyAccessKeyReady)
            && if bucket.r.Ok? && key.r.Ok? then run.errors == [] else Holds(p.status.conditions, PolicyReady, True)
  {
    hide Find, SetCondition, InitAll, SetCall, GetBucket, GetKey, Aggregated, BucketStage, KeyStage;
    var s := Initialized(p.status);
    InitHoldsSame(p.status);
    BucketStageConditions(w, n, p, s);
    var bucket := BucketStage(w, n, p, s);
    KeyStageConditions(bucket.w, n, p, bucket.status);
    AggregatedMeaning(ReconcilePolicy(w, n, p, s).status, p.generation);
  }

  lemma InitHoldsSame(s: PolicyStatus)
    ensures forall t :: Holds(Initialized(s).conditions, t, True) <==> Holds(s.conditions, t, True)
  {
    hide Find;
  }

  lemma BucketStageConditions(w: World, n: NsName, p: Policy, s: PolicyStatus)
    ensures var check := BucketStage(w, n, p, s);
            && (Holds(check.status.conditions, PolicyBucketReady, True) <==> SeenReady(check, s, PolicyBucketReady))
            && (forall t | t != PolicyBucketReady :: Find(check.status.conditions, t) == Find(s.conditions, t))
  {
    assert GetBucket(w, n, BucketOf(n, p)).r != Err(DependencyNotReady);
    hide Find, SetCondition, SetCall, GetBucket;
  }

  lemma KeyStageConditions(w: World, n: NsName, p: Policy, s: PolicyStatus)
    ensures var check := KeyStage(w, n, p, s);
            && (Holds(check.status.conditions, PolicyAccessKeyReady, True) <==> SeenReady(check, s, PolicyAccessKeyReady))
            && (forall t | t != PolicyAccessKeyReady :: Find(check.status.conditions, t) == Find(s.conditions, t))
  {
    assert GetKey(w, KeyOf(n, p)).r != Err(DependencyNotReady);
    hide Find, SetCondition, SetCall, GetKey;
  }

  // ---------------------------------------------------------------- grants

  /**
   Over every careful run, each permission that an AccessKey's Garage key has on a bucket belongs to
   exactly one policy: it holds its finalizer, and its status names that key and that bucket. A pair
   that no policy records has no permissions.
   */
  lemma GrantConservation(start: Cluster, events: seq<Event>, q: Pair)
    requires Initial(start) && CarefulRun(start, events)
    requires forall r: Pair | r.key in start.keyHome :: PermissionsOf(start.garage, r) == NOTHING
    ensures var c := Run(start, events);
            PermissionsOf(c.garage, q) != NOTHING && q.key in c.keyHome ==>
              exists n :: OwnedBy(c, n, q) && forall m | OwnedBy(c, m, q) :: m == n
  {
    InvAlways(start, events);
    InitialIsOwned(start);
    GrantsAlwaysOwned(start, events);
    var c := Run(start, events);
    hide Run, CarefulRun, Inv;
    if Granted(c, q) && q.key in c.keyHome {
      var n :| OwnedBy(c, n, q);
      GrantedIsNamed(c, q);
      forall m | OwnedBy(c, m, q) ensures m == n {
        OneOwner(c, n, m, q);
      }
    }
  }

  lemma InitialIsOwned(start: Cluster)
    requires Initial(start) && forall r: Pair | r.key in start.keyHome :: PermissionsOf(start.garage, r) == NOTHING
    ensures Inv(start, {}) && GrantsOwned(start)
  {
  }

  lemma GrantedIsNamed(c: Cluster, q: Pair)
    requires Inv(c, {}) && Granted(c, q)
    ensures q.key != NONE && q.bucket != NONE
  {
  }

  lemma OneOwner(c: Cluster, n: NsName, m: NsName, q: Pair)
    requires Inv(c, {}) && q.key != NONE && q.bucket != NONE && OwnedBy(c, n, q) && OwnedBy(c, m, q)
    ensures m == n
  {
    assert PolicyInv(c, n, c.policies[n]) && PolicyInv(c, m, c.policies[m]);
    assert q.bucket in UsedBuckets(c, n, c.policies[n]) && q.bucket in UsedBuckets(c, m, c.policies[m]);
  }
}
