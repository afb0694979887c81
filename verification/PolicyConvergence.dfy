/** Left undisturbed, the AccessPolicy controller brings a policy whose key and bucket are ready to rest. */
module PolicyConvergence {
  import opened Common
  import opened Conditions
  import opened Permissions
  import opened PolicyWorld
  import opened PolicySpec
  import PolicyLabels
  import opened PolicyProofs

  const QUIET := Fate([], Delivered, Delivered)

  /** Nobody else acts and no call fails for the next k calls. */
  ghost predicate QuietFor(w: World, k: nat) {
    |w.tape| >= k && forall i | 0 <= i < k :: w.tape[i] == QUIET
  }

  lemma QuietCall(w: World, k: nat, c: Cluster)
    requires QuietFor(w, k + 1)
    ensures Arrive(w) == w.c && ApiReply(w) == Delivered && AdminReply(w) == Delivered
    ensures QuietFor(World(c, Rest(w)), k) && Rest(w) == w.tape[1..]
  {
  }

  /** The two clusters agree except for permissions; those of q are now the target. */
  ghost predicate OnlyGranted(c: Cluster, d: Cluster, q: Pair, target: Permissions) {
    && d == c.(garage := d.garage, inHand := d.inHand) && d.garage.keys == c.garage.keys && d.garage.buckets == c.garage.buckets
    && PermissionsOf(d.garage, q) == target
  }

  lemma QuietSet(w: World, k: nat, q: Pair, target: Permissions)
    requires QuietFor(w, k + 2) && Exists(w.c.garage, q)
    ensures var set_ := SetCall(w, q, target);
            set_.error.None? && OnlyGranted(w.c, set_.w.c, q, target) && QuietFor(set_.w, k)
            && (target != NOTHING ==> set_.w.tape == w.tape[1..][1..])
  {
    hide QuietFor, Arrive, Rest, AdminReply;
    var denied := DenyCall(w, q, Complement(target));
    QuietCall(w, k + 1, denied.w.c);
    QuietCall(denied.w, k, AllowCall(denied.w, q, target).w.c);
    hide Exists;
    QuietForLess(denied.w, k);
  }

  lemma QuietForLess(w: World, k: nat)
    requires QuietFor(w, k + 1)
    ensures QuietFor(w, k)
  {
  }

  /** p is live and labelled, and its key k and bucket b are ready and exist in Garage. */
  ghost predicate Facing(c: Cluster, n: NsName, p: Policy, k: Dependency, b: Dependency) {
    && n in c.policies && c.policies[n] == p && !p.deleting && MetaInOrder(p)
    && DependsOn(c, n, p, k, b) && k.ready && b.ready && Exists(c.garage, Pair(k.id, b.id))
  }

  /** The status s with every condition of p marked as met. */
  function AllMarked(p: Policy, k: Dependency, b: Dependency, s: PolicyStatus): PolicyStatus {
    var withBucket := Marked(s.(bucketID := b.id), PolicyBucketReady, True, Met, p.generation);
    var withKey := Marked(withBucket.(accessKeyID := k.id), PolicyAccessKeyReady, True, Met, p.generation);
    Marked(withKey, PolicyReady, True, Met, p.generation)
  }

  /** The status of a policy for which everything is in place. */
  function AssignedStatus(p: Policy, k: Dependency, b: Dependency): PolicyStatus {
    Aggregated(AllMarked(p, k, b, Initialized(p.status)), p.generation)
  }

  lemma AssignedMeaning(p: Policy, k: Dependency, b: Dependency)
    ensures var s := AssignedStatus(p, k, b);
            && Holds(s.conditions, Ready, True) && s.observedGeneration == p.generation
            && s.accessKeyID == k.id && s.bucketID == b.id
            && IsMarked(s, PolicyBucketReady, True, Met, p.generation)
            && IsMarked(s, PolicyAccessKeyReady, True, Met, p.generation)
            && IsMarked(s, PolicyReady, True, Met, p.generation)
            && IsMarked(s, Ready, True, Available, p.generation)
  {
    hide Find, SetCondition, InitAll;
    var s := AllMarked(p, k, b, Initialized(p.status));
    assert forall t | t in POLICY_ORDER :: Holds(s.conditions, t, True) by {
      assert forall t | t in POLICY_ORDER :: t == PolicyBucketReady || t == PolicyAccessKeyReady || t == PolicyReady;
    }
  }

  /** Computing the status of a policy that has it already changes nothing. */
  lemma AssignedAgain(p: Policy, q: Policy, k: Dependency, b: Dependency)
    requires q.generation == p.generation && q.status == AssignedStatus(p, k, b)
    ensures AssignedStatus(q, k, b) == q.status
  {
    AssignedMeaning(p, k, b);
    hide Find, SetCondition, InitAll, AssignedStatus;
    var s := q.status;
    var g := q.generation;
    assert Initialized(s) == s by {
      assert forall t | t in POLICY_CONDITIONS :: Find(s.conditions, t).Some? by {
        assert forall t | t in POLICY_CONDITIONS ::
            t == Ready || t == PolicyAccessKeyReady || t == PolicyBucketReady || t == PolicyReady;
      }
      InitOfInitialised(s.conditions, POLICY_CONDITIONS);
    }
    MarkedAgain(s, PolicyBucketReady, True, Met, g);
    MarkedAgain(s, PolicyAccessKeyReady, True, Met, g);
    MarkedAgain(s, PolicyReady, True, Met, g);
    AggregatedAgain(s, g);
    AssignedIs(q, k, b);
  }

  lemma AssignedIs(q: Policy, k: Dependency, b: Dependency)
    requires var s := q.status;
             && Initialized(s) == s && s.accessKeyID == k.id && s.bucketID == b.id
             && Marked(s, PolicyBucketReady, True, Met, q.generation) == s
             && Marked(s, PolicyAccessKeyReady, True, Met, q.generation) == s
             && Marked(s, PolicyReady, True, Met, q.generation) == s
             && Aggregated(s, q.generation) == s
    ensures AssignedStatus(q, k, b) == q.status
  {
    hide Initialized, Marked, Aggregated;
    var s := q.status;
    assert s.(bucketID := b.id) == s && s.(accessKeyID := k.id) == s;
  }

  lemma MarkedAgain(s: PolicyStatus, t: CondType, status: CondStatus, reason: Reason, generation: int)
    requires IsMarked(s, t, status, reason, generation)
    ensures Marked(s, t, status, reason, generation) == s
  {
  }

  lemma AggregatedAgain(s: PolicyStatus, generation: int)
    requires IsMarked(s, Ready, True, Available, generation) && s.observedGeneration == generation
    requires Holds(s.conditions, PolicyBucketReady, True) && Holds(s.conditions, PolicyAccessKeyReady, True) && Holds(s.conditions, PolicyReady, True)
    ensures Aggregated(s, generation) == s
  {
    assert forall t | t in POLICY_ORDER :: t == PolicyBucketReady || t == PolicyAccessKeyReady || t == PolicyReady;
    hide FirstFailure;
    assert Verdict(s.conditions, POLICY_ORDER, DependenciesNotReady, generation) == Condition(Ready, True, Available, generation);
  }

  lemma QuietChecks(w: World, m: nat, n: NsName, p: Policy, k: Dependency, b: Dependency, s: PolicyStatus)
    requires Facing(w.c, n, p, k, b) && QuietFor(w, m + 1)
    ensures var check := BucketStage(w, n, p, s);
            && check.r == Ok(b) && check.w == World(w.c.(inHand := Some(InHand(n, b.id))), w.tape[1..]) && QuietFor(check.w, m)
            && Facing(check.w.c, n, p, k, b)
            && check.status == Marked(s.(bucketID := b.id), PolicyBucketReady, True, Met, p.generation)
    ensures var check := KeyStage(w, n, p, s);
            && check.r == Ok(k) && check.w == World(w.c, w.tape[1..]) && QuietFor(check.w, m)
            && check.status == Marked(s.(accessKeyID := k.id), PolicyAccessKeyReady, True, Met, p.generation)
  {
    hide QuietFor, Marked, Arrive, Rest, ApiReply, SetCall, MetaInOrder;
    QuietCall(w, m, w.c);
    QuietCall(w, m, w.c.(inHand := Some(InHand(n, b.id))));
  }

  lemma QuietAssign(w: World, m: nat, p: Policy, s: PolicyStatus, q: Pair)
    requires Exists(w.c.garage, q) && QuietFor(w, m + 2)
    ensures var run := AssignStage(w, p, s, q);
            && run.errors == [] && run.status == Marked(s, PolicyReady, True, Met, p.generation) && QuietFor(run.w, m)
            && OnlyGranted(w.c, run.w.c, q, p.permissions)
            && (p.permissions != NOTHING ==> run.w.tape == w.tape[1..][1..])
  {
    hide QuietFor, Marked, SetCall, Exists, OnlyGranted;
    QuietSet(w, m, q, p.permissions);
  }

  lemma QuietPolicy(w: World, m: nat, n: NsName, p: Policy, k: Dependency, b: Dependency, s: PolicyStatus)
    requires Facing(w.c, n, p, k, b) && QuietFor(w, m + 4)
    ensures var run := ReconcilePolicy(w, n, p, s);
            && run.errors == [] && run.status == AllMarked(p, k, b, s) && QuietFor(run.w, m)
            && OnlyGranted(w.c, run.w.c, Pair(k.id, b.id), p.permissions)
            && (p.permissions != NOTHING ==> run.w.tape == w.tape[1..][1..][1..][1..])
  {
    var q := Pair(k.id, b.id);
    assert Exists(w.c.garage, q);
    hide QuietFor, Marked, AssignStage, Facing, BucketStage, KeyStage, Exists, OnlyGranted;
    QuietChecks(w, m + 3, n, p, k, b, s);
    var bucket := BucketStage(w, n, p, s);
    QuietChecks(bucket.w, m + 2, n, p, k, b, bucket.status);
    var key := KeyStage(bucket.w, n, p, bucket.status);
    QuietAssign(key.w, m, p, key.status, q);
  }

  lemma QuietComputed(w: World, m: nat, n: NsName, p: Policy, k: Dependency, b: Dependency)
    requires Facing(w.c, n, p, k, b) && QuietFor(w, m + 4)
    ensures var run := Computed(w, n, p);
            && run.errors == [] && run.status == AssignedStatus(p, k, b) && QuietFor(run.w, m)
            && OnlyGranted(w.c, run.w.c, Pair(k.id, b.id), p.permissions)
            && (p.permissions != NOTHING ==> run.w.tape == w.tape[1..][1..][1..][1..])
  {
    hide QuietFor, AllMarked, Initialized, Aggregated, ReconcilePolicy, Facing, OnlyGranted;
    QuietPolicy(w, m, n, p, k, b, Initialized(p.status));
  }

  /** What an undisturbed reconcile of p does. */
  ghost predicate Assigned(c: Cluster, end: End, n: NsName, p: Policy, k: Dependency, b: Dependency) {
    && end.outcome == Done && QuietFor(end.w, 1)
    && (exists d :: OnlyGranted(c, d, Pair(k.id, b.id), p.permissions)
                    && end.w.c == if AssignedStatus(p, k, b) == p.status then d else WithPolicy(d, n, p.(status := AssignedStatus(p, k, b))))
  }

  lemma QuietPatch(w: World, n: NsName, p: Policy, s: PolicyStatus)
    requires n in w.c.policies && w.c.policies[n] == p && QuietFor(w, 2)
    ensures var patch := PatchStatus(w, n, p.version, s);
            patch.r == Ok(()) && patch.w.c == WithPolicy(w.c, n, p.(status := s)) && QuietFor(patch.w, 1)
  {
    QuietCall(w, 1, WithPolicy(w.c, n, p.(status := s)));
    hide WithPolicy, QuietFor, Arrive, Rest, ApiReply;
  }

  lemma QuietLive(w: World, n: NsName, p: Policy, k: Dependency, b: Dependency)
    requires Facing(w.c, n, p, k, b) && QuietFor(w, 6)
    ensures Assigned(w.c, ReconcileLive(w, n, p), n, p, k, b)
  {
    hide QuietFor, Computed, Facing, Assigned, OnlyGranted, AssignedStatus, PatchStatus, WithPolicy, Classified;
    FacingIsThere(w.c, n, p, k, b);
    NoErrorsAreDone();
    QuietComputed(w, 2, n, p, k, b);
    var run := Computed(w, n, p);
    PoliciesUntouched(w.c, run.w.c, Pair(k.id, b.id), p.permissions);
    QuietPatch(run.w, n, p, run.status);
    QuietForLess(run.w, 1);
    LiveIsAssigned(w, n, p, k, b, run, PatchStatus(run.w, n, p.version, run.status));
  }

  lemma FacingIsThere(c: Cluster, n: NsName, p: Policy, k: Dependency, b: Dependency)
    requires Facing(c, n, p, k, b)
    ensures n in c.policies && c.policies[n] == p && !p.deleting && MetaInOrder(p) && Exists(c.garage, Pair(k.id, b.id))
  {
    hide MetaInOrder, Exists;
  }

  lemma PoliciesUntouched(c: Cluster, d: Cluster, q: Pair, target: Permissions)
    requires OnlyGranted(c, d, q, target)
    ensures d.policies == c.policies
  {
  }

  lemma NoErrorsAreDone()
    ensures Classified([]) == Done
  {
  }

  lemma LiveIsAssigned(w: World, n: NsName, p: Policy, k: Dependency, b: Dependency, run: PolicyRun, patch: Call<()>)
    requires run.status == AssignedStatus(p, k, b) && OnlyGranted(w.c, run.w.c, Pair(k.id, b.id), p.permissions)
    requires QuietFor(run.w, 1) && QuietFor(patch.w, 1) && patch.w.c == WithPolicy(run.w.c, n, p.(status := run.status))
    ensures Assigned(w.c, End(if run.status == p.status then run.w else patch.w, Done), n, p, k, b)
  {
    hide QuietFor, AssignedStatus, WithPolicy, OnlyGranted;
  }

  lemma QuietReconcile(w: World, n: NsName, p: Policy, k: Dependency, b: Dependency)
    requires Facing(w.c, n, p, k, b) && QuietFor(w, 7)
    ensures Assigned(w.c, Reconcile(w, n), n, p, k, b)
  {
    assert n in w.c.policies && w.c.policies[n] == p && !p.deleting && MetaInOrder(p);
    hide QuietFor, Arrive, Rest, ApiReply, ReconcileLive, Facing, MetaInOrder, Assigned;
    QuietCall(w, 6, w.c);
    QuietLive(GetPolicy(w, n).w, n, p, k, b);
  }

  /** A reconcile that does not crash and is done leaves the queue alone. */
  lemma WorkedQuietly(c: Cluster, n: NsName, tape: seq<Fate>)
    requires n in c.queue && Worked(c, n, tape).outcome == Done && QuietFor(Worked(c, n, tape).w, 1)
    ensures Next(c, Work(n, tape)) == Worked(c, n, tape).w.c.(inHand := None)
  {
    hide Reconcile;
  }

  lemma FacingAfter(c: Cluster, d: Cluster, n: NsName, p: Policy, k: Dependency, b: Dependency, s: PolicyStatus)
    requires Facing(c, n, p, k, b) && OnlyGranted(c, d, Pair(k.id, b.id), p.permissions)
    ensures var e := WithPolicy(d, n, p.(status := s));
            Facing(e, n, e.policies[n], k, b) && e.policies[n] == p.(status := s, version := d.clock)
  {
    hide EnsuredLabels;
  }

  lemma FacingSettles(c: Cluster, n: NsName, p: Policy, k: Dependency, b: Dependency)
    requires Facing(c, n, p, k, b) && p.status == AssignedStatus(p, k, b)
    requires PermissionsOf(c.garage, Pair(k.id, b.id)) == p.permissions
    ensures Settled(c, n, p)
  {
    AssignedMeaning(p, k, b);
    PolicyLabels.EnsuredLabelsMeaning(p.labels, p.key, p.bucket);
    hide EnsuredLabels, AssignedStatus;
  }

  lemma QueueKeepsFacing(c: Cluster, n: NsName, p: Policy, k: Dependency, b: Dependency)
    requires Facing(c, n, p, k, b)
    ensures Facing(Taken(c, n), n, p, k, b)
  {
    hide MetaInOrder;
  }

  /** One undisturbed reconcile: p has settled, or it is queued with the status that it needs. */
  lemma FirstReconcile(c: Cluster, n: NsName, p: Policy, k: Dependency, b: Dependency, tape: seq<Fate>)
    requires n in c.queue && Facing(c, n, p, k, b) && QuietFor(World(c, tape), 7)
    ensures var d := Next(c, Work(n, tape));
            && n in d.policies && d.policies[n] == p.(status := AssignedStatus(p, k, b), version := d.policies[n].version)
            && Facing(d, n, d.policies[n], k, b)
            && PermissionsOf(d.garage, Pair(k.id, b.id)) == p.permissions
            && (n in d.queue <==> AssignedStatus(p, k, b) != p.status)
  {
    hide AssignedStatus, QuietFor, Next, Facing, OnlyGranted, WithPolicy;
    var taken := Taken(c, n);
    QueueKeepsFacing(c, n, p, k, b);
    var d := QuietWork(c, n, p, k, b, tape);
    FacingAfter(taken, d, n, p, k, b, AssignedStatus(p, k, b));
    FacingGranted(taken, d, n, p, k, b);
    FacingIsThere(d, n, p, k, b);
    QueueAfter(taken, d, n, p, k, b);
  }

  lemma QuietTape(c: Cluster, d: Cluster, tape: seq<Fate>)
    requires QuietFor(World(c, tape), 7)
    ensures QuietFor(World(d, tape), 7)
  {
  }

  /** The cluster in which the status was written, or would have been. */
  lemma ReconcileOutcome(c: Cluster, n: NsName, p: Policy, k: Dependency, b: Dependency, tape: seq<Fate>) returns (d: Cluster)
    requires n in c.queue && Assigned(Taken(c, n), Worked(c, n, tape), n, p, k, b)
    ensures OnlyGranted(Taken(c, n), d, Pair(k.id, b.id), p.permissions)
    ensures Next(c, Work(n, tape)) == if AssignedStatus(p, k, b) == p.status then d else WithPolicy(d, n, p.(status := AssignedStatus(p, k, b)))
  {
    hide Reconcile, AssignedStatus, QuietFor, Next;
    WorkedQuietly(c, n, tape);
    var e :| OnlyGranted(Taken(c, n), e, Pair(k.id, b.id), p.permissions)
             && Worked(c, n, tape).w.c == if AssignedStatus(p, k, b) == p.status then e else WithPolicy(e, n, p.(status := AssignedStatus(p, k, b)));
    d := e.(inHand := None);
  }

  /** What an undisturbed reconcile of a queued policy leaves of the whole cluster. */
  lemma QuietWork(c: Cluster, n: NsName, p: Policy, k: Dependency, b: Dependency, tape: seq<Fate>) returns (d: Cluster)
    requires n in c.queue && Facing(c, n, p, k, b) && QuietFor(World(c, tape), 7)
    ensures OnlyGranted(Taken(c, n), d, Pair(k.id, b.id), p.permissions)
    ensures Next(c, Work(n, tape)) == if AssignedStatus(p, k, b) == p.status then d else WithPolicy(d, n, p.(status := AssignedStatus(p, k, b)))
  {
    hide Reconcile, AssignedStatus, QuietFor, Next, Facing, Assigned, OnlyGranted, WithPolicy;
    QueueKeepsFacing(c, n, p, k, b);
    QuietTape(c, Taken(c, n), tape);
    QuietReconcile(World(Taken(c, n), tape), n, p, k, b);
    d := ReconcileOutcome(c, n, p, k, b, tape);
  }

  lemma QueueAfter(taken: Cluster, d: Cluster, n: NsName, p: Policy, k: Dependency, b: Dependency)
    requires OnlyGranted(taken, d, Pair(k.id, b.id), p.permissions) && n !in taken.queue
    ensures n !in d.queue && PermissionsOf(d.garage, Pair(k.id, b.id)) == p.permissions
    ensures n in WithPolicy(d, n, p.(status := AssignedStatus(p, k, b))).queue
    ensures WithPolicy(d, n, p.(status := AssignedStatus(p, k, b))).garage == d.garage
    ensures n in WithPolicy(d, n, p.(status := AssignedStatus(p, k, b))).policies
  {
    hide AssignedStatus;
  }

  lemma FacingGranted(c: Cluster, d: Cluster, n: NsName, p: Policy, k: Dependency, b: Dependency)
    requires Facing(c, n, p, k, b) && OnlyGranted(c, d, Pair(k.id, b.id), p.permissions)
    ensures Facing(d, n, p, k, b) && d.policies[n] == p
  {
    hide MetaInOrder;
  }

  /** An undisturbed reconcile puts labels and finalizer in order, and its own write queues the policy. */
  lemma QuietMetaWrite(c: Cluster, n: NsName, p: Policy, tape: seq<Fate>)
    requires n in c.queue && n in c.policies && c.policies[n] == p && !p.deleting && !MetaInOrder(p) && QuietFor(World(c, tape), 3)
    ensures var written := p.(labels := EnsuredLabels(p.labels, p.key, p.bucket), finalizer := true);
            && Next(c, Work(n, tape)) == WithPolicy(Taken(c, n), n, written)
            && MetaInOrder(written)
  {
    hide QuietFor, Arrive, Rest, ApiReply, EnsuredLabels, WithPolicy;
    PolicyLabels.EnsuredLabelsMeaning(p.labels, p.key, p.bucket);
    var taken := Taken(c, n);
    var w0 := World(taken, tape);
    MetaTape(c, taken, tape);
    QuietCall(w0, 2, taken);
    var w1 := GetPolicy(w0, n).w;
    var written := WithPolicy(taken, n, p.(labels := EnsuredLabels(p.labels, p.key, p.bucket), finalizer := true));
    QuietCall(w1, 1, written);
    assert Reconcile(w0, n).w.c == written;
    NotCrashed(Reconcile(w0, n).w);
    NothingInHand(taken, n, p.(labels := EnsuredLabels(p.labels, p.key, p.bucket), finalizer := true));
  }

  lemma MetaTape(c: Cluster, d: Cluster, tape: seq<Fate>)
    requires QuietFor(World(c, tape), 3)
    ensures QuietFor(World(d, tape), 3)
  {
  }

  lemma NotCrashed(w: World)
    requires QuietFor(w, 1)
    ensures w.tape != []
  {
  }

  lemma NothingInHand(c: Cluster, n: NsName, p: Policy)
    requires c.inHand == None
    ensures WithPolicy(c, n, p).(inHand := None) == WithPolicy(c, n, p)
  {
  }

  /**
   Two undisturbed reconciles bring a labelled policy to rest whatever its status said before: its
   permissions are applied, its status says so, and it is not queued again.
   */
  lemma QuietReconcilesSettle(c: Cluster, n: NsName, p: Policy, k: Dependency, b: Dependency, first: seq<Fate>, second: seq<Fate>)
    requires n in c.queue && Facing(c, n, p, k, b)
    requires QuietFor(World(c, first), 7) && QuietFor(World(c, second), 7)
    ensures var d := Next(Next(c, Work(n, first)), Work(n, second));
            && n in d.policies && n !in d.queue
            && Settled(d, n, d.policies[n])
            && d.policies[n].permissions == p.permissions && d.policies[n].generation == p.generation
            && PermissionsOf(d.garage, Pair(k.id, b.id)) == p.permissions
  {
    hide AssignedStatus, Facing, Next, Settled;
    FirstReconcile(c, n, p, k, b, first);
    var d := Next(c, Work(n, first));
    var q := d.policies[n];
    AssignedAgain(p, q, k, b);
    FacingSettles(d, n, q, k, b);
    if n in d.queue {
      FirstReconcile(d, n, q, k, b, second) by {
        QuietTape(c, d, second);
      }
      var e := Next(d, Work(n, second));
      AssignedAgain(q, e.policies[n], k, b);
      FacingSettles(e, n, e.policies[n], k, b);
    } else {
      NotQueued(d, n, second);
    }
  }

  lemma NotQueued(c: Cluster, n: NsName, tape: seq<Fate>)
    requires n !in c.queue
    ensures Next(c, Work(n, tape)) == c
  {
  }
}
