/**
 What happens when two policies have to do with the same key and the same Garage bucket, as they can when a
 bucket that was kept is reclaimed by another Bucket resource while an old policy still has it recorded.
 */
module PolicySharing {
  import opened Common
  import opened Conditions
  import opened Permissions
  import opened PolicyWorld
  import opened PolicySpec
  import opened PolicyProofs
  import opened PolicyConvergence

  /**
   A revocation undoes a policy that had settled exactly when it is for the pair of that policy and reaches
   Garage; and it does not queue that policy.
   */
  lemma RevocationStrikesExactlyWhen(w: World, q: Pair, m: NsName, p: Policy)
    requires GarageInv(Arrive(w)) && m in Arrive(w).policies && Settled(Arrive(w), m, p)
    requires p.permissions != NOTHING && !Arrive(w).keys[KeyOf(m, p)].deleting
    ensures var c := SetCall(w, q, NOTHING).w.c;
            && (!Settled(c, m, p) <==> q == StatusPair(p.status) && !AdminReply(w).Refused?)
            && c.queue == Arrive(w).queue && c.timers == Arrive(w).timers && c.policies == Arrive(w).policies
  {
    hide Arrive, Rest, AdminReply, LabelsMatch, Holds;
    var a := Arrive(w);
    var r := StatusPair(p.status);
    assert r in a.garage.rows && Exists(a.garage, r);
  }

  // ---------------------------------------------------------------- a bucket reclaimed too early

  const OLD_POLICY := NsName(1, 2)
  const NEW_POLICY := NsName(1, 6)
  const KEY := NsName(1, 3)
  const RECLAIMED := NsName(1, 5)
  const PAIR := Pair(13, 14)
  const READ := Permissions(false, true, false)
  const KEY_READY := Dependency(13, true, false)
  const BUCKET_READY := Dependency(14, true, false)

  function BarePolicy(bucket: Id, status: PolicyStatus): Policy {
    Policy(3, bucket, READ, 1, map[KeyLabel := 3, BucketLabel := bucket], true, false, 1, status)
  }

  const WAS_SETTLED := AssignedStatus(BarePolicy(4, EMPTY_STATUS), KEY_READY, BUCKET_READY)

  /**
   The Bucket resource that the old policy refers to is gone and its permissions are revoked, but the write of
   its status was refused: it still records the pair, and waits on a timer to try again.
   */
  function Waiting(): Cluster {
    Cluster(map[OLD_POLICY := BarePolicy(4, WAS_SETTLED)], map[KEY := KEY_READY], map[],
            Garage({13}, {14}, map[]), {}, {OLD_POLICY}, map[13 := KEY], None, 2, false)
  }

  /** But for the assumptions about others, this is a state that satisfies the invariant. */
  lemma WaitingIsSound()
    ensures Inv(Waiting().(lawful := true), {})
  {
    hide AssignedStatus, Find;
    AssignedMeaning(BarePolicy(4, EMPTY_STATUS), KEY_READY, BUCKET_READY);
  }

  /** The reconcile of a policy whose Bucket resource is gone, undisturbed. */
  lemma QuietLoss(c: Cluster, n: NsName, p: Policy, tape: seq<Fate>)
    requires n in c.queue && n in c.policies && c.policies[n] == p && !p.deleting && MetaInOrder(p)
    requires BucketOf(n, p) !in c.buckets && p.status.bucketID != NONE && QuietFor(World(c, tape), 6)
    requires KeyOf(n, p) in c.keys && Exists(c.garage, StatusPair(p.status))
    ensures var d := Next(c, Work(n, tape));
            && PermissionsOf(d.garage, StatusPair(p.status)) == NOTHING
            && d.policies.Keys == c.policies.Keys && (forall m | m in c.policies && m != n :: d.policies[m] == c.policies[m])
            && d.queue <= c.queue + {n} && d.timers <= c.timers + {n} && d.keys == c.keys && d.buckets == c.buckets
  {
    hide Requeued, Stripped, WithPolicy, QuietFor, Computed, PatchStatus, Classified, MetaInOrder, Arrive, Rest, ApiReply, Exists;
    var taken := Taken(c, n);
    var w0 := World(taken, tape);
    LossTape(c, taken, tape);
    QuietCall(w0, 5, taken);
    var w1 := GetPolicy(w0, n).w;
    LossRun(w1, n, p);
    var run := Computed(w1, n, p);
    StrippedKeys(taken, run.w.c, StatusPair(p.status));
    QuietPatch(run.w, n, p, run.status);
    var end := Reconcile(w0, n);
    assert end == ReconcileLive(w1, n, p);
    QuietForLess(run.w, 1);
    NotCrashed(end.w);
    LossOutcome(c, n, p, run.status, run.w.c, end);
  }

  lemma LossOutcome(c: Cluster, n: NsName, p: Policy, s: PolicyStatus, stripped: Cluster, end: End)
    requires n in c.policies && Stripped(Taken(c, n), stripped, StatusPair(p.status))
    requires end.w.c == stripped || end.w.c == WithPolicy(stripped, n, p.(status := s))
    ensures var d := Requeued(end.w.c, n, end.outcome, false);
            && PermissionsOf(d.garage, StatusPair(p.status)) == NOTHING
            && d.policies.Keys == c.policies.Keys && (forall m | m in c.policies && m != n :: d.policies[m] == c.policies[m])
            && d.queue <= c.queue + {n} && d.timers <= c.timers + {n} && d.keys == c.keys && d.buckets == c.buckets
  {
  }

  lemma LossTape(c: Cluster, d: Cluster, tape: seq<Fate>)
    requires QuietFor(World(c, tape), 6)
    ensures QuietFor(World(d, tape), 6)
  {
  }

  /** Only the permissions of the recorded pair are gone. */
  ghost predicate Stripped(c: Cluster, d: Cluster, q: Pair) {
    d == c.(garage := d.garage) && PermissionsOf(d.garage, q) == NOTHING
  }

  lemma LossRun(w: World, n: NsName, p: Policy)
    requires BucketOf(n, p) !in w.c.buckets && p.status.bucketID != NONE && QuietFor(w, 5)
    requires KeyOf(n, p) in w.c.keys && Exists(w.c.garage, StatusPair(p.status))
    ensures var run := Computed(w, n, p);
            Stripped(w.c, run.w.c, StatusPair(p.status)) && run.errors != [] && QuietFor(run.w, 2)
  {
    hide QuietFor, Initialized, Marked, Aggregated, KeyStage, BucketStage, Stripped, Exists, AssignStage;
    var s := Initialized(p.status);
    InitializedKeepsIDs(p.status);
    LossOfBucket(w, n, p, s);
    var bucket := BucketStage(w, n, p, s);
    StrippedKeys(w.c, bucket.w.c, StatusPair(p.status));
    PresentKey(bucket.w, n, p, bucket.status);
  }

  lemma StrippedKeys(c: Cluster, d: Cluster, q: Pair)
    requires Stripped(c, d, q)
    ensures d.keys == c.keys && d.policies == c.policies
  {
  }

  lemma LossOfBucket(w: World, n: NsName, p: Policy, s: PolicyStatus)
    requires BucketOf(n, p) !in w.c.buckets && s.bucketID != NONE && QuietFor(w, 5) && Exists(w.c.garage, StatusPair(s))
    ensures var check := BucketStage(w, n, p, s);
            Stripped(w.c, check.w.c, StatusPair(s)) && check.r == Err(NotFound) && QuietFor(check.w, 3)
  {
    hide QuietFor, Arrive, Rest, ApiReply, SetCondition;
    QuietCall(w, 4, w.c);
    var w1 := World(w.c, Rest(w));
    QuietRevocation(w1, StatusPair(s));
  }

  lemma QuietRevocation(w: World, q: Pair)
    requires QuietFor(w, 4) && Exists(w.c.garage, q)
    ensures var set_ := SetCall(w, q, NOTHING);
            Stripped(w.c, set_.w.c, q) && QuietFor(set_.w, 3)
  {
    hide QuietFor, Arrive, Rest, AdminReply;
    QuietCall(w, 3, SetCall(w, q, NOTHING).w.c);
  }

  lemma PresentKey(w: World, n: NsName, p: Policy, s: PolicyStatus)
    requires KeyOf(n, p) in w.c.keys && QuietFor(w, 3)
    ensures var check := KeyStage(w, n, p, s);
            check.w.c == w.c && QuietFor(check.w, 2) && check.r != Err(NotFound)
  {
    hide QuietFor, Arrive, Rest, ApiReply, SetCondition, SetCall;
    QuietCall(w, 2, w.c);
  }

  // ---------------------------------------------------------------- the new policy settles

  /** Policy n changes, the permissions of q are p's, and everything else stays as it is. */
  ghost predicate OnlyPolicy(c: Cluster, d: Cluster, n: NsName, q: Pair, p: Policy) {
    && n in d.policies && d.policies[n].permissions == p.permissions && d.policies[n].generation == p.generation
    && d.policies[n].key == p.key && d.policies[n].bucket == p.bucket
    && (forall m | m in c.policies && m != n :: m in d.policies && d.policies[m] == c.policies[m])
    && d.keys == c.keys && d.buckets == c.buckets && d.timers == c.timers && d.lawful == c.lawful
    && d.garage.keys == c.garage.keys && d.garage.buckets == c.garage.buckets
    && PermissionsOf(d.garage, q) == p.permissions
  }

  /** Two undisturbed reconciles of a policy concern nobody else. */
  lemma SettlesAlone(c: Cluster, n: NsName, p: Policy, k: Dependency, b: Dependency, first: seq<Fate>, second: seq<Fate>)
    requires n in c.queue && Facing(c, n, p, k, b) && p.status == EMPTY_STATUS
    requires QuietFor(World(c, first), 7) && QuietFor(World(c, second), 7)
    ensures var d := Next(Next(c, Work(n, first)), Work(n, second));
            && OnlyPolicy(c, d, n, Pair(k.id, b.id), p) && d.queue == c.queue - {n}
            && d.policies[n].status == AssignedStatus(p, k, b)
  {
    hide AssignedStatus, Facing, Next, QuietFor, OnlyGranted, WithPolicy;
    FacingIsThere(c, n, p, k, b);
    FirstReconcile(c, n, p, k, b, first);
    var d1 := QuietWork(c, n, p, k, b, first);
    StatusIsNew(p, k, b);
    var c1 := Next(c, Work(n, first));
    var q := c1.policies[n];
    WrittenAlone(c, d1, c1, n, p, k, b);
    AssignedAgain(p, q, k, b);
    SecondTape(c, c1, second);
    var d2 := QuietWork(c1, n, q, k, b, second);
    GrantedAlone(c, c1, d2, n, p, q, k, b);
  }

  lemma StatusIsNew(p: Policy, k: Dependency, b: Dependency)
    ensures AssignedStatus(p, k, b) != EMPTY_STATUS
  {
    AssignedMeaning(p, k, b);
    hide AssignedStatus;
  }

  lemma SecondTape(c: Cluster, d: Cluster, tape: seq<Fate>)
    requires QuietFor(World(c, tape), 7)
    ensures QuietFor(World(d, tape), 7)
  {
  }

  lemma WrittenAlone(c: Cluster, d: Cluster, e: Cluster, n: NsName, p: Policy, k: Dependency, b: Dependency)
    requires n in c.policies && c.policies[n] == p && OnlyGranted(Taken(c, n), d, Pair(k.id, b.id), p.permissions)
    requires e == WithPolicy(d, n, p.(status := AssignedStatus(p, k, b)))
    ensures OnlyPolicy(c, e, n, Pair(k.id, b.id), p) && e.queue == c.queue - {n} + {n} && e.policies[n].status == AssignedStatus(p, k, b)
  {
    hide AssignedStatus;
  }

  lemma GrantedAlone(c: Cluster, d: Cluster, e: Cluster, n: NsName, p: Policy, q: Policy, k: Dependency, b: Dependency)
    requires OnlyPolicy(c, d, n, Pair(k.id, b.id), p) && d.policies[n] == q && d.queue == c.queue - {n} + {n}
    requires OnlyGranted(Taken(d, n), e, Pair(k.id, b.id), q.permissions)
    ensures OnlyPolicy(c, e, n, Pair(k.id, b.id), p) && e.queue == c.queue - {n} && e.policies[n] == q
  {
  }

  // ---------------------------------------------------------------- the run

  const NEW_LABELS: Labels := map[KeyLabel := 3, BucketLabel := 5]
  const Q3 := [QUIET, QUIET, QUIET]
  const Q7 := [QUIET, QUIET, QUIET, QUIET, QUIET, QUIET, QUIET]

  /** The bucket is reclaimed and a policy for it is created. */
  function Reclaimed(): Cluster {
    WithPolicy(Waiting().(buckets := map[RECLAIMED := BUCKET_READY]), NEW_POLICY, NewPolicy(3, 5, READ, NEW_LABELS))
  }

  lemma ReclaimingIsPossible()
    ensures Perform(Perform(Waiting(), PutBucket(RECLAIMED, BUCKET_READY)), CreatePolicy(NEW_POLICY, 3, 5, READ, NEW_LABELS)) == Reclaimed()
  {
    hide AssignedStatus, Permitted;
    var c := Waiting();
    assert Labelled(c, BucketLabel, RECLAIMED) == {};
    assert c.buckets[RECLAIMED := BUCKET_READY] == map[RECLAIMED := BUCKET_READY];
    assert c.queue + {} == c.queue;
    assert Perform(c, PutBucket(RECLAIMED, BUCKET_READY)) == c.(buckets := map[RECLAIMED := BUCKET_READY]);
  }

  /** Its first reconcile writes the finalizer. */
  lemma NewPolicyIsFaced()
    ensures var d := Next(Reclaimed(), Work(NEW_POLICY, Q3));
            && d.queue == {NEW_POLICY} && d.timers == {OLD_POLICY} && NEW_POLICY in d.policies
            && Facing(d, NEW_POLICY, d.policies[NEW_POLICY], KEY_READY, BUCKET_READY)
            && d.policies[NEW_POLICY].status == EMPTY_STATUS && d.policies[NEW_POLICY].permissions == READ && d.policies[NEW_POLICY].key == 3
            && d.policies[NEW_POLICY].generation == 1
            && OLD_POLICY in d.policies && d.policies[OLD_POLICY] == BarePolicy(4, WAS_SETTLED)
            && d.buckets == map[RECLAIMED := BUCKET_READY] && d.keys == map[KEY := KEY_READY] && !d.lawful
            && d.garage == Garage({13}, {14}, map[])
  {
    hide AssignedStatus, Next;
    var c := Reclaimed();
    var p := c.policies[NEW_POLICY];
    assert p == NewPolicy(3, 5, READ, NEW_LABELS).(version := 2);
    QuietMetaWrite(c, NEW_POLICY, p, Q3);
    assert Taken(c, NEW_POLICY).queue == {};
  }

  ghost predicate ShowsReady(c: Cluster, n: NsName) {
    && n in c.policies
    && Holds(c.policies[n].status.conditions, Ready, True)
    && c.policies[n].status.observedGeneration == c.policies[n].generation
    && StatusPair(c.policies[n].status) == PAIR
  }

  /** The new policy has settled; the old one still waits. */
  ghost predicate BothThere(c: Cluster) {
    && ShowsReady(c, NEW_POLICY) && c.policies[NEW_POLICY].permissions == READ && PermissionsOf(c.garage, PAIR) == READ
    && NEW_POLICY !in c.queue && c.timers == {OLD_POLICY}
    && OLD_POLICY in c.policies && c.policies[OLD_POLICY] == BarePolicy(4, WAS_SETTLED)
    && c.buckets == map[RECLAIMED := BUCKET_READY] && KEY in c.keys && Exists(c.garage, PAIR)
  }

  lemma NewPolicySettles(c: Cluster)
    requires c == Next(Reclaimed(), Work(NEW_POLICY, Q3))
    ensures BothThere(Next(Next(c, Work(NEW_POLICY, Q7)), Work(NEW_POLICY, Q7)))
  {
    hide AssignedStatus, Facing, Next, Find;
    NewPolicyIsFaced();
    var p := c.policies[NEW_POLICY];
    SettlesAlone(c, NEW_POLICY, p, KEY_READY, BUCKET_READY, Q7, Q7);
    AssignedMeaning(p, KEY_READY, BUCKET_READY);
  }

  lemma OldPolicyTriesAgain(c: Cluster)
    requires BothThere(c)
    ensures var d := Next(Perform(c, TimerFires(OLD_POLICY)), Work(OLD_POLICY, Q7));
            && ShowsReady(d, NEW_POLICY) && PermissionsOf(d.garage, PAIR) == NOTHING && d.policies[NEW_POLICY].permissions == READ
            && NEW_POLICY !in d.queue && NEW_POLICY !in d.timers
  {
    hide AssignedStatus, Next, Find, MetaInOrder;
    AssignedMeaning(BarePolicy(4, EMPTY_STATUS), KEY_READY, BUCKET_READY);
    OldPolicyIsInOrder();
    QuietLoss(Perform(c, TimerFires(OLD_POLICY)), OLD_POLICY, BarePolicy(4, WAS_SETTLED), Q7);
  }

  lemma OldPolicyIsInOrder()
    ensures MetaInOrder(BarePolicy(4, WAS_SETTLED))
  {
    hide AssignedStatus;
  }

  /**
   A bucket is reclaimed by another Bucket resource while an old policy still records it. A new policy for it
   settles. Then the old one retries its revocation, and the new one stays Ready and unqueued without
   permissions.
   */
  lemma ReclaimedBucketLosesPermissions()
    ensures var d := Run(Waiting(), [Other(PutBucket(RECLAIMED, BUCKET_READY)), Other(CreatePolicy(NEW_POLICY, 3, 5, READ, NEW_LABELS)),
                                     Work(NEW_POLICY, Q3), Work(NEW_POLICY, Q7), Work(NEW_POLICY, Q7),
                                     Other(TimerFires(OLD_POLICY)), Work(OLD_POLICY, Q7)]);
            && NEW_POLICY in d.policies && NEW_POLICY !in d.queue && NEW_POLICY !in d.timers
            && Holds(d.policies[NEW_POLICY].status.conditions, Ready, True)
            && d.policies[NEW_POLICY].status.observedGeneration == d.policies[NEW_POLICY].generation
            && StatusPair(d.policies[NEW_POLICY].status) == PAIR
            && PermissionsOf(d.garage, PAIR) == NOTHING != d.policies[NEW_POLICY].permissions
  {
    hide Next, Run, AssignedStatus, Find, Perform, BothThere;
    var create := Other(CreatePolicy(NEW_POLICY, 3, 5, READ, NEW_LABELS));
    var meta, work := Work(NEW_POLICY, Q3), Work(NEW_POLICY, Q7);
    var fire, retry := Other(TimerFires(OLD_POLICY)), Work(OLD_POLICY, Q7);
    ReclaimingIsPossible();
    var c1 := Next(Waiting(), Other(PutBucket(RECLAIMED, BUCKET_READY)));
    OthersAct(Waiting(), PutBucket(RECLAIMED, BUCKET_READY));
    OthersAct(c1, CreatePolicy(NEW_POLICY, 3, 5, READ, NEW_LABELS));
    var c3 := Next(Reclaimed(), meta);
    NewPolicySettles(c3);
    var c5 := Next(Next(c3, work), work);
    OldPolicyTriesAgain(c5);
    OthersAct(c5, TimerFires(OLD_POLICY));
    SevenEvents(Waiting(), Other(PutBucket(RECLAIMED, BUCKET_READY)), create, meta, work, work, fire, retry);
  }

  lemma SevenEvents(c: Cluster, e1: Event, e2: Event, e3: Event, e4: Event, e5: Event, e6: Event, e7: Event)
    ensures Run(c, [e1, e2, e3, e4, e5, e6, e7]) == Next(Next(Next(Next(Next(Next(Next(c, e1), e2), e3), e4), e5), e6), e7)
  {
    hide Run, Next;
    var c3 := Next(Next(Next(c, e1), e2), e3);
    ThreeEvents(c, e1, e2, e3, [e4, e5, e6, e7]);
    assert [e1, e2, e3] + [e4, e5, e6, e7] == [e1, e2, e3, e4, e5, e6, e7];
    ThreeEvents(c3, e4, e5, e6, [e7]);
    assert [e4, e5, e6] + [e7] == [e4, e5, e6, e7];
    RunCons(Next(Next(Next(c3, e4), e5), e6), e7, []);
    assert [e7] + [] == [e7];
    NothingLeft(Next(Next(Next(Next(c3, e4), e5), e6), e7));
  }

  lemma ThreeEvents(c: Cluster, e1: Event, e2: Event, e3: Event, rest: seq<Event>)
    ensures Run(c, [e1, e2, e3] + rest) == Run(Next(Next(Next(c, e1), e2), e3), rest)
  {
    hide Run, Next;
    assert [e1, e2, e3] + rest == [e1] + ([e2] + ([e3] + rest));
    RunCons(c, e1, [e2] + ([e3] + rest));
    RunCons(Next(c, e1), e2, [e3] + rest);
    RunCons(Next(Next(c, e1), e2), e3, rest);
  }

  lemma OthersAct(c: Cluster, a: Action)
    ensures Next(c, Other(a)) == Perform(c, a)
  {
  }

  lemma RunCons(c: Cluster, e: Event, rest: seq<Event>)
    ensures Run(c, [e] + rest) == Run(Next(c, e), rest)
  {
    assert ([e] + rest)[1..] == rest;
  }

  lemma NothingLeft(c: Cluster)
    ensures Run(c, []) == c
  {
  }
}
