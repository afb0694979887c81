/**
 Who may hold permissions: every permission that the controller granted belongs to a policy whose
 recorded status names exactly that key and bucket.
 */
module PolicyGrants {
  import opened Common
  import opened Conditions
  import opened Permissions
  import opened PolicyWorld
  import opened PolicySpec
  import opened PolicyProofs

  ghost predicate Granted(c: Cluster, q: Pair) {
    PermissionsOf(c.garage, q) != NOTHING
  }

  ghost predicate OwnedBy(c: Cluster, n: NsName, q: Pair) {
    n in c.policies && c.policies[n].finalizer && StatusPair(c.policies[n].status) == q
  }

  ghost predicate OwnedByAnother(c: Cluster, n: NsName, q: Pair) {
    exists m :: m != n && OwnedBy(c, m, q)
  }

  /** Every grant to a key of an AccessKey belongs to a policy that has recorded it. */
  ghost predicate GrantsOwned(c: Cluster) {
    forall q | Granted(c, q) && q.key in c.keyHome :: exists n :: OwnedBy(c, n, q)
  }

  /** While n is worked on, the only grant without another owner is r. */
  ghost predicate GrantsBut(c: Cluster, n: NsName, r: Pair) {
    c.lawful && forall q | Granted(c, q) && q.key in c.keyHome :: q == r || OwnedByAnother(c, n, q)
  }

  // ---------------------------------------------------------------- actions of others

  lemma OwnerStays(c: Cluster, a: Action, m: NsName, q: Pair)
    requires OwnedBy(c, m, q)
    ensures OwnedBy(Perform(c, a), m, q)
  {
    hide Permitted, Labelled, WithoutRows;
  }

  /** A key that gets its first home has no permissions yet. */
  lemma NewHomeIsBare(c: Cluster, a: Action, q: Pair)
    requires c.lawful && Granted(Perform(c, a), q) && q.key in Perform(c, a).keyHome
    ensures Granted(c, q) && q.key in c.keyHome
  {
    hide Labelled;
    ActionShrinksRows(c, a);
  }

  lemma ActionKeepsLaw(c: Cluster, a: Action)
    ensures Perform(c, a).lawful == c.lawful
  {
    hide Permitted, Labelled, WithoutRows;
  }

  lemma ActionKeepsGrantsBut(c: Cluster, a: Action, n: NsName, r: Pair)
    requires GrantsBut(c, n, r)
    ensures GrantsBut(Perform(c, a), n, r)
  {
    hide Perform, Granted, OwnedBy;
    ActionKeepsLaw(c, a);
    forall q | Granted(Perform(c, a), q) && q.key in Perform(c, a).keyHome
      ensures q == r || OwnedByAnother(Perform(c, a), n, q)
    {
      NewHomeIsBare(c, a, q);
      if q != r {
        var m :| m != n && OwnedBy(c, m, q);
        OwnerStays(c, a, m, q);
      }
    }
  }

  lemma ActionKeepsGrantsOwned(c: Cluster, a: Action)
    requires c.lawful && GrantsOwned(c)
    ensures GrantsOwned(Perform(c, a))
  {
    hide Perform, Granted, OwnedBy;
    forall q | Granted(Perform(c, a), q) && q.key in Perform(c, a).keyHome
      ensures exists n :: OwnedBy(Perform(c, a), n, q)
    {
      NewHomeIsBare(c, a, q);
      var m :| OwnedBy(c, m, q);
      OwnerStays(c, a, m, q);
    }
  }

  lemma {:induction false} ActionsKeepGrantsBut(c: Cluster, actions: seq<Action>, n: NsName, r: Pair)
    requires GrantsBut(c, n, r)
    ensures GrantsBut(PerformAll(c, actions), n, r)
    decreases |actions|
  {
    hide Perform, GrantsBut;
    if actions != [] {
      ActionKeepsGrantsBut(c, actions[0], n, r);
      ActionsKeepGrantsBut(Perform(c, actions[0]), actions[1..], n, r);
    }
  }

  lemma GrantsButOnArrival(w: World, n: NsName, r: Pair)
    requires GrantsBut(w.c, n, r)
    ensures GrantsBut(Arrive(w), n, r)
  {
    if w.tape != [] {
      ActionsKeepGrantsBut(w.c, w.tape[0].actions, n, r);
    }
  }

  // ---------------------------------------------------------------- the reconciler's own pair

  /** A pair without permissions can be forgotten. */
  lemma Forget(c: Cluster, n: NsName, r: Pair, other: Pair)
    requires GrantsBut(c, n, r) && !Granted(c, r)
    ensures GrantsBut(c, n, other)
  {
  }

  lemma NoneIsNotGranted(c: Cluster, r: Pair)
    requires GarageInv(c) && (r.key == NONE || r.bucket == NONE)
    ensures !Granted(c, r)
  {
    NoneHasNoPermissions(c.garage, r);
  }

  lemma OneRowKeepsGrantsBut(c: Cluster, g: Garage, n: NsName, q: Pair)
    requires GrantsBut(c, n, q) && OnlyRow(c.garage, g, q)
    ensures GrantsBut(c.(garage := g), n, q)
  {
    var d := c.(garage := g);
    forall r | Granted(d, r) && r.key in d.keyHome && r != q ensures OwnedByAnother(d, n, r) {
      assert Granted(c, r);
      var m :| m != n && OwnedBy(c, m, r);
      assert OwnedBy(d, m, r);
    }
  }

  lemma SetKeepsGrantsBut(w: World, n: NsName, q: Pair, target: Permissions)
    requires GrantsBut(w.c, n, q)
    ensures GrantsBut(SetCall(w, q, target).w.c, n, q)
  {
    hide GrantsBut, OnlyRow, DenyCall, AllowCall;
    GrantsButOnArrival(w, n, q);
    DenyIsOneRow(w, q, Complement(target));
    var denied := DenyCall(w, q, Complement(target));
    OneRowKeepsGrantsBut(Arrive(w), denied.w.c.garage, n, q);
    GrantsButOnArrival(denied.w, n, q);
    DenyIsOneRow(denied.w, q, target);
    OneRowKeepsGrantsBut(Arrive(denied.w), AllowCall(denied.w, q, target).w.c.garage, n, q);
  }

  /** A revocation that is not refused leaves nothing. */
  lemma RevocationRevokes(w: World, q: Pair)
    requires !AdminReply(w).Refused? && GarageInv(Arrive(w))
    ensures !Granted(SetCall(w, q, NOTHING).w.c, q)
  {
  }

  // ---------------------------------------------------------------- the stages

  /** The Bucket was not deleted and recreated since the status was written. */
  ghost predicate BucketSeen(w: World, n: NsName, p: Policy, s: PolicyStatus) {
    var got := GetBucket(w, n, BucketOf(n, p));
    got.r.Ok? ==> s.bucketID == NONE || s.bucketID == got.r.value.id
  }

  /** A revocation that the bucket stage attempts reaches Garage. */
  ghost predicate BucketRevoked(w: World, n: NsName, p: Policy, s: PolicyStatus) {
    var check := CheckBucket(w, n, p, s);
    check.r == Err(NotFound) && check.status.bucketID != NONE ==> !AdminReply(check.w).Refused?
  }

  ghost predicate KeyRevoked(w: World, n: NsName, p: Policy, s: PolicyStatus) {
    var check := CheckAccessKey(w, n, p, s);
    check.r == Err(NotFound) && check.status.accessKeyID != NONE ==> !AdminReply(check.w).Refused?
  }

  lemma BucketReadKeepsGrants(w: World, n: NsName, p: Policy, s: PolicyStatus)
    requires Staged(w.c, n, p, s, None, None) && GrantsBut(w.c, n, StatusPair(s)) && BucketSeen(w, n, p, s)
    ensures var check := CheckBucket(w, n, p, s);
            GrantsBut(check.w.c, n, StatusPair(check.status))
  {
    hide GrantsBut, Granted, SetCondition, Watching, Inv, Ours, Arrive, Rest, ApiReply;
    GrantsButOnArrival(w, n, StatusPair(s));
    var a := Arrive(w);
    var check := CheckBucket(w, n, p, s);
    if s.bucketID == NONE {
      HeldOnArrival(w, n, p);
      GarageOf(a, n, p);
      NoneIsNotGranted(a, StatusPair(s));
      Forget(a, n, StatusPair(s), StatusPair(check.status));
    }
    HandIsIrrelevant(a, check.w.c, n, StatusPair(check.status));
  }

  lemma HandIsIrrelevant(c: Cluster, d: Cluster, n: NsName, r: Pair)
    requires GrantsBut(c, n, r) && d == c.(inHand := d.inHand)
    ensures GrantsBut(d, n, r)
  {
    forall q | Granted(d, q) && q.key in d.keyHome && q != r ensures OwnedByAnother(d, n, q) {
      assert Granted(c, q);
      var m :| m != n && OwnedBy(c, m, q);
      assert OwnedBy(d, m, q);
    }
  }

  lemma KeyReadKeepsGrants(w: World, n: NsName, p: Policy, s: PolicyStatus, b: Option<Dependency>)
    requires Staged(w.c, n, p, s, None, b) && GrantsBut(w.c, n, StatusPair(s))
    ensures var check := CheckAccessKey(w, n, p, s);
            GrantsBut(check.w.c, n, StatusPair(check.status))
  {
    hide GrantsBut, Granted, SetCondition, Watching, Inv, Ours;
    KeyRead(w, n, p, s, b);
    GrantsButOnArrival(w, n, StatusPair(s));
    HeldOnArrival(w, n, p);
    OwnPairStays(w.c, Arrive(w), n, p, StatusPair(s));
    var check := CheckAccessKey(w, n, p, s);
    if check.status.accessKeyID != s.accessKeyID {
      OldKeyIsGone(Arrive(w), n, p, StatusPair(s));
      Forget(Arrive(w), n, StatusPair(s), StatusPair(check.status));
    }
  }

  /** A key that the AccessKey no longer names has lost its permissions with its Garage key. */
  lemma OldKeyIsGone(c: Cluster, n: NsName, p: Policy, q: Pair)
    requires Held(c, n, p) && OwnPair(c, n, p, q)
    requires KeyOf(n, p) in c.keys && c.keys[KeyOf(n, p)].id != q.key
    ensures !Granted(c, q)
  {
    assert Consistent(c.garage);
    assert q.key !in c.garage.keys;
  }

  lemma RevokedKeepsGrants(w: World, n: NsName, p: Policy, s: PolicyStatus, forgotten: PolicyStatus, b: Option<Dependency>)
    requires Staged(w.c, n, p, s, None, b) && GrantsBut(w.c, n, StatusPair(s)) && !AdminReply(w).Refused?
    ensures GrantsBut(SetCall(w, StatusPair(s), NOTHING).w.c, n, StatusPair(forgotten))
  {
    hide GrantsBut, Granted, SetCall, Watching, Ours;
    HeldOnArrival(w, n, p);
    SetKeepsGrantsBut(w, n, StatusPair(s), NOTHING);
    RevocationRevokes(w, StatusPair(s));
    Forget(SetCall(w, StatusPair(s), NOTHING).w.c, n, StatusPair(s), StatusPair(forgotten));
  }

  lemma BucketStageKeepsGrants(w: World, n: NsName, p: Policy, s: PolicyStatus)
    requires Staged(w.c, n, p, s, None, None) && GrantsBut(w.c, n, StatusPair(s)) && s.bucketID == p.status.bucketID
    requires BucketSeen(w, n, p, s) && BucketRevoked(w, n, p, s)
    ensures var check := BucketStage(w, n, p, s);
            GrantsBut(check.w.c, n, StatusPair(check.status))
  {
    hide Staged, GrantsBut, BucketSeen, CheckBucket, SetCall;
    BucketReadKeepsGrants(w, n, p, s);
    BucketRead(w, n, p, s);
    var check := CheckBucket(w, n, p, s);
    if check.r == Err(NotFound) && check.status.bucketID != NONE {
      RevokedKeepsGrants(check.w, n, p, check.status, check.status.(bucketID := NONE), None);
    }
  }

  lemma KeyStageKeepsGrants(w: World, n: NsName, p: Policy, s: PolicyStatus, b: Option<Dependency>)
    requires Staged(w.c, n, p, s, None, b) && GrantsBut(w.c, n, StatusPair(s))
    requires KeyRevoked(w, n, p, s)
    ensures var check := KeyStage(w, n, p, s);
            GrantsBut(check.w.c, n, StatusPair(check.status))
  {
    hide Staged, GrantsBut, CheckAccessKey, SetCall;
    KeyReadKeepsGrants(w, n, p, s, b);
    KeyRead(w, n, p, s, b);
    var check := CheckAccessKey(w, n, p, s);
    if check.r == Err(NotFound) && check.status.accessKeyID != NONE {
      RevokedKeepsGrants(check.w, n, p, check.status, check.status.(accessKeyID := NONE), b);
    }
  }

  /** The revocations that a reconcile attempts reach Garage, and it sees the Bucket it saw before. */
  ghost predicate Revoking(w: World, n: NsName, p: Policy) {
    var s := Initialized(p.status);
    var bucket := BucketStage(w, n, p, s);
    BucketSeen(w, n, p, s) && BucketRevoked(w, n, p, s) && KeyRevoked(bucket.w, n, p, bucket.status)
  }

  /** Whatever Garage answers to the assignment itself, only the pair in the computed status can be granted. */
  lemma ComputedKeepsGrants(w: World, n: NsName, p: Policy)
    requires Staged(w.c, n, p, Initialized(p.status), None, None) && GrantsBut(w.c, n, StatusPair(p.status))
    requires Revoking(w, n, p)
    ensures var run := Computed(w, n, p);
            GrantsBut(run.w.c, n, StatusPair(run.status))
  {
    hide GrantsBut, InitAll, Aggregated, BucketStage, KeyStage, BucketSeen, BucketRevoked, KeyRevoked, SetCall, Held, Watching, OwnPair;
    var s := Initialized(p.status);
    InitializedKeepsIDs(p.status);
    BucketStageMeaning(w, n, p, s);
    BucketStageKeepsGrants(w, n, p, s);
    var bucket := BucketStage(w, n, p, s);
    KeyStageMeaning(bucket.w, n, p, bucket.status, Seen(bucket.r));
    KeyStageKeepsGrants(bucket.w, n, p, bucket.status, Seen(bucket.r));
    var key := KeyStage(bucket.w, n, p, bucket.status);
    if bucket.r.Ok? && key.r.Ok? {
      SetKeepsGrantsBut(key.w, n, StatusPair(key.status), p.permissions);
    }
    AggregatedMeaning(ReconcilePolicy(w, n, p, s).status, p.generation);
  }

  // ---------------------------------------------------------------- whole reconciles

  /** The status that the reconcile computed is the one that is recorded in the end. */
  ghost predicate StatusKept(w: World, n: NsName, p: Policy) {
    var end := ReconcileLive(w, n, p);
    n in end.w.c.policies && end.w.c.policies[n].finalizer && end.w.c.policies[n].status == Computed(w, n, p).status
  }

  ghost predicate Careful(w: World, n: NsName, p: Policy) {
    Revoking(w, n, p) && StatusKept(w, n, p)
  }

  lemma GrantsButBecomesOwned(c: Cluster, n: NsName, r: Pair)
    requires GrantsBut(c, n, r) && (Granted(c, r) && r.key in c.keyHome ==> OwnedBy(c, n, r))
    ensures GrantsOwned(c)
  {
    forall q | Granted(c, q) && q.key in c.keyHome ensures exists m :: OwnedBy(c, m, q) {
      if q != r {
        var m :| m != n && OwnedBy(c, m, q);
      }
    }
  }

  lemma OwnedMeansBut(c: Cluster, n: NsName, p: Policy)
    requires c.lawful && GrantsOwned(c) && n in c.policies && c.policies[n] == p
    ensures GrantsBut(c, n, StatusPair(p.status))
  {
    forall q | Granted(c, q) && q.key in c.keyHome && q != StatusPair(p.status) ensures OwnedByAnother(c, n, q) {
      var m :| OwnedBy(c, m, q);
      assert m != n;
    }
  }

  lemma WriteKeepsGrantsBut(c: Cluster, n: NsName, r: Pair, p: Policy)
    requires GrantsBut(c, n, r)
    ensures GrantsBut(WithPolicy(c, n, p), n, r)
  {
    var d := WithPolicy(c, n, p);
    forall q | Granted(d, q) && q.key in d.keyHome && q != r ensures OwnedByAnother(d, n, q) {
      assert Granted(c, q);
      var m :| m != n && OwnedBy(c, m, q);
      assert OwnedBy(d, m, q);
    }
  }

  lemma PatchKeepsGrantsBut(w: World, n: NsName, version: int, s: PolicyStatus, r: Pair)
    requires GrantsBut(w.c, n, r)
    ensures GrantsBut(PatchStatus(w, n, version, s).w.c, n, r)
  {
    hide GrantsBut, WithPolicy;
    GrantsButOnArrival(w, n, r);
    if n in Arrive(w).policies {
      WriteKeepsGrantsBut(Arrive(w), n, r, Arrive(w).policies[n].(status := s));
    }
  }

  lemma LiveKeepsGrants(w: World, n: NsName, p: Policy)
    requires Staged(w.c, n, p, Initialized(p.status), None, None) && GrantsBut(w.c, n, StatusPair(p.status))
    requires Careful(w, n, p)
    ensures GrantsOwned(ReconcileLive(w, n, p).w.c)
  {
    hide GrantsBut, Granted, Staged, Initialized, Computed, Revoking, PatchStatus;
    ComputedKeepsGrants(w, n, p);
    var run := Computed(w, n, p);
    PatchKeepsGrantsBut(run.w, n, p.version, run.status, StatusPair(run.status));
    GrantsButBecomesOwned(ReconcileLive(w, n, p).w.c, n, StatusPair(run.status));
  }

  lemma RemovalKeepsGrants(c: Cluster, n: NsName, r: Pair)
    requires GrantsBut(c, n, r)
    ensures GrantsBut(c.(policies := c.policies - {n}, queue := c.queue + {n}), n, r)
  {
    var d := c.(policies := c.policies - {n}, queue := c.queue + {n});
    forall q | Granted(d, q) && q.key in d.keyHome && q != r ensures OwnedByAnother(d, n, q) {
      assert Granted(c, q);
      var m :| m != n && OwnedBy(c, m, q);
      assert OwnedBy(d, m, q);
    }
  }

  /** The grant of r is recorded by n, or is gone. */
  ghost predicate Accounted(c: Cluster, n: NsName, r: Pair) {
    GrantsBut(c, n, r) && (Granted(c, r) ==> OwnedBy(c, n, r))
  }

  lemma ActionKeepsAccounted(c: Cluster, a: Action, n: NsName, r: Pair)
    requires Accounted(c, n, r)
    ensures Accounted(Perform(c, a), n, r)
    ensures !Granted(c, r) ==> !Granted(Perform(c, a), r)
  {
    hide Perform, GrantsBut, OwnedBy;
    ActionKeepsGrantsBut(c, a, n, r);
    ActionShrinksRows(c, a);
    if Granted(c, r) {
      OwnerStays(c, a, n, r);
    }
  }

  lemma {:induction false} ActionsKeepAccounted(c: Cluster, actions: seq<Action>, n: NsName, r: Pair)
    requires Accounted(c, n, r)
    ensures Accounted(PerformAll(c, actions), n, r)
    ensures !Granted(c, r) ==> !Granted(PerformAll(c, actions), r)
    decreases |actions|
  {
    hide Perform, Accounted, Granted;
    if actions != [] {
      ActionKeepsAccounted(c, actions[0], n, r);
      ActionsKeepAccounted(Perform(c, actions[0]), actions[1..], n, r);
    }
  }

  lemma AccountedOnArrival(w: World, n: NsName, r: Pair)
    requires Accounted(w.c, n, r)
    ensures Accounted(Arrive(w), n, r)
    ensures !Granted(w.c, r) ==> !Granted(Arrive(w), r)
  {
    hide Accounted, Granted;
    if w.tape != [] {
      ActionsKeepAccounted(w.c, w.tape[0].actions, n, r);
    }
  }

  /** Once nothing is granted the finalizer may go. */
  lemma DropKeepsGrants(w: World, n: NsName, p: Policy, r: Pair)
    requires Accounted(w.c, n, r) && !Granted(w.c, r)
    ensures GrantsOwned(DropFinalizer(w, n, p).w.c)
  {
    hide GrantsBut, OwnedBy, EnsuredLabels;
    AccountedOnArrival(w, n, r);
    var a := Arrive(w);
    GrantsButBecomesOwned(a, n, r);
    if n in a.policies {
      RemovalKeepsGrants(a, n, r);
      GrantsButBecomesOwned(a.(policies := a.policies - {n}, queue := a.queue + {n}), n, r);
      var written := a.policies[n].(labels := EnsuredLabels(p.labels, p.key, p.bucket), finalizer := false);
      WriteKeepsGrantsBut(a, n, r, written);
      GrantsButBecomesOwned(WithPolicy(a, n, written), n, r);
    }
  }

  lemma RevokeKeepsAccounted(w: World, n: NsName, p: Policy, q: Pair)
    requires Held(w.c, n, p) && OwnPair(w.c, n, p, q) && Accounted(w.c, n, q)
    ensures var revoked := SetCall(w, q, NOTHING);
            && Accounted(revoked.w.c, n, q)
            && (revoked.error.None? || revoked.error.value == NotFound ==> !Granted(revoked.w.c, q))
  {
    hide GrantsBut, Inv;
    AccountedOnArrival(w, n, q);
    HeldOnArrival(w, n, p);
    SetKeepsGrantsBut(w, n, q, NOTHING);
    RevocationAnswer(w, q) by {
      GarageOf(Arrive(w), n, p);
    }
  }

  lemma GarageOf(c: Cluster, n: NsName, p: Policy)
    requires Held(c, n, p)
    ensures GarageInv(c)
  {
  }

  lemma RevocationAnswer(w: World, q: Pair)
    requires GarageInv(Arrive(w))
    ensures var revoked := SetCall(w, q, NOTHING);
            && (revoked.error.None? || revoked.error.value == NotFound ==> !Granted(revoked.w.c, q))
            && (Granted(revoked.w.c, q) ==> Granted(Arrive(w), q))
            && revoked.w.c == Arrive(w).(garage := revoked.w.c.garage)
  {
  }

  lemma FinalizeKeepsGrants(w: World, n: NsName, p: Policy)
    requires Held(w.c, n, p) && p.deleting && OwnPair(w.c, n, p, StatusPair(p.status))
    requires GrantsBut(w.c, n, StatusPair(p.status)) && OwnedBy(w.c, n, StatusPair(p.status))
    ensures GrantsOwned(Finalize(w, n, p).w.c)
  {
    hide GrantsBut, Granted, OwnedBy, Inv, OwnPair, SetCall, DropFinalizer;
    var q := StatusPair(p.status);
    if p.status.accessKeyID != NONE && p.status.bucketID != NONE {
      RevokeKeepsAccounted(w, n, p, q);
      var revoked := SetCall(w, q, NOTHING);
      if revoked.error.None? || revoked.error.value == NotFound {
        DropKeepsGrants(revoked.w, n, p, q);
      } else {
        GrantsButBecomesOwned(revoked.w.c, n, q);
      }
    } else {
      GarageOf(w.c, n, p);
      NoneIsNotGranted(w.c, q);
      DropKeepsGrants(w, n, p, q);
    }
  }

  lemma MetaKeepsGrants(w: World, n: NsName, p: Policy, r: Pair)
    requires Accounted(w.c, n, r) && n in w.c.policies
    ensures GrantsOwned(WriteMeta(w, n, p).w.c)
  {
    hide GrantsBut, EnsuredLabels;
    AccountedOnArrival(w, n, r);
    var a := Arrive(w);
    GrantsButBecomesOwned(a, n, r);
    if n in a.policies {
      var written := a.policies[n].(labels := EnsuredLabels(p.labels, p.key, p.bucket), finalizer := true);
      WriteKeepsGrantsBut(a, n, r, written);
      GrantsButBecomesOwned(WithPolicy(a, n, written), n, r);
    }
  }

  /** A reconcile of n, from the read on, is careful if it gets as far as looking at the dependencies. */
  ghost predicate CarefulReconcile(w: World, n: NsName) {
    var got := GetPolicy(w, n);
    got.r.Ok? && !got.r.value.deleting && MetaInOrder(got.r.value) ==> Careful(got.w, n, got.r.value)
  }

  lemma GrantsOwnedOnArrival(w: World)
    requires w.c.lawful && GrantsOwned(w.c)
    ensures GrantsOwned(Arrive(w))
  {
    if w.tape != [] {
      ActionsKeepGrantsOwned(w.c, w.tape[0].actions);
    }
  }

  lemma {:induction false} ActionsKeepGrantsOwned(c: Cluster, actions: seq<Action>)
    requires c.lawful && GrantsOwned(c)
    ensures GrantsOwned(PerformAll(c, actions))
    decreases |actions|
  {
    hide Perform, GrantsOwned;
    if actions != [] {
      ActionKeepsLaw(c, actions[0]);
      ActionKeepsGrantsOwned(c, actions[0]);
      ActionsKeepGrantsOwned(Perform(c, actions[0]), actions[1..]);
    }
  }

  lemma ReadOwner(c: Cluster, n: NsName)
    requires Inv(c, {n}) && n in c.policies && !(c.policies[n].status.accessKeyID == NONE && c.policies[n].status.bucketID == NONE)
    ensures OwnedBy(c, n, StatusPair(c.policies[n].status))
  {
    assert PolicyInv(c, n, c.policies[n]);
  }

  lemma ReadAccounted(c: Cluster, n: NsName)
    requires Inv(c, {n}) && n in c.policies && GrantsOwned(c)
    ensures Accounted(c, n, StatusPair(c.policies[n].status))
  {
    hide GrantsOwned, GrantsBut, Granted, OwnedBy, PoliciesInv, DependenciesInv, AllTended;
    InvIsLawful(c, {n});
    OwnedMeansBut(c, n, c.policies[n]);
    var s := c.policies[n].status;
    if s.accessKeyID == NONE || s.bucketID == NONE {
      NoneIsNotGranted(c, StatusPair(s));
    } else {
      ReadOwner(c, n);
    }
  }

  lemma ReconcileKeepsGrants(w: World, n: NsName)
    requires Inv(w.c, {n}) && GrantsOwned(w.c) && CarefulReconcile(w, n)
    ensures GrantsOwned(Reconcile(w, n).w.c)
  {
    hide Inv, GrantsOwned, GrantsBut, Granted, Staged, Held, OwnPair, Finalize, WriteMeta, ReconcileLive, Careful, LabelsMatch, MetaInOrder;
    InvOnArrival(w, {n});
    InvIsLawful(w.c, {n});
    GrantsOwnedOnArrival(w);
    var got := GetPolicy(w, n);
    if got.r.Ok? {
      var p := got.r.value;
      ReadAccounted(got.w.c, n);
      if p.deleting {
        JustReadIsHeld(got.w.c, n, p);
        DeletingOwner(got.w.c, n, p);
        FinalizeKeepsGrants(got.w, n, p);
      } else if MetaInOrder(p) {
        JustReadIsStaged(got.w.c, n, p);
        LiveKeepsGrants(got.w, n, p);
      } else {
        MetaKeepsGrants(got.w, n, p, StatusPair(p.status));
      }
    }
  }

  lemma DeletingOwner(c: Cluster, n: NsName, p: Policy)
    requires Held(c, n, p) && c.policies[n] == p
    ensures OwnedBy(c, n, StatusPair(p.status))
  {
  }

  // ---------------------------------------------------------------- every run

  /** Every reconcile in the run is careful. */
  ghost predicate CarefulRun(c: Cluster, events: seq<Event>)
    decreases |events|
  {
    events == [] ||
    (&& (events[0].Work? && events[0].n in c.queue ==>
           CarefulReconcile(World(Taken(c, events[0].n), events[0].tape), events[0].n))
     && CarefulRun(Next(c, events[0]), events[1..]))
  }

  lemma QueueIsIrrelevant(c: Cluster, d: Cluster)
    requires GrantsOwned(c) && d == c.(queue := d.queue, timers := d.timers, inHand := d.inHand)
    ensures GrantsOwned(d)
  {
    forall q | Granted(d, q) && q.key in d.keyHome ensures exists n :: OwnedBy(d, n, q) {
      assert Granted(c, q);
      var m :| OwnedBy(c, m, q);
      assert OwnedBy(d, m, q);
    }
  }

  lemma NextKeepsGrants(c: Cluster, e: Event)
    requires Inv(c, {}) && GrantsOwned(c) && CarefulRun(c, [e])
    ensures GrantsOwned(Next(c, e))
  {
    hide Inv, GrantsOwned, CarefulReconcile, Reconcile;
    match e {
      case Other(a) =>
        InvIsLawful(c, {});
        ActionKeepsGrantsOwned(c, a);
      case Work(n, tape) =>
        if n in c.queue {
          var taken := Taken(c, n);
          TakenFromQueue(c, n);
          QueueIsIrrelevant(c, taken);
          ReconcileKeepsGrants(World(taken, tape), n);
          var d := Worked(c, n, tape).w.c;
          QueueIsIrrelevant(d, Next(c, e));
        }
    }
  }

  /**
   Over every careful run, every permission that an AccessKey's Garage key has on a bucket belongs to
   an existing policy that holds its finalizer and whose status names exactly that key and bucket.
   */
  lemma {:induction false} GrantsAlwaysOwned(c: Cluster, events: seq<Event>)
    requires Inv(c, {}) && GrantsOwned(c) && CarefulRun(c, events)
    ensures GrantsOwned(Run(c, events))
    decreases |events|
  {
    hide Inv, GrantsOwned, CarefulReconcile, Next;
    if events != [] {
      assert CarefulRun(c, [events[0]]) by {
        assert [events[0]][1..] == [];
      }
      NextKeepsGrants(c, events[0]);
      NextKeepsInv(c, events[0]);
      GrantsAlwaysOwned(Next(c, events[0]), events[1..]);
    }
  }
}
