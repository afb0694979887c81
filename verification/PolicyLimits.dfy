/**
 Where the AccessPolicy controller falls short of stronger promises: exactly when, and on concrete
 runs.
 */
module PolicyLimits {
  import opened Common
  import opened Conditions
  import opened Permissions
  import opened PolicyWorld
  import opened PolicySpec
  import opened PolicyProofs
  import opened PolicyGrants
  import opened PolicyConvergence
  import PolicyTheorems

  // ---------------------------------------------------------------- when a grant is left behind

  /** The status write of a reconcile that read version finds the policy as it was, and takes effect. */
  predicate Landed(w: World, n: NsName, version: int) {
    n in Arrive(w).policies && Arrive(w).policies[n].version == version && !ApiReply(w).Refused?
  }

  /** The cluster in which the status is written, if it is. */
  function BeforeWrite(run: PolicyRun, p: Policy): Cluster {
    if run.status == p.status then run.w.c else Arrive(run.w)
  }

  /** What the end of a live reconcile leaves in place: the policy, its pair, and the recorded status. */
  lemma WriteOutcome(w: World, n: NsName, p: Policy)
    requires Achieved(Computed(w, n, p).w.c, n, p, Computed(w, n, p).status, Computed(w, n, p).errors)
    ensures var run := Computed(w, n, p);
            var c := ReconcileLive(w, n, p).w.c;
            var q := StatusPair(run.status);
            && n in c.policies && c.policies[n].finalizer
            && c.policies[n].key == p.key && c.policies[n].bucket == p.bucket
            && c.policies[n].status == (if run.status != p.status && Landed(run.w, n, p.version) then run.status else p.status)
            && Home(c.keyHome, q.key, KeyOf(n, p))
            && q.bucket in UsedBuckets(c, n, c.policies[n]) + {NONE}
            && c.garage == BeforeWrite(run, p).garage && c.keyHome == BeforeWrite(run, p).keyHome
  {
    hide Inv, Computed, Classified, Settled, Arrive, ApiReply;
    var run := Computed(w, n, p);
    HeldOnArrival(run.w, n, p);
    OwnPairStays(run.w.c, Arrive(run.w), n, p, StatusPair(run.status));
  }

  lemma OnlyOwner(c: Cluster, n: NsName, q: Pair, m: NsName)
    requires Inv(c, {n}) && n in c.policies && Home(c.keyHome, q.key, KeyOf(n, c.policies[n]))
    requires q.bucket in UsedBuckets(c, n, c.policies[n]) + {NONE} && Granted(c, q) && OwnedBy(c, m, q)
    ensures m == n
  {
    assert q.key != NONE && q.bucket != NONE;
    assert PolicyInv(c, m, c.policies[m]);
    assert q.bucket in UsedBuckets(c, m, c.policies[m]);
  }

  lemma EitherWay(c: Cluster, n: NsName, q: Pair)
    requires Inv(c, {n}) && GrantsBut(c, n, q) && n in c.policies && c.policies[n].finalizer
    requires Home(c.keyHome, q.key, KeyOf(n, c.policies[n])) && q.bucket in UsedBuckets(c, n, c.policies[n]) + {NONE}
    ensures GrantsOwned(c) <==> (Granted(c, q) && q.key in c.keyHome ==> StatusPair(c.policies[n].status) == q)
  {
    hide GrantsBut, Granted, Inv, UsedBuckets;
    if Granted(c, q) && q.key in c.keyHome {
      if GrantsOwned(c) {
        var m :| OwnedBy(c, m, q);
        OnlyOwner(c, n, q, m);
      }
      if StatusPair(c.policies[n].status) == q {
        GrantsButBecomesOwned(c, n, q);
      }
    } else {
      GrantsButBecomesOwned(c, n, q);
    }
  }

  /**
   A live reconcile whose revocations reach Garage leaves a grant that no policy records exactly when its
   pair has permissions as the status is about to be written, the old status does not name that pair, and
   the write does not land: the policy has changed meanwhile, or the API server refuses.
   */
  lemma LeavesGrantExactlyWhen(w: World, n: NsName, p: Policy)
    requires Staged(w.c, n, p, Initialized(p.status), None, None) && LabelsMatch(p)
    requires GrantsBut(w.c, n, StatusPair(p.status)) && Revoking(w, n, p)
    ensures var run := Computed(w, n, p);
            var q := StatusPair(run.status);
            var c := BeforeWrite(run, p);
            GrantsOwned(ReconcileLive(w, n, p).w.c) <==>
            (Granted(c, q) && q.key in c.keyHome ==>
               StatusPair(p.status) == q || (run.status != p.status && Landed(run.w, n, p.version)))
  {
    hide GrantsBut, GrantsOwned, OwnedBy, Staged, Initialized, Computed, Revoking, PatchStatus, Held, OwnPair, Inv, LabelsMatch, Classified,
      Achieved, UsedBuckets, Landed, BeforeWrite;
    ComputedMeaning(w, n, p);
    ComputedKeepsGrants(w, n, p);
    ReconcileLiveMeaning(w, n, p);
    var run := Computed(w, n, p);
    var q := StatusPair(run.status);
    WriteOutcome(w, n, p);
    PatchKeepsGrantsBut(run.w, n, p.version, run.status, q);
    EitherWay(ReconcileLive(w, n, p).w.c, n, q);
  }

  // ---------------------------------------------------------------- when the finalizer leaves a grant

  /** Every grant but r is recorded by some policy. */
  ghost predicate OwnedExcept(c: Cluster, r: Pair) {
    c.lawful && forall q | Granted(c, q) && q.key in c.keyHome && q != r :: exists m :: OwnedBy(c, m, q)
  }

  /** Only n, if anybody, records r. */
  ghost predicate NobodyElse(c: Cluster, n: NsName, r: Pair) {
    r.key != NONE && !OwnedByAnother(c, n, r)
  }

  lemma ActionKeepsExcept(c: Cluster, a: Action, r: Pair)
    requires OwnedExcept(c, r)
    ensures OwnedExcept(Perform(c, a), r)
  {
    hide Perform, Granted, OwnedBy;
    ActionKeepsLaw(c, a);
    forall q | Granted(Perform(c, a), q) && q.key in Perform(c, a).keyHome && q != r ensures exists m :: OwnedBy(Perform(c, a), m, q) {
      NewHomeIsBare(c, a, q);
      var m :| OwnedBy(c, m, q);
      OwnerStays(c, a, m, q);
    }
  }

  lemma NewOwnersAreOld(c: Cluster, a: Action, m: NsName, r: Pair)
    requires OwnedBy(Perform(c, a), m, r) && r.key != NONE
    ensures OwnedBy(c, m, r)
  {
    hide Permitted, Labelled, WithoutRows;
  }

  lemma ActionKeepsNobodyElse(c: Cluster, a: Action, n: NsName, r: Pair)
    requires NobodyElse(c, n, r)
    ensures NobodyElse(Perform(c, a), n, r)
  {
    hide Perform, OwnedBy;
    if m :| m != n && OwnedBy(Perform(c, a), m, r) {
      NewOwnersAreOld(c, a, m, r);
    }
  }

  lemma {:induction false} ActionsKeepExcept(c: Cluster, actions: seq<Action>, n: NsName, r: Pair, q: Pair)
    requires OwnedExcept(c, r) && NobodyElse(c, n, r)
    ensures OwnedExcept(PerformAll(c, actions), r) && NobodyElse(PerformAll(c, actions), n, r)
    ensures !Granted(c, q) ==> !Granted(PerformAll(c, actions), q)
    decreases |actions|
  {
    hide Perform, OwnedExcept, NobodyElse;
    if actions != [] {
      ActionKeepsExcept(c, actions[0], r);
      ActionKeepsNobodyElse(c, actions[0], n, r);
      ActionShrinksRows(c, actions[0]);
      ActionsKeepExcept(Perform(c, actions[0]), actions[1..], n, r, q);
    }
  }

  lemma ExceptOnArrival(w: World, n: NsName, r: Pair, q: Pair)
    requires OwnedExcept(w.c, r) && NobodyElse(w.c, n, r)
    ensures OwnedExcept(Arrive(w), r) && NobodyElse(Arrive(w), n, r)
    ensures !Granted(w.c, q) ==> !Granted(Arrive(w), q)
  {
    hide OwnedExcept, NobodyElse, Granted;
    if w.tape != [] {
      ActionsKeepExcept(w.c, w.tape[0].actions, n, r, q);
    }
  }

  /** The world in which the finalizer is dropped, if the revocation before it succeeds. */
  function DropWorld(w: World, p: Policy): World {
    if p.status.accessKeyID != NONE && p.status.bucketID != NONE then SetCall(w, StatusPair(p.status), NOTHING).w else w
  }

  lemma RevocationKeepsExcept(w: World, n: NsName, p: Policy, r: Pair)
    requires Held(w.c, n, p) && OwnedExcept(w.c, r) && NobodyElse(w.c, n, r)
    ensures var d := DropWorld(w, p).c;
            && OwnedExcept(d, r) && NobodyElse(d, n, r)
            && (n !in Finalize(w, n, p).w.c.policies ==> !Granted(d, StatusPair(p.status)))
  {
    hide Inv, OwnedExcept, NobodyElse, Granted, DropFinalizer, SetCall;
    var q := StatusPair(p.status);
    if p.status.accessKeyID != NONE && p.status.bucketID != NONE {
      ExceptOnArrival(w, n, r, q);
      HeldOnArrival(w, n, p);
      GarageOf(Arrive(w), n, p);
      RevocationAnswer(w, q);
      RevocationShrinks(w, q);
      FewerRows(Arrive(w), SetCall(w, q, NOTHING).w.c, n, r);
    } else {
      GarageOf(w.c, n, p);
      NoneIsNotGranted(w.c, q);
    }
  }

  lemma RevocationShrinks(w: World, q: Pair)
    ensures forall x :: Granted(SetCall(w, q, NOTHING).w.c, x) ==> Granted(Arrive(w), x)
  {
  }

  lemma FewerRows(c: Cluster, d: Cluster, n: NsName, r: Pair)
    requires d == c.(garage := d.garage) && OwnedExcept(c, r) && NobodyElse(c, n, r)
    requires forall x :: Granted(d, x) ==> Granted(c, x)
    ensures OwnedExcept(d, r) && NobodyElse(d, n, r)
  {
    forall x | Granted(d, x) && x.key in d.keyHome && x != r ensures exists m :: OwnedBy(d, m, x) {
      assert Granted(c, x);
      var m :| OwnedBy(c, m, x);
      assert OwnedBy(d, m, x);
    }
    if m :| m != n && OwnedBy(d, m, r) {
      assert OwnedBy(c, m, r);
    }
  }

  /** The removal of n, whose recorded pair has no permissions any more. */
  lemma RemovalLeaves(c: Cluster, n: NsName, q: Pair, r: Pair)
    requires OwnedExcept(c, r) && NobodyElse(c, n, r) && n in c.policies && StatusPair(c.policies[n].status) == q && !Granted(c, q)
    ensures var d := c.(policies := c.policies - {n}, queue := c.queue + {n});
            GrantsOwned(d) <==> !(Granted(c, r) && r.key in c.keyHome)
  {
    hide Granted;
    var d := c.(policies := c.policies - {n}, queue := c.queue + {n});
    SameGrants(c, d);
    assert forall m :: OwnedBy(d, m, r) ==> m != n && OwnedBy(c, m, r);
    forall x | Granted(d, x) && x.key in d.keyHome && x != r ensures exists m :: OwnedBy(d, m, x) {
      var m :| OwnedBy(c, m, x);
      assert OwnedBy(d, m, x);
    }
  }

  lemma SameGrants(c: Cluster, d: Cluster)
    requires d.garage == c.garage
    ensures forall q :: Granted(d, q) <==> Granted(c, q)
  {
  }

  /**
   A finalizer that is dropped leaves a grant, r being the one that its controller made last, exactly when
   the recorded pair is not r while r still has permissions: only the recorded pair is revoked.
   */
  lemma FinalizerLeavesGrantExactlyWhen(w: World, n: NsName, p: Policy, r: Pair)
    requires Held(w.c, n, p) && p.deleting && OwnedExcept(w.c, r) && NobodyElse(w.c, n, r)
    requires n !in Finalize(w, n, p).w.c.policies
    ensures var a := Arrive(DropWorld(w, p));
            GrantsOwned(Finalize(w, n, p).w.c) <==>
            (Granted(a, r) && r.key in a.keyHome ==> StatusPair(p.status) == r)
  {
    hide Inv, OwnedExcept, NobodyElse, Granted, GrantsOwned, SetCall, Arrive, UpdateMeta, EnsuredLabels, OwnPair;
    var q := StatusPair(p.status);
    DropHeld(w, n, p);
    RevocationKeepsExcept(w, n, p, r);
    var drop := DropWorld(w, p);
    ExceptOnArrival(drop, n, r, q);
    HeldOnArrival(drop, n, p);
    DroppedWorld(w, n, p);
    RemovalLeaves(Arrive(drop), n, q, r);
  }

  lemma DropHeld(w: World, n: NsName, p: Policy)
    requires Held(w.c, n, p)
    ensures Held(DropWorld(w, p).c, n, p)
  {
    hide Inv, SetCall;
    JustRecordedIsOwn(w.c, n, p);
    SetMeaning(w, n, p, StatusPair(p.status), NOTHING);
  }

  lemma JustRecordedIsOwn(c: Cluster, n: NsName, p: Policy)
    requires Held(c, n, p)
    ensures OwnPair(c, n, p, StatusPair(p.status))
  {
    assert PolicyInv(c, n, c.policies[n]);
  }

  /** A policy that is gone in the end went with its finalizer. */
  lemma DroppedWorld(w: World, n: NsName, p: Policy)
    requires Held(DropWorld(w, p).c, n, p) && Held(Arrive(DropWorld(w, p)), n, p) && n !in Finalize(w, n, p).w.c.policies
    requires Held(w.c, n, p)
    ensures var a := Arrive(DropWorld(w, p));
            Finalize(w, n, p).w.c == a.(policies := a.policies - {n}, queue := a.queue + {n})
  {
    hide Inv, SetCall, Arrive, EnsuredLabels;
  }

  // ---------------------------------------------------------------- concrete runs

  const NAME := NsName(1, 2)
  const KEY := NsName(1, 3)
  const BUCKET := NsName(1, 4)
  const PAIR := Pair(13, 14)
  const READ := Permissions(false, true, false)
  const LABELS: Labels := map[KeyLabel := 3, BucketLabel := 4]

  function PolicyWith(permissions: Permissions, generation: int, status: PolicyStatus): Policy {
    Policy(3, 4, permissions, generation, LABELS, true, false, 1, status)
  }

  /** One queued policy whose key and bucket are ready. */
  function Start(p: Policy, rows: map<Pair, Permissions>): Cluster {
    Cluster(map[NAME := p], map[KEY := Dependency(13, true, false)], map[BUCKET := Dependency(14, true, false)],
            Garage({13}, {14}, rows), {NAME}, {}, map[13 := KEY], None, 2, true)
  }

  /** These clusters satisfy the invariant of reachable states. */
  lemma StartIsSound(permissions: Permissions, generation: int, status: PolicyStatus, rows: map<Pair, Permissions>)
    requires generation >= 1 && status.observedGeneration <= generation && StatusPair(status) in {PAIR, Pair(NONE, NONE)}
    requires rows.Keys <= {PAIR}
    ensures Inv(Start(PolicyWith(permissions, generation, status), rows), {})
  {
  }

  const DELETED := Fate([DeletePolicy(NAME)], Delivered, Delivered)

  const OFFERED := PolicyWith(READ, 1, EMPTY_STATUS)

  /** What the first reconcile of the run below leaves: a policy being deleted, and its permissions. */
  ghost predicate Abandoned(c: Cluster) {
    && c.policies == map[NAME := OFFERED.(deleting := true, generation := 2, version := 2)]
    && c.queue == {NAME} && PermissionsOf(c.garage, PAIR) == READ
  }

  lemma OfferedIsFaced(c: Cluster)
    requires c == Taken(Start(OFFERED, map[]), NAME)
    ensures Facing(c, NAME, OFFERED, Dependency(13, true, false), Dependency(14, true, false))
  {
    assert EnsuredLabels(LABELS, 3, 4) == LABELS;
  }

  lemma DeletionMeetsWrite(w: World, s: PolicyStatus)
    requires w.tape == [DELETED, QUIET] && OnlyGranted(Taken(Start(OFFERED, map[]), NAME), w.c, PAIR, READ)
    ensures var patch := PatchStatus(w, NAME, OFFERED.version, s);
            patch.r == Err(Conflict) && patch.w.tape == [QUIET] && Abandoned(patch.w.c)
  {
    var a := Perform(w.c, DeletePolicy(NAME));
    assert w.tape[0].actions[1..] == [];
    assert PerformAll(a, []) == a;
    assert Arrive(w) == a;
    assert map[NAME := OFFERED][NAME := a.policies[NAME]] == map[NAME := a.policies[NAME]];
  }

  lemma GrantedThenDeleted(tape: seq<Fate>)
    requires tape == [QUIET, QUIET, QUIET, QUIET, QUIET, DELETED, QUIET]
    ensures var end := Worked(Start(OFFERED, map[]), NAME, tape);
            end.outcome == Done && end.w.tape == [QUIET] && Abandoned(end.w.c)
  {
    hide Facing, Computed, MetaInOrder, PatchStatus, OnlyGranted, Abandoned, Arrive, Rest, ApiReply, Holds, AssignedStatus, Classified;
    var c := Taken(Start(OFFERED, map[]), NAME);
    var k, b := Dependency(13, true, false), Dependency(14, true, false);
    var w0 := World(c, tape);
    QuietCall(w0, 4, c);
    var w1 := World(c, tape[1..]);
    OfferedIsFaced(c);
    FacingIsThere(c, NAME, OFFERED, k, b);
    assert GetPolicy(w0, NAME) == Call(w1, Ok(OFFERED));
    QuietComputed(w1, 0, NAME, OFFERED, k, b);
    AssignedMeaning(OFFERED, k, b);
    NoErrorsAreDone();
    var run := Computed(w1, NAME, OFFERED);
    assert run.w.tape == [DELETED, QUIET];
    DeletionMeetsWrite(run.w, run.status);
    assert run.status != OFFERED.status;
  }

  lemma FinalizerForgets(c: Cluster, tape: seq<Fate>)
    requires Abandoned(c) && tape == [QUIET, QUIET, QUIET]
    ensures var end := Worked(c, NAME, tape);
            end.w.c.policies == map[] && end.w.c.garage == c.garage && end.outcome == Done && end.w.tape == [QUIET]
  {
    hide EnsuredLabels;
    var taken := Taken(c, NAME);
    var w0 := World(taken, tape);
    var w1 := World(taken, [QUIET, QUIET]);
    assert tape[1..] == w1.tape && w1.tape[1..] == [QUIET];
    assert Arrive(w0) == taken && Arrive(w1) == taken;
    assert c.policies - {NAME} == map[];
  }

  /**
   The policy is deleted after its permissions were granted and before its status is written. The write
   meets a conflict, and the next reconcile drops the finalizer without revoking anything: the policy
   is gone and its permissions stay.
   */
  lemma GrantOutlivesPolicy()
    ensures var c := Start(OFFERED, map[]);
            var d := Run(c, [Work(NAME, [QUIET, QUIET, QUIET, QUIET, QUIET, DELETED, QUIET]), Work(NAME, [QUIET, QUIET, QUIET])]);
            Inv(c, {}) && d.policies == map[] && PermissionsOf(d.garage, PAIR) == READ
  {
    hide Inv, Reconcile;
    StartIsSound(READ, 1, EMPTY_STATUS, map[]);
    var c := Start(OFFERED, map[]);
    var first := Work(NAME, [QUIET, QUIET, QUIET, QUIET, QUIET, DELETED, QUIET]);
    var second := Work(NAME, [QUIET, QUIET, QUIET]);
    assert [first, second][1..] == [second] && [second][1..] == [];
    GrantedThenDeleted(first.tape);
    var d := Next(c, first);
    FinalizerForgets(d, second.tape);
    assert Run(c, [first, second]) == Run(d, [second]) == Next(d, second);
  }

  const WRITE := Permissions(false, false, true)
  const WAS_READY := AssignedStatus(PolicyWith(WRITE, 1, EMPTY_STATUS), Dependency(13, true, false), Dependency(14, true, false))
  const EDITED := PolicyWith(READ, 2, WAS_READY)
  const REFUSED := Fate([], Refused(Unreachable), Delivered)

  lemma RefusedStages(w: World, n: NsName, p: Policy, s: PolicyStatus)
    requires w.tape != [] && w.tape[0] == REFUSED
    ensures BucketStage(w, n, p, s) == Check(World(w.c, w.tape[1..]), s, Err(Transient))
    ensures KeyStage(w, n, p, s) == Check(World(w.c, w.tape[1..]), s, Err(Transient))
  {
    hide SetCondition, SetCall;
  }

  lemma StatusTakenOver(w: World)
    requires w.tape == [REFUSED, REFUSED, QUIET, QUIET]
    ensures var run := Computed(w, NAME, EDITED);
            && run.w == World(w.c, [QUIET, QUIET]) && run.errors == [Transient, Transient]
            && Holds(run.status.conditions, Ready, True) && run.status.observedGeneration == 2 && StatusPair(run.status) == PAIR
  {
    hide BucketStage, KeyStage, Find, SetCondition, InitAll, AssignedStatus, Aggregated, SetCall, AssignStage;
    var s := Initialized(WAS_READY);
    AssignedMeaning(PolicyWith(WRITE, 1, EMPTY_STATUS), Dependency(13, true, false), Dependency(14, true, false));
    RefusedStages(w, NAME, EDITED, s);
    var w1 := World(w.c, [REFUSED, QUIET, QUIET]);
    assert w.tape[1..] == w1.tape && w1.tape[1..] == [QUIET, QUIET];
    RefusedStages(w1, NAME, EDITED, s);
    PolicyTheorems.ReadyMeaning(w, NAME, EDITED);
    AggregatedMeaning(s, 2);
  }

  /**
   The permissions of a policy that was Ready are edited, and the API server fails to answer for its
   key and its bucket. The controller records Ready for the new generation although Garage still
   grants what the old one asked for. It retries, so the status is wrong only for a while.
   */
  lemma StaleReadyRestamped()
    ensures var c := Start(EDITED, map[PAIR := WRITE]);
            var d := Next(c, Work(NAME, [QUIET, REFUSED, REFUSED, QUIET, QUIET]));
            && Inv(c, {}) && NAME in d.policies
            && Holds(d.policies[NAME].status.conditions, Ready, True)
            && d.policies[NAME].status.observedGeneration == d.policies[NAME].generation
            && PermissionsOf(d.garage, PAIR) == WRITE != d.policies[NAME].permissions == READ
            && NAME in d.timers
  {
    hide Inv, Computed, AssignedStatus, Find, EnsuredLabels;
    EditedIsSound();
    var c := Taken(Start(EDITED, map[PAIR := WRITE]), NAME);
    var tape := [QUIET, REFUSED, REFUSED, QUIET, QUIET];
    var w0 := World(c, tape);
    var w1 := World(c, [REFUSED, REFUSED, QUIET, QUIET]);
    assert tape[1..] == w1.tape;
    assert GetPolicy(w0, NAME) == Call(w1, Ok(EDITED));
    StatusTakenOver(w1);
    var run := Computed(w1, NAME, EDITED);
    QuietPatch(run.w, NAME, EDITED, run.status);
  }

  lemma EditedIsSound()
    ensures Inv(Start(EDITED, map[PAIR := WRITE]), {}) && MetaInOrder(EDITED) && WAS_READY.observedGeneration == 1
    ensures Classified([Transient, Transient]) == Failed(Transient)
  {
    AssignedMeaning(PolicyWith(WRITE, 1, EMPTY_STATUS), Dependency(13, true, false), Dependency(14, true, false));
    hide AssignedStatus, Inv;
    StartIsSound(READ, 2, WAS_READY, map[PAIR := WRITE]);
    assert EnsuredLabels(LABELS, 3, 4) == LABELS;
    assert [Transient, Transient][1..] == [Transient] && [Transient][1..] == [];
  }
}
