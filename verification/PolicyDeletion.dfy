/** A deleted AccessPolicy goes, and its permissions with it: exactly when, for any tape, and always when left undisturbed. */
module PolicyDeletion {
  import opened Common
  import opened Permissions
  import opened PolicyWorld
  import opened PolicySpec
  import opened PolicyProofs
  import opened PolicyConvergence
  import PolicyTheorems

  // ---------------------------------------------------------------- nobody else removes it

  /** n is being deleted and waits for its finalizer. */
  predicate Waits(c: Cluster, n: NsName) {
    n in c.policies && c.policies[n].deleting && c.policies[n].finalizer
  }

  lemma ActionKeepsWaiting(c: Cluster, a: Action, n: NsName)
    requires Waits(c, n)
    ensures Waits(Perform(c, a), n)
  {
    hide Permitted, Labelled, WithoutRows;
  }

  lemma {:induction false} ActionsKeepWaiting(c: Cluster, actions: seq<Action>, n: NsName)
    requires Waits(c, n)
    ensures Waits(PerformAll(c, actions), n)
    decreases |actions|
  {
    hide Perform, Waits;
    if actions != [] {
      ActionKeepsWaiting(c, actions[0], n);
      ActionsKeepWaiting(Perform(c, actions[0]), actions[1..], n);
    }
  }

  lemma ArrivalKeepsWaiting(w: World, n: NsName)
    requires Waits(w.c, n)
    ensures Waits(Arrive(w), n)
  {
    hide Perform, Waits;
    if w.tape != [] {
      ActionsKeepWaiting(w.c, w.tape[0].actions, n);
    }
  }

  lemma SetKeepsWaiting(w: World, n: NsName, q: Pair, target: Permissions)
    requires Waits(w.c, n)
    ensures Waits(SetCall(w, q, target).w.c, n)
  {
    hide Arrive, Rest, AdminReply;
    ArrivalKeepsWaiting(w, n);
    var denied := DenyCall(w, q, Complement(target));
    ArrivalKeepsWaiting(denied.w, n);
  }

  // ---------------------------------------------------------------- exactly when it goes

  /** The pair of which p has recorded permissions. */
  function RecordedPair(p: Policy): Pair {
    Pair(p.status.accessKeyID, p.status.bucketID)
  }

  /** p has recorded a key and a bucket. */
  predicate HasPair(p: Policy) {
    p.status.accessKeyID != NONE && p.status.bucketID != NONE
  }

  /** From w to v the controller has learned that the recorded pair has no permissions: revoked, or one of the two is gone. */
  predicate IsRevoked(w: World, p: Policy, v: World) {
    if !HasPair(p) then v == w
    else
      var s := SetCall(w, RecordedPair(p), NOTHING);
      v == s.w && (s.error == None || s.error == Some(NotFound))
  }

  /** The request to drop the finalizer finds the version that was read, and takes effect. */
  predicate Lands(v: World, n: NsName, p: Policy) {
    n in Arrive(v).policies && Arrive(v).policies[n].version == p.version && !ApiReply(v).Refused?
  }

  /** An update that lands removes the policy; any other leaves it there. */
  lemma DropMeaning(v: World, n: NsName, p: Policy, labels: Labels)
    requires Waits(v.c, n)
    ensures var u := UpdateMeta(v, n, p.version, labels, false);
            && (n !in u.w.c.policies <==> Lands(v, n, p))
            && (u.r.Ok? <==> Lands(v, n, p) && ApiReply(v).Delivered?)
  {
    hide Arrive, Rest, ApiReply;
    ArrivalKeepsWaiting(v, n);
  }

  lemma ThenDropped(w: World, n: NsName, p: Policy, v: World)
    requires GetPolicy(w, n).r == Ok(p) && p.deleting && p.finalizer && IsRevoked(GetPolicy(w, n).w, p, v)
    ensures var u := UpdateMeta(v, n, p.version, EnsuredLabels(p.labels, p.key, p.bucket), false);
            Reconcile(w, n) == End(u.w, if u.r.Err? then Failed(u.r.error) else Done)
  {
    hide GetPolicy, SetCall, UpdateMeta, EnsuredLabels;
  }

  /** Permissions that may still be there end the reconcile with Garage's error. */
  lemma OtherwiseStays(w: World, n: NsName, p: Policy)
    requires GetPolicy(w, n).r == Ok(p) && p.deleting && p.finalizer
    requires var s := SetCall(GetPolicy(w, n).w, RecordedPair(p), NOTHING); HasPair(p) && s.error.Some? && s.error.value != NotFound
    ensures var s := SetCall(GetPolicy(w, n).w, RecordedPair(p), NOTHING);
            Reconcile(w, n) == End(s.w, Failed(s.error.value))
  {
    hide GetPolicy, SetCall;
  }

  lemma ReadWaits(w: World, n: NsName)
    requires GetPolicy(w, n).r.Ok? && GetPolicy(w, n).r.value.deleting && GetPolicy(w, n).r.value.finalizer
    ensures Waits(GetPolicy(w, n).w.c, n)
  {
  }

  /**
   For every tape: the reconcile of a policy that is being deleted removes it exactly when it has no pair on
   record, or Garage has answered that the pair has no permissions any more, and the update then lands at the
   version that was read. It is done exactly when the answer to that update arrives too, and asks for a retry
   in every other case.
   */
  lemma GoesExactlyWhen(w: World, n: NsName, p: Policy)
    requires GetPolicy(w, n).r == Ok(p) && p.deleting && p.finalizer
    ensures var w1 := GetPolicy(w, n).w;
            var end := Reconcile(w, n);
            && (n !in end.w.c.policies <==> exists v :: IsRevoked(w1, p, v) && Lands(v, n, p))
            && (end.outcome == Done <==> exists v :: IsRevoked(w1, p, v) && Lands(v, n, p) && ApiReply(v).Delivered?)
            && (end.outcome != Done ==> Retries(end.outcome))
  {
    hide GetPolicy, Reconcile, SetCall, Lands, Waits, UpdateMeta, ApiReply, EnsuredLabels;
    ReadWaits(w, n);
    var w1 := GetPolicy(w, n).w;
    SetKeepsWaiting(w1, n, RecordedPair(p), NOTHING);
    var v := if HasPair(p) then SetCall(w1, RecordedPair(p), NOTHING).w else w1;
    if IsRevoked(w1, p, v) {
      ThenDropped(w, n, p, v);
      DropMeaning(v, n, p, EnsuredLabels(p.labels, p.key, p.bucket));
    } else {
      OtherwiseStays(w, n, p);
      assert n in Reconcile(w, n).w.c.policies by {
        StillThere(v.c, n);
      }
    }
  }

  lemma StillThere(c: Cluster, n: NsName)
    requires Waits(c, n)
    ensures n in c.policies
  {
  }

  // ---------------------------------------------------------------- undisturbed

  /** The pair q has lost its permissions, all others keep theirs. */
  ghost predicate OnlyLost(g: Garage, h: Garage, q: Pair) {
    && h.keys == g.keys && h.buckets == g.buckets && PermissionsOf(h, q) == NOTHING
    && forall r | r != q :: PermissionsOf(h, r) == PermissionsOf(g, r)
  }

  /** Revoking, whether or not key and bucket are still there. */
  lemma QuietRevocation(w: World, k: nat, q: Pair)
    requires QuietFor(w, k + 1) && Consistent(w.c.garage)
    ensures var s := SetCall(w, q, NOTHING);
            && (s.error == None || s.error == Some(NotFound)) && s.w.tape == w.tape[1..] && QuietFor(s.w, k)
            && s.w.c == w.c.(garage := s.w.c.garage) && OnlyLost(w.c.garage, s.w.c.garage, q)
  {
    hide QuietFor, Arrive, Rest, AdminReply;
    QuietCall(w, k, SetCall(w, q, NOTHING).w.c);
  }

  lemma QuietlyRevoked(w: World, p: Policy) returns (v: World)
    requires QuietFor(w, 3) && GarageInv(w.c)
    ensures IsRevoked(w, p, v) && QuietFor(v, 2)
    ensures v.c == w.c.(garage := v.c.garage) && OnlyLost(w.c.garage, v.c.garage, RecordedPair(p))
  {
    hide QuietFor, SetCall;
    if HasPair(p) {
      QuietRevocation(w, 2, RecordedPair(p));
      v := SetCall(w, RecordedPair(p), NOTHING).w;
    } else {
      v := w;
      QuietForLess(w, 2);
    }
  }

  lemma QuietDrop(v: World, n: NsName, p: Policy, labels: Labels)
    requires QuietFor(v, 2) && Waits(v.c, n) && v.c.policies[n].version == p.version
    ensures var u := UpdateMeta(v, n, p.version, labels, false);
            u.r == Ok(()) && u.w.c == v.c.(policies := v.c.policies - {n}, queue := v.c.queue + {n}) && u.w.tape != []
  {
    hide QuietFor, Arrive, Rest, ApiReply;
    var after := v.c.(policies := v.c.policies - {n}, queue := v.c.queue + {n});
    QuietCall(v, 1, after);
    QuietIsThere(World(after, Rest(v)), 0);
  }

  lemma QuietIsThere(w: World, k: nat)
    requires QuietFor(w, k + 1)
    ensures w.tape != []
  {
  }

  /** An undisturbed reconcile of a policy that is being deleted. */
  lemma QuietDeletion(c: Cluster, n: NsName, tape: seq<Fate>)
    requires Waits(c, n) && GarageInv(c) && QuietFor(World(c, tape), 4)
    ensures var end := Reconcile(World(c, tape), n);
            var d := end.w.c;
            && end.outcome == Done && end.w.tape != []
            && d == c.(policies := c.policies - {n}, queue := c.queue + {n}, garage := d.garage)
            && OnlyLost(c.garage, d.garage, RecordedPair(c.policies[n]))
  {
    hide QuietFor, GarageInv, Reconcile, IsRevoked, OnlyLost, UpdateMeta, EnsuredLabels, Arrive, Rest, ApiReply;
    var p := c.policies[n];
    var w := World(c, tape);
    QuietCall(w, 3, c);
    var w1 := World(c, Rest(w));
    assert GetPolicy(w, n) == Call(w1, Ok(p));
    var v := QuietlyRevoked(w1, p);
    ThenDropped(w, n, p, v);
    QuietDrop(v, n, p, EnsuredLabels(p.labels, p.key, p.bucket));
  }

  /** The cluster once the timer of n, if it waits on one, has fired. */
  function Due(c: Cluster, n: NsName): Cluster {
    if n in c.queue then c else Perform(c, TimerFires(n))
  }

  /**
   In every reachable state a policy that is being deleted is in the queue or on a timer, and the reconcile
   that follows, if undisturbed, removes it together with the permissions of the pair it has recorded,
   also when its key or bucket is gone from Garage; no other pair and no other policy is touched.
   */
  lemma DeletedPolicyGoes(start: Cluster, events: seq<Event>, n: NsName, tape: seq<Fate>)
    requires Initial(start) && n in Run(start, events).policies && Run(start, events).policies[n].deleting
    requires QuietFor(World(Due(Run(start, events), n), tape), 4)
    ensures var c := Due(Run(start, events), n);
            var d := Next(c, Work(n, tape));
            && n in c.queue && c.policies == Run(start, events).policies && c.garage == Run(start, events).garage
            && Worked(c, n, tape).outcome == Done
            && d.policies == c.policies - {n} && d.timers == c.timers
            && OnlyLost(c.garage, d.garage, Pair(c.policies[n].status.accessKeyID, c.policies[n].status.bucketID))
            && d.keys == c.keys && d.buckets == c.buckets
  {
    InvAlways(start, events);
    PolicyTheorems.NoStrandedPolicy(start, events, n);
    hide Run, QuietFor, Reconcile, OnlyLost;
    var c := Due(Run(start, events), n);
    DueIsReady(Run(start, events), n);
    SameTape(c, Taken(c, n), tape);
    QuietDeletion(Taken(c, n), n, tape);
  }

  lemma SameTape(c: Cluster, d: Cluster, tape: seq<Fate>)
    requires QuietFor(World(c, tape), 4)
    ensures QuietFor(World(d, tape), 4)
  {
  }

  lemma DueIsReady(c: Cluster, n: NsName)
    requires Inv(c, {}) && n in c.policies && c.policies[n].deleting && (n in c.queue || n in c.timers)
    ensures var d := Due(c, n);
            && n in d.queue && d == c.(queue := d.queue, timers := d.timers) && Waits(d, n) && GarageInv(Taken(d, n))
  {
    hide AllApart, AllTended;
    assert PolicyInv(c, n, c.policies[n]);
  }
}
