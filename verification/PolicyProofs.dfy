/**
 What holds in every reachable state of the AccessPolicy protocol: no live policy is left without
 attention, whatever fails, crashes or changes between any two calls.
 */
module PolicyProofs {
  import opened Common
  import opened Conditions
  import opened Permissions
  import opened PolicyWorld
  import opened PolicySpec
  import PolicyLabels

  // ---------------------------------------------------------------- the invariant

  ghost predicate Home(home: map<Id, NsName>, id: Id, n: NsName) {
    id != NONE ==> id in home && home[id] == n
  }

  ghost predicate PolicyInv(c: Cluster, n: NsName, p: Policy) {
    && p.version < c.clock && p.generation >= 1 && p.status.observedGeneration <= p.generation
    && p.key != NONE && p.bucket != NONE
    && Home(c.keyHome, p.status.accessKeyID, KeyOf(n, p))
    && (p.deleting || p.status.accessKeyID != NONE || p.status.bucketID != NONE ==> p.finalizer)
  }

  ghost predicate PoliciesInv(c: Cluster) {
    && c.lawful
    && (forall n | n in c.policies :: PolicyInv(c, n, c.policies[n]))
    && (forall m, n | m in c.policies && n in c.policies && KeyOf(m, c.policies[m]) == KeyOf(n, c.policies[n])
                      && BucketOf(m, c.policies[m]) == BucketOf(n, c.policies[n]) :: m == n)
  }

  ghost predicate DependenciesInv(c: Cluster) {
    c.lawful && forall k | k in c.keys :: Home(c.keyHome, c.keys[k].id, k)
  }

  /** A Garage key that some AccessKey has named is the one it names now. */
  ghost predicate GarageInv(c: Cluster) {
    && NONE !in c.garage.keys && NONE !in c.garage.buckets
    && Consistent(c.garage)
    && (forall id | id in c.garage.keys && id in c.keyHome :: c.keyHome[id] in c.keys && c.keys[c.keyHome[id]].id == id)
  }

  ghost predicate BaseInv(c: Cluster) {
    PoliciesInv(c) && DependenciesInv(c) && GarageInv(c) && AllApart(c)
  }

  /** The dependencies that p refers to, as they are now. */
  ghost predicate DependsOn(c: Cluster, n: NsName, p: Policy, key: Dependency, bucket: Dependency) {
    && KeyOf(n, p) in c.keys && c.keys[KeyOf(n, p)] == key
    && BucketOf(n, p) in c.buckets && c.buckets[BucketOf(n, p)] == bucket
  }

  /** Garage grants what p asks for; a key that is being deleted may have lost its permissions already. */
  ghost predicate Applied(c: Cluster, p: Policy, key: Dependency, bucket: Dependency) {
    key.deleting || PermissionsOf(c.garage, Pair(key.id, bucket.id)) == p.permissions
  }

  /** The status says that everything is in place for the current generation. */
  ghost predicate Reported(p: Policy, key: Dependency, bucket: Dependency) {
    && Holds(p.status.conditions, Ready, True)
    && p.status.observedGeneration == p.generation
    && p.status.accessKeyID == key.id && p.status.bucketID == bucket.id
  }

  /** Nothing is left to do for p. */
  ghost predicate Settled(c: Cluster, n: NsName, p: Policy) {
    && KeyOf(n, p) in c.keys && BucketOf(n, p) in c.buckets
    && var key, bucket := c.keys[KeyOf(n, p)], c.buckets[BucketOf(n, p)];
    && LabelsMatch(p) && p.finalizer
    && key.ready && bucket.ready
    && Reported(p, key, bucket)
    && Applied(c, p, key, bucket)
  }

  ghost predicate Tended(c: Cluster, n: NsName) {
    n in c.policies && n !in c.queue && n !in c.timers ==> !c.policies[n].deleting && Settled(c, n, c.policies[n])
  }

  /** Every policy that is not being worked on is tended. */
  ghost predicate AllTended(c: Cluster, busy: set<NsName>) {
    forall n | n !in busy :: Tended(c, n)
  }

  ghost predicate Inv(c: Cluster, busy: set<NsName>) {
    BaseInv(c) && AllTended(c, busy)
  }

  // ---------------------------------------------------------------- actions of others

  /** A policy may be written when it refers to what it did before, and its IDs to what they belong to. */
  lemma WriteKeepsPolicies(c: Cluster, n: NsName, p: Policy)
    requires PoliciesInv(c)
    requires PolicyInv(c, n, p.(version := c.clock - 1))
    requires forall m | m in c.policies && m != n :: !(m.ns == n.ns && c.policies[m].key == p.key && c.policies[m].bucket == p.bucket)
    ensures PoliciesInv(WithPolicy(c, n, p))
  {
    var d := WithPolicy(c, n, p);
    forall m | m in d.policies ensures PolicyInv(d, m, d.policies[m]) {
      if m != n {
        assert PolicyInv(c, m, c.policies[m]);
      }
    }
  }

  lemma OthersRefer(c: Cluster, n: NsName)
    requires PoliciesInv(c) && n in c.policies
    ensures forall m | m in c.policies && m != n ::
              !(m.ns == n.ns && c.policies[m].key == c.policies[n].key && c.policies[m].bucket == c.policies[n].bucket)
  {
    forall m | m in c.policies && m != n
      ensures !(m.ns == n.ns && c.policies[m].key == c.policies[n].key && c.policies[m].bucket == c.policies[n].bucket)
    {
      assert KeyOf(m, c.policies[m]) != KeyOf(n, c.policies[n]) || BucketOf(m, c.policies[m]) != BucketOf(n, c.policies[n]);
    }
  }

  lemma EditKeepsPolicies(c: Cluster, n: NsName, p: Policy)
    requires PoliciesInv(c) && n in c.policies
    requires p == c.policies[n].(permissions := p.permissions, labels := p.labels, generation := p.generation,
                                 deleting := p.deleting, finalizer := p.finalizer)
    requires p.generation >= c.policies[n].generation
    requires c.policies[n].finalizer || p.deleting ==> p.finalizer
    ensures PoliciesInv(WithPolicy(c, n, p))
  {
    assert PolicyInv(c, n, c.policies[n]);
    OthersRefer(c, n);
    WriteKeepsPolicies(c, n, p);
  }

  lemma CreateKeepsPolicies(c: Cluster, a: Action)
    requires PoliciesInv(c) && a.CreatePolicy? && Permitted(c, a)
    ensures PoliciesInv(Perform(c, a))
  {
    if a.n !in c.policies {
      WriteKeepsPolicies(c, a.n, NewPolicy(a.key, a.bucket, a.permissions, a.labels));
    }
  }

  lemma ActionKeepsPolicies(c: Cluster, a: Action)
    requires PoliciesInv(c)
    ensures PoliciesInv(Perform(c, a))
  {
    hide Labelled, WithoutRows, WithPolicy;
    var d := Perform(c, a);
    if Permitted(c, a) {
      match a {
        case CreatePolicy(n, _, _, _, _) => CreateKeepsPolicies(c, a);
        case DeletePolicy(n) =>
          if n in c.policies && c.policies[n].finalizer {
            EditKeepsPolicies(c, n, c.policies[n].(deleting := true, generation := c.policies[n].generation + 1));
          }
        case EditPermissions(n, permissions) =>
          if n in c.policies {
            EditKeepsPolicies(c, n, c.policies[n].(permissions := permissions, generation := c.policies[n].generation + 1));
          }
        case EditLabels(n, labels) =>
          if n in c.policies {
            EditKeepsPolicies(c, n, c.policies[n].(labels := labels));
          }
        case PutKey(_, _) => HomesGrow(c, d);
        case PutBucket(_, _) => HomesGrow(c, d);
        case _ =>
      }
    }
  }

  lemma HomesGrow(c: Cluster, d: Cluster)
    requires PoliciesInv(c) && d.policies == c.policies && d.clock >= c.clock && d.lawful == c.lawful
    requires forall id | id in c.keyHome :: id in d.keyHome && d.keyHome[id] == c.keyHome[id]
    ensures PoliciesInv(d)
  {
    forall m | m in d.policies ensures PolicyInv(d, m, d.policies[m]) {
      assert PolicyInv(c, m, c.policies[m]);
    }
  }

  lemma ActionKeepsDependencies(c: Cluster, a: Action)
    requires DependenciesInv(c)
    ensures DependenciesInv(Perform(c, a))
  {
    hide Labelled, WithoutRows;
  }

  lemma ActionKeepsGarage(c: Cluster, a: Action)
    requires DependenciesInv(c) && GarageInv(c)
    ensures GarageInv(Perform(c, a))
  {
    hide Labelled;
    match a {
      case PutKey(k, d) => if Permitted(c, a) { PutKeyKeepsGarage(c, k, d); }
      case RemoveKey(_) =>
      case AddGarageKey(_) =>
      case RemoveGarageKey(_) =>
      case _ =>
    }
  }

  lemma PutKeyKeepsGarage(c: Cluster, k: NsName, d: Dependency)
    requires DependenciesInv(c) && GarageInv(c) && Permitted(c, PutKey(k, d))
    ensures GarageInv(Perform(c, PutKey(k, d)))
  {
    hide Labelled;
  }

  // ---------------------------------------------------------------- policies stay apart

  /** A policy may be written when it has to do with no other buckets than before. */
  lemma WriteKeepsApart(c: Cluster, n: NsName, p: Policy)
    requires AllApart(c) && n in c.policies && p.key == c.policies[n].key && p.bucket == c.policies[n].bucket
    requires p.status.bucketID in UsedBuckets(c, n, c.policies[n]) + {NONE}
    ensures AllApart(WithPolicy(c, n, p))
  {
    var d := WithPolicy(c, n, p);
    assert UsedBuckets(d, n, d.policies[n]) <= UsedBuckets(c, n, c.policies[n]);
    forall m | m in d.policies ensures UsedBuckets(d, m, d.policies[m]) <= UsedBuckets(c, m, c.policies[m]) {
    }
  }

  /** Fewer policies, fewer buckets and nothing new in hand. */
  lemma LessKeepsApart(c: Cluster, d: Cluster)
    requires AllApart(c) && OnlyLess(c, d)
    ensures AllApart(d)
  {
    forall m | m in d.policies ensures UsedBuckets(d, m, d.policies[m]) <= UsedBuckets(c, m, c.policies[m]) {
    }
  }

  lemma ActionKeepsApart(c: Cluster, a: Action)
    requires c.lawful && AllApart(c)
    ensures AllApart(Perform(c, a))
  {
    hide AllApart, Labelled, WithoutRows;
    var d := Perform(c, a);
    if a.CreatePolicy? {
      if Permitted(c, a) && a.n !in c.policies {
        NewKeepsApart(c, a.n, NewPolicy(a.key, a.bucket, a.permissions, a.labels));
      }
    } else if a.PutBucket? {
      if Permitted(c, a) {
        LessKeepsApart(c.(buckets := c.buckets[a.b := a.d]), d);
      }
    } else {
      OthersOnlyRemove(c, a);
      LessKeepsApart(c, d);
    }
  }

  ghost predicate OnlyLess(c: Cluster, d: Cluster) {
    && (forall m | m in d.policies :: m in c.policies && d.policies[m].key == c.policies[m].key
          && d.policies[m].bucket == c.policies[m].bucket && d.policies[m].status == c.policies[m].status)
    && (forall b | b in d.buckets :: b in c.buckets && d.buckets[b].id == c.buckets[b].id)
    && (d.inHand == c.inHand || d.inHand == None)
  }

  lemma OthersOnlyRemove(c: Cluster, a: Action)
    requires !a.CreatePolicy? && !a.PutBucket?
    ensures OnlyLess(c, Perform(c, a))
  {
    hide AllApart, Permitted, Labelled, WithoutRows;
  }

  lemma NewKeepsApart(c: Cluster, n: NsName, p: Policy)
    requires AllApart(c.(policies := c.policies[n := p]))
    ensures AllApart(WithPolicy(c, n, p))
  {
    var e := c.(policies := c.policies[n := p]);
    var d := WithPolicy(c, n, p);
    forall m | m in d.policies ensures m in e.policies && UsedBuckets(d, m, d.policies[m]) <= UsedBuckets(e, m, e.policies[m]) {
    }
  }

  lemma Lawful(c: Cluster)
    requires PoliciesInv(c)
    ensures c.lawful
  {
  }

  lemma ActionKeepsBase(c: Cluster, a: Action)
    requires BaseInv(c)
    ensures BaseInv(Perform(c, a))
  {
    hide PoliciesInv, DependenciesInv, GarageInv, AllApart, Perform;
    assert c.lawful by {
      Lawful(c);
    }
    ActionKeepsApart(c, a);
    ActionKeepsPolicies(c, a);
    ActionKeepsDependencies(c, a);
    ActionKeepsGarage(c, a);
  }

  /** What a reconcile that has read p, and perhaps its dependencies, knows while others act. */
  ghost predicate Watching(c: Cluster, n: NsName, p: Policy, key: Option<Dependency>, bucket: Option<Dependency>) {
    || n in c.queue
    || (&& n in c.policies && c.policies[n] == p && LabelsMatch(p)
        && (key.Some? ==> KeyOf(n, p) in c.keys && c.keys[KeyOf(n, p)] == key.value)
        && (bucket.Some? ==> BucketOf(n, p) in c.buckets && c.buckets[BucketOf(n, p)] == bucket.value))
  }

  /** Every change of the policy or of a dependency puts the policy back in the queue. */
  lemma ActionKeepsWatching(c: Cluster, a: Action, n: NsName, p: Policy, key: Option<Dependency>, bucket: Option<Dependency>)
    requires Watching(c, n, p, key, bucket) && p.key != NONE && p.bucket != NONE
    ensures Watching(Perform(c, a), n, p, key, bucket)
  {
    hide Permitted, WithoutRows, Labelled;
    if n !in c.queue {
      match a {
        case PutKey(k, _) => ListedByLabel(c, n, p);
        case RemoveKey(k) => ListedByLabel(c, n, p);
        case PutBucket(b, _) => ListedByLabel(c, n, p);
        case RemoveBucket(b) => ListedByLabel(c, n, p);
        case _ =>
      }
    }
  }

  /** A policy with the right labels is found by the watches on its key and its bucket. */
  lemma ListedByLabel(c: Cluster, n: NsName, p: Policy)
    requires n in c.policies && c.policies[n] == p && LabelsMatch(p) && p.key != NONE && p.bucket != NONE
    ensures n in Labelled(c, KeyLabel, KeyOf(n, p)) && n in Labelled(c, BucketLabel, BucketOf(n, p))
  {
  }

  /** The queue is only ever added to, except for timers, which move into it. */
  lemma QueueGrows(c: Cluster, a: Action)
    ensures c.queue <= Perform(c, a).queue && c.timers <= Perform(c, a).queue + Perform(c, a).timers
  {
    hide Permitted, Labelled, WithoutRows;
  }

  lemma RowsKept(c: Cluster, a: Action, n: NsName, p: Policy, key: Dependency, bucket: Dependency)
    requires DependenciesInv(c) && GarageInv(c) && DependsOn(c, n, p, key, bucket) && Applied(c, p, key, bucket)
    ensures Applied(Perform(c, a), p, key, bucket)
  {
    hide Labelled;
    if a.RemoveGarageKey? && Permitted(c, a) && a.id == key.id && !key.deleting {
      assert key.id !in c.garage.keys;
    }
  }

  /** What a reconcile knows once it has set the permissions that p asks for. */
  ghost predicate Standing(c: Cluster, n: NsName, p: Policy, key: Dependency, bucket: Dependency) {
    n in c.queue || (Watching(c, n, p, Some(key), Some(bucket)) && Applied(c, p, key, bucket))
  }

  lemma ActionKeepsStanding(c: Cluster, a: Action, n: NsName, p: Policy, key: Dependency, bucket: Dependency)
    requires BaseInv(c) && Standing(c, n, p, key, bucket) && p.key != NONE && p.bucket != NONE
    ensures Standing(Perform(c, a), n, p, key, bucket)
  {
    hide PoliciesInv, DependenciesInv, GarageInv, AllApart, Perform, Applied;
    QueueGrows(c, a);
    if n !in c.queue {
      ActionKeepsWatching(c, a, n, p, Some(key), Some(bucket));
      RowsKept(c, a, n, p, key, bucket);
    }
  }

  lemma ActionKeepsTended(c: Cluster, a: Action, n: NsName)
    requires BaseInv(c) && Tended(c, n)
    ensures Tended(Perform(c, a), n)
  {
    hide PoliciesInv, DependenciesInv, GarageInv, AllApart, Settled, Perform;
    var d := Perform(c, a);
    QueueGrows(c, a);
    if n in d.policies && n !in d.queue && n !in d.timers {
      NewPolicyIsQueued(c, a, n);
      ActionKeepsSettled(c, a, n, c.policies[n]);
    }
  }

  lemma ActionKeepsSettled(c: Cluster, a: Action, n: NsName, p: Policy)
    requires BaseInv(c) && n in c.policies && c.policies[n] == p && Settled(c, n, p) && n !in Perform(c, a).queue
    ensures Settled(Perform(c, a), n, p)
  {
    hide PoliciesInv, DependenciesInv, GarageInv, AllApart, Applied, Perform;
    QueueGrows(c, a);
    NamedReferences(c, n);
    ActionKeepsStanding(c, a, n, p, c.keys[KeyOf(n, p)], c.buckets[BucketOf(n, p)]);
  }

  lemma NamedReferences(c: Cluster, n: NsName)
    requires PoliciesInv(c) && n in c.policies
    ensures c.policies[n].key != NONE && c.policies[n].bucket != NONE
  {
    assert PolicyInv(c, n, c.policies[n]);
  }

  lemma NewPolicyIsQueued(c: Cluster, a: Action, n: NsName)
    requires n in Perform(c, a).policies && n !in Perform(c, a).queue
    ensures n in c.policies && Perform(c, a).policies[n] == c.policies[n]
  {
    hide Permitted, Labelled, WithoutRows;
  }

  lemma ActionKeepsInv(c: Cluster, a: Action, busy: set<NsName>)
    requires Inv(c, busy)
    ensures Inv(Perform(c, a), busy)
  {
    hide BaseInv, Perform, Tended;
    ActionKeepsBase(c, a);
    forall n | n !in busy ensures Tended(Perform(c, a), n) {
      ActionKeepsTended(c, a, n);
    }
  }

  // ---------------------------------------------------------------- what a reconcile holds on to

  /** The policy that was read as p is still there, with the same references and the status only we write. */
  ghost predicate Ours(c: Cluster, n: NsName, p: Policy) {
    && n in c.policies && c.policies[n].finalizer && p.finalizer
    && c.policies[n].key == p.key && c.policies[n].bucket == p.bucket
    && c.policies[n].status == p.status && c.policies[n].generation >= p.generation
    && (p.deleting ==> c.policies[n].deleting)
    && p.key != NONE && p.bucket != NONE && p.generation >= 1 && p.status.observedGeneration <= p.generation
  }

  ghost predicate Held(c: Cluster, n: NsName, p: Policy) {
    Inv(c, {n}) && Ours(c, n, p)
  }

  /** Others neither change the home of a key nor what the reconcile has in hand. */
  ghost predicate HomesKept(c: Cluster, d: Cluster) {
    && (forall id | id in c.keyHome :: id in d.keyHome && d.keyHome[id] == c.keyHome[id])
    && d.inHand == c.inHand
  }

  /** Unless the policy is queued, it is the one that was read. */
  ghost predicate Unmoved(c: Cluster, n: NsName, p: Policy) {
    n in c.queue || (n in c.policies && c.policies[n] == p)
  }

  lemma ActionKeepsOurs(c: Cluster, a: Action, n: NsName, p: Policy)
    requires Ours(c, n, p)
    ensures Ours(Perform(c, a), n, p)
    ensures Unmoved(c, n, p) ==> Unmoved(Perform(c, a), n, p)
  {
    hide Labelled, WithoutRows;
  }

  lemma ActionKeepsHomes(c: Cluster, a: Action)
    requires c.lawful
    ensures HomesKept(c, Perform(c, a))
  {
    hide Labelled, WithoutRows, AllApart;
  }

  lemma InvIsLawful(c: Cluster, busy: set<NsName>)
    requires Inv(c, busy)
    ensures c.lawful
  {
    hide DependenciesInv, GarageInv, AllApart, AllTended;
  }

  lemma {:induction false} ActionsKeepHeld(c: Cluster, actions: seq<Action>, n: NsName, p: Policy)
    requires Held(c, n, p)
    ensures Held(PerformAll(c, actions), n, p) && HomesKept(c, PerformAll(c, actions))
    ensures Unmoved(c, n, p) ==> Unmoved(PerformAll(c, actions), n, p)
    decreases |actions|
  {
    hide Inv, Ours, Unmoved, Perform;
    if actions != [] {
      ActionKeepsInv(c, actions[0], {n});
      ActionKeepsOurs(c, actions[0], n, p);
      InvIsLawful(c, {n});
      ActionKeepsHomes(c, actions[0]);
      ActionsKeepHeld(Perform(c, actions[0]), actions[1..], n, p);
    }
  }

  lemma HeldOnArrival(w: World, n: NsName, p: Policy)
    requires Held(w.c, n, p)
    ensures Held(Arrive(w), n, p) && HomesKept(w.c, Arrive(w))
    ensures Unmoved(w.c, n, p) ==> Unmoved(Arrive(w), n, p)
  {
    hide Inv, Ours;
    if w.tape != [] {
      ActionsKeepHeld(w.c, w.tape[0].actions, n, p);
    }
  }

  lemma {:induction false} ActionsKeepWatching(c: Cluster, actions: seq<Action>, n: NsName, p: Policy, key: Option<Dependency>, bucket: Option<Dependency>)
    requires Watching(c, n, p, key, bucket) && p.key != NONE && p.bucket != NONE
    ensures Watching(PerformAll(c, actions), n, p, key, bucket)
    decreases |actions|
  {
    hide Watching, Perform;
    if actions != [] {
      ActionKeepsWatching(c, actions[0], n, p, key, bucket);
      ActionsKeepWatching(Perform(c, actions[0]), actions[1..], n, p, key, bucket);
    }
  }

  lemma WatchingOnArrival(w: World, n: NsName, p: Policy, key: Option<Dependency>, bucket: Option<Dependency>)
    requires Watching(w.c, n, p, key, bucket) && p.key != NONE && p.bucket != NONE
    ensures Watching(Arrive(w), n, p, key, bucket)
  {
    hide Watching;
    if w.tape != [] {
      ActionsKeepWatching(w.c, w.tape[0].actions, n, p, key, bucket);
    }
  }

  // ---------------------------------------------------------------- writing to Garage

  /** A pair made of a key of p's AccessKey and a bucket that p has recorded or has in hand. */
  ghost predicate OwnPair(c: Cluster, n: NsName, p: Policy, q: Pair) {
    && Home(c.keyHome, q.key, KeyOf(n, p))
    && (q.bucket == NONE || q.bucket == p.status.bucketID || c.inHand == Some(InHand(n, q.bucket)))
  }

  /** The two tables agree except for the permissions of q. */
  ghost predicate OnlyRow(g: Garage, h: Garage, q: Pair) {
    && h.keys == g.keys && h.buckets == g.buckets
    && (Consistent(g) ==> Consistent(h))
    && (forall r | r != q :: PermissionsOf(h, r) == PermissionsOf(g, r))
  }

  lemma OtherPolicyOtherPair(c: Cluster, n: NsName, p: Policy, q: Pair, m: NsName)
    requires BaseInv(c) && Ours(c, n, p) && OwnPair(c, n, p, q) && m != n && m in c.policies
    requires KeyOf(m, c.policies[m]) in c.keys && BucketOf(m, c.policies[m]) in c.buckets
    ensures var r := Pair(c.keys[KeyOf(m, c.policies[m])].id, c.buckets[BucketOf(m, c.policies[m])].id);
            r != q || q.key == NONE || q.bucket == NONE
  {
    hide GarageInv, PolicyInv;
    var r := Pair(c.keys[KeyOf(m, c.policies[m])].id, c.buckets[BucketOf(m, c.policies[m])].id);
    assert r == q && q.key != NONE ==> KeyOf(m, c.policies[m]) == KeyOf(n, c.policies[n]);
    assert r == q && q.bucket != NONE ==>
        q.bucket in UsedBuckets(c, m, c.policies[m]) && q.bucket in UsedBuckets(c, n, c.policies[n]);
  }

  lemma NoneHasNoPermissions(g: Garage, q: Pair)
    requires Consistent(g) && NONE !in g.keys && NONE !in g.buckets && (q.key == NONE || q.bucket == NONE)
    ensures PermissionsOf(g, q) == NOTHING
  {
  }

  lemma GarageWriteKeepsTended(c: Cluster, n: NsName, p: Policy, q: Pair, g: Garage, m: NsName)
    requires BaseInv(c) && Ours(c, n, p) && OwnPair(c, n, p, q) && OnlyRow(c.garage, g, q) && m != n && Tended(c, m)
    ensures Tended(c.(garage := g), m)
  {
    var d := c.(garage := g);
    if m in c.policies && !c.policies[m].deleting && m !in c.queue && m !in c.timers {
      assert Settled(c, m, c.policies[m]);
      var r := Pair(c.keys[KeyOf(m, c.policies[m])].id, c.buckets[BucketOf(m, c.policies[m])].id);
      OtherPolicyOtherPair(c, n, p, q, m);
      if r == q {
        NoneHasNoPermissions(c.garage, q);
        NoneHasNoPermissions(g, q);
      }
    }
  }

  lemma GarageWriteKeepsHeld(c: Cluster, n: NsName, p: Policy, q: Pair, g: Garage)
    requires Held(c, n, p) && OwnPair(c, n, p, q) && OnlyRow(c.garage, g, q)
    ensures Held(c.(garage := g), n, p)
  {
    var d := c.(garage := g);
    forall m | m in d.policies ensures PolicyInv(d, m, d.policies[m]) {
      assert PolicyInv(c, m, c.policies[m]);
    }
    hide PolicyInv, Settled;
    forall m | m !in {n} ensures Tended(d, m) {
      GarageWriteKeepsTended(c, n, p, q, g, m);
    }
  }

  lemma DenyIsOneRow(w: World, q: Pair, flags: Permissions)
    ensures OnlyRow(Arrive(w).garage, DenyCall(w, q, flags).w.c.garage, q)
    ensures DenyCall(w, q, flags).w.c == Arrive(w).(garage := DenyCall(w, q, flags).w.c.garage)
    ensures AllowCall(w, q, flags).w.c == Arrive(w).(garage := AllowCall(w, q, flags).w.c.garage)
    ensures OnlyRow(Arrive(w).garage, AllowCall(w, q, flags).w.c.garage, q)
  {
  }

  lemma OwnPairStays(c: Cluster, d: Cluster, n: NsName, p: Policy, q: Pair)
    requires OwnPair(c, n, p, q) && HomesKept(c, d)
    ensures OwnPair(d, n, p, q)
  {
  }

  /** What a call to Garage on a pair of its own leaves a reconcile with. */
  lemma DenyMeaning(w: World, n: NsName, p: Policy, q: Pair, flags: Permissions)
    requires Held(w.c, n, p) && OwnPair(w.c, n, p, q)
    ensures Held(DenyCall(w, q, flags).w.c, n, p) && OwnPair(DenyCall(w, q, flags).w.c, n, p, q)
    ensures Held(AllowCall(w, q, flags).w.c, n, p) && OwnPair(AllowCall(w, q, flags).w.c, n, p, q)
    ensures HomesKept(w.c, DenyCall(w, q, flags).w.c) && HomesKept(w.c, AllowCall(w, q, flags).w.c)
  {
    hide Held, OnlyRow, DenyCall, AllowCall;
    HeldOnArrival(w, n, p);
    OwnPairStays(w.c, Arrive(w), n, p, q);
    DenyIsOneRow(w, q, flags);
    GarageWriteKeepsHeld(Arrive(w), n, p, q, DenyCall(w, q, flags).w.c.garage);
    GarageWriteKeepsHeld(Arrive(w), n, p, q, AllowCall(w, q, flags).w.c.garage);
  }

  lemma SetMeaning(w: World, n: NsName, p: Policy, q: Pair, target: Permissions)
    requires Held(w.c, n, p) && OwnPair(w.c, n, p, q)
    ensures Held(SetCall(w, q, target).w.c, n, p) && HomesKept(w.c, SetCall(w, q, target).w.c)
  {
    hide Held, OwnPair, DenyCall, AllowCall;
    DenyMeaning(w, n, p, q, Complement(target));
    var denied := DenyCall(w, q, Complement(target));
    DenyMeaning(denied.w, n, p, q, target);
  }

  /** Watching sees nothing of Garage's table. */
  lemma WatchingThroughSet(w: World, n: NsName, p: Policy, q: Pair, target: Permissions, key: Option<Dependency>, bucket: Option<Dependency>)
    requires Watching(w.c, n, p, key, bucket) && p.key != NONE && p.bucket != NONE
    ensures Watching(SetCall(w, q, target).w.c, n, p, key, bucket)
  {
    hide DenyBucketKey, AllowBucketKey;
    WatchingOnArrival(w, n, p, key, bucket);
    var denied := DenyCall(w, q, Complement(target));
    WatchingOnArrival(denied.w, n, p, key, bucket);
  }

  /** Others never grant anything. */
  ghost predicate RowsShrink(g: Garage, h: Garage) {
    forall q :: PermissionsOf(h, q) == PermissionsOf(g, q) || PermissionsOf(h, q) == NOTHING
  }

  lemma ActionShrinksRows(c: Cluster, a: Action)
    ensures RowsShrink(c.garage, Perform(c, a).garage)
  {
    hide Permitted, Labelled;
  }

  lemma {:induction false} ActionsShrinkRows(c: Cluster, actions: seq<Action>)
    ensures RowsShrink(c.garage, PerformAll(c, actions).garage)
    decreases |actions|
  {
    hide Perform, PermissionsOf;
    if actions != [] {
      ActionShrinksRows(c, actions[0]);
      ActionsShrinkRows(Perform(c, actions[0]), actions[1..]);
    }
  }

  lemma ArrivalShrinksRows(w: World)
    ensures RowsShrink(w.c.garage, Arrive(w).garage)
  {
    if w.tape != [] {
      ActionsShrinkRows(w.c, w.tape[0].actions);
    }
  }

  /** A SetPermissions that succeeds leaves exactly the target, whatever others did in between. */
  lemma SetGrants(w: World, q: Pair, target: Permissions)
    requires SetCall(w, q, target).error.None?
    ensures PermissionsOf(SetCall(w, q, target).w.c.garage, q) == target
  {
    var denied := DenyCall(w, q, Complement(target));
    ArrivalShrinksRows(denied.w);
    assert Within(PermissionsOf(denied.w.c.garage, q), target);
  }

  // ---------------------------------------------------------------- the two dependencies

  ghost predicate IsMarked(s: PolicyStatus, t: CondType, status: CondStatus, reason: Reason, generation: int) {
    Find(s.conditions, t) == Some(Condition(t, status, reason, generation))
  }

  function Seen(r: Result<Dependency>): Option<Dependency> {
    if r.Ok? then Some(r.value) else None
  }

  /** What holds after a stage that ended with check, b being what is known of the bucket and k of the key. */
  ghost predicate Staged(c: Cluster, n: NsName, p: Policy, s: PolicyStatus, k: Option<Dependency>, b: Option<Dependency>) {
    && Held(c, n, p) && !p.deleting && OwnPair(c, n, p, StatusPair(s)) && Watching(c, n, p, k, b)
    && s.observedGeneration == p.status.observedGeneration
    && (b.Some? ==> b.value.ready && s.bucketID == b.value.id && IsMarked(s, PolicyBucketReady, True, Met, p.generation))
    && (k.Some? ==> k.value.ready && s.accessKeyID == k.value.id && IsMarked(s, PolicyAccessKeyReady, True, Met, p.generation))
  }

  lemma BucketRead(w: World, n: NsName, p: Policy, s: PolicyStatus)
    requires Staged(w.c, n, p, s, None, None) && s.bucketID == p.status.bucketID
    ensures var check := CheckBucket(w, n, p, s);
            Staged(check.w.c, n, p, check.status, None, Seen(check.r))
  {
    hide Held, Watching, SetCondition, Arrive, Rest, ApiReply;
    RefersToSomething(w.c, n, p);
    HeldOnArrival(w, n, p);
    WatchingOnArrival(w, n, p, None, None);
    var a := Arrive(w);
    WatchingWhatIsRead(a, n, p, None);
    if BucketOf(n, p) in a.buckets {
      HandKeepsHeld(a, n, p);
      HandKeepsWatching(a, n, p, a.buckets[BucketOf(n, p)].id);
    }
  }

  lemma HandKeepsWatching(c: Cluster, n: NsName, p: Policy, id: Id)
    ensures var d := c.(inHand := Some(InHand(n, id)));
            forall k, b | Watching(c, n, p, k, b) :: Watching(d, n, p, k, b)
  {
  }

  lemma WatchingWhatIsRead(c: Cluster, n: NsName, p: Policy, b: Option<Dependency>)
    requires Watching(c, n, p, None, b)
    ensures KeyOf(n, p) in c.keys ==> Watching(c, n, p, Some(c.keys[KeyOf(n, p)]), b)
    ensures b.None? && BucketOf(n, p) in c.buckets ==> Watching(c, n, p, None, Some(c.buckets[BucketOf(n, p)]))
  {
  }

  lemma DependencyHomes(c: Cluster, n: NsName, p: Policy)
    requires Held(c, n, p)
    ensures KeyOf(n, p) in c.keys ==> Home(c.keyHome, c.keys[KeyOf(n, p)].id, KeyOf(n, p))
  {
  }

  /** Having the bucket that p refers to in hand adds nothing to what p has to do with. */
  lemma HandKeepsHeld(c: Cluster, n: NsName, p: Policy)
    requires Held(c, n, p) && BucketOf(n, p) in c.buckets
    ensures Held(c.(inHand := Some(InHand(n, c.buckets[BucketOf(n, p)].id))), n, p)
  {
    hide Settled, PolicyInv;
    var d := c.(inHand := Some(InHand(n, c.buckets[BucketOf(n, p)].id)));
    HandKeepsPolicies(c, d);
    HandKeepsApart(c, n, p);
    forall m | m !in {n} ensures Tended(d, m) {
      assert Tended(c, m);
      if m in c.policies && m !in c.queue && m !in c.timers {
        SettledRegardless(c, d, m);
      }
    }
  }

  lemma HandKeepsPolicies(c: Cluster, d: Cluster)
    requires BaseInv(c) && d == c.(inHand := d.inHand)
    ensures PoliciesInv(d) && DependenciesInv(d) && GarageInv(d)
  {
    hide AllApart;
    forall m | m in d.policies ensures PolicyInv(d, m, d.policies[m]) {
      assert PolicyInv(c, m, c.policies[m]);
    }
  }

  lemma HandKeepsApart(c: Cluster, n: NsName, p: Policy)
    requires BaseInv(c) && Ours(c, n, p) && BucketOf(n, p) in c.buckets
    ensures AllApart(c.(inHand := Some(InHand(n, c.buckets[BucketOf(n, p)].id))))
  {
    hide PoliciesInv, DependenciesInv, GarageInv;
    var d := c.(inHand := Some(InHand(n, c.buckets[BucketOf(n, p)].id)));
    forall m | m in d.policies ensures UsedBuckets(d, m, d.policies[m]) <= UsedBuckets(c, m, c.policies[m]) {
    }
  }

  lemma KeyRead(w: World, n: NsName, p: Policy, s: PolicyStatus, b: Option<Dependency>)
    requires Staged(w.c, n, p, s, None, b)
    ensures var check := CheckAccessKey(w, n, p, s);
            Staged(check.w.c, n, p, check.status, Seen(check.r), b)
  {
    hide Held, Watching, SetCondition, HomesKept;
    RefersToSomething(w.c, n, p);
    HeldOnArrival(w, n, p);
    OwnPairStays(w.c, Arrive(w), n, p, StatusPair(s));
    WatchingOnArrival(w, n, p, None, b);
    DependencyHomes(Arrive(w), n, p);
    WatchingWhatIsRead(Arrive(w), n, p, b);
  }

  /** Forgetting an ID after its permissions were revoked. */
  lemma Revoked(w: World, n: NsName, p: Policy, s: PolicyStatus, forgotten: PolicyStatus, b: Option<Dependency>)
    requires Staged(w.c, n, p, s, None, b)
    requires (forgotten == s.(bucketID := NONE) && b.None?) || forgotten == s.(accessKeyID := NONE)
    ensures Staged(SetCall(w, StatusPair(s), NOTHING).w.c, n, p, forgotten, None, b)
  {
    hide Held, Watching, SetCall;
    SetMeaning(w, n, p, StatusPair(s), NOTHING);
    OwnPairStays(w.c, SetCall(w, StatusPair(s), NOTHING).w.c, n, p, StatusPair(s));
    WatchingThroughSet(w, n, p, StatusPair(s), NOTHING, None, b) by {
      RefersToSomething(w.c, n, p);
    }
  }

  lemma RefersToSomething(c: Cluster, n: NsName, p: Policy)
    requires Held(c, n, p)
    ensures p.key != NONE && p.bucket != NONE && p.generation >= 1
  {
  }

  lemma BucketStageMeaning(w: World, n: NsName, p: Policy, s: PolicyStatus)
    requires Staged(w.c, n, p, s, None, None) && s.bucketID == p.status.bucketID
    ensures var check := BucketStage(w, n, p, s);
            Staged(check.w.c, n, p, check.status, None, Seen(check.r))
  {
    hide Staged, CheckBucket, SetCall;
    BucketRead(w, n, p, s);
    var check := CheckBucket(w, n, p, s);
    if check.r == Err(NotFound) && check.status.bucketID != NONE {
      Revoked(check.w, n, p, check.status, check.status.(bucketID := NONE), None);
    }
  }

  lemma KeyStageMeaning(w: World, n: NsName, p: Policy, s: PolicyStatus, b: Option<Dependency>)
    requires Staged(w.c, n, p, s, None, b)
    ensures var check := KeyStage(w, n, p, s);
            Staged(check.w.c, n, p, check.status, Seen(check.r), b)
  {
    hide Staged, CheckAccessKey, SetCall;
    KeyRead(w, n, p, s, b);
    var check := CheckAccessKey(w, n, p, s);
    if check.r == Err(NotFound) && check.status.accessKeyID != NONE {
      Revoked(check.w, n, p, check.status, check.status.(accessKeyID := NONE), b);
    }
  }

  // ---------------------------------------------------------------- the assignment

  lemma AggregatedMeaning(s: PolicyStatus, generation: int)
    ensures var r := Aggregated(s, generation);
            && r.accessKeyID == s.accessKeyID && r.bucketID == s.bucketID
            && (Holds(r.conditions, Ready, True) <==>
                  Holds(s.conditions, PolicyBucketReady, True) && Holds(s.conditions, PolicyAccessKeyReady, True) && Holds(s.conditions, PolicyReady, True))
            && r.observedGeneration == if Holds(r.conditions, Ready, True) then generation else s.observedGeneration
  {
    hide Find;
    assert POLICY_ORDER[0] == PolicyBucketReady && POLICY_ORDER[1] == PolicyAccessKeyReady && POLICY_ORDER[2] == PolicyReady;
    assert forall t | t in POLICY_ORDER :: t == PolicyBucketReady || t == PolicyAccessKeyReady || t == PolicyReady;
  }

  /** What a reconcile has achieved when it computed status s with these errors. */
  ghost predicate Achieved(c: Cluster, n: NsName, p: Policy, s: PolicyStatus, errors: seq<Error>) {
    && Held(c, n, p) && !p.deleting && OwnPair(c, n, p, StatusPair(s)) && s.observedGeneration <= p.generation
    && Watching(c, n, p, None, None)
    && (errors == [] && n !in c.queue && s == p.status ==> Settled(c, n, p))
  }

  lemma AssignMeaning(w: World, n: NsName, p: Policy, s: PolicyStatus, k: Dependency, b: Dependency)
    requires Staged(w.c, n, p, s, Some(k), Some(b)) && LabelsMatch(p)
    ensures var run := AssignStage(w, p, s, Pair(k.id, b.id));
            Achieved(run.w.c, n, p, Aggregated(run.status, p.generation), run.errors)
  {
    hide Inv, Find, SetCondition, SetCall, Aggregated;
    var q := Pair(k.id, b.id);
    var run := AssignStage(w, p, s, q);
    RefersToSomething(w.c, n, p);
    SetMeaning(w, n, p, q, p.permissions);
    OwnPairStays(w.c, run.w.c, n, p, q);
    WatchingThroughSet(w, n, p, q, p.permissions, Some(k), Some(b));
    AggregatedMeaning(run.status, p.generation);
    if run.errors == [] {
      SetGrants(w, q, p.permissions);
    }
  }

  lemma IncompleteIsAchieved(c: Cluster, n: NsName, p: Policy, s: PolicyStatus, k: Option<Dependency>, b: Option<Dependency>, errors: seq<Error>)
    requires Staged(c, n, p, s, k, b) && errors != []
    ensures Achieved(c, n, p, Aggregated(s, p.generation), errors)
  {
    hide Inv, Find, SetCondition, Aggregated;
    AggregatedMeaning(s, p.generation);
  }

  lemma InitializedKeepsIDs(s: PolicyStatus)
    ensures Initialized(s).bucketID == s.bucketID && Initialized(s).accessKeyID == s.accessKeyID
  {
    hide InitAll;
  }

  lemma ComputedMeaning(w: World, n: NsName, p: Policy)
    requires Staged(w.c, n, p, Initialized(p.status), None, None) && LabelsMatch(p)
    ensures var run := Computed(w, n, p);
            Achieved(run.w.c, n, p, run.status, run.errors)
  {
    hide Staged, Achieved, Initialized, Aggregated, BucketStage, KeyStage, AssignStage;
    var s := Initialized(p.status);
    InitializedKeepsIDs(p.status);
    BucketStageMeaning(w, n, p, s);
    var bucket := BucketStage(w, n, p, s);
    KeyStageMeaning(bucket.w, n, p, bucket.status, Seen(bucket.r));
    var key := KeyStage(bucket.w, n, p, bucket.status);
    if bucket.r.Err? || key.r.Err? {
      IncompleteIsAchieved(key.w.c, n, p, key.status, Seen(key.r), Seen(bucket.r), ErrorOf(bucket.r) + ErrorOf(key.r));
    } else {
      AssignMeaning(key.w, n, p, key.status, key.r.value, bucket.r.value);
    }
  }

  // ---------------------------------------------------------------- writing the policy back

  lemma ErrorsRetry(errors: seq<Error>)
    ensures errors != [] ==> Retries(Classified(errors))
  {
  }

  lemma StatusWriteKeepsHeld(c: Cluster, n: NsName, p: Policy, s: PolicyStatus)
    requires Held(c, n, p) && OwnPair(c, n, p, StatusPair(s)) && s.observedGeneration <= p.generation
    ensures Inv(WithPolicy(c, n, c.policies[n].(status := s)), {})
  {
    hide AllTended, AllApart, UsedBuckets;
    StatusKeepsPolicies(c, n, p, s);
    OwnBucketIsUsed(c, n, p, StatusPair(s));
    WriteKeepsApart(c, n, c.policies[n].(status := s));
    WriteKeepsTended(c, n, c.policies[n].(status := s));
    hide PoliciesInv;
  }

  lemma StatusKeepsPolicies(c: Cluster, n: NsName, p: Policy, s: PolicyStatus)
    requires PoliciesInv(c) && Ours(c, n, p) && OwnPair(c, n, p, StatusPair(s)) && s.observedGeneration <= p.generation
    ensures PoliciesInv(WithPolicy(c, n, c.policies[n].(status := s)))
  {
    OthersRefer(c, n);
    assert PolicyInv(c, n, c.policies[n]);
    WriteKeepsPolicies(c, n, c.policies[n].(status := s));
  }

  lemma OwnBucketIsUsed(c: Cluster, n: NsName, p: Policy, q: Pair)
    requires Ours(c, n, p) && OwnPair(c, n, p, q)
    ensures q.bucket in UsedBuckets(c, n, c.policies[n]) + {NONE}
  {
  }

  /** A write queues its own policy and does not concern the others. */
  lemma WriteKeepsTended(c: Cluster, n: NsName, p: Policy)
    requires AllTended(c, {n})
    ensures AllTended(WithPolicy(c, n, p), {})
  {
    forall m ensures Tended(WithPolicy(c, n, p), m) {
      assert m != n ==> Tended(c, m);
    }
  }

  /** The invariant, and the reason why n needs no further attention if it is live. */
  ghost predicate Finished(end: End, n: NsName) {
    && Inv(end.w.c, {n})
    && (Retries(end.outcome) || Tended(end.w.c, n))
  }

  lemma ReconcileLiveMeaning(w: World, n: NsName, p: Policy)
    requires Staged(w.c, n, p, Initialized(p.status), None, None) && LabelsMatch(p)
    ensures Finished(ReconcileLive(w, n, p), n)
  {
    hide Staged, Initialized, Computed, Classified;
    ComputedMeaning(w, n, p);
    var run := Computed(w, n, p);
    ErrorsRetry(run.errors);
    if run.status == p.status {
      AchievedIsTended(run, n, p);
    } else {
      PatchMeaning(run.w, n, p, run.status, run.errors);
    }
  }

  lemma AchievedIsTended(run: PolicyRun, n: NsName, p: Policy)
    requires Achieved(run.w.c, n, p, run.status, run.errors) && run.status == p.status
    ensures Inv(run.w.c, {n})
    ensures run.errors == [] ==> Tended(run.w.c, n)
  {
    hide Inv;
  }

  lemma PatchMeaning(w: World, n: NsName, p: Policy, s: PolicyStatus, errors: seq<Error>)
    requires Achieved(w.c, n, p, s, errors)
    ensures var patch := PatchStatus(w, n, p.version, s);
            Inv(patch.w.c, {n}) && (patch.r.Ok? || patch.r == Err(Conflict) ==> Tended(patch.w.c, n))
  {
    hide Inv, Settled;
    HeldOnArrival(w, n, p);
    OwnPairStays(w.c, Arrive(w), n, p, StatusPair(s));
    WatchingOnArrival(w, n, p, None, None);
    StatusWriteKeepsHeld(Arrive(w), n, p, s);
    InvWeakens(WithPolicy(Arrive(w), n, Arrive(w).policies[n].(status := s)), n);
  }

  lemma InvWeakens(c: Cluster, n: NsName)
    requires Inv(c, {})
    ensures Inv(c, {n})
  {
    assert forall m | m !in {n} :: Tended(c, m);
  }

  lemma WriteMetaMeaning(w: World, n: NsName, p: Policy)
    requires MetaHeld(w.c, n, p) && !p.deleting
    ensures Finished(WriteMeta(w, n, p), n)
  {
    hide Inv;
    MetaHeldOnArrival(w, n, p);
    var a := Arrive(w);
    if n in a.policies && a.policies[n].version == p.version {
      MetaWriteKeepsInv(a, n, p, EnsuredLabels(p.labels, p.key, p.bucket));
      InvWeakens(WithPolicy(a, n, a.policies[n].(labels := EnsuredLabels(p.labels, p.key, p.bucket), finalizer := true)), n);
    }
  }

  /** What is known before the policy has its finalizer: unless it is queued, nobody has touched it. */
  ghost predicate MetaHeld(c: Cluster, n: NsName, p: Policy) {
    Inv(c, {n}) && Unmoved(c, n, p)
  }

  lemma ActionKeepsUnmoved(c: Cluster, a: Action, n: NsName, p: Policy)
    requires Unmoved(c, n, p)
    ensures Unmoved(Perform(c, a), n, p)
  {
    hide Permitted, Labelled, WithoutRows;
  }

  lemma {:induction false} ActionsKeepMetaHeld(c: Cluster, actions: seq<Action>, n: NsName, p: Policy)
    requires MetaHeld(c, n, p)
    ensures MetaHeld(PerformAll(c, actions), n, p)
    decreases |actions|
  {
    hide Inv, Unmoved, Perform;
    if actions != [] {
      ActionKeepsInv(c, actions[0], {n});
      ActionKeepsUnmoved(c, actions[0], n, p);
      ActionsKeepMetaHeld(Perform(c, actions[0]), actions[1..], n, p);
    }
  }

  lemma MetaHeldOnArrival(w: World, n: NsName, p: Policy)
    requires MetaHeld(w.c, n, p)
    ensures MetaHeld(Arrive(w), n, p)
  {
    if w.tape != [] {
      ActionsKeepMetaHeld(w.c, w.tape[0].actions, n, p);
    }
  }

  lemma MetaWriteKeepsInv(c: Cluster, n: NsName, p: Policy, labels: Labels)
    requires Inv(c, {n}) && n in c.policies
    ensures Inv(WithPolicy(c, n, c.policies[n].(labels := labels, finalizer := true)), {})
  {
    hide AllTended, AllApart, UsedBuckets, PoliciesInv;
    var written := c.policies[n].(labels := labels, finalizer := true);
    EditKeepsPolicies(c, n, written);
    RecordedIsUsed(c, n);
    WriteKeepsApart(c, n, written);
    WriteKeepsTended(c, n, written);
  }

  lemma RecordedIsUsed(c: Cluster, n: NsName)
    requires n in c.policies
    ensures c.policies[n].status.bucketID in UsedBuckets(c, n, c.policies[n]) + {NONE}
  {
  }

  // ---------------------------------------------------------------- deletion

  lemma FinalizeMeaning(w: World, n: NsName, p: Policy)
    requires Held(w.c, n, p) && p.deleting && OwnPair(w.c, n, p, StatusPair(p.status))
    ensures Finished(Finalize(w, n, p), n)
  {
    hide Inv, OwnPair, SetCall, UpdateMeta, DropFinalizer;
    if p.status.accessKeyID != NONE && p.status.bucketID != NONE {
      SetMeaning(w, n, p, StatusPair(p.status), NOTHING);
      var revoked := SetCall(w, StatusPair(p.status), NOTHING);
      if revoked.error.None? || revoked.error.value == NotFound {
        DropFinalizerMeaning(revoked.w, n, p);
      }
    } else {
      DropFinalizerMeaning(w, n, p);
    }
  }

  lemma DropFinalizerMeaning(w: World, n: NsName, p: Policy)
    requires Held(w.c, n, p) && p.deleting
    ensures Finished(DropFinalizer(w, n, p), n)
  {
    hide Inv, Settled, EnsuredLabels;
    HeldOnArrival(w, n, p);
    RemovalKeepsInv(Arrive(w), n);
  }

  lemma RemovalKeepsInv(c: Cluster, n: NsName)
    requires Inv(c, {n}) && n in c.policies
    ensures Inv(c.(policies := c.policies - {n}, queue := c.queue + {n}), {n})
  {
    var d := c.(policies := c.policies - {n}, queue := c.queue + {n});
    forall m | m in d.policies ensures PolicyInv(d, m, d.policies[m]) {
      assert PolicyInv(c, m, c.policies[m]);
    }
    forall m | m !in {n} ensures Tended(d, m) {
      assert Tended(c, m);
    }
  }

  // ---------------------------------------------------------------- one reconcile

  lemma JustReadIsStaged(c: Cluster, n: NsName, p: Policy)
    requires Inv(c, {n}) && n in c.policies && c.policies[n] == p && !p.deleting && MetaInOrder(p)
    ensures Staged(c, n, p, Initialized(p.status), None, None) && LabelsMatch(p)
  {
    hide EnsuredLabels, InitAll;
    assert PolicyInv(c, n, p);
    PolicyLabels.EnsuredLabelsMeaning(p.labels, p.key, p.bucket);
  }

  lemma JustReadIsHeld(c: Cluster, n: NsName, p: Policy)
    requires Inv(c, {n}) && n in c.policies && c.policies[n] == p && p.deleting
    ensures Held(c, n, p) && OwnPair(c, n, p, StatusPair(p.status))
  {
    assert PolicyInv(c, n, p);
  }

  lemma ReconcileMeaning(w: World, n: NsName)
    requires Inv(w.c, {n})
    ensures Finished(Reconcile(w, n), n)
  {
    hide Inv, Staged, Held, OwnPair, Settled, Finalize, WriteMeta, ReconcileLive, LabelsMatch, MetaInOrder;
    InvOnArrival(w, {n});
    var got := GetPolicy(w, n);
    if got.r.Ok? {
      var p := got.r.value;
      if p.deleting {
        JustReadIsHeld(got.w.c, n, p);
        FinalizeMeaning(got.w, n, p);
      } else if MetaInOrder(p) {
        JustReadIsStaged(got.w.c, n, p);
        ReconcileLiveMeaning(got.w, n, p);
      } else {
        WriteMetaMeaning(got.w, n, p);
      }
    }
  }

  lemma {:induction false} ActionsKeepInv(c: Cluster, actions: seq<Action>, busy: set<NsName>)
    requires Inv(c, busy)
    ensures Inv(PerformAll(c, actions), busy)
    decreases |actions|
  {
    hide Inv, Perform;
    if actions != [] {
      ActionKeepsInv(c, actions[0], busy);
      ActionsKeepInv(Perform(c, actions[0]), actions[1..], busy);
    }
  }

  lemma InvOnArrival(w: World, busy: set<NsName>)
    requires Inv(w.c, busy)
    ensures Inv(Arrive(w), busy)
  {
    hide Inv;
    if w.tape != [] {
      ActionsKeepInv(w.c, w.tape[0].actions, busy);
    }
  }

  // ---------------------------------------------------------------- every run

  lemma TakenFromQueue(c: Cluster, n: NsName)
    requires Inv(c, {})
    ensures Inv(Taken(c, n), {n})
  {
    hide PolicyInv, Settled, AllApart;
    var d := Taken(c, n);
    RequeueKeepsBase(c, d);
    forall m | m !in {n} ensures Tended(d, m) {
      assert Tended(c, m);
      if m in c.policies && m !in d.queue && m !in d.timers {
        SettledRegardless(c, d, m);
      }
    }
  }

  lemma RequeueKeepsInv(end: End, n: NsName, crashed: bool)
    requires Finished(end, n)
    ensures Inv(Requeued(end.w.c, n, end.outcome, crashed), {})
  {
    hide PolicyInv, Settled, AllApart;
    var c := end.w.c;
    var d := Requeued(c, n, end.outcome, crashed);
    RequeueKeepsBase(c, d);
    forall m ensures Tended(d, m) {
      if m in c.policies && m !in d.queue && m !in d.timers {
        assert Tended(c, m);
        SettledRegardless(c, d, m);
      }
    }
  }

  /** Queue, timers and what is in hand do not matter to the rest of the invariant. */
  lemma RequeueKeepsBase(c: Cluster, d: Cluster)
    requires BaseInv(c) && d == c.(queue := d.queue, timers := d.timers, inHand := None)
    ensures BaseInv(d)
  {
    LessKeepsApart(c, d);
    hide AllApart;
    forall m | m in d.policies ensures PolicyInv(d, m, d.policies[m]) {
      assert PolicyInv(c, m, c.policies[m]);
    }
  }

  lemma SettledRegardless(c: Cluster, d: Cluster, m: NsName)
    requires d == c.(queue := d.queue, timers := d.timers, inHand := d.inHand) && m in c.policies && Settled(c, m, c.policies[m])
    ensures Settled(d, m, d.policies[m])
  {
  }

  lemma NextKeepsInv(c: Cluster, e: Event)
    requires Inv(c, {})
    ensures Inv(Next(c, e), {})
  {
    hide Inv, Reconcile, Requeued, Tended;
    match e {
      case Other(a) => ActionKeepsInv(c, a, {});
      case Work(n, tape) =>
        if n in c.queue {
          TakenFromQueue(c, n);
          ReconcileMeaning(World(Taken(c, n), tape), n);
          RequeueKeepsInv(Worked(c, n, tape), n, Worked(c, n, tape).w.tape == []);
        }
    }
  }

  /** Before the first policy. */
  ghost predicate Initial(c: Cluster) {
    c.policies == map[] && DependenciesInv(c) && GarageInv(c)
  }

  lemma {:induction false} InvAlways(c: Cluster, events: seq<Event>)
    requires Initial(c) || Inv(c, {})
    ensures Inv(Run(c, events), {})
    decreases |events|
  {
    if Initial(c) {
      assert Inv(c, {});
    }
    hide Inv, Initial;
    if events != [] {
      NextKeepsInv(c, events[0]);
      InvAlways(Next(c, events[0]), events[1..]);
    }
  }
}
