/** The label index: the watches find exactly the policies that refer to a key or bucket. */
module PolicyLabels {
  import opened Common
  import opened Conditions
  import opened Permissions
  import opened PolicyWorld
  import opened PolicySpec

  /** ensureLabels makes the labels say what the spec refers to, keeps the others, and is idempotent. */
  lemma EnsuredLabelsMeaning(labels: Labels, key: Id, bucket: Id)
    ensures var r := EnsuredLabels(labels, key, bucket);
            && LabelOf(r, KeyLabel) == key && LabelOf(r, BucketLabel) == bucket
            && (forall tag | tag != KeyLabel && tag != BucketLabel :: tag in r <==> tag in labels)
            && (forall tag | tag in labels && tag != KeyLabel && tag != BucketLabel :: r[tag] == labels[tag])
            && EnsuredLabels(r, key, bucket) == r
            && (r == labels <==> LabelOf(labels, KeyLabel) == key && LabelOf(labels, BucketLabel) == bucket)
  {
  }

  /** Only a user who edits the labels of n, or creates n again, can make its labels wrong. */
  predicate Relabels(a: Action, n: NsName) {
    (a.EditLabels? || a.CreatePolicy?) && a.n == n
  }

  ghost predicate Calm(tape: seq<Fate>, n: NsName) {
    forall f, a | f in tape && a in f.actions :: !Relabels(a, n)
  }

  ghost predicate LeavesLabels(e: Event, n: NsName) {
    match e
    case Other(a) => !Relabels(a, n)
    case Work(_, tape) => Calm(tape, n)
  }

  /** As long as n exists it refers to this key and bucket, and its labels say so. */
  ghost predicate Indexed(c: Cluster, n: NsName, key: Id, bucket: Id) {
    n in c.policies ==> c.policies[n].key == key && c.policies[n].bucket == bucket && LabelsMatch(c.policies[n])
  }

  ghost predicate Ahead(w: World, n: NsName, key: Id, bucket: Id) {
    Indexed(w.c, n, key, bucket) && Calm(w.tape, n)
  }

  lemma ActionKeepsIndexed(c: Cluster, a: Action, n: NsName, key: Id, bucket: Id)
    requires Indexed(c, n, key, bucket) && !Relabels(a, n)
    ensures Indexed(Perform(c, a), n, key, bucket)
  {
    hide Permitted, Labelled, WithoutRows;
  }

  lemma {:induction false} ActionsKeepIndexed(c: Cluster, actions: seq<Action>, n: NsName, key: Id, bucket: Id)
    requires Indexed(c, n, key, bucket) && forall a | a in actions :: !Relabels(a, n)
    ensures Indexed(PerformAll(c, actions), n, key, bucket)
    decreases |actions|
  {
    hide Indexed, Perform, Relabels;
    if actions != [] {
      ActionKeepsIndexed(c, actions[0], n, key, bucket);
      assert forall a | a in actions[1..] :: a in actions;
      ActionsKeepIndexed(Perform(c, actions[0]), actions[1..], n, key, bucket);
    }
  }

  lemma ArrivalKeepsAhead(w: World, n: NsName, key: Id, bucket: Id)
    requires Ahead(w, n, key, bucket)
    ensures Ahead(World(Arrive(w), Rest(w)), n, key, bucket)
  {
    hide Indexed, Relabels;
    if w.tape != [] {
      assert w.tape[0] in w.tape;
      ActionsKeepIndexed(w.c, w.tape[0].actions, n, key, bucket);
      assert forall f | f in w.tape[1..] :: f in w.tape;
    }
  }

  /** Labels are not looked at when Garage's table changes. */
  lemma SetKeepsAhead(w: World, q: Pair, target: Permissions, n: NsName, key: Id, bucket: Id)
    requires Ahead(w, n, key, bucket)
    ensures Ahead(SetCall(w, q, target).w, n, key, bucket)
  {
    hide Calm, LabelsMatch, DenyBucketKey, AllowBucketKey, Rest, Arrive, AdminReply;
    ArrivalKeepsAhead(w, n, key, bucket);
    var denied := DenyCall(w, q, Complement(target));
    ArrivalKeepsAhead(denied.w, n, key, bucket);
  }

  lemma BucketReadKeepsAhead(w: World, m: NsName, b: NsName, n: NsName, key: Id, bucket: Id)
    requires Ahead(w, n, key, bucket)
    ensures Ahead(GetBucket(w, m, b).w, n, key, bucket)
  {
    hide Calm, LabelsMatch, Arrive, Rest, ApiReply;
    ArrivalKeepsAhead(w, n, key, bucket);
  }

  lemma StagesKeepAhead(w: World, m: NsName, p: Policy, s: PolicyStatus, n: NsName, key: Id, bucket: Id)
    requires Ahead(w, n, key, bucket)
    ensures Ahead(BucketStage(w, m, p, s).w, n, key, bucket)
    ensures Ahead(KeyStage(w, m, p, s).w, n, key, bucket)
  {
    hide Ahead, SetCondition, SetCall, GetBucket, Arrive, Rest, ApiReply;
    ArrivalKeepsAhead(w, n, key, bucket);
    BucketReadKeepsAhead(w, m, BucketOf(m, p), n, key, bucket);
    var b := CheckBucket(w, m, p, s);
    SetKeepsAhead(b.w, StatusPair(b.status), NOTHING, n, key, bucket);
    var k := CheckAccessKey(w, m, p, s);
    SetKeepsAhead(k.w, StatusPair(k.status), NOTHING, n, key, bucket);
  }

  lemma ComputedKeepsAhead(w: World, m: NsName, p: Policy, n: NsName, key: Id, bucket: Id)
    requires Ahead(w, n, key, bucket)
    ensures Ahead(Computed(w, m, p).w, n, key, bucket)
  {
    hide Ahead, Initialized, Aggregated, SetCondition, SetCall, BucketStage, KeyStage;
    var s := Initialized(p.status);
    StagesKeepAhead(w, m, p, s, n, key, bucket);
    var b := BucketStage(w, m, p, s);
    StagesKeepAhead(b.w, m, p, b.status, n, key, bucket);
    var k := KeyStage(b.w, m, p, b.status);
    if b.r.Ok? && k.r.Ok? {
      SetKeepsAhead(k.w, Pair(k.r.value.id, b.r.value.id), p.permissions, n, key, bucket);
    }
  }

  lemma LiveKeepsAhead(w: World, m: NsName, p: Policy, n: NsName, key: Id, bucket: Id)
    requires Ahead(w, n, key, bucket)
    ensures Ahead(ReconcileLive(w, m, p).w, n, key, bucket)
  {
    hide Calm, Computed, Classified, Arrive, Rest, ApiReply;
    ComputedKeepsAhead(w, m, p, n, key, bucket);
    ArrivalKeepsAhead(Computed(w, m, p).w, n, key, bucket);
  }

  lemma WriteKeepsIndexed(c: Cluster, m: NsName, p: Policy, n: NsName, key: Id, bucket: Id)
    requires Indexed(c, n, key, bucket)
    requires m == n ==> p.key == key && p.bucket == bucket && LabelsMatch(p)
    ensures Indexed(WithPolicy(c, m, p), n, key, bucket)
  {
  }

  /** A write of labels that ensureLabels computed. */
  lemma MetaKeepsAhead(w: World, m: NsName, p: Policy, finalizer: bool, n: NsName, key: Id, bucket: Id)
    requires Ahead(w, n, key, bucket) && (m == n ==> p.key == key && p.bucket == bucket)
    ensures Ahead(UpdateMeta(w, m, p.version, EnsuredLabels(p.labels, p.key, p.bucket), finalizer).w, n, key, bucket)
  {
    hide Calm, Arrive, Rest, ApiReply, EnsuredLabels, WithPolicy;
    ArrivalKeepsAhead(w, n, key, bucket);
    var labels := EnsuredLabels(p.labels, p.key, p.bucket);
    EnsuredLabelsMeaning(p.labels, p.key, p.bucket);
    var a := Arrive(w);
    if m in a.policies {
      WriteKeepsIndexed(a, m, a.policies[m].(labels := labels, finalizer := finalizer), n, key, bucket);
    }
    hide LabelsMatch;
  }

  lemma FinalizeKeepsAhead(w: World, m: NsName, p: Policy, n: NsName, key: Id, bucket: Id)
    requires Ahead(w, n, key, bucket) && (m == n ==> p.key == key && p.bucket == bucket)
    ensures Ahead(Finalize(w, m, p).w, n, key, bucket)
  {
    hide Ahead, SetCall, UpdateMeta, EnsuredLabels;
    MetaKeepsAhead(w, m, p, false, n, key, bucket);
    SetKeepsAhead(w, StatusPair(p.status), NOTHING, n, key, bucket);
    MetaKeepsAhead(SetCall(w, StatusPair(p.status), NOTHING).w, m, p, false, n, key, bucket);
  }

  lemma ReconcileKeepsAhead(w: World, m: NsName, n: NsName, key: Id, bucket: Id)
    requires Ahead(w, n, key, bucket)
    ensures Ahead(Reconcile(w, m).w, n, key, bucket)
  {
    hide Calm, LabelsMatch, MetaInOrder, Finalize, ReconcileLive, UpdateMeta, EnsuredLabels, Rest, Arrive, ApiReply;
    ArrivalKeepsAhead(w, n, key, bucket);
    var got := GetPolicy(w, m);
    if got.r.Ok? {
      FinalizeKeepsAhead(got.w, m, got.r.value, n, key, bucket);
      MetaKeepsAhead(got.w, m, got.r.value, true, n, key, bucket);
      LiveKeepsAhead(got.w, m, got.r.value, n, key, bucket);
    }
  }

  lemma NextKeepsIndexed(c: Cluster, e: Event, n: NsName, key: Id, bucket: Id)
    requires Indexed(c, n, key, bucket) && LeavesLabels(e, n)
    ensures Indexed(Next(c, e), n, key, bucket)
  {
    hide Reconcile, Perform, LabelsMatch;
    match e {
      case Other(a) => ActionKeepsIndexed(c, a, n, key, bucket);
      case Work(m, tape) =>
        ReconcileKeepsAhead(World(Taken(c, m), tape), m, n, key, bucket);
    }
  }

  lemma {:induction false} IndexedAlways(c: Cluster, events: seq<Event>, n: NsName, key: Id, bucket: Id)
    requires Indexed(c, n, key, bucket) && forall e | e in events :: LeavesLabels(e, n)
    ensures Indexed(Run(c, events), n, key, bucket)
    decreases |events|
  {
    hide Indexed, Next, LeavesLabels;
    if events != [] {
      NextKeepsIndexed(c, events[0], n, key, bucket);
      assert forall e | e in events[1..] :: e in events;
      IndexedAlways(Next(c, events[0]), events[1..], n, key, bucket);
    }
  }

  /**
   Once the labels of n are right they stay right until a user changes them, through every
   reconcile, crash and concurrent change: a list by label finds n exactly for the key and the bucket
   that its spec names, and those never change.
   */
  lemma LabelIndexAgrees(c: Cluster, events: seq<Event>, n: NsName, dependency: NsName)
    requires n in c.policies && LabelsMatch(c.policies[n]) && c.policies[n].key != NONE && c.policies[n].bucket != NONE
    requires forall e | e in events :: LeavesLabels(e, n)
    requires n in Run(c, events).policies
    ensures var d := Run(c, events);
            var p := d.policies[n];
            && p.key == c.policies[n].key && p.bucket == c.policies[n].bucket
            && (n in Labelled(d, KeyLabel, dependency) <==> KeyOf(n, p) == dependency)
            && (n in Labelled(d, BucketLabel, dependency) <==> BucketOf(n, p) == dependency)
  {
    hide Run;
    IndexedAlways(c, events, n, c.policies[n].key, c.policies[n].bucket);
  }
}
