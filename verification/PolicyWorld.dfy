/**
 What the AccessPolicy controller talks to: the API server's AccessPolicies, AccessKeys and Buckets,
 Garage's permission table, its own work queue, and everybody who acts at the same time.

 Every remote call takes one entry from the front of the tape, as in AccessKeyWorld. The controller
 crashes when the tape runs out; a tape that is used up by the end of a reconcile means a crash
 before the queue is told.
 */
module PolicyWorld {
  import opened Common
  import opened Conditions
  import opened Permissions

  datatype Label = KeyLabel | BucketLabel | OtherLabel(name: Id)

  type Labels = map<Label, Id>

  datatype PolicyStatus = PolicyStatus(conditions: seq<Condition>, observedGeneration: int, bucketID: Id, accessKeyID: Id)

  const EMPTY_STATUS := PolicyStatus([], 0, NONE, NONE)

  datatype Policy = Policy(key: Id, bucket: Id, permissions: Permissions, generation: int, labels: Labels,
                           finalizer: bool, deleting: bool, version: int, status: PolicyStatus)

  /** An AccessKey or a Bucket, as far as a policy looks at it. */
  datatype Dependency = Dependency(id: Id, ready: bool, deleting: bool)

  datatype Action =
    | CreatePolicy(n: NsName, key: Id, bucket: Id, permissions: Permissions, labels: Labels)
    | DeletePolicy(n: NsName)
    | EditPermissions(n: NsName, permissions: Permissions)
    | EditLabels(n: NsName, labels: Labels)
    | PutKey(k: NsName, d: Dependency)
    | RemoveKey(k: NsName)
    | PutBucket(b: NsName, d: Dependency)
    | RemoveBucket(b: NsName)
    | AddGarageKey(id: Id)
    | RemoveGarageKey(id: Id)
    | AddGarageBucket(id: Id)
    | TimerFires(n: NsName)

  /** How the API server or Garage answers, and what others do before that. */
  datatype Fate = Fate(actions: seq<Action>, api: Reply, admin: Reply)

  /** The Garage bucket ID that the reconcile of policy n has read and works with. */
  datatype InHand = InHand(n: NsName, id: Id)

  /**
   queue holds the requests that are ready, timers those that wait for a delay. keyHome records the
   AccessKey that first named a Garage key in its status. In a lawful cluster others do only what the base
   assumptions permit.
   */
  datatype Cluster = Cluster(
    policies: map<NsName, Policy>,
    keys: map<NsName, Dependency>,
    buckets: map<NsName, Dependency>,
    garage: Garage,
    queue: set<NsName>,
    timers: set<NsName>,
    keyHome: map<Id, NsName>,
    inHand: Option<InHand>,
    clock: int,
    lawful: bool)

  datatype World = World(c: Cluster, tape: seq<Fate>)

  function KeyOf(n: NsName, p: Policy): NsName {
    NsName(n.ns, p.key)
  }

  function BucketOf(n: NsName, p: Policy): NsName {
    NsName(n.ns, p.bucket)
  }

  // ---------------------------------------------------------------- labels and watches

  function LabelOf(labels: Labels, tag: Label): Id {
    if tag in labels then labels[tag] else NONE
  }

  predicate LabelsMatch(p: Policy) {
    LabelOf(p.labels, KeyLabel) == p.key && LabelOf(p.labels, BucketLabel) == p.bucket
  }

  /** The policies that a list by label in one namespace returns. */
  function Labelled(c: Cluster, tag: Label, dependency: NsName): set<NsName> {
    set n | n in c.policies && n.ns == dependency.ns
            && tag in c.policies[n].labels && c.policies[n].labels[tag] == dependency.name
  }

  // ---------------------------------------------------------------- others

  /** A Garage key is only ever named by the AccessKey that named it first. */
  predicate HomeFor(home: map<Id, NsName>, id: Id, n: NsName) {
    id in home ==> home[id] == n
  }

  /** The Garage buckets that policy n has to do with: the recorded one, the one it refers to, and the one in hand. */
  function UsedBuckets(c: Cluster, n: NsName, p: Policy): set<Id> {
    var recorded := {p.status.bucketID};
    var referred := if BucketOf(n, p) in c.buckets then {c.buckets[BucketOf(n, p)].id} else {};
    var held := if c.inHand.Some? && c.inHand.value.n == n then {c.inHand.value.id} else {};
    recorded + referred + held - {NONE}
  }

  /** No two policies with the same key have to do with the same Garage bucket. */
  predicate AllApart(c: Cluster) {
    forall m, n | m in c.policies && n in c.policies && m != n && KeyOf(m, c.policies[m]) == KeyOf(n, c.policies[n]) ::
      UsedBuckets(c, m, c.policies[m]) !! UsedBuckets(c, n, c.policies[n])
  }

  function NewPolicy(key: Id, bucket: Id, permissions: Permissions, labels: Labels): Policy {
    Policy(key, bucket, permissions, 1, labels, false, false, 0, EMPTY_STATUS)
  }

  /**
   What the base assumptions let others do: at most one policy per key and bucket, whether these are
   resources or what they are in Garage; the AccessKey controller gives up a Garage key only while the
   AccessKey is being deleted, and names another or removes the AccessKey only once it is gone; a key named
   for the first time has no permissions yet, and no two AccessKeys name the same one.
   */
  predicate Permitted(c: Cluster, a: Action) {
    match a
    case CreatePolicy(n, key, bucket, permissions, labels) =>
      key != NONE && bucket != NONE
      && (forall m | m in c.policies :: !(m.ns == n.ns && c.policies[m].key == key && c.policies[m].bucket == bucket))
      && (n !in c.policies ==> AllApart(c.(policies := c.policies[n := NewPolicy(key, bucket, permissions, labels)])))
    case PutKey(k, d) =>
      (d.id != NONE ==> HomeFor(c.keyHome, d.id, k))
      && (d.id !in c.keyHome ==> forall p | p in c.garage.rows :: p.key != d.id)
      && (k in c.keys && c.keys[k].id != d.id ==> c.keys[k].id !in c.garage.keys)
      && (k in c.keys && c.keys[k].deleting && c.keys[k].id in c.garage.keys ==> d.deleting)
    case RemoveKey(k) => k in c.keys ==> c.keys[k].id !in c.garage.keys
    case PutBucket(b, d) => AllApart(c.(buckets := c.buckets[b := d]))
    case AddGarageKey(id) => id != NONE && id !in c.keyHome
    case AddGarageBucket(id) => id != NONE
    case RemoveGarageKey(id) =>
      id in c.keyHome ==> c.keyHome[id] in c.keys && c.keys[c.keyHome[id]].deleting
    case _ => true
  }

  function Enqueued(c: Cluster, ns: set<NsName>): Cluster {
    c.(queue := c.queue + ns)
  }

  /** Any change of a policy changes its version and is an event for it. */
  function WithPolicy(c: Cluster, n: NsName, p: Policy): Cluster {
    c.(policies := c.policies[n := p.(version := c.clock)], clock := c.clock + 1, queue := c.queue + {n})
  }

  function WithoutRows(g: Garage, key: Id): Garage {
    g.(keys := g.keys - {key}, rows := map p | p in g.rows && p.key != key :: g.rows[p])
  }

  function Perform(c: Cluster, a: Action): Cluster {
    if c.lawful && !Permitted(c, a) then c else
    match a
    case CreatePolicy(n, key, bucket, permissions, labels) =>
      if n in c.policies then c
      else WithPolicy(c, n, NewPolicy(key, bucket, permissions, labels))
    case DeletePolicy(n) =>
      if n !in c.policies then c
      else if !c.policies[n].finalizer then c.(policies := c.policies - {n}, queue := c.queue + {n})
      else WithPolicy(c, n, c.policies[n].(deleting := true, generation := c.policies[n].generation + 1))
    case EditPermissions(n, permissions) =>
      if n !in c.policies then c
      else WithPolicy(c, n, c.policies[n].(permissions := permissions, generation := c.policies[n].generation + 1))
    case EditLabels(n, labels) =>
      if n !in c.policies then c else WithPolicy(c, n, c.policies[n].(labels := labels))
    case PutKey(k, d) =>
      Enqueued(c.(keys := c.keys[k := d], keyHome := if d.id == NONE then c.keyHome else c.keyHome[d.id := k]),
               Labelled(c, KeyLabel, k))
    case RemoveKey(k) => Enqueued(c.(keys := c.keys - {k}), Labelled(c, KeyLabel, k))
    case PutBucket(b, d) =>
      Enqueued(c.(buckets := c.buckets[b := d]), Labelled(c, BucketLabel, b))
    case RemoveBucket(b) => Enqueued(c.(buckets := c.buckets - {b}), Labelled(c, BucketLabel, b))
    case AddGarageKey(id) => c.(garage := c.garage.(keys := c.garage.keys + {id}))
    case RemoveGarageKey(id) => c.(garage := WithoutRows(c.garage, id))
    case AddGarageBucket(id) => c.(garage := c.garage.(buckets := c.garage.buckets + {id}))
    case TimerFires(n) => if n in c.timers then c.(timers := c.timers - {n}, queue := c.queue + {n}) else c
  }

  function PerformAll(c: Cluster, actions: seq<Action>): Cluster
    decreases |actions|
  {
    if actions == [] then c else PerformAll(Perform(c, actions[0]), actions[1..])
  }

  // ---------------------------------------------------------------- remote calls

  function Arrive(w: World): Cluster {
    if w.tape == [] then w.c else PerformAll(w.c, w.tape[0].actions)
  }

  function Rest(w: World): seq<Fate> {
    if w.tape == [] then [] else w.tape[1..]
  }

  function ApiReply(w: World): Reply {
    if w.tape == [] then Refused(Unreachable) else w.tape[0].api
  }

  function AdminReply(w: World): Reply {
    if w.tape == [] then Refused(Unreachable) else w.tape[0].admin
  }

  datatype Call<+T> = Call(w: World, r: Result<T>)

  function Answer<T>(w: World, after: Cluster, r: Result<T>): Call<T> {
    match ApiReply(w)
    case Delivered => Call(World(after, Rest(w)), r)
    case Refused(_) => Call(World(Arrive(w), Rest(w)), Err(FaultOf(ApiReply(w))))
    case Lost => Call(World(after, Rest(w)), Err(Transient))
  }

  function GetPolicy(w: World, n: NsName): Call<Policy> {
    var a := Arrive(w);
    Answer(w, a, if n in a.policies then Ok(a.policies[n]) else Err(NotFound))
  }

  function GetKey(w: World, k: NsName): Call<Dependency> {
    var a := Arrive(w);
    Answer(w, a, if k in a.keys then Ok(a.keys[k]) else Err(NotFound))
  }

  /** From here on the reconcile of n has the ID of the bucket in hand. */
  function GetBucket(w: World, n: NsName, b: NsName): Call<Dependency> {
    var a := Arrive(w);
    if b in a.buckets then Answer(w, a.(inHand := Some(InHand(n, a.buckets[b].id))), Ok(a.buckets[b]))
    else Answer(w, a, Err(NotFound))
  }

  /** The names of the policies in the dependency's namespace that carry this label. */
  function ListByLabel(w: World, tag: Label, dependency: NsName): Call<seq<Id>> {
    var a := Arrive(w);
    Answer(w, a, Ok(Listing(set n | n in Labelled(a, tag, dependency) :: n.name)))
  }

  /** An update of labels and finalizer; a policy that is being deleted goes with its finalizer. */
  function UpdateMeta(w: World, n: NsName, version: int, labels: Labels, finalizer: bool): Call<()> {
    var a := Arrive(w);
    if n !in a.policies then Answer(w, a, Err(NotFound))
    else if a.policies[n].version != version then Answer(w, a, Err(Conflict))
    else if a.policies[n].deleting && !finalizer then
      Answer(w, a.(policies := a.policies - {n}, queue := a.queue + {n}), Ok(()))
    else Answer(w, WithPolicy(a, n, a.policies[n].(labels := labels, finalizer := finalizer)), Ok(()))
  }

  function PatchStatus(w: World, n: NsName, version: int, status: PolicyStatus): Call<()> {
    var a := Arrive(w);
    if n !in a.policies then Answer(w, a, Err(NotFound))
    else if a.policies[n].version != version then Answer(w, a, Err(Conflict))
    else Answer(w, WithPolicy(a, n, a.policies[n].(status := status)), Ok(()))
  }

  /** A request to Garage's permission table. */
  datatype Admin = Admin(w: World, error: Option<Error>)

  function DenyCall(w: World, p: Pair, flags: Permissions): Admin {
    var step := DenyBucketKey(Arrive(w).garage, p, flags, AdminReply(w));
    Admin(World(Arrive(w).(garage := step.g), Rest(w)), step.error)
  }

  function AllowCall(w: World, p: Pair, flags: Permissions): Admin {
    var step := AllowBucketKey(Arrive(w).garage, p, flags, AdminReply(w));
    Admin(World(Arrive(w).(garage := step.g), Rest(w)), step.error)
  }

  /** SetPermissions, with whatever others do between its two requests. */
  function SetCall(w: World, p: Pair, target: Permissions): Admin {
    var denied := DenyCall(w, p, Complement(target));
    if denied.error.Some? || target == NOTHING then denied else AllowCall(denied.w, p, target)
  }
}
