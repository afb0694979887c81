/**
 What the AccessKey controller talks to: the API server's AccessKeys and Secrets, Garage's keys, and
 the users who act at the same time.

 Every remote call takes one entry from the front of the tape. The entry lists what others do before
 the request is served, and says how the call ends. When the tape runs out the controller has
 crashed: no later call has an effect. A tape cut short after k calls therefore leaves the world
 as it was after the k-th call of the uncut run, so what is proved for every tape holds between any
 two calls as well.
 */
module AccessKeyWorld {
  import opened Common
  import opened Conditions

  /** namespacedResourceName: namespace, name and a hash of the UID, taken to be injective. */
  datatype ExtName = ExtName(owner: NsName, uid: Id)

  /** A key in Garage; its secret is shown to whoever reads the key. */
  datatype GarageKey = GarageKey(name: ExtName, secret: Id)

  datatype S3Key = S3Key(id: Id, secret: Id)

  /** controller is the UID in the controlling owner reference. */
  datatype Secret = Secret(controller: Option<Id>, accessKeyID: Id, secretAccessKey: Id)

  type Secrets = map<NsName, Secret>

  datatype KeyStatus = KeyStatus(conditions: seq<Condition>, observedGeneration: int, accessKeyID: Id, secretName: Id)

  const EMPTY_STATUS := KeyStatus([], 0, NONE, NONE)

  /** version is the resource version, which every write changes. */
  datatype KeyObject = KeyObject(uid: Id, generation: int, secretName: Id, finalizer: bool, deleting: bool,
                                 version: int, status: KeyStatus)

  datatype Action =
    | CreateKeyObject(n: NsName, uid: Id, secretName: Id)
    | DeleteKeyObject(n: NsName)
    | EditSecretName(n: NsName, secretName: Id)
    | EditMetadata(n: NsName)
    | CreateUserSecret(s: NsName, secret: Secret)
    | DeleteUserSecret(s: NsName)
    | CollectSecret(s: NsName)
    | RemoveKeyOutOfBand(id: Id)

  datatype Fate = Fate(actions: seq<Action>, reply: Reply)

  /**
   minted counts how often a key of each name was created, uids holds every UID ever used, and
   claims records which AccessKey a Secret name was first given to. In a lawful cluster others do only
   what the base assumptions permit.
   */
  datatype Cluster = Cluster(
    objects: map<NsName, KeyObject>,
    secrets: Secrets,
    keys: map<Id, GarageKey>,
    minted: multiset<ExtName>,
    uids: set<Id>,
    claims: map<NsName, NsName>,
    clock: int,
    lawful: bool)

  /** The cluster and what is going to happen to the coming calls of the controller. */
  datatype World = World(c: Cluster, tape: seq<Fate>)

  function SecretOf(n: NsName, secretName: Id): NsName {
    NsName(n.ns, secretName)
  }

  // ---------------------------------------------------------------- users

  /** A Secret name belongs to at most one AccessKey, and users leave it alone once it does. */
  predicate Claimable(c: Cluster, n: NsName, secretName: Id) {
    var s := SecretOf(n, secretName);
    secretName != NONE && (s in c.claims ==> c.claims[s] == n)
  }

  /** What the base assumptions let others do. */
  predicate Permitted(c: Cluster, a: Action) {
    match a
    case CreateKeyObject(n, uid, secretName) => Claimable(c, n, secretName)
    case EditSecretName(n, secretName) => Claimable(c, n, secretName)
    case CreateUserSecret(s, _) => s !in c.claims
    case RemoveKeyOutOfBand(_) => false
    case _ => true
  }

  predicate AliveUid(c: Cluster, uid: Id) {
    exists n | n in c.objects :: c.objects[n].uid == uid
  }

  function Perform(c: Cluster, a: Action): Cluster {
    if c.lawful && !Permitted(c, a) then c else Effect(c, a)
  }

  /** The effect of an action; the API server refuses one that makes no sense. */
  function Effect(c: Cluster, a: Action): Cluster {
    match a
    case CreateKeyObject(n, uid, secretName) =>
      if n in c.objects || uid in c.uids then c
      else c.(objects := c.objects[n := KeyObject(uid, 1, secretName, false, false, c.clock, EMPTY_STATUS)],
              uids := c.uids + {uid}, claims := c.claims[SecretOf(n, secretName) := n], clock := c.clock + 1)
    case DeleteKeyObject(n) =>
      if n !in c.objects then c
      else if !c.objects[n].finalizer then c.(objects := c.objects - {n})
      else
        var o := c.objects[n];
        c.(objects := c.objects[n := o.(deleting := true, generation := o.generation + 1, version := c.clock)],
           clock := c.clock + 1)
    case EditSecretName(n, secretName) =>
      if n !in c.objects then c
      else
        var o := c.objects[n];
        c.(objects := c.objects[n := o.(secretName := secretName, generation := o.generation + 1, version := c.clock)],
           claims := c.claims[SecretOf(n, secretName) := n], clock := c.clock + 1)
    case EditMetadata(n) =>
      if n !in c.objects then c
      else c.(objects := c.objects[n := c.objects[n].(version := c.clock)], clock := c.clock + 1)
    case CreateUserSecret(s, secret) =>
      if s in c.secrets || secret.controller.Some? then c else c.(secrets := c.secrets[s := secret])
    case DeleteUserSecret(s) =>
      if s in c.secrets && c.secrets[s].controller.None? then c.(secrets := c.secrets - {s}) else c
    case CollectSecret(s) =>
      if s in c.secrets && c.secrets[s].controller.Some? && !AliveUid(c, c.secrets[s].controller.value)
      then c.(secrets := c.secrets - {s}) else c
    case RemoveKeyOutOfBand(id) => c.(keys := c.keys - {id})
  }

  function PerformAll(c: Cluster, actions: seq<Action>): Cluster
    decreases |actions|
  {
    if actions == [] then c else PerformAll(Perform(c, actions[0]), actions[1..])
  }

  // ---------------------------------------------------------------- remote calls

  /** The cluster when the next request is served. */
  function Arrive(w: World): Cluster {
    if w.tape == [] then w.c else PerformAll(w.c, w.tape[0].actions)
  }

  /** How the next request ends; after a crash none does anything. */
  function ReplyTo(w: World): Reply {
    if w.tape == [] then Refused(Unreachable) else w.tape[0].reply
  }

  datatype Call<+T> = Call(w: World, r: Result<T>)

  /** The end of a request that would change the cluster to after and be answered with r. */
  function Answer<T>(w: World, after: Cluster, r: Result<T>): Call<T> {
    var rest := if w.tape == [] then [] else w.tape[1..];
    match ReplyTo(w)
    case Delivered => Call(World(after, rest), r)
    case Refused(_) => Call(World(Arrive(w), rest), Err(FaultOf(ReplyTo(w))))
    case Lost => Call(World(after, rest), Err(Transient))
  }

  function GetObject(w: World, n: NsName): Call<KeyObject> {
    var a := Arrive(w);
    Answer(w, a, if n in a.objects then Ok(a.objects[n]) else Err(NotFound))
  }

  /** A merge patch without a resource version: it applies to whatever object has that name now. */
  function PatchFinalizer(w: World, n: NsName): Call<KeyObject> {
    var a := Arrive(w);
    if n !in a.objects then Answer(w, a, Err(NotFound))
    else
      var o := a.objects[n].(finalizer := true, version := a.clock);
      Answer(w, a.(objects := a.objects[n := o], clock := a.clock + 1), Ok(o))
  }

  /** An update that drops the finalizer; an object that is being deleted goes with its last finalizer. */
  function UpdateWithoutFinalizer(w: World, n: NsName, version: int): Call<()> {
    var a := Arrive(w);
    if n !in a.objects then Answer(w, a, Err(NotFound))
    else if a.objects[n].version != version then Answer(w, a, Err(Conflict))
    else if a.objects[n].deleting then Answer(w, a.(objects := a.objects - {n}), Ok(()))
    else
      var o := a.objects[n].(finalizer := false, version := a.clock);
      Answer(w, a.(objects := a.objects[n := o], clock := a.clock + 1), Ok(()))
  }

  function UpdateStatus(w: World, n: NsName, version: int, status: KeyStatus): Call<()> {
    var a := Arrive(w);
    if n !in a.objects then Answer(w, a, Err(NotFound))
    else if a.objects[n].version != version then Answer(w, a, Err(Conflict))
    else
      var o := a.objects[n].(status := status, version := a.clock);
      Answer(w, a.(objects := a.objects[n := o], clock := a.clock + 1), Ok(()))
  }

  function GarageGet(w: World, id: Id): Call<S3Key> {
    var a := Arrive(w);
    Answer(w, a, if id in a.keys then Ok(S3Key(id, a.keys[id].secret)) else Err(NotFound))
  }

  /** The keys in Garage that carry this name. */
  function Matches(c: Cluster, name: ExtName): set<Id> {
    set id | id in c.keys && c.keys[id].name == name
  }

  /** Garage refuses a lookup that matches several keys. */
  function GarageLookup(w: World, name: ExtName): Call<S3Key> {
    var a := Arrive(w);
    var matches := Matches(a, name);
    Answer(w, a,
           if matches == {} then Err(NotFound)
           else if exists id | id in a.keys :: matches == {id} then
             var id :| id in a.keys && matches == {id};
             Ok(S3Key(id, a.keys[id].secret))
           else Err(MultipleMatches))
  }

  /** Garage does not refuse a second key of the same name. IDs are fresh, secrets are not IDs. */
  function GarageCreate(w: World, name: ExtName): Call<S3Key> {
    var a := Arrive(w);
    var id := a.clock;
    var after := a.(keys := a.keys[id := GarageKey(name, -id)], minted := a.minted + multiset{name}, clock := id + 1);
    Answer(w, after, Ok(S3Key(id, -id)))
  }

  function GarageDelete(w: World, id: Id): Call<()> {
    var a := Arrive(w);
    if id in a.keys then Answer(w, a.(keys := a.keys - {id}), Ok(())) else Answer(w, a, Err(NotFound))
  }

  function GetSecret(w: World, s: NsName): Call<Secret> {
    var a := Arrive(w);
    Answer(w, a, if s in a.secrets then Ok(a.secrets[s]) else Err(NotFound))
  }

  function CreateSecret(w: World, s: NsName, secret: Secret): Call<()> {
    var a := Arrive(w);
    if s in a.secrets then Answer(w, a, Err(Conflict))
    else Answer(w, a.(secrets := a.secrets[s := secret]), Ok(()))
  }

  /** An update is refused unless the Secret still is the one that was read. */
  function UpdateSecret(w: World, s: NsName, read: Secret, secret: Secret): Call<()> {
    var a := Arrive(w);
    if s !in a.secrets then Answer(w, a, Err(NotFound))
    else if a.secrets[s] != read then Answer(w, a, Err(Conflict))
    else Answer(w, a.(secrets := a.secrets[s := secret]), Ok(()))
  }

  function DeleteSecret(w: World, s: NsName): Call<()> {
    var a := Arrive(w);
    if s in a.secrets then Answer(w, a.(secrets := a.secrets - {s}), Ok(())) else Answer(w, a, Err(NotFound))
  }
}
