/**
 What the Bucket controller talks to: the API server's Buckets, ConfigMaps and Secrets, Garage's
 buckets, aliases and permissions, and everybody who acts at the same time.

 Every remote call takes one entry from the front of the tape, as in AccessKeyWorld, and leaves an
 entry in the log of the reconcile that makes it.
 */
module BucketWorld {
  import opened Common
  import opened Conditions
  import opened Permissions
  import opened Quotas

  /** A global alias. Suffixed is suffixedResourceName, a name with a hash of the UID, taken to be injective. */
  datatype Alias = Suffixed(name: Id, uid: Id) | Plain(name: Id)

  /** Either spec.name or spec.existingBucket; the API server admits no third case. */
  datatype Source = New(name: Id) | Existing(alias: Alias, ownerKeySecret: Id)

  datatype Spec = Spec(source: Source, quotas: Quotas, configMapName: Id)

  datatype BucketStatus = BucketStatus(conditions: seq<Condition>, observedGeneration: int, bucketID: Id, bucketName: Option<Alias>)

  const EMPTY_STATUS := BucketStatus([], 0, NONE, None)

  datatype BucketObject = BucketObject(uid: Id, generation: int, spec: Spec, version: int, status: BucketStatus)

  /** controller is the UID in the controlling owner reference, tag the value of the bucket label. */
  datatype ConfigMap = ConfigMap(controller: Option<Id>, tag: Id, bucketName: Option<Alias>, endpoint: Id)

  /** A bucket as the admin client returns it. */
  datatype S3Bucket = S3Bucket(id: Id, quotas: Quotas)

  datatype Action =
    | CreateBucketObject(n: NsName, uid: Id, spec: Spec)
    | DeleteBucketObject(n: NsName)
    | EditSpec(n: NsName, spec: Spec)
    | EditMetadata(n: NsName)
    | PutUserConfigMap(s: NsName, cm: ConfigMap)
    | DeleteConfigMapObject(s: NsName)
    | CollectConfigMap(s: NsName)
    | PutSecret(s: NsName, keyID: Id)
    | RemoveSecret(s: NsName)
    | AddGarageBucket(alias: Alias, quotas: WireQuotas)
    | AddAlias(alias: Alias, id: Id)
    | PutGarageKey(id: Id)
    | RemoveGarageKey(id: Id)
    | PutPermissions(pair: Pair, permissions: Permissions)

  datatype Fate = Fate(actions: seq<Action>, reply: Reply)

  /**
   minted counts how often the controller created a Garage bucket under each alias, names records the
   spec.name that each UID was created with. In a lawful cluster nobody switches a Bucket between
   spec.name and spec.existingBucket.
   */
  datatype Cluster = Cluster(
    objects: map<NsName, BucketObject>,
    configMaps: map<NsName, ConfigMap>,
    secrets: map<NsName, Id>,
    buckets: map<Id, WireQuotas>,
    aliases: map<Alias, Id>,
    keys: set<Id>,
    rows: map<Pair, Permissions>,
    minted: multiset<Alias>,
    names: map<Id, Id>,
    uids: set<Id>,
    clock: int,
    lawful: bool)

  /** What a reconcile did and saw, as far as the properties of whole reconciles need it. */
  datatype Entry =
    | SecretRead(s: NsName, keyID: Id)
    | PermissionsRead(pair: Pair, permissions: Permissions)
    | BucketCreated(alias: Alias)
    | QuotasSent(id: Id, quotas: Quotas)
    | ConfigMapSent(s: NsName, cm: ConfigMap)
    | ConfigMapDeleted(s: NsName, victim: Option<ConfigMap>)
    | StatusSent(n: NsName)

  datatype World = World(c: Cluster, tape: seq<Fate>, log: seq<Entry>)

  /** The name of the ConfigMap that a Bucket asks for. */
  function ConfigMapOf(n: NsName, spec: Spec): NsName {
    NsName(n.ns, if spec.configMapName == NONE then n.name else spec.configMapName)
  }

  function AliasOf(o: BucketObject): Alias {
    match o.spec.source
    case New(name) => Suffixed(name, o.uid)
    case Existing(alias, _) => alias
  }

  // ---------------------------------------------------------------- others

  predicate AliveUid(c: Cluster, uid: Id) {
    exists n | n in c.objects :: c.objects[n].uid == uid
  }

  /** The rules of the CRD: neither name can be edited, though one can be exchanged for the other. */
  predicate Admitted(old_: Source, new_: Source) {
    match (old_, new_)
    case (New(a), New(b)) => a == b
    case (Existing(a, _), Existing(b, _)) => a == b
    case _ => true
  }

  predicate Switches(old_: Source, new_: Source) {
    old_.New? != new_.New?
  }

  function Created(c: Cluster, n: NsName, uid: Id, spec: Spec): Cluster {
    if n in c.objects || uid in c.uids then c
    else c.(objects := c.objects[n := BucketObject(uid, 1, spec, c.clock, EMPTY_STATUS)], uids := c.uids + {uid},
            names := if spec.source.New? then c.names[uid := spec.source.name] else c.names, clock := c.clock + 1)
  }

  function Edited(c: Cluster, n: NsName, spec: Spec): Cluster {
    if n !in c.objects || !Admitted(c.objects[n].spec.source, spec.source)
       || (c.lawful && Switches(c.objects[n].spec.source, spec.source)) then c
    else
      var o := c.objects[n];
      c.(objects := c.objects[n := o.(spec := spec, generation := o.generation + 1, version := c.clock)], clock := c.clock + 1)
  }

  function Touched(c: Cluster, n: NsName): Cluster {
    if n !in c.objects then c
    else c.(objects := c.objects[n := c.objects[n].(version := c.clock)], clock := c.clock + 1)
  }

  /** Users leave the ConfigMaps that have a controller alone, or delete them. */
  function UserMapPut(c: Cluster, s: NsName, cm: ConfigMap): Cluster {
    if cm.controller.Some? || (s in c.configMaps && c.configMaps[s].controller.Some?) then c
    else c.(configMaps := c.configMaps[s := cm])
  }

  /** Garbage collection of what belonged to an object that is gone. */
  function Collected(c: Cluster, s: NsName): Cluster {
    if s in c.configMaps && c.configMaps[s].controller.Some? && !AliveUid(c, c.configMaps[s].controller.value)
    then c.(configMaps := c.configMaps - {s}) else c
  }

  function Perform(c: Cluster, a: Action): Cluster {
    match a
    case CreateBucketObject(n, uid, spec) => Created(c, n, uid, spec)
    case DeleteBucketObject(n) => c.(objects := c.objects - {n})
    case EditSpec(n, spec) => Edited(c, n, spec)
    case EditMetadata(n) => Touched(c, n)
    case PutUserConfigMap(s, cm) => UserMapPut(c, s, cm)
    case DeleteConfigMapObject(s) => c.(configMaps := c.configMaps - {s})
    case CollectConfigMap(s) => Collected(c, s)
    case PutSecret(s, keyID) => c.(secrets := c.secrets[s := keyID])
    case RemoveSecret(s) => c.(secrets := c.secrets - {s})
    case AddGarageBucket(alias, quotas) => if alias in c.aliases || !Unsigned(quotas) then c else WithBucket(c, alias, quotas)
    case AddAlias(alias, id) =>
      if alias in c.aliases || id !in c.buckets then c else c.(aliases := c.aliases[alias := id])
    case PutGarageKey(id) => c.(keys := c.keys + {id})
    case RemoveGarageKey(id) => c.(keys := c.keys - {id})
    case PutPermissions(pair, permissions) => c.(rows := c.rows[pair := permissions])
  }

  /** A new Garage bucket gets an ID that was never used. */
  function WithBucket(c: Cluster, alias: Alias, quotas: WireQuotas): Cluster {
    c.(buckets := c.buckets[c.clock := quotas], aliases := c.aliases[alias := c.clock], clock := c.clock + 1)
  }

  function PerformAll(c: Cluster, actions: seq<Action>): Cluster
    decreases |actions|
  {
    if actions == [] then c else PerformAll(Perform(c, actions[0]), actions[1..])
  }

  // ---------------------------------------------------------------- remote calls

  function Arrive(w: World): Cluster {
    if w.tape == [] then w.c else PerformAll(w.c, w.tape[0].actions)
  }

  function Rest(w: World): seq<Fate> {
    if w.tape == [] then [] else w.tape[1..]
  }

  function ReplyTo(w: World): Reply {
    if w.tape == [] then Refused(Unreachable) else w.tape[0].reply
  }

  datatype Call<+T> = Call(w: World, r: Result<T>)

  /** The end of a request that would change the cluster to after and be answered with r. */
  function Answer<T>(w: World, after: Cluster, entries: seq<Entry>, r: Result<T>): Call<T> {
    var log := w.log + entries;
    match ReplyTo(w)
    case Delivered => Call(World(after, Rest(w), log), r)
    case Refused(_) => Call(World(Arrive(w), Rest(w), log), Err(FaultOf(ReplyTo(w))))
    case Lost => Call(World(after, Rest(w), log), Err(Transient))
  }

  /** A read leaves an entry only if its answer arrives. */
  function Read<T>(w: World, entries: seq<Entry>, r: Result<T>): Call<T> {
    Answer(w, Arrive(w), if ReplyTo(w).Delivered? then entries else [], r)
  }

  function GetObject(w: World, n: NsName): Call<BucketObject> {
    var a := Arrive(w);
    Read(w, [], if n in a.objects then Ok(a.objects[n]) else Err(NotFound))
  }

  /** A Secret without the key's entry reads as an empty key ID. */
  function GetSecret(w: World, s: NsName): Call<Id> {
    var a := Arrive(w);
    if s in a.secrets then Read(w, [SecretRead(s, a.secrets[s])], Ok(a.secrets[s])) else Read(w, [], Err(NotFound))
  }

  function GarageGet(w: World, alias: Alias): Call<S3Bucket> {
    var a := Arrive(w);
    Read(w, [], if alias in a.aliases && a.aliases[alias] in a.buckets
                then Ok(S3Bucket(a.aliases[alias], ToS3(a.buckets[a.aliases[alias]]))) else Err(NotFound))
  }

  const UNLIMITED := WireQuotas(None, None)

  /** Garage refuses an alias that is taken. */
  function GarageCreate(w: World, alias: Alias): Call<S3Bucket> {
    var a := Arrive(w);
    if alias in a.aliases then Answer(w, a, [BucketCreated(alias)], Err(Conflict))
    else
      Answer(w, WithBucket(a, alias, UNLIMITED).(minted := a.minted + multiset{alias}), [BucketCreated(alias)],
             Ok(S3Bucket(a.clock, ToS3(UNLIMITED))))
  }

  function GarageUpdate(w: World, id: Id, quotas: Quotas): Call<()> {
    var a := Arrive(w);
    if id !in a.buckets then Answer(w, a, [QuotasSent(id, quotas)], Err(NotFound))
    else Answer(w, a.(buckets := a.buckets[id := FromS3(quotas)]), [QuotasSent(id, quotas)], Ok(()))
  }

  function ReadPermissions(w: World, pair: Pair): Call<Permissions> {
    var a := Arrive(w);
    var held := if pair in a.rows then a.rows[pair] else NOTHING;
    if pair.key in a.keys then Read(w, [PermissionsRead(pair, held)], Ok(held)) else Read(w, [], Err(NotFound))
  }

  function GetConfigMap(w: World, s: NsName): Call<ConfigMap> {
    var a := Arrive(w);
    Read(w, [], if s in a.configMaps then Ok(a.configMaps[s]) else Err(NotFound))
  }

  function CreateConfigMap(w: World, s: NsName, cm: ConfigMap): Call<()> {
    var a := Arrive(w);
    if s in a.configMaps then Answer(w, a, [ConfigMapSent(s, cm)], Err(Conflict))
    else Answer(w, a.(configMaps := a.configMaps[s := cm]), [ConfigMapSent(s, cm)], Ok(()))
  }

  /** An update is refused unless the ConfigMap still is the one that was read. */
  function UpdateConfigMap(w: World, s: NsName, read: ConfigMap, cm: ConfigMap): Call<()> {
    var a := Arrive(w);
    if s !in a.configMaps then Answer(w, a, [ConfigMapSent(s, cm)], Err(NotFound))
    else if a.configMaps[s] != read then Answer(w, a, [ConfigMapSent(s, cm)], Err(Conflict))
    else Answer(w, a.(configMaps := a.configMaps[s := cm]), [ConfigMapSent(s, cm)], Ok(()))
  }

  /** One item of a list: a ConfigMap's name and its controller at that time. */
  datatype Item = Item(name: Id, controller: Option<Id>)

  function Tagged(c: Cluster, ns: Id, tag: Id): set<Id> {
    set s | s in c.configMaps && s.ns == ns && c.configMaps[s].tag == tag :: s.name
  }

  function ItemOf(c: Cluster, s: NsName): Item {
    Item(s.name, if s in c.configMaps then c.configMaps[s].controller else None)
  }

  function Items(c: Cluster, ns: Id, names: seq<Id>): (r: seq<Item>)
    ensures |r| == |names|
    ensures forall i | 0 <= i < |r| :: r[i] == ItemOf(c, NsName(ns, names[i]))
  {
    if names == [] then [] else [ItemOf(c, NsName(ns, names[0]))] + Items(c, ns, names[1..])
  }

  /** The ConfigMaps of a namespace that carry the bucket label with this value. */
  function ListConfigMaps(w: World, ns: Id, tag: Id): Call<seq<Item>> {
    var a := Arrive(w);
    Read(w, [], Ok(Items(a, ns, Listing(Tagged(a, ns, tag)))))
  }

  /** The ConfigMap that a delete takes away, if any. */
  function Victim(w: World, s: NsName): Option<ConfigMap> {
    if s in Arrive(w).configMaps && !ReplyTo(w).Refused? then Some(Arrive(w).configMaps[s]) else None
  }

  /** A delete names the ConfigMap and nothing more. */
  function DeleteConfigMap(w: World, s: NsName): Call<()> {
    var a := Arrive(w);
    var entries := [ConfigMapDeleted(s, Victim(w, s))];
    if s !in a.configMaps then Answer(w, a, entries, Err(NotFound))
    else Answer(w, a.(configMaps := a.configMaps - {s}), entries, Ok(()))
  }

  /** The reason "Update Failed" does not match the pattern that the CRD demands of reasons. */
  predicate Malformed(s: BucketStatus) {
    exists c | c in s.conditions :: c.reason == UpdateFailed
  }

  function PatchStatus(w: World, n: NsName, version: int, status: BucketStatus): Call<()> {
    var a := Arrive(w);
    if n !in a.objects then Answer(w, a, [StatusSent(n)], Err(NotFound))
    else if a.objects[n].version != version then Answer(w, a, [StatusSent(n)], Err(Conflict))
    else if Malformed(status) then Answer(w, a, [StatusSent(n)], Err(Invalid))
    else Answer(w, WithStatus(a, n, status), [StatusSent(n)], Ok(()))
  }

  function WithStatus(c: Cluster, n: NsName, status: BucketStatus): Cluster
    requires n in c.objects
  {
    c.(objects := c.objects[n := c.objects[n].(status := status, version := c.clock)], clock := c.clock + 1)
  }
}
