/**
 The Bucket reconciler as it is written: methods that change the Bucket in memory and call the API
 server and Garage, each proved to do what BucketSpec says.
 */
module BucketReconciler {
  import opened Common
  import opened Conditions
  import opened Permissions
  import opened Quotas
  import opened BucketWorld
  import opened BucketSpec
  import Backoff

  /** The API server's client, the Garage admin client and the ownership verifier. */
  class Clients {
    var world: World

    constructor (world: World)
      ensures this.world == world
    {
      this.world := world;
    }

    method Get(n: NsName) returns (r: Result<BucketObject>)
      modifies this
      ensures Call(world, r) == GetObject(old(world), n)
    {
      var call := GetObject(world, n);
      world, r := call.w, call.r;
    }

    method SecretGet(s: NsName) returns (r: Result<Id>)
      modifies this
      ensures Call(world, r) == GetSecret(old(world), s)
    {
      var call := GetSecret(world, s);
      world, r := call.w, call.r;
    }

    method BucketGet(alias: Alias) returns (r: Result<S3Bucket>)
      modifies this
      ensures Call(world, r) == GarageGet(old(world), alias)
    {
      var call := GarageGet(world, alias);
      world, r := call.w, call.r;
    }

    method BucketCreate(alias: Alias) returns (r: Result<S3Bucket>)
      modifies this
      ensures Call(world, r) == GarageCreate(old(world), alias)
    {
      var call := GarageCreate(world, alias);
      world, r := call.w, call.r;
    }

    method BucketUpdate(id: Id, quotas: Quotas) returns (r: Result<()>)
      modifies this
      ensures Call(world, r) == GarageUpdate(old(world), id, quotas)
    {
      var call := GarageUpdate(world, id, quotas);
      world, r := call.w, call.r;
    }

    method PermissionsGet(keyID: Id, bucketID: Id) returns (r: Result<Permissions>)
      modifies this
      ensures Call(world, r) == ReadPermissions(old(world), Pair(keyID, bucketID))
    {
      var call := ReadPermissions(world, Pair(keyID, bucketID));
      world, r := call.w, call.r;
    }

    method MapGet(s: NsName) returns (r: Result<ConfigMap>)
      modifies this
      ensures Call(world, r) == GetConfigMap(old(world), s)
    {
      var call := GetConfigMap(world, s);
      world, r := call.w, call.r;
    }

    method MapCreate(s: NsName, cm: ConfigMap) returns (r: Result<()>)
      modifies this
      ensures Call(world, r) == CreateConfigMap(old(world), s, cm)
    {
      var call := CreateConfigMap(world, s, cm);
      world, r := call.w, call.r;
    }

    method MapUpdate(s: NsName, read: ConfigMap, cm: ConfigMap) returns (r: Result<()>)
      modifies this
      ensures Call(world, r) == UpdateConfigMap(old(world), s, read, cm)
    {
      var call := UpdateConfigMap(world, s, read, cm);
      world, r := call.w, call.r;
    }

    method MapList(ns: Id, tag: Id) returns (r: Result<seq<Item>>)
      modifies this
      ensures Call(world, r) == ListConfigMaps(old(world), ns, tag)
    {
      var call := ListConfigMaps(world, ns, tag);
      world, r := call.w, call.r;
    }

    method MapDelete(s: NsName) returns (r: Result<()>)
      modifies this
      ensures Call(world, r) == DeleteConfigMap(old(world), s)
    {
      var call := DeleteConfigMap(world, s);
      world, r := call.w, call.r;
    }

    method StatusPatch(n: NsName, version: int, status: BucketStatus) returns (r: Result<()>)
      modifies this
      ensures Call(world, r) == PatchStatus(old(world), n, version, status)
    {
      var call := PatchStatus(world, n, version, status);
      world, r := call.w, call.r;
    }
  }

  /** A Bucket in memory: the object that was read, and its status as it is being changed. */
  class Bucket {
    const job: Job
    const resource: BucketObject
    var conditions: seq<Condition>
    var observedGeneration: int
    var bucketID: Id
    var bucketName: Option<Alias>

    constructor (job: Job, resource: BucketObject)
      ensures this.job == job && this.resource == resource && Status() == resource.status
    {
      this.job, this.resource := job, resource;
      conditions, observedGeneration := resource.status.conditions, resource.status.observedGeneration;
      bucketID, bucketName := resource.status.bucketID, resource.status.bucketName;
    }

    function Status(): BucketStatus
      reads this
    {
      BucketStatus(conditions, observedGeneration, bucketID, bucketName)
    }

    method InitializeConditions()
      modifies this`conditions
      ensures Status() == Initialized(old(Status()))
    {
      hide InitAll;
      conditions := InitResourceConditions([Ready, BucketReady, BucketConfigMapReady], conditions);
    }

    method Mark(t: CondType, status: CondStatus, reason: Reason)
      modifies this`conditions
      ensures Status() == Marked(old(Status()), t, status, reason, resource.generation)
    {
      conditions := SetCondition(conditions, Condition(t, status, reason, resource.generation));
    }

    /** ID and alias are recorded the first time that the bucket is resolved. */
    method Record(id: Id, alias: Alias)
      modifies this`bucketID, this`bucketName
      ensures Status() == Recorded(old(Status()), id, alias)
    {
      if bucketID == NONE {
        bucketID := id;
      }
      if bucketName == None {
        bucketName := Some(alias);
      }
    }

    /** updateBucketReadyCondition; it does nothing when a condition is missing. */
    method UpdateReadyCondition()
      modifies this`conditions, this`observedGeneration
      ensures Status() == if HasAll(old(conditions)) then Aggregated(old(Status()), resource.generation) else old(Status())
    {
      hide Find, SetCondition, FirstFailure, Verdict;
      var readyStat, readyReason := False, WaitingForBucket;
      var bucketCond, cmCond := Find(conditions, BucketReady), Find(conditions, BucketConfigMapReady);
      if bucketCond.None? || cmCond.None? {
        return;
      }
      if bucketCond.value.status == True && cmCond.value.status == True {
        readyStat, readyReason := True, Available;
      } else if bucketCond.value.status == False {
        readyReason := bucketCond.value.reason;
      } else if cmCond.value.status == False {
        readyReason := cmCond.value.reason;
      }
      VerdictOfTwo(conditions, BucketReady, BucketConfigMapReady, WaitingForBucket, resource.generation);
      conditions := SetCondition(conditions, Condition(Ready, readyStat, readyReason, resource.generation));
      if readyStat == True {
        observedGeneration := resource.generation;
      }
    }
  }

  class Reconciler {
    const clients: Clients

    constructor (clients: Clients)
      ensures this.clients == clients
    {
      this.clients := clients;
    }

    method ResolveNew(bucket: Bucket, alias: Alias) returns (r: Result<S3Bucket>)
      modifies clients, bucket`conditions
      ensures var resolved := ResolveNewBucket(old(clients.world), alias);
              && clients.world == resolved.w && r == resolved.r
              && bucket.Status() == if r.Ok? then old(bucket.Status())
                                    else Marked(old(bucket.Status()), BucketReady, False, resolved.reason, bucket.resource.generation)
    {
      hide SetCondition, GarageGet, GarageCreate;
      r := clients.BucketGet(alias);
      if r.Err? {
        if r.error == NotFound {
          r := clients.BucketCreate(alias);
          if r.Err? {
            bucket.Mark(BucketReady, False, CreateFailed);
          }
        } else {
          bucket.Mark(BucketReady, False, UnknownState);
        }
      }
    }

    method ResolveExisting(bucket: Bucket, alias: Alias, secretName: NsName) returns (r: Result<S3Bucket>)
      modifies clients, bucket`conditions
      ensures var resolved := ResolveExistingBucket(old(clients.world), alias, secretName);
              && clients.world == resolved.w && r == resolved.r
              && bucket.Status() == if r.Ok? then old(bucket.Status())
                                    else Marked(old(bucket.Status()), BucketReady, False, resolved.reason, bucket.resource.generation)
    {
      hide SetCondition, GarageGet, GetSecret, ReadPermissions;
      var secret := clients.SecretGet(secretName);
      if secret.Err? {
        if secret.error == Forbidden {
          bucket.Mark(BucketReady, False, SecretAccessForbidden);
        } else {
          bucket.Mark(BucketReady, False, OwnerKeySecretNotFound);
        }
        return Err(secret.error);
      }
      r := clients.BucketGet(alias);
      if r.Err? {
        bucket.Mark(BucketReady, False, BucketNotFound);
        return;
      }
      var perms := clients.PermissionsGet(secret.value, r.value.id);
      if perms.Err? {
        bucket.Mark(BucketReady, False, OwnershipVerificationFailed);
        return Err(perms.error);
      }
      if !perms.value.owner {
        bucket.Mark(BucketReady, False, OwnershipVerificationFailed);
        return Err(ExternalFailure);
      }
    }

    method EnsureMap(bucket: Bucket) returns (r: Result<()>)
      modifies clients
      ensures Call(clients.world, r) == EnsureConfigMap(old(clients.world), bucket.job, bucket.resource, bucket.Status())
    {
      hide GetConfigMap, CreateConfigMap, UpdateConfigMap;
      var n, o := bucket.job.n, bucket.resource;
      var name := if o.spec.configMapName == NONE then n.name else o.spec.configMapName;
      var desired := ConfigMap(Some(o.uid), n.name, bucket.bucketName, bucket.job.endpoint);
      var existing := clients.MapGet(NsName(n.ns, name));
      if existing.Err? {
        if existing.error != NotFound {
          return Err(existing.error);
        }
        r := clients.MapCreate(NsName(n.ns, name), desired);
        return;
      }
      if existing.value.controller != Some(o.uid) {
        return Err(NameConflict);
      }
      if desired != existing.value {
        r := clients.MapUpdate(NsName(n.ns, name), existing.value, desired);
        return;
      }
      return Ok(());
    }

    /** The loop over the listed ConfigMaps; it returns at the first error. */
    method DeleteStaleMaps(bucket: Bucket) returns (r: Result<()>)
      modifies clients
      ensures Call(clients.world, r) == DeleteStaleConfigMaps(old(clients.world), bucket.job.n, bucket.resource)
    {
      hide ListConfigMaps, DeleteConfigMap;
      var n, o := bucket.job.n, bucket.resource;
      var listed := clients.MapList(n.ns, n.name);
      if listed.Err? {
        return Err(listed.error);
      }
      var desiredName := if o.spec.configMapName != NONE then o.spec.configMapName else n.name;
      var items := listed.value;
      for i := 0 to |items|
        invariant DeleteStaleConfigMaps(old(clients.world), n, o) == DeleteEach(clients.world, n.ns, items[i..], desiredName, o.uid)
      {
        assert items[i..][0] == items[i] && items[i..][1..] == items[i + 1..];
        if items[i].name != desiredName && items[i].controller == Some(o.uid) {
          var deleted := clients.MapDelete(NsName(n.ns, items[i].name));
          if deleted.Err? && deleted.error != NotFound {
            return deleted;
          }
        }
      }
      return Ok(());
    }

    /** The last part of reconcileBucket: publish the ConfigMap and remove stale ones. */
    method PublishMap(bucket: Bucket) returns (outcome: Outcome)
      modifies clients, bucket`conditions
      ensures BucketRun(clients.world, bucket.Status(), outcome)
              == ConfigMapStage(old(clients.world), bucket.job, bucket.resource, old(bucket.Status()))
    {
      hide SetCondition, EnsureConfigMap, DeleteStaleConfigMaps;
      var ensured := EnsureMap(bucket);
      if ensured.Err? {
        match ensured.error {
          case NameConflict =>
            bucket.Mark(BucketConfigMapReady, False, ConfigMapNameConflict);
            return Done;
          case Forbidden =>
            bucket.Mark(BucketConfigMapReady, False, ConfigMapAccessForbidden);
          case _ =>
            bucket.Mark(BucketConfigMapReady, False, ConfigMapCreateError);
        }
        return Failed(ensured.error);
      }
      bucket.Mark(BucketConfigMapReady, True, Met);
      var cleaned := DeleteStaleMaps(bucket);
      outcome := if cleaned.Err? then Failed(cleaned.error) else Done;
    }

    method ResolveBucket(bucket: Bucket) returns (r: Result<S3Bucket>)
      modifies clients, bucket`conditions
      ensures var resolved := Resolve(old(clients.world), bucket.job, bucket.resource);
              && clients.world == resolved.w && r == resolved.r
              && bucket.Status() == if r.Ok? then old(bucket.Status())
                                    else Marked(old(bucket.Status()), BucketReady, False, resolved.reason, bucket.resource.generation)
    {
      hide ResolveNewBucket, ResolveExistingBucket, Marked;
      match bucket.resource.spec.source {
        case Existing(alias, secret) =>
          r := ResolveExisting(bucket, alias, NsName(bucket.job.n.ns, secret));
        case New(name) =>
          r := ResolveNew(bucket, Suffixed(name, bucket.resource.uid));
      }
    }

    /** The part of reconcileBucket between resolving the bucket and publishing the ConfigMap. */
    method ConfigureBucket(bucket: Bucket, s3Bucket: S3Bucket) returns (outcome: Outcome)
      modifies clients, bucket`conditions
      ensures BucketRun(clients.world, bucket.Status(), outcome)
              == QuotaStage(old(clients.world), bucket.job, bucket.resource, old(bucket.Status()), s3Bucket)
    {
      hide SetCondition, GarageUpdate, ConfigMapStage;
      var spec := bucket.resource.spec;
      if s3Bucket.quotas.maxObjects != spec.quotas.maxObjects || s3Bucket.quotas.maxSize != spec.quotas.maxSize {
        var updated := clients.BucketUpdate(s3Bucket.id, spec.quotas);
        if updated.Err? {
          bucket.Mark(BucketReady, False, UpdateFailed);
          return Failed(updated.error);
        }
      }
      bucket.Mark(BucketReady, True, Met);
      outcome := PublishMap(bucket);
    }

    method ReconcileGarageBucket(bucket: Bucket) returns (outcome: Outcome)
      modifies clients, bucket
      ensures BucketRun(clients.world, bucket.Status(), outcome)
              == ReconcileBucket(old(clients.world), bucket.job, bucket.resource, old(bucket.Status()))
    {
      hide Resolve, QuotaStage, Marked, Backoff.OwnerSecretBackoff;
      var resolved := ResolveBucket(bucket);
      if resolved.Err? {
        if bucket.resource.spec.source.Existing? {
          return RequeueAfter(Backoff.OwnerSecretBackoff(bucket.job.age, Backoff.BASE_REQUEUE_INTERVAL, Backoff.MAX_REQUEUE_INTERVAL));
        }
        return Failed(resolved.error);
      }
      bucket.Record(resolved.value.id, AliasOf(bucket.resource));
      outcome := ConfigureBucket(bucket, resolved.value);
    }

    method ReconcileRequest(q: Job) returns (outcome: Outcome)
      modifies clients
      ensures End(clients.world, outcome) == Reconcile(old(clients.world), q)
    {
      hide Find, Initialized, ReconcileBucket, Aggregated, PatchStatus, GetObject;
      var got := clients.Get(q.n);
      if got.Err? {
        return if got.error == NotFound then Done else Failed(got.error);
      }
      var bucket := new Bucket(q, got.value);
      bucket.InitializeConditions();
      ReconcileKeepsConditions(clients.world, q, got.value);
      var result := ReconcileGarageBucket(bucket);
      bucket.UpdateReadyCondition();
      if bucket.Status() != got.value.status {
        var patched := clients.StatusPatch(q.n, got.value.version, bucket.Status());
        if patched.Err? {
          if patched.error == Conflict {
            return Done;
          }
          if !result.Failed? {
            return Failed(patched.error);
          }
        }
      }
      return result;
    }
  }

  predicate HasAll(cs: seq<Condition>) {
    Find(cs, BucketReady).Some? && Find(cs, BucketConfigMapReady).Some?
  }

  lemma InitializedHasAll(s: BucketStatus)
    ensures HasAll(Initialized(s).conditions)
  {
    hide InitAll, Find;
    assert BucketReady in BUCKET_CONDITIONS && BucketConfigMapReady in BUCKET_CONDITIONS;
  }

  /** No step of a reconcile drops a condition, so updateBucketReadyCondition finds both. */
  lemma ReconcileKeepsConditions(w: World, q: Job, o: BucketObject)
    ensures HasAll(ReconcileBucket(w, q, o, Initialized(o.status)).status.conditions)
  {
    hide Find, SetCondition, Initialized, Resolve, GarageUpdate, EnsureConfigMap, DeleteStaleConfigMaps, ResolveFailure;
    InitializedHasAll(o.status);
  }
}
