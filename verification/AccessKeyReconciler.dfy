/**
 The AccessKey reconciler as it is written: methods that change the object in memory and call the
 API server and Garage, each proved to do what AccessKeySpec says.
 */
module AccessKeyReconciler {
  import opened Common
  import opened Conditions
  import opened AccessKeyWorld
  import opened AccessKeySpec

  /** The API server's client and the Garage admin client. */
  class Clients {
    var world: World

    constructor (world: World)
      ensures this.world == world
    {
      this.world := world;
    }

    method Get(n: NsName) returns (r: Result<KeyObject>)
      modifies this
      ensures Call(world, r) == GetObject(old(world), n)
    {
      var call := GetObject(world, n);
      world, r := call.w, call.r;
    }

    method AddFinalizer(n: NsName) returns (r: Result<KeyObject>)
      modifies this
      ensures Call(world, r) == PatchFinalizer(old(world), n)
    {
      var call := PatchFinalizer(world, n);
      world, r := call.w, call.r;
    }

    method RemoveFinalizer(n: NsName, version: int) returns (r: Result<()>)
      modifies this
      ensures Call(world, r) == UpdateWithoutFinalizer(old(world), n, version)
    {
      var call := UpdateWithoutFinalizer(world, n, version);
      world, r := call.w, call.r;
    }

    method StatusUpdate(n: NsName, version: int, status: KeyStatus) returns (r: Result<()>)
      modifies this
      ensures Call(world, r) == UpdateStatus(old(world), n, version, status)
    {
      var call := UpdateStatus(world, n, version, status);
      world, r := call.w, call.r;
    }

    method KeyGet(id: Id) returns (r: Result<S3Key>)
      modifies this
      ensures Call(world, r) == GarageGet(old(world), id)
    {
      var call := GarageGet(world, id);
      world, r := call.w, call.r;
    }

    method KeyLookup(name: ExtName) returns (r: Result<S3Key>)
      modifies this
      ensures Call(world, r) == GarageLookup(old(world), name)
    {
      var call := GarageLookup(world, name);
      world, r := call.w, call.r;
    }

    method KeyCreate(name: ExtName) returns (r: Result<S3Key>)
      modifies this
      ensures Call(world, r) == GarageCreate(old(world), name)
    {
      var call := GarageCreate(world, name);
      world, r := call.w, call.r;
    }

    method KeyDelete(id: Id) returns (r: Result<()>)
      modifies this
      ensures Call(world, r) == GarageDelete(old(world), id)
    {
      var call := GarageDelete(world, id);
      world, r := call.w, call.r;
    }

    method SecretGet(s: NsName) returns (r: Result<Secret>)
      modifies this
      ensures Call(world, r) == GetSecret(old(world), s)
    {
      var call := GetSecret(world, s);
      world, r := call.w, call.r;
    }

    method SecretDelete(s: NsName) returns (r: Result<()>)
      modifies this
      ensures Call(world, r) == DeleteSecret(old(world), s)
    {
      var call := DeleteSecret(world, s);
      world, r := call.w, call.r;
    }

    method SecretCreateOrUpdate(s: NsName, uid: Id, id: Id, secret: Id) returns (r: Result<()>)
      modifies this
      ensures Call(world, r) == CreateOrUpdateSecret(old(world), s, uid, id, secret)
    {
      var call := CreateOrUpdateSecret(world, s, uid, id, secret);
      world, r := call.w, call.r;
    }
  }

  /** An AccessKey in memory: the object that was read, and its status as it is being changed. */
  class AccessKey {
    const name: NsName
    const resource: KeyObject
    var conditions: seq<Condition>
    var observedGeneration: int
    var accessKeyID: Id
    var secretName: Id

    constructor (name: NsName, resource: KeyObject)
      ensures this.name == name && this.resource == resource && Status() == resource.status
    {
      this.name, this.resource := name, resource;
      conditions, observedGeneration := resource.status.conditions, resource.status.observedGeneration;
      accessKeyID, secretName := resource.status.accessKeyID, resource.status.secretName;
    }

    function Status(): KeyStatus
      reads this
    {
      KeyStatus(conditions, observedGeneration, accessKeyID, secretName)
    }

    method InitializeConditions()
      modifies this`conditions
      ensures Status() == Initialized(old(Status()))
    {
      hide InitAll;
      conditions := InitResourceConditions([Ready, AccessKeyReady, KeySecretReady], conditions);
    }

    method Mark(t: CondType, status: CondStatus, reason: Reason)
      modifies this`conditions
      ensures Status() == Marked(old(Status()), t, status, reason, resource.generation)
    {
      conditions := SetCondition(conditions, Condition(t, status, reason, resource.generation));
    }

    /** updateAccessKeyCondition. */
    method UpdateCondition()
      requires Find(conditions, AccessKeyReady).Some? && Find(conditions, KeySecretReady).Some?
      modifies this`conditions, this`observedGeneration
      ensures Status() == Aggregated(old(Status()), resource.generation)
    {
      var readyStat, readyReason := False, WaitingForResources;
      var accessKeyCond, secretCond := Find(conditions, AccessKeyReady).value, Find(conditions, KeySecretReady).value;
      if accessKeyCond.status == True && secretCond.status == True {
        readyStat, readyReason := True, Available;
      } else if accessKeyCond.status == False {
        readyReason := accessKeyCond.reason;
      } else if secretCond.status == False {
        readyReason := secretCond.reason;
      }
      VerdictOfTwo(conditions, AccessKeyReady, KeySecretReady, WaitingForResources, resource.generation);
      conditions := SetCondition(conditions, Condition(Ready, readyStat, readyReason, resource.generation));
      if readyStat == True || IsPermanentFailure(readyReason) {
        observedGeneration := resource.generation;
      }
    }
  }

  class Reconciler {
    const clients: Clients

    constructor (clients: Clients)
      ensures this.clients == clients
    {
      this.clients := clients;
    }

    method EnsureKey(key: AccessKey) returns (r: Result<S3Key>)
      requires key.accessKeyID == key.resource.status.accessKeyID
      modifies clients
      ensures Call(clients.world, r) == EnsureExternalKey(old(clients.world), key.name, key.resource)
    {
      var externalKeyName := ExtName(key.name, key.resource.uid);
      if key.accessKeyID != NONE {
        r := clients.KeyGet(key.accessKeyID);
        if r == Err(NotFound) {
          r := clients.KeyCreate(externalKeyName);
        }
        return;
      }
      r := clients.KeyLookup(externalKeyName);
      if r == Err(NotFound) {
        r := clients.KeyCreate(externalKeyName);
      }
    }

    method EnsureOwnSecret(key: AccessKey, secret: Id) returns (r: Result<()>)
      modifies clients
      ensures Call(clients.world, r) == EnsureSecret(old(clients.world), key.name, key.resource, key.accessKeyID, secret)
    {
      var s := SecretOf(key.name, key.resource.secretName);
      var existing := clients.SecretGet(s);
      if existing.Err? && existing.error != NotFound {
        return Err(existing.error);
      }
      if existing.Ok? && existing.value.controller != Some(key.resource.uid) {
        return Err(NameConflict);
      }
      r := clients.SecretCreateOrUpdate(s, key.resource.uid, key.accessKeyID, secret);
    }

    method CleanupSecret(s: NsName) returns (r: Result<()>)
      modifies clients
      ensures Call(clients.world, r) == CleanupOldSecret(old(clients.world), s)
    {
      r := clients.SecretDelete(s);
      if r == Err(NotFound) {
        return Ok(());
      }
    }

    method ReconcileKey(key: AccessKey) returns (error: Option<Error>)
      requires key.Status() == Initialized(key.resource.status)
      modifies clients, key
      ensures KeyRun(clients.world, key.Status(), error)
              == ReconcileAccessKey(old(clients.world), key.name, key.resource, old(key.Status()))
    {
      InitializedKeepsFields(key.resource.status);
      hide Find, SetCondition, Initialized, FullPath;
      if key.observedGeneration == key.resource.generation && Holds(key.conditions, AccessKeyReady, True) && key.accessKeyID != NONE {
        return None;
      }
      error := FullReconcile(key);
    }

    /** reconcileAccessKey past its shortcut. */
    method FullReconcile(key: AccessKey) returns (error: Option<Error>)
      requires key.accessKeyID == key.resource.status.accessKeyID
      modifies clients, key
      ensures KeyRun(clients.world, key.Status(), error)
              == FullPath(old(clients.world), key.name, key.resource, old(key.Status()))
    {
      hide Find, SetCondition, EnsureExternalKey, SecretStage;
      var externalKey := EnsureKey(key);
      if externalKey.Err? {
        key.Mark(AccessKeyReady, False, AccessKeyUnknown);
        return Some(externalKey.error);
      }
      key.accessKeyID := externalKey.value.id;
      key.Mark(AccessKeyReady, True, Met);
      error := PublishSecret(key, externalKey.value.secret);
    }

    /** The part of reconcileAccessKey that publishes the credentials. */
    method PublishSecret(key: AccessKey, secret: Id) returns (error: Option<Error>)
      modifies clients, key
      ensures KeyRun(clients.world, key.Status(), error)
              == SecretStage(old(clients.world), key.name, key.resource, old(key.Status()), secret)
    {
      hide Find, SetCondition, EnsureSecret, CleanupOldSecret;
      var ensured := EnsureOwnSecret(key, secret);
      if ensured.Err? {
        match ensured.error {
          case NameConflict =>
            key.Mark(KeySecretReady, False, SecretNameConflict);
            return None;
          case Forbidden =>
            key.Mark(KeySecretReady, False, SecretAccessForbidden);
          case _ =>
            key.Mark(KeySecretReady, False, SecretSetupFailed);
        }
        return Some(ensured.error);
      }
      if key.secretName != NONE && key.secretName != key.resource.secretName {
        var cleaned := CleanupSecret(SecretOf(key.name, key.secretName));
        if cleaned.Err? {
          key.Mark(KeySecretReady, False, SecretCleanupFailed);
          return Some(cleaned.error);
        }
      }
      key.secretName := key.resource.secretName;
      key.Mark(KeySecretReady, True, Met);
      return None;
    }

    method UpdateKeyStatus(n: NsName, status: KeyStatus) returns (r: Result<()>)
      modifies clients
      ensures Call(clients.world, r) == WriteStatus(old(clients.world), n, status)
    {
      var latest := clients.Get(n);
      if latest.Err? {
        return Err(latest.error);
      }
      r := clients.StatusUpdate(n, latest.value.version, status);
    }

    method FinalizeKey(n: NsName, o: KeyObject) returns (outcome: Outcome)
      modifies clients
      ensures End(clients.world, outcome) == Finalize(old(clients.world), n, o)
    {
      if !o.finalizer {
        return Done;
      }
      var id := o.status.accessKeyID;
      if id == NONE {
        var found := clients.KeyLookup(ExtName(n, o.uid));
        if found.Err? && found.error != NotFound {
          return Failed(found.error);
        }
        if found.Ok? {
          id := found.value.id;
        }
      }
      if id != NONE {
        var deleted := clients.KeyDelete(id);
        if deleted.Err? && deleted.error != NotFound {
          return Failed(deleted.error);
        }
      }
      var updated := clients.RemoveFinalizer(n, o.version);
      outcome := if updated.Err? then Failed(updated.error) else Done;
    }

    method ReconcileLiveKey(n: NsName, o: KeyObject) returns (outcome: Outcome)
      modifies clients
      ensures End(clients.world, outcome) == ReconcileLive(old(clients.world), n, o)
    {
      hide Find, SetCondition, Initialized, ReconcileAccessKey, Aggregated, WriteStatus;
      var key := new AccessKey(n, o);
      key.InitializeConditions();
      InitializedHasAll(o.status);
      var error := ReconcileKey(key);
      ReconcileKeepsConditions(old(clients.world), n, o);
      key.UpdateCondition();
      if key.Status() == o.status {
        return OutcomeOf(error);
      }
      var written := UpdateKeyStatus(n, key.Status());
      if written.Err? {
        if written.error == Conflict {
          return Done;
        }
        if error.None? {
          return Failed(written.error);
        }
      }
      return OutcomeOf(error);
    }

    method ReconcileRequest(n: NsName) returns (outcome: Outcome)
      modifies clients
      ensures End(clients.world, outcome) == Reconcile(old(clients.world), n)
    {
      var got := clients.Get(n);
      if got.Err? {
        return if got.error == NotFound then Done else Failed(got.error);
      }
      var o := got.value;
      if o.deleting {
        outcome := FinalizeKey(n, o);
        return;
      }
      if !o.finalizer {
        var patched := clients.AddFinalizer(n);
        if patched.Err? {
          return Failed(patched.error);
        }
        o := patched.value;
      }
      outcome := ReconcileLiveKey(n, o);
    }
  }

  lemma InitializedHasAll(s: KeyStatus)
    ensures forall t | t in [AccessKeyReady, KeySecretReady] :: Find(Initialized(s).conditions, t).Some?
  {
    assert AccessKeyReady in KEY_CONDITIONS && KeySecretReady in KEY_CONDITIONS;
  }

  lemma InitializedKeepsFields(s: KeyStatus)
    ensures Initialized(s).accessKeyID == s.accessKeyID && Initialized(s).secretName == s.secretName
  {
  }

  /** No step of a reconcile drops a condition, so updateAccessKeyCondition finds both. */
  lemma ReconcileKeepsConditions(w: World, n: NsName, o: KeyObject)
    ensures var run := ReconcileAccessKey(w, n, o, Initialized(o.status));
            Find(run.status.conditions, AccessKeyReady).Some? && Find(run.status.conditions, KeySecretReady).Some?
  {
    hide Find, SetCondition, Initialized, EnsureExternalKey, EnsureSecret, CleanupOldSecret;
    InitializedHasAll(o.status);
    assert AccessKeyReady in [AccessKeyReady, KeySecretReady] && KeySecretReady in [AccessKeyReady, KeySecretReady];
  }
}
