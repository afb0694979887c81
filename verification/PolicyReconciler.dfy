/**
 The AccessPolicy reconciler as it is written: methods that change the policy in memory and call the
 API server and Garage, each proved to do what PolicySpec says.
 */
module PolicyReconciler {
  import opened Common
  import opened Conditions
  import opened Permissions
  import opened PolicyWorld
  import opened PolicySpec
  import PolicyLabels

  /** The API server's client and the Garage admin client. */
  class Clients {
    var world: World

    constructor (world: World)
      ensures this.world == world
    {
      this.world := world;
    }

    method PolicyGet(n: NsName) returns (r: Result<Policy>)
      modifies this
      ensures Call(world, r) == GetPolicy(old(world), n)
    {
      var call := GetPolicy(world, n);
      world, r := call.w, call.r;
    }

    method BucketGet(n: NsName, b: NsName) returns (r: Result<Dependency>)
      modifies this
      ensures Call(world, r) == GetBucket(old(world), n, b)
    {
      var call := GetBucket(world, n, b);
      world, r := call.w, call.r;
    }

    method KeyGet(k: NsName) returns (r: Result<Dependency>)
      modifies this
      ensures Call(world, r) == GetKey(old(world), k)
    {
      var call := GetKey(world, k);
      world, r := call.w, call.r;
    }

    method MetaUpdate(n: NsName, version: int, labels: Labels, finalizer: bool) returns (r: Result<()>)
      modifies this
      ensures Call(world, r) == UpdateMeta(old(world), n, version, labels, finalizer)
    {
      var call := UpdateMeta(world, n, version, labels, finalizer);
      world, r := call.w, call.r;
    }

    method StatusPatch(n: NsName, version: int, status: PolicyStatus) returns (r: Result<()>)
      modifies this
      ensures Call(world, r) == PatchStatus(old(world), n, version, status)
    {
      var call := PatchStatus(world, n, version, status);
      world, r := call.w, call.r;
    }

    method List(tag: Label, dependency: NsName) returns (r: Result<seq<Id>>)
      modifies this
      ensures Call(world, r) == ListByLabel(old(world), tag, dependency)
    {
      var call := ListByLabel(world, tag, dependency);
      world, r := call.w, call.r;
    }

    method DenyRequest(pair: Pair, flags: Permissions) returns (error: Option<Error>)
      modifies this
      ensures Admin(world, error) == DenyCall(old(world), pair, flags)
    {
      var call := DenyCall(world, pair, flags);
      world, error := call.w, call.error;
    }

    method AllowRequest(pair: Pair, flags: Permissions) returns (error: Option<Error>)
      modifies this
      ensures Admin(world, error) == AllowCall(old(world), pair, flags)
    {
      var call := AllowCall(world, pair, flags);
      world, error := call.w, call.error;
    }

    /** PermissionClient.SetPermissions. */
    method PermissionsSet(pair: Pair, permissions: Permissions) returns (error: Option<Error>)
      modifies this
      ensures Admin(world, error) == SetCall(old(world), pair, permissions)
    {
      error := DenyRequest(pair, Permissions(!permissions.owner, !permissions.read, !permissions.write));
      if error.Some? {
        return;
      }
      if !permissions.owner && !permissions.read && !permissions.write {
        return None;
      }
      error := AllowRequest(pair, permissions);
    }
  }

  /** An AccessPolicy in memory: the object that was read, and what is being changed of it. */
  class AccessPolicy {
    const name: NsName
    const resource: Policy
    var labels: Labels
    var finalizer: bool
    var conditions: seq<Condition>
    var observedGeneration: int
    var bucketID: Id
    var accessKeyID: Id

    constructor (name: NsName, resource: Policy)
      ensures this.name == name && this.resource == resource && Status() == resource.status
      ensures labels == resource.labels && finalizer == resource.finalizer
    {
      this.name, this.resource := name, resource;
      labels, finalizer := resource.labels, resource.finalizer;
      conditions, observedGeneration := resource.status.conditions, resource.status.observedGeneration;
      bucketID, accessKeyID := resource.status.bucketID, resource.status.accessKeyID;
    }

    function Status(): PolicyStatus
      reads this
    {
      PolicyStatus(conditions, observedGeneration, bucketID, accessKeyID)
    }

    /** ensureLabels: whether a label had to be changed. */
    method EnsureLabels() returns (changed: bool)
      modifies this`labels
      ensures labels == EnsuredLabels(old(labels), resource.key, resource.bucket)
      ensures changed <==> labels != old(labels)
    {
      PolicyLabels.EnsuredLabelsMeaning(labels, resource.key, resource.bucket);
      changed := false;
      if LabelOf(labels, KeyLabel) != resource.key {
        labels := labels[KeyLabel := resource.key];
        changed := true;
      }
      if LabelOf(labels, BucketLabel) != resource.bucket {
        labels := labels[BucketLabel := resource.bucket];
        changed := true;
      }
    }

    method InitializeConditions()
      modifies this`conditions
      ensures Status() == Initialized(old(Status()))
    {
      hide InitAll;
      conditions := InitResourceConditions([Ready, PolicyAccessKeyReady, PolicyBucketReady, PolicyReady], conditions);
    }

    method Mark(t: CondType, status: CondStatus, reason: Reason)
      modifies this`conditions
      ensures Status() == Marked(old(Status()), t, status, reason, resource.generation)
    {
      conditions := SetCondition(conditions, Condition(t, status, reason, resource.generation));
    }

    /** updateAccessPolicyCondition. */
    method UpdateCondition()
      requires HasAll(conditions)
      modifies this`conditions, this`observedGeneration
      ensures Status() == Aggregated(old(Status()), resource.generation)
    {
      hide Find, SetCondition, FirstFailure, Verdict;
      var readyStat, readyReason := False, DependenciesNotReady;
      var accessKeyCond := Find(conditions, PolicyAccessKeyReady).value;
      var bucketCond := Find(conditions, PolicyBucketReady).value;
      var policyCond := Find(conditions, PolicyReady).value;
      if accessKeyCond.status == True && bucketCond.status == True && policyCond.status == True {
        readyStat, readyReason := True, Available;
      } else if bucketCond.status == False {
        readyReason := bucketCond.reason;
      } else if accessKeyCond.status == False {
        readyReason := accessKeyCond.reason;
      } else if policyCond.status == False {
        readyReason := policyCond.reason;
      }
      VerdictOfPolicy(conditions, resource.generation);
      conditions := SetCondition(conditions, Condition(Ready, readyStat, readyReason, resource.generation));
      if readyStat == True {
        observedGeneration := resource.generation;
      }
    }
  }

  predicate HasAll(cs: seq<Condition>) {
    Find(cs, PolicyBucketReady).Some? && Find(cs, PolicyAccessKeyReady).Some? && Find(cs, PolicyReady).Some?
  }

  /** The verdict spelled out for the three conditions of a policy. */
  lemma VerdictOfPolicy(cs: seq<Condition>, generation: int)
    requires HasAll(cs)
    ensures Verdict(cs, POLICY_ORDER, DependenciesNotReady, generation) ==
            var bucket, key, policy := Find(cs, PolicyBucketReady).value, Find(cs, PolicyAccessKeyReady).value, Find(cs, PolicyReady).value;
            if bucket.status == True && key.status == True && policy.status == True then Condition(Ready, True, Available, generation)
            else if bucket.status == False then Condition(Ready, False, bucket.reason, generation)
            else if key.status == False then Condition(Ready, False, key.reason, generation)
            else if policy.status == False then Condition(Ready, False, policy.reason, generation)
            else Condition(Ready, False, DependenciesNotReady, generation)
  {
    hide Find;
    assert PolicyBucketReady in POLICY_ORDER && PolicyAccessKeyReady in POLICY_ORDER && PolicyReady in POLICY_ORDER;
    assert POLICY_ORDER[1..] == [PolicyAccessKeyReady, PolicyReady];
    FirstOfTwo(cs, PolicyAccessKeyReady, PolicyReady, DependenciesNotReady);
  }

  class Reconciler {
    const clients: Clients

    constructor (clients: Clients)
      ensures this.clients == clients
    {
      this.clients := clients;
    }

    method CheckPolicyBucket(policy: AccessPolicy) returns (r: Result<Dependency>)
      modifies clients, policy
      ensures Check(clients.world, policy.Status(), r)
              == CheckBucket(old(clients.world), policy.name, policy.resource, old(policy.Status()))
    {
      hide SetCondition, GetBucket;
      r := clients.BucketGet(policy.name, NsName(policy.name.ns, policy.resource.bucket));
      if r.Err? {
        if r.error == NotFound {
          policy.Mark(PolicyBucketReady, False, BucketMissing);
        }
        return;
      }
      policy.bucketID := r.value.id;
      if !r.value.ready {
        policy.Mark(PolicyBucketReady, False, DependenciesNotReady);
        return Err(DependencyNotReady);
      }
      policy.Mark(PolicyBucketReady, True, Met);
    }

    method CheckPolicyKey(policy: AccessPolicy) returns (r: Result<Dependency>)
      modifies clients, policy
      ensures Check(clients.world, policy.Status(), r)
              == CheckAccessKey(old(clients.world), policy.name, policy.resource, old(policy.Status()))
    {
      hide SetCondition, GetKey;
      r := clients.KeyGet(NsName(policy.name.ns, policy.resource.key));
      if r.Err? {
        if r.error == NotFound {
          policy.Mark(PolicyAccessKeyReady, False, AccessKeyMissing);
        }
        return;
      }
      policy.accessKeyID := r.value.id;
      if !r.value.ready {
        policy.Mark(PolicyAccessKeyReady, False, DependenciesNotReady);
        return Err(DependencyNotReady);
      }
      policy.Mark(PolicyAccessKeyReady, True, Met);
    }

    method ReconcileDependencies(policy: AccessPolicy) returns (bucket: Result<Dependency>, key: Result<Dependency>)
      modifies clients, policy
      ensures var b := BucketStage(old(clients.world), policy.name, policy.resource, old(policy.Status()));
              var k := KeyStage(b.w, policy.name, policy.resource, b.status);
              bucket == b.r && Check(clients.world, policy.Status(), key) == k
    {
      hide CheckBucket, CheckAccessKey, SetCall;
      bucket := CheckPolicyBucket(policy);
      if bucket == Err(NotFound) && policy.bucketID != NONE {
        var _ := clients.PermissionsSet(Pair(policy.accessKeyID, policy.bucketID), NOTHING);
        policy.bucketID := NONE;
      }
      key := CheckPolicyKey(policy);
      if key == Err(NotFound) && policy.accessKeyID != NONE {
        var _ := clients.PermissionsSet(Pair(policy.accessKeyID, policy.bucketID), NOTHING);
        policy.accessKeyID := NONE;
      }
    }

    /** reconcilePolicy; the joined errors are returned as a list. */
    method ReconcileAccessPolicy(policy: AccessPolicy) returns (errs: seq<Error>)
      modifies clients, policy
      ensures PolicyRun(clients.world, policy.Status(), errs)
              == ReconcilePolicy(old(clients.world), policy.name, policy.resource, old(policy.Status()))
    {
      hide BucketStage, KeyStage, SetCall, SetCondition;
      var bucket, key := ReconcileDependencies(policy);
      errs := [];
      if bucket.Err? {
        errs := errs + [bucket.error];
      }
      if key.Err? {
        errs := errs + [key.error];
      }
      if |errs| > 0 {
        return;
      }
      var error := clients.PermissionsSet(Pair(key.value.id, bucket.value.id), policy.resource.permissions);
      if error.Some? {
        policy.Mark(PolicyReady, False, PolicyAssignmentFailed);
        return [ExternalFailure];
      }
      policy.Mark(PolicyReady, True, Met);
    }

    /** The finalizer branch of Reconcile; labels were already made right in memory. */
    method FinalizePolicy(policy: AccessPolicy) returns (outcome: Outcome)
      requires policy.finalizer == policy.resource.finalizer && policy.Status() == policy.resource.status
      requires policy.labels == EnsuredLabels(policy.resource.labels, policy.resource.key, policy.resource.bucket)
      modifies clients, policy
      ensures End(clients.world, outcome) == Finalize(old(clients.world), policy.name, policy.resource)
    {
      hide SetCall, UpdateMeta, EnsuredLabels;
      if !policy.finalizer {
        return Done;
      }
      if policy.accessKeyID != NONE && policy.bucketID != NONE {
        var error := clients.PermissionsSet(Pair(policy.accessKeyID, policy.bucketID), NOTHING);
        if error.Some? && error.value != NotFound {
          return Failed(error.value);
        }
      }
      policy.finalizer := false;
      var updated := clients.MetaUpdate(policy.name, policy.resource.version, policy.labels, policy.finalizer);
      outcome := if updated.Err? then Failed(updated.error) else Done;
    }

    method ReconcileLivePolicy(policy: AccessPolicy) returns (outcome: Outcome)
      requires policy.Status() == policy.resource.status
      modifies clients, policy
      ensures End(clients.world, outcome) == ReconcileLive(old(clients.world), policy.name, policy.resource)
    {
      hide Find, Initialized, ReconcilePolicy, Aggregated, PatchStatus, Classified;
      policy.InitializeConditions();
      var errs := ReconcileAccessPolicy(policy);
      ReconcileKeepsConditions(old(clients.world), policy.name, policy.resource);
      policy.UpdateCondition();
      var result := Classify(errs);
      if policy.Status() != policy.resource.status {
        var patched := clients.StatusPatch(policy.name, policy.resource.version, policy.Status());
        if patched.Err? {
          if patched.error == Conflict {
            return Done;
          }
          if !result.Failed? {
            return Failed(patched.error);
          }
        }
      }
      return result;
    }

    /** The switch of Reconcile over the joined errors. */
    method Classify(errs: seq<Error>) returns (result: Outcome)
      ensures result == Classified(errs)
    {
      result := Done;
      if |errs| > 0 {
        if IsNotFound(errs) {
          result := RequeueAfter(15);
        } else if DependencyNotReady in errs {
          result := RequeueAfter(10);
        } else {
          result := Failed(errs[0]);
        }
      }
    }

    method ReconcileRequest(n: NsName) returns (outcome: Outcome)
      modifies clients
      ensures End(clients.world, outcome) == Reconcile(old(clients.world), n)
    {
      hide GetPolicy, UpdateMeta, Finalize, ReconcileLive, EnsuredLabels;
      var got := clients.PolicyGet(n);
      if got.Err? {
        return if got.error == NotFound then Done else Failed(got.error);
      }
      var policy := new AccessPolicy(n, got.value);
      var metaChanged := policy.EnsureLabels();
      if policy.resource.deleting {
        outcome := FinalizePolicy(policy);
        return;
      }
      if !policy.finalizer {
        policy.finalizer := true;
        metaChanged := true;
      }
      if metaChanged {
        var updated := clients.MetaUpdate(n, policy.resource.version, policy.labels, policy.finalizer);
        return if updated.Err? && updated.error != Conflict then Failed(updated.error) else Done;
      }
      outcome := ReconcileLivePolicy(policy);
    }

    /** findPoliciesForAccessKey: the requests for the policies labelled with this key. */
    method FindPoliciesForAccessKey(accessKey: NsName) returns (requests: seq<NsName>)
      modifies clients
      ensures Finds(old(clients.world), KeyLabel, accessKey, requests)
    {
      requests := [];
      var listed := clients.List(KeyLabel, accessKey);
      if listed.Err? {
        return;
      }
      for i := 0 to |listed.value|
        invariant RequestsFor(listed.value[..i], accessKey.ns, requests)
      {
        requests := requests + [NsName(accessKey.ns, listed.value[i])];
      }
      assert listed.value[..|listed.value|] == listed.value;
      RequestsAreTheLabelled(Arrive(old(clients.world)), KeyLabel, accessKey, listed.value, requests);
    }

    /** findPoliciesForBucket. */
    method FindPoliciesForBucket(bucket: NsName) returns (requests: seq<NsName>)
      modifies clients
      ensures Finds(old(clients.world), BucketLabel, bucket, requests)
    {
      requests := [];
      var listed := clients.List(BucketLabel, bucket);
      if listed.Err? {
        return;
      }
      for i := 0 to |listed.value|
        invariant RequestsFor(listed.value[..i], bucket.ns, requests)
      {
        requests := requests + [NsName(bucket.ns, listed.value[i])];
      }
      assert listed.value[..|listed.value|] == listed.value;
      RequestsAreTheLabelled(Arrive(old(clients.world)), BucketLabel, bucket, listed.value, requests);
    }
  }

  /** One request per listed name, in order. */
  predicate RequestsFor(names: seq<Id>, ns: Id, requests: seq<NsName>) {
    |requests| == |names| && forall i | 0 <= i < |names| :: requests[i] == NsName(ns, names[i])
  }

  /** The requests are those for the policies that carry the label, each once; none if the list fails. */
  ghost predicate Finds(w: World, tag: Label, dependency: NsName, requests: seq<NsName>) {
    if ListByLabel(w, tag, dependency).r.Err? then requests == []
    else
      && (forall n :: n in requests <==> n in Labelled(Arrive(w), tag, dependency))
      && (forall i, j | 0 <= i < j < |requests| :: requests[i] != requests[j])
  }

  lemma RequestsAreTheLabelled(c: Cluster, tag: Label, dependency: NsName, names: seq<Id>, requests: seq<NsName>)
    requires names == Listing(set n | n in Labelled(c, tag, dependency) :: n.name) && RequestsFor(names, dependency.ns, requests)
    ensures forall n :: n in requests <==> n in Labelled(c, tag, dependency)
    ensures forall i, j | 0 <= i < j < |requests| :: requests[i] != requests[j]
  {
    hide Listing;
    forall n ensures n in requests <==> n in Labelled(c, tag, dependency) {
      if n in requests {
        var i :| 0 <= i < |names| && requests[i] == n;
        assert names[i] in names;
        var m :| m in Labelled(c, tag, dependency) && m.name == names[i];
        assert m == n;
      }
      if n in Labelled(c, tag, dependency) {
        assert n.name in names;
        var i :| 0 <= i < |names| && names[i] == n.name;
        assert requests[i] == n;
      }
    }
  }

  lemma InitializedHasAll(s: PolicyStatus)
    ensures HasAll(Initialized(s).conditions)
  {
    hide InitAll, Find;
    assert PolicyBucketReady in POLICY_CONDITIONS && PolicyAccessKeyReady in POLICY_CONDITIONS && PolicyReady in POLICY_CONDITIONS;
  }

  lemma StagesKeepConditions(w: World, n: NsName, p: Policy, s: PolicyStatus)
    requires HasAll(s.conditions)
    ensures HasAll(BucketStage(w, n, p, s).status.conditions) && HasAll(KeyStage(w, n, p, s).status.conditions)
  {
    hide Find, SetCondition, GetBucket, GetKey, SetCall;
  }

  /** No step of a reconcile drops a condition, so updateAccessPolicyCondition finds all three. */
  lemma ReconcileKeepsConditions(w: World, n: NsName, p: Policy)
    ensures HasAll(ReconcilePolicy(w, n, p, Initialized(p.status)).status.conditions)
  {
    hide Find, SetCondition, Initialized, BucketStage, KeyStage, SetCall;
    InitializedHasAll(p.status);
    StagesKeepConditions(w, n, p, Initialized(p.status));
    var bucket := BucketStage(w, n, p, Initialized(p.status));
    StagesKeepConditions(bucket.w, n, p, bucket.status);
  }
}
