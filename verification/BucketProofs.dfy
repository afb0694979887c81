/** What holds in every reachable state of the Bucket protocol, and between any two calls of a reconcile. */
module BucketProofs {
  import opened Common
  import opened Conditions
  import opened Permissions
  import opened Quotas
  import opened BucketWorld
  import opened BucketSpec

  // ---------------------------------------------------------------- the invariant

  ghost predicate Carries(c: Cluster, alias: Alias, id: Id) {
    alias in c.aliases && c.aliases[alias] == id && id in c.buckets
  }

  /** A status that a Bucket o may have; in a lawful cluster the recorded ID is the one its alias leads to. */
  ghost predicate StatusInv(c: Cluster, o: BucketObject, s: BucketStatus) {
    && s.observedGeneration <= o.generation
    && (s.bucketID != NONE <==> s.bucketName.Some?)
    && (c.lawful && s.bucketID != NONE ==> s.bucketName == Some(AliasOf(o)) && Carries(c, AliasOf(o), s.bucketID))
  }

  ghost predicate ObjectInv(c: Cluster, o: BucketObject) {
    && o.version < c.clock && o.generation >= 1 && o.uid in c.uids
    && !Malformed(o.status) && StatusInv(c, o, o.status)
    && (c.lawful && o.spec.source.New? ==> o.uid in c.names && c.names[o.uid] == o.spec.source.name)
  }

  ghost predicate ObjectsInv(c: Cluster) {
    && (forall n | n in c.objects :: ObjectInv(c, c.objects[n]))
    && (forall m, n | m in c.objects && n in c.objects && c.objects[m].uid == c.objects[n].uid :: m == n)
    && (forall uid | uid in c.names :: uid in c.uids)
  }

  /** The ConfigMaps that uid controls are where the Bucket n looks for them. */
  ghost predicate OwnMaps(c: Cluster, n: NsName, uid: Id) {
    forall s | s in c.configMaps && c.configMaps[s].controller == Some(uid) :: s.ns == n.ns && c.configMaps[s].tag == n.name
  }

  ghost predicate ConfigMapsInv(c: Cluster) {
    && (forall s | s in c.configMaps && c.configMaps[s].controller.Some? :: c.configMaps[s].controller.value in c.uids)
    && (forall n | n in c.objects :: OwnMaps(c, n, c.objects[n].uid))
  }

  /** IDs are never reused; the controller created at most one bucket per alias and at most one per UID. */
  ghost predicate GarageInv(c: Cluster) {
    && c.clock > NONE
    && (forall id | id in c.buckets :: NONE < id < c.clock && Unsigned(c.buckets[id]))
    && (forall alias | alias in c.aliases :: c.aliases[alias] in c.buckets)
    && (forall alias | alias in c.minted :: c.minted[alias] == 1 && alias in c.aliases && alias.Suffixed?)
    && (c.lawful ==> forall alias | alias in c.minted :: alias.Suffixed? && alias.uid in c.names && c.names[alias.uid] == alias.name)
  }

  ghost predicate Inv(c: Cluster) {
    ObjectsInv(c) && ConfigMapsInv(c) && GarageInv(c)
  }

  /** Garage only gains buckets and aliases; nothing that was named is forgotten. */
  ghost predicate Larger(c: Cluster, d: Cluster) {
    && (forall id | id in c.buckets :: id in d.buckets)
    && (forall alias | alias in c.aliases :: alias in d.aliases && d.aliases[alias] == c.aliases[alias])
    && (forall uid | uid in c.names :: uid in d.names && d.names[uid] == c.names[uid])
    && c.uids <= d.uids && c.clock <= d.clock && c.lawful == d.lawful
  }

  /** Every Bucket of d that is not new is a Bucket of c with the same status. */
  ghost predicate SameStatuses(c: Cluster, d: Cluster) {
    forall n | n in d.objects && d.objects[n].uid in c.uids ::
      n in c.objects && c.objects[n].uid == d.objects[n].uid && c.objects[n].status == d.objects[n].status
  }

  /** Larger, and every Bucket still has the status it had. */
  ghost predicate Grown(c: Cluster, d: Cluster) {
    && Larger(c, d)
    && SameStatuses(c, d)
  }

  lemma GrownTwice(c: Cluster, d: Cluster, e: Cluster)
    requires Grown(c, d) && Grown(d, e)
    ensures Grown(c, e)
  {
    LargerTwice(c, d, e);
  }

  lemma LargerTwice(c: Cluster, d: Cluster, e: Cluster)
    requires Larger(c, d) && Larger(d, e)
    ensures Larger(c, e)
  {
  }

  lemma GrownIsLarger(c: Cluster, d: Cluster)
    requires Grown(c, d)
    ensures Larger(c, d)
  {
  }

  lemma LargerKeepsObject(c: Cluster, d: Cluster, o: BucketObject)
    requires Larger(c, d) && ObjectInv(c, o)
    ensures ObjectInv(d, o)
  {
    hide Malformed, AliasOf;
  }

  lemma LargerKeepsStatus(c: Cluster, d: Cluster, o: BucketObject, s: BucketStatus)
    requires Larger(c, d) && StatusInv(c, o, s)
    ensures StatusInv(d, o, s)
  {
    hide AliasOf;
  }

  lemma LargerKeepsObjects(c: Cluster, d: Cluster)
    requires Larger(c, d) && ObjectsInv(c) && d.objects == c.objects && d.names == c.names
    ensures ObjectsInv(d)
  {
    hide ObjectInv, Larger;
    assert c.uids <= d.uids by {
      LargerUids(c, d);
    }
    forall n | n in d.objects ensures ObjectInv(d, d.objects[n]) {
      LargerKeepsObject(c, d, c.objects[n]);
    }
  }

  lemma LargerUids(c: Cluster, d: Cluster)
    requires Larger(c, d)
    ensures c.uids <= d.uids
  {
  }

  // ---------------------------------------------------------------- what a reconcile knows

  /** What stays true of the Bucket o that was read under the name n, whatever happens to it meanwhile. */
  ghost predicate Known(c: Cluster, n: NsName, o: BucketObject) {
    && ObjectInv(c, o) && OwnMaps(c, n, o.uid)
    && (n in c.objects && c.objects[n].version == o.version ==> c.objects[n] == o)
    && (forall m | m in c.objects && c.objects[m].uid == o.uid :: m == n)
  }

  ghost predicate Held(c: Cluster, n: NsName, o: BucketObject) {
    Inv(c) && Known(c, n, o)
  }

  // ---------------------------------------------------------------- actions of others

  lemma CreatedGrows(c: Cluster, n: NsName, uid: Id, spec: Spec)
    requires ObjectsInv(c)
    ensures Grown(c, Created(c, n, uid, spec))
  {
    hide ObjectInv, Larger;
    CreatedIsLarger(c, n, uid, spec);
    CreatedKeepsStatuses(c, n, uid, spec);
  }

  lemma CreatedIsLarger(c: Cluster, n: NsName, uid: Id, spec: Spec)
    requires ObjectsInv(c)
    ensures Larger(c, Created(c, n, uid, spec))
  {
    hide ObjectInv;
  }

  lemma CreatedKeepsStatuses(c: Cluster, n: NsName, uid: Id, spec: Spec)
    ensures SameStatuses(c, Created(c, n, uid, spec))
  {
  }

  /** Editing or removing objects leaves everything else alone. */
  ghost predicate OnlyObjects(c: Cluster, d: Cluster) {
    && d.buckets == c.buckets && d.aliases == c.aliases && d.minted == c.minted && d.configMaps == c.configMaps
    && d.names == c.names && d.uids == c.uids && d.lawful == c.lawful && d.clock >= c.clock
  }

  lemma EditedIsLocal(c: Cluster, n: NsName, spec: Spec)
    ensures OnlyObjects(c, Edited(c, n, spec)) && SameStatuses(c, Edited(c, n, spec))
  {
    hide Admitted, Switches;
  }

  lemma TouchedIsLocal(c: Cluster, n: NsName)
    ensures OnlyObjects(c, Touched(c, n)) && SameStatuses(c, Touched(c, n))
  {
    if n in c.objects {
      var o := c.objects[n].(version := c.clock);
      assert o.uid == c.objects[n].uid && o.status == c.objects[n].status;
    }
  }

  lemma RemovedIsLocal(c: Cluster, n: NsName)
    ensures OnlyObjects(c, c.(objects := c.objects - {n})) && SameStatuses(c, c.(objects := c.objects - {n}))
  {
  }

  lemma LocalKeepsGarage(c: Cluster, d: Cluster)
    requires OnlyObjects(c, d)
    ensures Larger(c, d) && (GarageInv(c) ==> GarageInv(d))
  {
  }

  /** The three actions that change or remove an existing object. */
  predicate IsEdit(a: Action) {
    a.DeleteBucketObject? || a.EditSpec? || a.EditMetadata?
  }

  lemma EditIsLocal(c: Cluster, a: Action)
    requires IsEdit(a)
    ensures OnlyObjects(c, Perform(c, a)) && SameStatuses(c, Perform(c, a))
  {
    hide OnlyObjects, SameStatuses, Edited, Touched;
    match a {
      case EditSpec(n, spec) => EditedIsLocal(c, n, spec);
      case EditMetadata(n) => TouchedIsLocal(c, n);
      case DeleteBucketObject(n) => RemovedIsLocal(c, n);
    }
  }

  lemma AddedGrows(c: Cluster, alias: Alias, quotas: WireQuotas, id: Id)
    requires alias !in c.aliases
    ensures Grown(c, WithBucket(c, alias, quotas)) && Grown(c, c.(aliases := c.aliases[alias := id]))
  {
  }

  predicate AboutObjects(a: Action) {
    a.CreateBucketObject? || IsEdit(a)
  }

  predicate AboutGarage(a: Action) {
    a.AddGarageBucket? || a.AddAlias?
  }

  /** All other actions only concern ConfigMaps, Secrets, keys and permissions. */
  ghost predicate SameCore(c: Cluster, d: Cluster) {
    && d.objects == c.objects && d.buckets == c.buckets && d.aliases == c.aliases && d.minted == c.minted
    && d.names == c.names && d.uids == c.uids && d.clock == c.clock && d.lawful == c.lawful
  }

  lemma OthersLeaveCore(c: Cluster, a: Action)
    requires !AboutObjects(a) && !AboutGarage(a)
    ensures SameCore(c, Perform(c, a))
  {
    hide AliveUid, Created, Edited, Touched, WithBucket, Unsigned, UserMapPut, Collected, SameCore;
    match a {
      case PutUserConfigMap(s, cm) => UserMapPutLeavesCore(c, s, cm);
      case CollectConfigMap(s) => CollectedLeavesCore(c, s);
      case _ => DirectLeavesCore(c, a);
    }
  }

  lemma UserMapPutLeavesCore(c: Cluster, s: NsName, cm: ConfigMap)
    ensures SameCore(c, UserMapPut(c, s, cm))
  {
  }

  lemma CollectedLeavesCore(c: Cluster, s: NsName)
    ensures SameCore(c, Collected(c, s))
  {
    hide AliveUid;
  }

  lemma DirectLeavesCore(c: Cluster, a: Action)
    requires !AboutObjects(a) && !AboutGarage(a) && !a.PutUserConfigMap? && !a.CollectConfigMap?
    ensures SameCore(c, Perform(c, a))
  {
    hide Created, Edited, Touched, WithBucket, Unsigned, UserMapPut, Collected;
  }

  lemma SameCoreGrows(c: Cluster, d: Cluster)
    requires SameCore(c, d)
    ensures Grown(c, d) && (GarageInv(c) ==> GarageInv(d))
  {
  }

  lemma ActionGrows(c: Cluster, a: Action)
    requires ObjectsInv(c)
    ensures Grown(c, Perform(c, a))
  {
    hide ObjectsInv, SameCore, Larger, SameStatuses, Perform, OnlyObjects;
    if IsEdit(a) {
      EditIsLocal(c, a);
      LocalKeepsGarage(c, Perform(c, a));
    } else {
      OtherActionGrows(c, a);
    }
  }

  lemma OtherActionGrows(c: Cluster, a: Action)
    requires ObjectsInv(c) && !IsEdit(a)
    ensures Grown(c, Perform(c, a))
  {
    hide ObjectsInv, SameCore, Grown, Created, Edited, Touched, WithBucket, UserMapPut, Collected;
    match a {
      case CreateBucketObject(n, uid, spec) => CreatedGrows(c, n, uid, spec);
      case AddGarageBucket(alias, quotas) =>
        GrownFromItself(c);
        if alias !in c.aliases { AddedGrows(c, alias, quotas, NONE); }
      case AddAlias(alias, id) =>
        GrownFromItself(c);
        if alias !in c.aliases { AddedGrows(c, alias, UNLIMITED, id); }
      case _ =>
        OthersLeaveCore(c, a);
        SameCoreGrows(c, Perform(c, a));
    }
  }

  /** Replacing one object. */
  lemma WriteKeepsObjects(c: Cluster, d: Cluster, n: NsName, o: BucketObject)
    requires ObjectsInv(c) && Larger(c, d) && d.objects == c.objects[n := o] && d.names == c.names
    requires ObjectInv(d, o) && (n in c.objects ==> c.objects[n].uid == o.uid) && (n !in c.objects ==> o.uid !in c.uids)
    ensures ObjectsInv(d)
  {
    hide Malformed, StatusInv;
    forall m | m in d.objects ensures ObjectInv(d, d.objects[m]) {
      if m != n {
        LargerKeepsObject(c, d, c.objects[m]);
      }
    }
  }

  lemma EditKeepsObjects(c: Cluster, n: NsName, o: BucketObject)
    requires ObjectsInv(c) && n in c.objects && o == c.objects[n].(spec := o.spec, generation := o.generation, version := c.clock)
    requires o.generation >= c.objects[n].generation && Admitted(c.objects[n].spec.source, o.spec.source)
    requires !(c.lawful && Switches(c.objects[n].spec.source, o.spec.source))
    ensures ObjectsInv(c.(objects := c.objects[n := o], clock := c.clock + 1))
  {
    hide Malformed;
    assert ObjectInv(c, c.objects[n]);
    WriteKeepsObjects(c, c.(objects := c.objects[n := o], clock := c.clock + 1), n, o);
  }

  lemma CreatedKeepsObjects(c: Cluster, n: NsName, uid: Id, spec: Spec)
    requires ObjectsInv(c)
    ensures ObjectsInv(Created(c, n, uid, spec))
  {
    hide ObjectInv, Grown, Larger;
    var d := Created(c, n, uid, spec);
    if n !in c.objects && uid !in c.uids {
      CreatedGrows(c, n, uid, spec);
      GrownIsLarger(c, d);
      FreshIsSound(c, n, uid, spec);
      forall m | m in d.objects ensures ObjectInv(d, d.objects[m]) {
        if m != n {
          LargerKeepsObject(c, d, c.objects[m]);
        }
      }
      forall m | m in c.objects ensures c.objects[m].uid in c.uids {
        OlderThanClock(c, c.objects[m]);
      }
    }
  }

  lemma FreshIsSound(c: Cluster, n: NsName, uid: Id, spec: Spec)
    requires n !in c.objects && uid !in c.uids
    ensures ObjectInv(Created(c, n, uid, spec), Created(c, n, uid, spec).objects[n])
  {
  }

  lemma RemovalKeepsObjects(c: Cluster, n: NsName)
    requires ObjectsInv(c)
    ensures ObjectsInv(c.(objects := c.objects - {n}))
  {
    hide Malformed, AliasOf;
    var d := c.(objects := c.objects - {n});
    forall m | m in d.objects ensures ObjectInv(d, d.objects[m]) {
      assert ObjectInv(c, c.objects[m]);
    }
  }

  lemma EditedKeepsObjects(c: Cluster, n: NsName, spec: Spec)
    requires ObjectsInv(c)
    ensures ObjectsInv(Edited(c, n, spec))
  {
    hide ObjectInv, Admitted, Switches;
    if n in c.objects && Admitted(c.objects[n].spec.source, spec.source)
       && !(c.lawful && Switches(c.objects[n].spec.source, spec.source)) {
      EditKeepsObjects(c, n, c.objects[n].(spec := spec, generation := c.objects[n].generation + 1, version := c.clock));
    }
  }

  lemma TouchedKeepsObjects(c: Cluster, n: NsName)
    requires ObjectsInv(c)
    ensures ObjectsInv(Touched(c, n))
  {
    hide ObjectInv;
    if n in c.objects {
      SameSource(c.objects[n].spec.source);
      EditKeepsObjects(c, n, c.objects[n].(version := c.clock));
    }
  }

  lemma ActionKeepsObjects(c: Cluster, a: Action)
    requires ObjectsInv(c)
    ensures ObjectsInv(Perform(c, a))
  {
    hide ObjectsInv, Grown, Larger, SameCore, Created, Edited, Touched, WithBucket, UserMapPut, Collected;
    match a {
      case CreateBucketObject(n, uid, spec) => CreatedKeepsObjects(c, n, uid, spec);
      case DeleteBucketObject(n) => RemovalKeepsObjects(c, n);
      case EditSpec(n, spec) => EditedKeepsObjects(c, n, spec);
      case EditMetadata(n) => TouchedKeepsObjects(c, n);
      case _ =>
        ActionGrows(c, a);
        GrownIsLarger(c, Perform(c, a));
        OthersLeaveObjects(c, a);
        LargerKeepsObjects(c, Perform(c, a));
    }
  }

  lemma OthersLeaveObjects(c: Cluster, a: Action)
    requires !AboutObjects(a)
    ensures Perform(c, a).objects == c.objects && Perform(c, a).names == c.names
  {
    hide AliveUid, Created, Edited, Touched;
  }

  lemma SameSource(s: Source)
    ensures Admitted(s, s) && !Switches(s, s)
  {
  }

  /** Others make only ConfigMaps without a controller. */
  ghost predicate NoNewOwned(c: Cluster, d: Cluster) {
    forall s | s in d.configMaps && d.configMaps[s].controller.Some? :: s in c.configMaps && c.configMaps[s] == d.configMaps[s]
  }

  lemma ActionMakesNoOwned(c: Cluster, a: Action)
    ensures NoNewOwned(c, Perform(c, a))
  {
    hide AliveUid, Perform, Created, Edited, Touched, WithBucket;
    if a.PutUserConfigMap? || a.DeleteConfigMapObject? || a.CollectConfigMap? {
      MapActionMakesNoOwned(c, a);
    } else {
      OthersLeaveMaps(c, a);
    }
  }

  lemma MapActionMakesNoOwned(c: Cluster, a: Action)
    requires a.PutUserConfigMap? || a.DeleteConfigMapObject? || a.CollectConfigMap?
    ensures NoNewOwned(c, Perform(c, a))
  {
    hide AliveUid, Created, Edited, Touched, WithBucket;
  }

  lemma OthersLeaveMaps(c: Cluster, a: Action)
    requires !a.PutUserConfigMap? && !a.DeleteConfigMapObject? && !a.CollectConfigMap?
    ensures Perform(c, a).configMaps == c.configMaps
  {
    hide Admitted, UserMapPut, Collected;
  }

  lemma ActionKeepsOwnMaps(c: Cluster, a: Action, n: NsName, uid: Id)
    requires OwnMaps(c, n, uid)
    ensures OwnMaps(Perform(c, a), n, uid)
  {
    hide Perform;
    ActionMakesNoOwned(c, a);
  }

  /** Every object after an action has the UID of the object that was there before, or a new one. */
  lemma ActionKeepsUids(c: Cluster, a: Action, m: NsName)
    requires m in Perform(c, a).objects
    ensures (m in c.objects && c.objects[m].uid == Perform(c, a).objects[m].uid) || Perform(c, a).objects[m].uid !in c.uids
  {
    hide AliveUid, Admitted, Switches;
  }

  lemma ActionKeepsConfigMaps(c: Cluster, a: Action)
    requires ConfigMapsInv(c) && GarageInv(c) && ObjectsInv(c)
    ensures ConfigMapsInv(Perform(c, a))
  {
    hide Perform, GarageInv, ObjectsInv;
    var d := Perform(c, a);
    ActionMakesNoOwned(c, a);
    ActionGrows(c, a);
    forall m | m in d.objects ensures OwnMaps(d, m, d.objects[m].uid) {
      ActionKeepsUids(c, a, m);
    }
  }

  lemma NewBucketKeepsGarage(c: Cluster, alias: Alias, quotas: WireQuotas)
    requires GarageInv(c) && alias !in c.aliases && Unsigned(quotas)
    ensures GarageInv(WithBucket(c, alias, quotas))
  {
  }

  lemma CreatedKeepsGarage(c: Cluster, n: NsName, uid: Id, spec: Spec)
    requires GarageInv(c) && ObjectsInv(c)
    ensures GarageInv(Created(c, n, uid, spec))
  {
    hide ObjectInv;
  }

  lemma AliasKeepsGarage(c: Cluster, alias: Alias, id: Id)
    requires GarageInv(c) && id in c.buckets && alias !in c.aliases
    ensures GarageInv(c.(aliases := c.aliases[alias := id]))
  {
  }

  lemma ActionKeepsGarage(c: Cluster, a: Action)
    requires GarageInv(c) && ObjectsInv(c)
    ensures GarageInv(Perform(c, a))
  {
    hide ObjectsInv, GarageInv, SameCore, OnlyObjects, SameStatuses, Created, Edited, Touched, WithBucket, UserMapPut, Collected;
    if IsEdit(a) {
      EditIsLocal(c, a);
      LocalKeepsGarage(c, Perform(c, a));
    }
    match a {
      case CreateBucketObject(n, uid, spec) => CreatedKeepsGarage(c, n, uid, spec);
      case DeleteBucketObject(_) =>
      case EditSpec(_, _) =>
      case EditMetadata(_) =>
      case AddGarageBucket(alias, quotas) => if alias !in c.aliases && Unsigned(quotas) { NewBucketKeepsGarage(c, alias, quotas); }
      case AddAlias(alias, id) => if alias !in c.aliases && id in c.buckets { AliasKeepsGarage(c, alias, id); }
      case _ =>
        OthersLeaveCore(c, a);
        SameCoreGrows(c, Perform(c, a));
    }
  }

  lemma ActionKeepsInv(c: Cluster, a: Action)
    requires Inv(c)
    ensures Inv(Perform(c, a)) && Grown(c, Perform(c, a))
  {
    hide ObjectsInv, ConfigMapsInv, GarageInv, Perform, Grown;
    ActionKeepsObjects(c, a);
    ActionKeepsConfigMaps(c, a);
    ActionKeepsGarage(c, a);
    ActionGrows(c, a);
  }

  /** Any change of an object gives it a version that was not used before. */
  lemma ActionChangesVersion(c: Cluster, a: Action, n: NsName)
    requires n in Perform(c, a).objects
    ensures (n in c.objects && Perform(c, a).objects[n] == c.objects[n]) || Perform(c, a).objects[n].version == c.clock
  {
    hide AliveUid, Admitted, Switches;
  }

  lemma ActionKeepsKnown(c: Cluster, a: Action, n: NsName, o: BucketObject)
    requires Inv(c) && Known(c, n, o)
    ensures Known(Perform(c, a), n, o)
  {
    hide Inv, Perform, OwnMaps, Grown, ObjectInv;
    var d := Perform(c, a);
    ActionKeepsInv(c, a);
    GrownIsLarger(c, d);
    LargerKeepsObject(c, d, o);
    ActionKeepsOwnMaps(c, a, n, o.uid);
    OlderThanClock(c, o);
    if n in d.objects {
      ActionChangesVersion(c, a, n);
    }
    forall m | m in d.objects && d.objects[m].uid == o.uid ensures m == n {
      ActionKeepsUids(c, a, m);
    }
  }

  lemma OlderThanClock(c: Cluster, o: BucketObject)
    requires ObjectInv(c, o)
    ensures o.version < c.clock && o.uid in c.uids
  {
  }

  lemma {:induction false} ActionsKeepHeld(c: Cluster, actions: seq<Action>, n: NsName, o: BucketObject)
    requires Held(c, n, o)
    ensures Held(PerformAll(c, actions), n, o) && Grown(c, PerformAll(c, actions))
    decreases |actions|
  {
    hide Inv, Known, Perform, Grown;
    if actions == [] {
      GrownFromItself(c);
    } else {
      var d := Perform(c, actions[0]);
      ActionKeepsInv(c, actions[0]);
      ActionKeepsKnown(c, actions[0], n, o);
      ActionsKeepHeld(d, actions[1..], n, o);
      GrownTwice(c, d, PerformAll(c, actions));
    }
  }

  lemma GrownFromItself(c: Cluster)
    ensures Grown(c, c)
  {
  }

  lemma HeldOnArrival(w: World, n: NsName, o: BucketObject)
    requires Held(w.c, n, o)
    ensures Held(Arrive(w), n, o) && Grown(w.c, Arrive(w))
  {
    hide Held, Grown;
    GrownFromItself(w.c);
    if w.tape != [] {
      ActionsKeepHeld(w.c, w.tape[0].actions, n, o);
    }
  }

  lemma {:induction false} ActionsKeepInv(c: Cluster, actions: seq<Action>)
    requires Inv(c)
    ensures Inv(PerformAll(c, actions)) && Grown(c, PerformAll(c, actions))
    decreases |actions|
  {
    hide Inv, Perform, Grown;
    if actions == [] {
      GrownFromItself(c);
    } else {
      var d := Perform(c, actions[0]);
      ActionKeepsInv(c, actions[0]);
      ActionsKeepInv(d, actions[1..]);
      GrownTwice(c, d, PerformAll(c, actions));
    }
  }

  lemma InvOnArrival(w: World)
    requires Inv(w.c)
    ensures Inv(Arrive(w)) && Grown(w.c, Arrive(w))
  {
    hide Inv, Grown;
    GrownFromItself(w.c);
    if w.tape != [] {
      ActionsKeepInv(w.c, w.tape[0].actions);
    }
  }

  // ---------------------------------------------------------------- the controller's own writes

  /** The cluster after the controller has created a bucket. */
  function Minted(c: Cluster, alias: Alias): Cluster {
    WithBucket(c, alias, UNLIMITED).(minted := c.minted + multiset{alias})
  }

  lemma MintKeepsGarage(c: Cluster, o: BucketObject)
    requires GarageInv(c) && ObjectInv(c, o) && o.spec.source.New? && AliasOf(o) !in c.aliases
    ensures GarageInv(Minted(c, AliasOf(o))) && Carries(Minted(c, AliasOf(o)), AliasOf(o), c.clock) && c.clock != NONE
  {
    hide Malformed, StatusInv;
  }

  lemma MintKeepsHeld(c: Cluster, n: NsName, o: BucketObject)
    requires Held(c, n, o) && o.spec.source.New? && AliasOf(o) !in c.aliases
    ensures var d := Minted(c, AliasOf(o));
            Held(d, n, o) && Grown(c, d) && Carries(d, AliasOf(o), c.clock) && c.clock != NONE
  {
    hide ObjectInv, ObjectsInv, GarageInv, Carries, OwnMaps, Grown, AliasOf;
    var d := Minted(c, AliasOf(o));
    MintGrows(c, AliasOf(o));
    MintKeepsGarage(c, o);
    GrownIsLarger(c, d);
    LargerKeepsObjects(c, d);
    LargerKeepsObject(c, d, o);
    SameMaps(c, d, n, o.uid);
    forall m | m in d.objects ensures OwnMaps(d, m, d.objects[m].uid) {
      SameMaps(c, d, m, d.objects[m].uid);
    }
  }

  lemma MintGrows(c: Cluster, alias: Alias)
    requires alias !in c.aliases
    ensures Grown(c, Minted(c, alias))
  {
  }

  lemma SameMaps(c: Cluster, d: Cluster, n: NsName, uid: Id)
    requires OwnMaps(c, n, uid) && NoNewOwned(c, d)
    ensures OwnMaps(d, n, uid)
  {
  }

  /** New quotas for a bucket. */
  lemma QuotasKeepHeld(c: Cluster, n: NsName, o: BucketObject, id: Id, quotas: WireQuotas)
    requires Held(c, n, o) && id in c.buckets && Unsigned(quotas)
    ensures var d := c.(buckets := c.buckets[id := quotas]);
            Held(d, n, o) && Grown(c, d)
  {
    hide ObjectInv, OwnMaps, Grown;
    var d := c.(buckets := c.buckets[id := quotas]);
    SameBucketsGrow(c, id, quotas);
    GrownIsLarger(c, d);
    LargerKeepsObjects(c, d);
    LargerKeepsObject(c, d, o);
    SameMaps(c, d, n, o.uid);
    forall m | m in d.objects ensures OwnMaps(d, m, d.objects[m].uid) {
      SameMaps(c, d, m, d.objects[m].uid);
    }
  }

  lemma SameBucketsGrow(c: Cluster, id: Id, quotas: WireQuotas)
    ensures Grown(c, c.(buckets := c.buckets[id := quotas]))
  {
  }

  /** Only ConfigMaps change, and those that n's UID comes to control are where n looks for them. */
  lemma MapsKeepHeld(c: Cluster, d: Cluster, n: NsName, o: BucketObject)
    requires Held(c, n, o) && d == c.(configMaps := d.configMaps) && OwnMaps(d, n, o.uid)
    requires forall s | s in d.configMaps && d.configMaps[s].controller.Some? && d.configMaps[s].controller != Some(o.uid) ::
               s in c.configMaps && c.configMaps[s] == d.configMaps[s]
    ensures Held(d, n, o) && Grown(c, d)
  {
    hide ObjectInv, Grown;
    SameGarageGrows(c, d);
    GrownIsLarger(c, d);
    LargerKeepsObjects(c, d);
    LargerKeepsObject(c, d, o);
    OlderThanClock(c, o);
    hide ObjectsInv, GarageInv;
  }

  lemma SameGarageGrows(c: Cluster, d: Cluster)
    requires d == c.(configMaps := d.configMaps)
    ensures Grown(c, d) && (GarageInv(c) ==> GarageInv(d))
  {
  }

  lemma PutKeepsHeld(c: Cluster, n: NsName, o: BucketObject, s: NsName, cm: ConfigMap)
    requires Held(c, n, o) && s.ns == n.ns && cm.tag == n.name && cm.controller == Some(o.uid)
    ensures var d := c.(configMaps := c.configMaps[s := cm]);
            Held(d, n, o) && Grown(c, d)
  {
    hide Inv, ObjectInv;
    MapsKeepHeld(c, c.(configMaps := c.configMaps[s := cm]), n, o);
  }

  lemma DropKeepsHeld(c: Cluster, n: NsName, o: BucketObject, s: NsName)
    requires Held(c, n, o)
    ensures var d := c.(configMaps := c.configMaps - {s});
            Held(d, n, o) && Grown(c, d)
  {
    hide Inv, ObjectInv;
    MapsKeepHeld(c, c.(configMaps := c.configMaps - {s}), n, o);
  }

  lemma StatusKeepsInv(c: Cluster, n: NsName, o: BucketObject, s: BucketStatus)
    requires Held(c, n, o) && n in c.objects && c.objects[n] == o && StatusInv(c, o, s) && !Malformed(s)
    ensures Inv(WithStatus(c, n, s)) && Larger(c, WithStatus(c, n, s))
  {
    hide Malformed, Larger, OwnMaps;
    var d := WithStatus(c, n, s);
    var p := o.(status := s, version := c.clock);
    StatusGrows(c, n, s);
    StatusOfUpdated(c, d, o, s);
    WriteKeepsObjects(c, d, n, p);
    forall m | m in d.objects ensures OwnMaps(d, m, d.objects[m].uid) {
      SameMaps(c, d, m, d.objects[m].uid);
    }
  }

  lemma StatusGrows(c: Cluster, n: NsName, s: BucketStatus)
    requires n in c.objects
    ensures Larger(c, WithStatus(c, n, s))
  {
  }

  lemma StatusOfUpdated(c: Cluster, d: Cluster, o: BucketObject, s: BucketStatus)
    requires ObjectInv(c, o) && StatusInv(c, o, s) && !Malformed(s) && Larger(c, d) && d.clock > c.clock
    ensures ObjectInv(d, o.(status := s, version := c.clock))
  {
    hide Malformed;
    assert AliasOf(o.(status := s, version := c.clock)) == AliasOf(o);
  }

  // ---------------------------------------------------------------- one call

  /** From one call of a reconcile of o to another, what it knows stays true and Garage only grows. */
  ghost predicate Kept(c: Cluster, d: Cluster, n: NsName, o: BucketObject) {
    Held(d, n, o) && Grown(c, d)
  }

  lemma CarriesGrown(c: Cluster, d: Cluster, alias: Alias, id: Id)
    requires Grown(c, d) && Carries(c, alias, id)
    ensures Carries(d, alias, id)
  {
  }

  lemma ArrivalKeeps(w: World, n: NsName, o: BucketObject)
    requires Held(w.c, n, o)
    ensures Kept(w.c, Arrive(w), n, o)
  {
    hide Held, Grown, Arrive;
    HeldOnArrival(w, n, o);
  }

  lemma KeptItself(c: Cluster, n: NsName, o: BucketObject)
    requires Held(c, n, o)
    ensures Kept(c, c, n, o)
  {
    hide Held;
  }

  lemma ReadKeeps<T>(w: World, entries: seq<Entry>, r: Result<T>, n: NsName, o: BucketObject)
    requires Held(w.c, n, o)
    ensures Kept(w.c, Read(w, entries, r).w.c, n, o)
  {
    hide Kept, Held, Arrive, ReplyTo;
    ArrivalKeeps(w, n, o);
  }

  lemma LookupKeeps(w: World, alias: Alias, n: NsName, o: BucketObject)
    requires Held(w.c, n, o)
    ensures var call := GarageGet(w, alias);
            && Kept(w.c, call.w.c, n, o)
            && (call.r.Ok? ==> Carries(call.w.c, alias, call.r.value.id) && call.r.value.id != NONE)
  {
    hide Kept, Held, Arrive, ReplyTo;
    var a := Arrive(w);
    ArrivalKeeps(w, n, o);
    BucketIdsArePositive(w.c, a, n, o);
  }

  lemma BucketIdsArePositive(c: Cluster, d: Cluster, n: NsName, o: BucketObject)
    requires Kept(c, d, n, o)
    ensures forall id | id in d.buckets :: id != NONE
  {
  }

  lemma CreateKeeps(w: World, n: NsName, o: BucketObject)
    requires Held(w.c, n, o) && o.spec.source.New?
    ensures var call := GarageCreate(w, AliasOf(o));
            && Kept(w.c, call.w.c, n, o)
            && (call.r.Ok? ==> Carries(call.w.c, AliasOf(o), call.r.value.id) && call.r.value.id != NONE)
  {
    hide Held, Grown, Arrive, ReplyTo, AliasOf, Carries, WithBucket;
    var a := Arrive(w);
    HeldOnArrival(w, n, o);
    if AliasOf(o) !in a.aliases {
      MintKeepsHeld(a, n, o);
      GrownTwice(w.c, a, Minted(a, AliasOf(o)));
    }
  }

  lemma UpdateKeeps(w: World, id: Id, quotas: Quotas, n: NsName, o: BucketObject)
    requires Held(w.c, n, o)
    ensures Kept(w.c, GarageUpdate(w, id, quotas).w.c, n, o)
  {
    hide Held, Grown, Arrive, ReplyTo;
    var a := Arrive(w);
    HeldOnArrival(w, n, o);
    if id in a.buckets {
      QuotasKeepHeld(a, n, o, id, FromS3(quotas));
      GrownTwice(w.c, a, a.(buckets := a.buckets[id := FromS3(quotas)]));
    }
  }

  lemma MapWriteKeeps(w: World, s: NsName, read: ConfigMap, cm: ConfigMap, n: NsName, o: BucketObject)
    requires Held(w.c, n, o) && s.ns == n.ns && cm.tag == n.name && cm.controller == Some(o.uid)
    ensures Kept(w.c, CreateConfigMap(w, s, cm).w.c, n, o) && Kept(w.c, UpdateConfigMap(w, s, read, cm).w.c, n, o)
  {
    hide Held, Grown, Arrive, ReplyTo;
    var a := Arrive(w);
    HeldOnArrival(w, n, o);
    PutKeepsHeld(a, n, o, s, cm);
    GrownTwice(w.c, a, a.(configMaps := a.configMaps[s := cm]));
  }

  lemma MapDeleteKeeps(w: World, s: NsName, n: NsName, o: BucketObject)
    requires Held(w.c, n, o)
    ensures Kept(w.c, DeleteConfigMap(w, s).w.c, n, o)
  {
    hide Held, Grown, Arrive, ReplyTo;
    var a := Arrive(w);
    HeldOnArrival(w, n, o);
    DropKeepsHeld(a, n, o, s);
    GrownTwice(w.c, a, a.(configMaps := a.configMaps - {s}));
  }

  // ---------------------------------------------------------------- the stages

  /** What holds when the Garage bucket of o has been found: its alias leads to b. */
  ghost predicate Found(c: Cluster, o: BucketObject, r: Result<S3Bucket>) {
    r.Ok? ==> Carries(c, AliasOf(o), r.value.id) && r.value.id != NONE
  }

  lemma NewBucketKeeps(w: World, n: NsName, o: BucketObject)
    requires Held(w.c, n, o) && o.spec.source.New?
    ensures var resolved := ResolveNewBucket(w, AliasOf(o));
            Kept(w.c, resolved.w.c, n, o) && Found(resolved.w.c, o, resolved.r)
  {
    hide Held, Grown, GarageGet, GarageCreate, AliasOf, Carries;
    LookupKeeps(w, AliasOf(o), n, o);
    var got := GarageGet(w, AliasOf(o));
    CreateKeeps(got.w, n, o);
    GrownTwice(w.c, got.w.c, GarageCreate(got.w, AliasOf(o)).w.c);
  }

  lemma ReadOwnerKeeps(w: World, keyID: Id, b: S3Bucket, n: NsName, o: BucketObject)
    requires Held(w.c, n, o)
    ensures Kept(w.c, VerifyOwner(w, keyID, b).w.c, n, o)
    ensures VerifyOwner(w, keyID, b).r.Ok? ==> VerifyOwner(w, keyID, b).r.value == b
  {
    hide Kept, Held, Read;
    var a := Arrive(w);
    var held := if Pair(keyID, b.id) in a.rows then a.rows[Pair(keyID, b.id)] else NOTHING;
    ReadKeeps(w, [PermissionsRead(Pair(keyID, b.id), held)], Ok(held), n, o);
    ReadKeeps<Permissions>(w, [], Err(NotFound), n, o);
  }

  lemma SecretReadKeeps(w: World, s: NsName, n: NsName, o: BucketObject)
    requires Held(w.c, n, o)
    ensures Kept(w.c, GetSecret(w, s).w.c, n, o)
  {
    hide Kept, Held, Read;
    var a := Arrive(w);
    if s in a.secrets {
      ReadKeeps(w, [SecretRead(s, a.secrets[s])], Ok(a.secrets[s]), n, o);
    }
    ReadKeeps<Id>(w, [], Err(NotFound), n, o);
  }

  lemma ExistingBucketKeeps(w: World, s: NsName, n: NsName, o: BucketObject)
    requires Held(w.c, n, o) && o.spec.source.Existing?
    ensures var resolved := ResolveExistingBucket(w, AliasOf(o), s);
            Kept(w.c, resolved.w.c, n, o) && Found(resolved.w.c, o, resolved.r)
  {
    hide Held, Grown, GarageGet, GetSecret, VerifyOwner, AliasOf, Carries;
    SecretReadKeeps(w, s, n, o);
    var secret := GetSecret(w, s);
    if secret.r.Ok? {
      LookupKeeps(secret.w, AliasOf(o), n, o);
      var got := GarageGet(secret.w, AliasOf(o));
      GrownTwice(w.c, secret.w.c, got.w.c);
      if got.r.Ok? {
        ReadOwnerKeeps(got.w, secret.r.value, got.r.value, n, o);
        var held := VerifyOwner(got.w, secret.r.value, got.r.value);
        GrownTwice(w.c, got.w.c, held.w.c);
        CarriesGrown(got.w.c, held.w.c, AliasOf(o), got.r.value.id);
      }
    }
  }

  lemma ResolveKeeps(w: World, q: Job, o: BucketObject)
    requires Held(w.c, q.n, o)
    ensures var resolved := Resolve(w, q, o);
            Kept(w.c, resolved.w.c, q.n, o) && Found(resolved.w.c, o, resolved.r)
  {
    hide Held, Kept, Found, ResolveNewBucket, ResolveExistingBucket;
    match o.spec.source {
      case New(_) => NewBucketKeeps(w, q.n, o);
      case Existing(alias, secret) =>
        assert AliasOf(o) == alias;
        ExistingBucketKeeps(w, NsName(q.n.ns, secret), q.n, o);
    }
  }

  /** Recording the bucket that was found gives a status that o may have. */
  lemma RecordedIsSound(c: Cluster, o: BucketObject, s: BucketStatus, id: Id)
    requires StatusInv(c, o, s) && Carries(c, AliasOf(o), id) && id != NONE
    ensures StatusInv(c, o, Recorded(s, id, AliasOf(o)))
  {
    hide AliasOf;
  }

  lemma MarkedIsSound(c: Cluster, o: BucketObject, s: BucketStatus, t: CondType, status: CondStatus, reason: Reason)
    requires StatusInv(c, o, s)
    ensures StatusInv(c, o, Marked(s, t, status, reason, o.generation))
  {
    hide AliasOf, SetCondition;
  }

  lemma AggregatedIsSound(c: Cluster, o: BucketObject, s: BucketStatus)
    requires StatusInv(c, o, s)
    ensures StatusInv(c, o, Aggregated(s, o.generation)) && StatusInv(c, o, Initialized(s))
  {
    hide AliasOf, SetCondition, Verdict, InitAll;
  }

  /** A stage that started with a sound status ends with one, and keeps what is known. */
  ghost predicate Sound(c: Cluster, run: BucketRun, n: NsName, o: BucketObject) {
    Kept(c, run.w.c, n, o) && StatusInv(run.w.c, o, run.status)
  }

  lemma EnsureKeeps(w: World, q: Job, o: BucketObject, s: BucketStatus)
    requires Held(w.c, q.n, o)
    ensures Kept(w.c, EnsureConfigMap(w, q, o, s).w.c, q.n, o)
  {
    hide Held, Grown, Read, Arrive, CreateConfigMap, UpdateConfigMap;
    var name := ConfigMapOf(q.n, o.spec);
    var desired := DesiredConfigMap(q, o, s);
    var a := Arrive(w);
    ReadKeeps(w, [], if name in a.configMaps then Ok(a.configMaps[name]) else Err(NotFound), q.n, o);
    var got := GetConfigMap(w, name);
    var read := if got.r.Ok? then got.r.value else desired;
    MapWriteKeeps(got.w, name, read, desired, q.n, o);
    GrownTwice(w.c, got.w.c, CreateConfigMap(got.w, name, desired).w.c);
    GrownTwice(w.c, got.w.c, UpdateConfigMap(got.w, name, read, desired).w.c);
  }

  lemma {:induction false} DeleteEachKeeps(w: World, items: seq<Item>, desired: Id, n: NsName, o: BucketObject)
    requires Held(w.c, n, o)
    ensures Kept(w.c, DeleteEach(w, n.ns, items, desired, o.uid).w.c, n, o)
    decreases |items|
  {
    hide Held, Grown, DeleteConfigMap;
    if items == [] {
      GrownFromItself(w.c);
    } else if !IsStale(items[0], desired, o.uid) {
      DeleteEachKeeps(w, items[1..], desired, n, o);
    } else {
      var s := NsName(n.ns, items[0].name);
      MapDeleteKeeps(w, s, n, o);
      var deleted := DeleteConfigMap(w, s);
      DeleteEachKeeps(deleted.w, items[1..], desired, n, o);
      GrownTwice(w.c, deleted.w.c, DeleteEach(deleted.w, n.ns, items[1..], desired, o.uid).w.c);
    }
  }

  lemma DeleteStaleKeeps(w: World, n: NsName, o: BucketObject)
    requires Held(w.c, n, o)
    ensures Kept(w.c, DeleteStaleConfigMaps(w, n, o).w.c, n, o)
  {
    hide Held, Grown, Read, Arrive, DeleteEach, Listing;
    var a := Arrive(w);
    ReadKeeps(w, [], Ok(Items(a, n.ns, Listing(Tagged(a, n.ns, n.name)))), n, o);
    var listed := ListConfigMaps(w, n.ns, n.name);
    if listed.r.Ok? {
      DeleteEachKeeps(listed.w, listed.r.value, ConfigMapOf(n, o.spec).name, n, o);
      GrownTwice(w.c, listed.w.c, DeleteEach(listed.w, n.ns, listed.r.value, ConfigMapOf(n, o.spec).name, o.uid).w.c);
    }
  }

  lemma ConfigMapStageSound(w: World, q: Job, o: BucketObject, s: BucketStatus)
    requires Held(w.c, q.n, o) && StatusInv(w.c, o, s)
    ensures Sound(w.c, ConfigMapStage(w, q, o, s), q.n, o)
  {
    hide Held, Grown, EnsureConfigMap, DeleteStaleConfigMaps, StatusInv, Marked;
    EnsureKeeps(w, q, o, s);
    var ensured := EnsureConfigMap(w, q, o, s);
    DeleteStaleKeeps(ensured.w, q.n, o);
    var cleaned := DeleteStaleConfigMaps(ensured.w, q.n, o);
    GrownTwice(w.c, ensured.w.c, cleaned.w.c);
    GrownIsLarger(w.c, ensured.w.c);
    LargerKeepsStatus(w.c, ensured.w.c, o, s);
    GrownIsLarger(w.c, cleaned.w.c);
    LargerKeepsStatus(w.c, cleaned.w.c, o, s);
    MarkedIsSound(ensured.w.c, o, s, BucketConfigMapReady, False, if ensured.r.Err? then ConfigMapFailure(ensured.r.error) else Met);
    MarkedIsSound(cleaned.w.c, o, s, BucketConfigMapReady, True, Met);
  }

  lemma QuotaStageSound(w: World, q: Job, o: BucketObject, s: BucketStatus, b: S3Bucket)
    requires Held(w.c, q.n, o) && StatusInv(w.c, o, s)
    ensures Sound(w.c, QuotaStage(w, q, o, s, b), q.n, o)
  {
    hide Held, Grown, GarageUpdate, ConfigMapStage, StatusInv, Marked;
    var ready := Marked(s, BucketReady, True, Met, o.generation);
    MarkedIsSound(w.c, o, s, BucketReady, True, Met);
    UpdateKeeps(w, b.id, o.spec.quotas, q.n, o);
    var sent := GarageUpdate(w, b.id, o.spec.quotas);
    GrownIsLarger(w.c, sent.w.c);
    LargerKeepsStatus(w.c, sent.w.c, o, s);
    LargerKeepsStatus(w.c, sent.w.c, o, ready);
    MarkedIsSound(sent.w.c, o, s, BucketReady, False, UpdateFailed);
    ConfigMapStageSound(w, q, o, ready);
    ConfigMapStageSound(sent.w, q, o, ready);
    GrownTwice(w.c, sent.w.c, ConfigMapStage(sent.w, q, o, ready).w.c);
  }

  lemma ReconcileBucketSound(w: World, q: Job, o: BucketObject, s: BucketStatus)
    requires Held(w.c, q.n, o) && StatusInv(w.c, o, s)
    ensures Sound(w.c, ReconcileBucket(w, q, o, s), q.n, o)
  {
    hide Held, Grown, Resolve, QuotaStage, StatusInv, Marked, Recorded, AliasOf, Carries;
    ResolveKeeps(w, q, o);
    var resolved := Resolve(w, q, o);
    GrownIsLarger(w.c, resolved.w.c);
    LargerKeepsStatus(w.c, resolved.w.c, o, s);
    if resolved.r.Err? {
      MarkedIsSound(resolved.w.c, o, s, BucketReady, False, resolved.reason);
    } else {
      var recorded := Recorded(s, resolved.r.value.id, AliasOf(o));
      RecordedIsSound(resolved.w.c, o, s, resolved.r.value.id);
      QuotaStageSound(resolved.w, q, o, recorded, resolved.r.value);
      GrownTwice(w.c, resolved.w.c, QuotaStage(resolved.w, q, o, recorded, resolved.r.value).w.c);
    }
  }

  lemma ComputedSound(w: World, q: Job, o: BucketObject)
    requires Held(w.c, q.n, o)
    ensures Sound(w.c, Computed(w, q, o), q.n, o)
  {
    hide Kept, ReconcileBucket, StatusInv, Aggregated, Initialized, Held;
    HeldStatus(w.c, q.n, o);
    AggregatedIsSound(w.c, o, o.status);
    ReconcileBucketSound(w, q, o, Initialized(o.status));
    var run := ReconcileBucket(w, q, o, Initialized(o.status));
    AggregatedIsSound(run.w.c, o, run.status);
  }

  lemma HeldStatus(c: Cluster, n: NsName, o: BucketObject)
    requires Held(c, n, o)
    ensures StatusInv(c, o, o.status) && ObjectInv(c, o) && Inv(c)
  {
  }

  lemma PatchKeepsInv(w: World, n: NsName, o: BucketObject, s: BucketStatus)
    requires Held(w.c, n, o) && StatusInv(w.c, o, s)
    ensures var patch := PatchStatus(w, n, o.version, s);
            Inv(patch.w.c) && Larger(w.c, patch.w.c)
  {
    hide Inv, Larger, StatusInv, ObjectInv, OwnMaps, Malformed, Arrive, WithStatus;
    HeldOnArrival(w, n, o);
    var a := Arrive(w);
    GrownIsLarger(w.c, a);
    LargerKeepsStatus(w.c, a, o, s);
    if n in a.objects && a.objects[n].version == o.version && !Malformed(s) {
      StatusKeepsInv(a, n, o, s);
      LargerTwice(w.c, a, WithStatus(a, n, s));
    }
  }

  lemma ReconcileObjectKeepsInv(w: World, q: Job, o: BucketObject)
    requires Held(w.c, q.n, o)
    ensures var end := ReconcileObject(w, q, o);
            Inv(end.w.c) && Larger(w.c, end.w.c)
  {
    hide Held, Inv, Larger, Computed, PatchStatus, StatusInv;
    ComputedSound(w, q, o);
    var run := Computed(w, q, o);
    HeldStatus(run.w.c, q.n, o);
    PatchKeepsInv(run.w, q.n, o, run.status);
    LargerTwice(w.c, run.w.c, PatchStatus(run.w, q.n, o.version, run.status).w.c);
  }

  lemma JustReadIsHeld(c: Cluster, n: NsName)
    requires Inv(c) && n in c.objects
    ensures Held(c, n, c.objects[n])
  {
    hide GarageInv, ObjectInv, OwnMaps;
  }

  lemma ReconcileKeepsInv(w: World, q: Job)
    requires Inv(w.c)
    ensures var end := Reconcile(w, q);
            Inv(end.w.c) && Larger(w.c, end.w.c)
  {
    hide Inv, Larger, Held, ReconcileObject, Arrive, ReplyTo;
    InvOnArrival(w);
    var got := GetObject(w, q.n);
    if got.r.Ok? {
      JustReadIsHeld(got.w.c, q.n);
      ReconcileObjectKeepsInv(got.w, q, got.r.value);
      LargerTwice(w.c, got.w.c, ReconcileObject(got.w, q, got.r.value).w.c);
    }
  }

  lemma NextKeepsInv(c: Cluster, e: Event)
    requires Inv(c)
    ensures Inv(Next(c, e)) && Larger(c, Next(c, e))
  {
    hide Inv, Larger, Reconcile, Perform;
    match e {
      case Other(a) => ActionKeepsInv(c, a);
      case Work(q, tape) => ReconcileKeepsInv(World(c, tape, []), q);
    }
  }

  /** Before the first Bucket; Garage may hold any buckets, under any aliases. */
  ghost predicate Initial(c: Cluster) {
    && c.objects == map[] && c.minted == multiset{} && c.names == map[] && c.uids == {}
    && (forall s | s in c.configMaps :: c.configMaps[s].controller.None?)
    && GarageInv(c)
  }

  lemma {:induction false} InvAlways(c: Cluster, events: seq<Event>)
    requires Initial(c) || Inv(c)
    ensures Inv(Run(c, events)) && Larger(c, Run(c, events))
    decreases |events|
  {
    hide Inv, Initial, Next, Larger;
    InitialIsInv(c);
    if events == [] {
      LargerThanItself(c);
    } else {
      NextKeepsInv(c, events[0]);
      InvAlways(Next(c, events[0]), events[1..]);
      LargerTwice(c, Next(c, events[0]), Run(c, events));
    }
  }

  lemma LargerThanItself(c: Cluster)
    ensures Larger(c, c)
  {
  }

  lemma InitialIsInv(c: Cluster)
    requires Initial(c) || Inv(c)
    ensures Inv(c)
  {
  }
}
