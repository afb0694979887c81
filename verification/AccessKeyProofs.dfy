/**
 What holds in every reachable state of the AccessKey protocol, however many reconciles run, crash,
 fail or lose replies, and whatever users do between any two calls.
 */
module AccessKeyProofs {
  import opened Common
  import opened Conditions
  import opened AccessKeyWorld
  import opened AccessKeySpec

  // ---------------------------------------------------------------- the invariant

  /** The Secret the AccessKey asks for exists, is its own, and holds the credentials of its Garage key. */
  ghost predicate SecretMatches(c: Cluster, n: NsName, o: KeyObject, id: Id) {
    var s := SecretOf(n, o.secretName);
    && s in c.secrets && id in c.keys
    && c.secrets[s] == Secret(Some(o.uid), id, c.keys[id].secret)
  }

  ghost predicate IsMarked(s: KeyStatus, t: CondType, status: CondStatus, reason: Reason, generation: int) {
    Find(s.conditions, t) == Some(Condition(t, status, reason, generation))
  }

  /** The status says that everything is in place for the current generation. */
  ghost predicate RecordedReady(o: KeyObject, s: KeyStatus) {
    && IsMarked(s, Ready, True, Available, o.generation)
    && IsMarked(s, KeySecretReady, True, Met, o.generation)
    && s.secretName == o.secretName
  }

  /** The status says that somebody else's Secret is in the way of the current generation. */
  ghost predicate RecordedConflict(o: KeyObject, s: KeyStatus) {
    && IsMarked(s, Ready, False, SecretNameConflict, o.generation)
    && IsMarked(s, KeySecretReady, False, SecretNameConflict, o.generation)
  }

  /** What a status may claim about the generation it has observed. */
  ghost predicate Recorded(o: KeyObject, s: KeyStatus) {
    s.observedGeneration == o.generation ==>
      && IsMarked(s, AccessKeyReady, True, Met, o.generation) && s.accessKeyID != NONE
      && (RecordedReady(o, s) || RecordedConflict(o, s))
  }

  ghost predicate ObjectInv(c: Cluster, n: NsName, o: KeyObject) {
    && o.uid in c.uids && o.version < c.clock && o.generation >= 1
    && (o.deleting ==> o.finalizer && o.status.observedGeneration < o.generation)
    && ClaimedBy(c, n, o.secretName)
    && StatusInv(c, n, o, o.status)
    && (!o.deleting && o.status.observedGeneration == o.generation && RecordedReady(o, o.status)
        ==> SecretMatches(c, n, o, o.status.accessKeyID))
  }

  ghost predicate ClaimedBy(c: Cluster, n: NsName, secretName: Id) {
    SecretOf(n, secretName) in c.claims && c.claims[SecretOf(n, secretName)] == n
  }

  ghost predicate StatusInv(c: Cluster, n: NsName, o: KeyObject, s: KeyStatus) {
    && s.observedGeneration <= o.generation
    && (s.secretName != NONE ==> ClaimedBy(c, n, s.secretName))
    && (s.accessKeyID != NONE ==>
          && o.finalizer && s.accessKeyID < c.clock
          && (forall id | id in c.keys :: c.keys[id].name == ExtName(n, o.uid) <==> id == s.accessKeyID)
          && (!o.deleting ==> s.accessKeyID in c.keys))
    && Recorded(o, s)
  }

  ghost predicate Named(c: Cluster, name: ExtName) {
    exists id | id in c.keys :: c.keys[id].name == name
  }

  /** The AccessKey that a Garage key was made for still exists and cannot go without its finalizer. */
  ghost predicate Guarded(c: Cluster, name: ExtName) {
    name.owner in c.objects && c.objects[name.owner].uid == name.uid && c.objects[name.owner].finalizer
  }

  ghost predicate KeysInv(c: Cluster) {
    && (forall id | id in c.keys :: 0 < id < c.clock && Guarded(c, c.keys[id].name) && c.keys[id].name in c.minted)
    && (forall i, j | i in c.keys && j in c.keys && c.keys[i].name == c.keys[j].name :: i == j)
  }

  ghost predicate MintInv(c: Cluster) {
    && (forall x: ExtName :: c.minted[x] <= 1)
    && (forall x | x in c.minted :: x.uid in c.uids)
    && (forall x | x in c.minted && x.owner in c.objects && c.objects[x.owner].uid == x.uid
                   && !c.objects[x.owner].deleting :: Named(c, x))
  }

  ghost predicate Inv(c: Cluster) {
    && c.lawful && c.clock >= 1
    && (forall n | n in c.objects :: ObjectInv(c, n, c.objects[n]))
    && KeysInv(c)
    && MintInv(c)
  }

  // ---------------------------------------------------------------- what others may change

  ghost predicate SameStatus(o: KeyObject, p: KeyObject) {
    && p.uid == o.uid && p.status == o.status
    && (o.finalizer ==> p.finalizer)
    && (o.deleting ==> p.deleting)
    && p.generation >= o.generation
    && (p.generation == o.generation ==> p.secretName == o.secretName && p.deleting == o.deleting)
  }

  /** Nobody else touches finalizers or statuses. */
  ghost predicate ObjectsKept(c: Cluster, d: Cluster) {
    && (forall n | n in c.objects && c.objects[n].finalizer :: n in d.objects && SameStatus(c.objects[n], d.objects[n]))
    && (forall n | n in d.objects && d.objects[n].finalizer :: n in c.objects && c.objects[n].finalizer)
  }

  /** A name that is claimed keeps its owner, and its Secret can only go. */
  ghost predicate ClaimsKept(c: Cluster, d: Cluster) {
    && (forall s | s in c.claims :: s in d.claims && d.claims[s] == c.claims[s])
    && (forall s | s in c.claims && s in d.secrets :: s in c.secrets && d.secrets[s] == c.secrets[s])
  }

  /** A Secret goes only when the AccessKey that controls it is gone. */
  ghost predicate OwnedKept(c: Cluster, d: Cluster) {
    forall s, n | s in c.secrets && n in c.objects && c.objects[n].finalizer
                  && c.secrets[s].controller == Some(c.objects[n].uid) :: s in d.secrets && d.secrets[s] == c.secrets[s]
  }

  /** What an AccessKey with a finalizer can rely on while others act. */
  ghost predicate Rely(c: Cluster, d: Cluster) {
    && d.keys == c.keys && d.minted == c.minted && d.clock >= c.clock && d.lawful == c.lawful && c.uids <= d.uids
    && ObjectsKept(c, d)
    && ClaimsKept(c, d)
    && OwnedKept(c, d)
  }

  lemma ActionKeepsOthers(c: Cluster, a: Action)
    ensures ObjectsKept(c, Perform(c, a))
  {
  }

  lemma ActionKeepsClaims(c: Cluster, a: Action)
    requires c.lawful
    ensures ClaimsKept(c, Perform(c, a))
  {
  }

  lemma ActionKeepsOwned(c: Cluster, a: Action)
    requires c.lawful
    ensures OwnedKept(c, Perform(c, a))
  {
    if a.CollectSecret? {
      assert forall n | n in c.objects :: AliveUid(c, c.objects[n].uid);
    }
  }

  lemma ActionRespectsRely(c: Cluster, a: Action)
    requires c.lawful
    ensures Rely(c, Perform(c, a))
  {
    hide ObjectsKept, ClaimsKept, OwnedKept;
    ActionKeepsOthers(c, a);
    ActionKeepsClaims(c, a);
    ActionKeepsOwned(c, a);
  }

  /** An object that is left alone keeps its invariant. */
  lemma ObjectFrame(c: Cluster, d: Cluster, n: NsName)
    requires Rely(c, d)
    requires n in c.objects && n in d.objects && d.objects[n] == c.objects[n]
    requires ObjectInv(c, n, c.objects[n])
    ensures ObjectInv(d, n, d.objects[n])
  {
  }

  lemma ActionKeepsObject(c: Cluster, a: Action, n: NsName)
    requires c.lawful && c.clock >= 1 && n in Perform(c, a).objects
    requires n in c.objects ==> ObjectInv(c, n, c.objects[n])
    ensures ObjectInv(Perform(c, a), n, Perform(c, a).objects[n])
  {
    hide ObjectsKept, OwnedKept;
    var d := Perform(c, a);
    ActionRespectsRely(c, a);
    if n in c.objects && d.objects[n] == c.objects[n] {
      ObjectFrame(c, d, n);
    } else {
      match a {
        case CreateKeyObject(_, _, _) =>
        case DeleteKeyObject(_) =>
        case EditSecretName(_, _) =>
        case EditMetadata(_) =>
      }
    }
  }

  lemma ActionKeepsKeys(c: Cluster, a: Action)
    requires c.lawful && KeysInv(c)
    ensures KeysInv(Perform(c, a))
  {
    ActionRespectsRely(c, a);
  }

  lemma ActionKeepsMint(c: Cluster, a: Action)
    requires c.lawful && MintInv(c)
    ensures MintInv(Perform(c, a))
  {
    var d := Perform(c, a);
    assert d.keys == c.keys && d.minted == c.minted && c.uids <= d.uids;
    forall x | x in d.minted && x.owner in d.objects && d.objects[x.owner].uid == x.uid && !d.objects[x.owner].deleting
      ensures Named(d, x)
    {
      assert Named(c, x);
    }
  }

  lemma ActionKeepsInv(c: Cluster, a: Action)
    requires Inv(c)
    ensures Inv(Perform(c, a)) && Rely(c, Perform(c, a))
  {
    var d := Perform(c, a);
    ActionRespectsRely(c, a);
    ActionKeepsKeys(c, a);
    ActionKeepsMint(c, a);
    forall n | n in d.objects ensures ObjectInv(d, n, d.objects[n]) {
      ActionKeepsObject(c, a, n);
    }
  }

  lemma RelyTransitive(b: Cluster, c: Cluster, d: Cluster)
    requires Rely(b, c) && Rely(c, d)
    ensures Rely(b, d)
  {
  }

  lemma {:induction false} ActionsKeepInv(c: Cluster, actions: seq<Action>)
    requires Inv(c)
    ensures Inv(PerformAll(c, actions)) && Rely(c, PerformAll(c, actions))
    decreases |actions|
  {
    if actions != [] {
      var d := Perform(c, actions[0]);
      ActionKeepsInv(c, actions[0]);
      ActionsKeepInv(d, actions[1..]);
      RelyTransitive(c, d, PerformAll(d, actions[1..]));
    }
  }

  lemma ArriveKeepsInv(w: World)
    requires Inv(w.c)
    ensures Inv(Arrive(w)) && Rely(w.c, Arrive(w))
  {
    if w.tape != [] {
      ActionsKeepInv(w.c, w.tape[0].actions);
    }
  }

  // ---------------------------------------------------------------- the external key

  /** What a reconcile of the live object o, read earlier, knows about the cluster. */
  ghost predicate Held(c: Cluster, n: NsName, o: KeyObject) {
    && n in c.objects && SameStatus(o, c.objects[n]) && o.finalizer
    && ClaimedBy(c, n, o.secretName)
    && o.status.observedGeneration < o.generation
    && (o.status.accessKeyID != NONE ==> o.status.accessKeyID in c.keys)
    && (ExtName(n, o.uid) in c.minted ==> Named(c, ExtName(n, o.uid)))
  }

  ghost predicate Good(c: Cluster, n: NsName, o: KeyObject) {
    Inv(c) && Held(c, n, o)
  }

  lemma HeldIsStable(c: Cluster, d: Cluster, n: NsName, o: KeyObject)
    requires Held(c, n, o) && Rely(c, d)
    ensures Held(d, n, o)
  {
    if ExtName(n, o.uid) in c.minted {
      assert Named(c, ExtName(n, o.uid));
    }
  }

  lemma GoodOnArrival(w: World, n: NsName, o: KeyObject)
    requires Good(w.c, n, o)
    ensures Good(Arrive(w), n, o) && Rely(w.c, Arrive(w))
  {
    ArriveKeepsInv(w);
    HeldIsStable(w.c, Arrive(w), n, o);
  }

  ghost predicate IsKeyOf(c: Cluster, n: NsName, o: KeyObject, k: S3Key) {
    k.id != NONE && k.id in c.keys && c.keys[k.id] == GarageKey(ExtName(n, o.uid), k.secret)
  }

  ghost predicate NamesKeyOf(c: Cluster, n: NsName, o: KeyObject, id: Id) {
    exists secret :: IsKeyOf(c, n, o, S3Key(id, secret))
  }

  lemma LookupMeaning(w: World, n: NsName, o: KeyObject)
    requires Good(w.c, n, o)
    ensures var call := GarageLookup(w, ExtName(n, o.uid));
            && Good(call.w.c, n, o)
            && (call.r.Ok? ==> IsKeyOf(call.w.c, n, o, call.r.value))
            && (call.r == Err(NotFound) ==> !Named(call.w.c, ExtName(n, o.uid)))
  {
    GoodOnArrival(w, n, o);
    LookupFinds(w, ExtName(n, o.uid));
  }

  /** A lookup finds the one key of that name, and fails to find one only when there is none. */
  lemma LookupFinds(w: World, name: ExtName)
    requires KeysInv(Arrive(w))
    ensures var call := GarageLookup(w, name);
            && call.w.c == Arrive(w)
            && (call.r.Ok? ==>
                  && call.r.value.id in call.w.c.keys && call.r.value.id > 0
                  && call.w.c.keys[call.r.value.id] == GarageKey(name, call.r.value.secret))
            && (call.r == Err(NotFound) ==> !Named(call.w.c, name))
  {
    var a := Arrive(w);
    var matches := Matches(a, name);
    assert forall id | id in matches :: id in a.keys && a.keys[id].name == name;
    assert forall id | id in a.keys && a.keys[id].name == name :: id in matches;
  }

  lemma GetMeaning(w: World, n: NsName, o: KeyObject)
    requires Good(w.c, n, o) && o.status.accessKeyID != NONE
    ensures var call := GarageGet(w, o.status.accessKeyID);
            && Good(call.w.c, n, o)
            && (call.r.Ok? ==> IsKeyOf(call.w.c, n, o, call.r.value))
            && call.r != Err(NotFound)
  {
    GoodOnArrival(w, n, o);
    OwnKey(Arrive(w), n, o);
  }

  lemma OwnKey(c: Cluster, n: NsName, o: KeyObject)
    requires Good(c, n, o) && o.status.accessKeyID != NONE
    ensures o.status.accessKeyID in c.keys && c.keys[o.status.accessKeyID].name == ExtName(n, o.uid)
  {
    assert ObjectInv(c, n, c.objects[n]);
  }

  function Minted(c: Cluster, name: ExtName): Cluster {
    c.(keys := c.keys[c.clock := GarageKey(name, -c.clock)], minted := c.minted + multiset{name}, clock := c.clock + 1)
  }

  /** A key of a new name leaves what is known about an object as it was. */
  lemma ObjectSurvivesNewKey(c: Cluster, n: NsName, name: ExtName)
    requires n in c.objects && ObjectInv(c, n, c.objects[n]) && KeysInv(c)
    requires name == ExtName(n, c.objects[n].uid) ==> c.objects[n].status.accessKeyID == NONE
    ensures ObjectInv(Minted(c, name), n, c.objects[n])
  {
  }

  lemma NewKeyKeepsKeys(c: Cluster, name: ExtName)
    requires KeysInv(c) && c.clock >= 1 && !Named(c, name) && Guarded(c, name)
    ensures KeysInv(Minted(c, name))
  {
    assert forall id | id in c.keys :: c.keys[id].name != name;
  }

  lemma NewKeyKeepsMint(c: Cluster, name: ExtName)
    requires KeysInv(c) && MintInv(c) && name !in c.minted && name.uid in c.uids
    ensures MintInv(Minted(c, name))
  {
    var d := Minted(c, name);
    assert d.keys[c.clock].name == name;
    forall x | x in d.minted && x.owner in d.objects && d.objects[x.owner].uid == x.uid && !d.objects[x.owner].deleting
      ensures Named(d, x)
    {
      if x != name {
        assert Named(c, x);
        var id :| id in c.keys && c.keys[id].name == x;
        assert d.keys[id].name == x;
      }
    }
  }

  lemma CreateIsGood(c: Cluster, n: NsName, o: KeyObject)
    requires Good(c, n, o) && o.status.accessKeyID == NONE && !Named(c, ExtName(n, o.uid))
    ensures Good(Minted(c, ExtName(n, o.uid)), n, o)
    ensures IsKeyOf(Minted(c, ExtName(n, o.uid)), n, o, S3Key(c.clock, -c.clock))
  {
    var name := ExtName(n, o.uid);
    var d := Minted(c, name);
    NewKeyKeepsKeys(c, name);
    NewKeyKeepsMint(c, name);
    forall m | m in d.objects ensures ObjectInv(d, m, d.objects[m]) {
      assert ObjectInv(c, m, c.objects[m]);
      ObjectSurvivesNewKey(c, m, name);
    }
    assert d.keys[c.clock].name == name;
  }

  lemma CreateMeaning(w: World, n: NsName, o: KeyObject)
    requires Good(w.c, n, o) && o.status.accessKeyID == NONE && !Named(w.c, ExtName(n, o.uid))
    ensures var call := GarageCreate(w, ExtName(n, o.uid));
            Good(call.w.c, n, o) && (call.r.Ok? ==> IsKeyOf(call.w.c, n, o, call.r.value))
  {
    hide Inv, Held;
    GoodOnArrival(w, n, o);
    CreateIsGood(Arrive(w), n, o);
  }

  lemma EnsureExternalKeyMeaning(w: World, n: NsName, o: KeyObject)
    requires Good(w.c, n, o)
    ensures var call := EnsureExternalKey(w, n, o);
            Good(call.w.c, n, o) && (call.r.Ok? ==> IsKeyOf(call.w.c, n, o, call.r.value))
  {
    if o.status.accessKeyID != NONE {
      GetMeaning(w, n, o);
    } else {
      LookupMeaning(w, n, o);
      var found := GarageLookup(w, ExtName(n, o.uid));
      if found.r == Err(NotFound) {
        CreateMeaning(found.w, n, o);
      }
    }
  }

  // ---------------------------------------------------------------- the Secret

  /** Writing or deleting a Secret whose name belongs to n disturbs no other AccessKey. */
  lemma OwnSecretWrite(c: Cluster, n: NsName, o: KeyObject, secretName: Id, secrets: Secrets)
    requires Good(c, n, o) && ClaimedBy(c, n, secretName)
    requires forall s | s != SecretOf(n, secretName) :: (s in secrets <==> s in c.secrets) && (s in secrets ==> secrets[s] == c.secrets[s])
    ensures Good(c.(secrets := secrets), n, o)
  {
    var d := c.(secrets := secrets);
    forall m | m in d.objects ensures ObjectInv(d, m, d.objects[m]) {
      SecretWriteFrame(c, n, o, secretName, secrets, m);
    }
    assert Named(c, ExtName(n, o.uid)) ==> Named(d, ExtName(n, o.uid));
    forall x | Named(c, x) ensures Named(d, x) {
      var id :| id in c.keys && c.keys[id].name == x;
      assert d.keys[id].name == x;
    }
  }

  lemma SecretWriteFrame(c: Cluster, n: NsName, o: KeyObject, secretName: Id, secrets: Secrets, m: NsName)
    requires Held(c, n, o) && ClaimedBy(c, n, secretName)
    requires forall s | s != SecretOf(n, secretName) :: (s in secrets <==> s in c.secrets) && (s in secrets ==> secrets[s] == c.secrets[s])
    requires m in c.objects && ObjectInv(c, m, c.objects[m])
    ensures ObjectInv(c.(secrets := secrets), m, c.objects[m])
  {
  }

  /** The Secret at the desired name is absent, or is under control of the AccessKey. */
  ghost predicate Clear(c: Cluster, n: NsName, o: KeyObject) {
    var s := SecretOf(n, o.secretName);
    s in c.secrets ==> c.secrets[s].controller == Some(o.uid)
  }

  lemma ClearIsStable(c: Cluster, d: Cluster, n: NsName, o: KeyObject)
    requires ClaimedBy(c, n, o.secretName) && Rely(c, d) && Clear(c, n, o)
    ensures Clear(d, n, o)
  {
  }

  /** The Secret holds the credentials k. */
  ghost predicate Holding(c: Cluster, n: NsName, o: KeyObject, k: S3Key) {
    var s := SecretOf(n, o.secretName);
    s in c.secrets && c.secrets[s] == Secret(Some(o.uid), k.id, k.secret)
  }

  ghost predicate InPlace(c: Cluster, n: NsName, o: KeyObject, k: S3Key) {
    Holding(c, n, o, k) && IsKeyOf(c, n, o, k)
  }

  lemma DeliveredIsStable(c: Cluster, d: Cluster, n: NsName, o: KeyObject, k: S3Key)
    requires Held(c, n, o) && Rely(c, d) && InPlace(c, n, o, k)
    ensures InPlace(d, n, o, k)
  {
  }

  lemma PutSecretMeaning(c: Cluster, n: NsName, o: KeyObject, k: S3Key)
    requires Good(c, n, o) && IsKeyOf(c, n, o, k)
    ensures var d := c.(secrets := c.secrets[SecretOf(n, o.secretName) := Secret(Some(o.uid), k.id, k.secret)]);
            Good(d, n, o) && InPlace(d, n, o, k)
  {
    OwnSecretWrite(c, n, o, o.secretName, c.secrets[SecretOf(n, o.secretName) := Secret(Some(o.uid), k.id, k.secret)]);
  }

  /** What EnsureSecret and its parts achieve from a state in which k is the key of o. */
  ghost predicate SecretStep(call: Call<()>, n: NsName, o: KeyObject, k: S3Key) {
    Good(call.w.c, n, o) && IsKeyOf(call.w.c, n, o, k) && (call.r.Ok? ==> InPlace(call.w.c, n, o, k))
  }

  lemma ReadSecretMeaning(w: World, n: NsName, o: KeyObject, k: S3Key)
    requires Good(w.c, n, o) && IsKeyOf(w.c, n, o, k)
    ensures var call := GetSecret(w, SecretOf(n, o.secretName));
            Good(call.w.c, n, o) && IsKeyOf(call.w.c, n, o, k) && Rely(w.c, call.w.c) && call.w.c == Arrive(w)
  {
    hide Inv, Held, IsKeyOf, ObjectsKept, ClaimsKept, OwnedKept;
    GoodOnArrival(w, n, o);
    KeyIsStable(w.c, Arrive(w), n, o, k);
  }

  lemma KeyIsStable(c: Cluster, d: Cluster, n: NsName, o: KeyObject, k: S3Key)
    requires Rely(c, d) && IsKeyOf(c, n, o, k)
    ensures IsKeyOf(d, n, o, k)
  {
  }

  lemma CreateSecretMeaning(w: World, n: NsName, o: KeyObject, k: S3Key)
    requires Good(w.c, n, o) && IsKeyOf(w.c, n, o, k)
    ensures SecretStep(CreateSecret(w, SecretOf(n, o.secretName), Secret(Some(o.uid), k.id, k.secret)), n, o, k)
  {
    hide Inv, Held, Holding, IsKeyOf, ObjectsKept, ClaimsKept, OwnedKept;
    GoodOnArrival(w, n, o);
    KeyIsStable(w.c, Arrive(w), n, o, k);
    PutSecretMeaning(Arrive(w), n, o, k);
  }

  lemma UpdateSecretMeaning(w: World, n: NsName, o: KeyObject, k: S3Key, read: Secret)
    requires Good(w.c, n, o) && IsKeyOf(w.c, n, o, k) && read.controller == Some(o.uid)
    ensures SecretStep(UpdateSecret(w, SecretOf(n, o.secretName), read, read.(accessKeyID := k.id, secretAccessKey := k.secret)), n, o, k)
  {
    hide Inv, Held, Holding, IsKeyOf, ObjectsKept, ClaimsKept, OwnedKept;
    GoodOnArrival(w, n, o);
    KeyIsStable(w.c, Arrive(w), n, o, k);
    PutSecretMeaning(Arrive(w), n, o, k);
    assert read.(accessKeyID := k.id, secretAccessKey := k.secret) == Secret(Some(o.uid), k.id, k.secret);
  }

  lemma CreateOrUpdateMeaning(w: World, n: NsName, o: KeyObject, k: S3Key)
    requires Good(w.c, n, o) && IsKeyOf(w.c, n, o, k) && Clear(w.c, n, o)
    ensures SecretStep(CreateOrUpdateSecret(w, SecretOf(n, o.secretName), o.uid, k.id, k.secret), n, o, k)
  {
    hide Inv, IsKeyOf, ObjectsKept, ClaimsKept, OwnedKept;
    ReadSecretMeaning(w, n, o, k);
    ClearIsStable(w.c, Arrive(w), n, o);
    var got := GetSecret(w, SecretOf(n, o.secretName));
    match got.r {
      case Err(e) =>
        if e == NotFound {
          CreateSecretMeaning(got.w, n, o, k);
        }
      case Ok(existing) =>
        assert existing.controller == Some(o.uid);
        UpdateSecretMeaning(got.w, n, o, k, existing);
    }
  }

  lemma EnsureSecretMeaning(w: World, n: NsName, o: KeyObject, k: S3Key)
    requires Good(w.c, n, o) && IsKeyOf(w.c, n, o, k)
    ensures SecretStep(EnsureSecret(w, n, o, k.id, k.secret), n, o, k)
  {
    hide Inv, Held, Holding, IsKeyOf, ObjectsKept, ClaimsKept, OwnedKept;
    ReadSecretMeaning(w, n, o, k);
    var got := GetSecret(w, SecretOf(n, o.secretName));
    if got.r == Err(NotFound) || (got.r.Ok? && got.r.value.controller == Some(o.uid)) {
      CreateOrUpdateMeaning(got.w, n, o, k);
    }
  }

  lemma CleanupMeaning(w: World, n: NsName, o: KeyObject, k: S3Key, name: Id)
    requires Good(w.c, n, o) && InPlace(w.c, n, o, k)
    requires ClaimedBy(w.c, n, name) && name != o.secretName
    ensures var call := CleanupOldSecret(w, SecretOf(n, name));
            Good(call.w.c, n, o) && InPlace(call.w.c, n, o, k)
  {
    hide Inv;
    GoodOnArrival(w, n, o);
    var a := Arrive(w);
    DeliveredIsStable(w.c, a, n, o, k);
    OwnSecretWrite(a, n, o, name, a.secrets - {SecretOf(n, name)});
  }

  // ---------------------------------------------------------------- the status

  /** A status that may be written for o: it is true of generation o.generation. */
  ghost predicate Fresh(c: Cluster, n: NsName, o: KeyObject, s: KeyStatus) {
    && !o.deleting
    && StatusInv(c, n, o, s)
    && (s.observedGeneration == o.generation && RecordedReady(o, s) ==> SecretMatches(c, n, o, s.accessKeyID))
  }

  lemma FreshIsStable(c: Cluster, d: Cluster, n: NsName, o: KeyObject, s: KeyStatus)
    requires Held(c, n, o) && Rely(c, d) && Fresh(c, n, o, s)
    ensures Fresh(d, n, o, s)
  {
  }

  /** Ready is the conjunction; the generation counts as observed when it is Ready or can never be. */
  lemma AggregatedMeaning(s: KeyStatus, generation: int)
    requires Find(s.conditions, AccessKeyReady).Some? && Find(s.conditions, KeySecretReady).Some?
    ensures var r := Aggregated(s, generation);
            var key, secret := Find(s.conditions, AccessKeyReady).value, Find(s.conditions, KeySecretReady).value;
            && r.accessKeyID == s.accessKeyID && r.secretName == s.secretName
            && Find(r.conditions, AccessKeyReady) == Some(key) && Find(r.conditions, KeySecretReady) == Some(secret)
            && Find(r.conditions, Ready) == Some(
                 if key.status == True && secret.status == True then Condition(Ready, True, Available, generation)
                 else if key.status == False then Condition(Ready, False, key.reason, generation)
                 else if secret.status == False then Condition(Ready, False, secret.reason, generation)
                 else Condition(Ready, False, WaitingForResources, generation))
            && r.observedGeneration ==
                 (if (key.status == True && secret.status == True)
                     || Find(r.conditions, Ready).value.reason == SecretNameConflict
                  then generation else s.observedGeneration)
  {
    hide Find, SetCondition;
    VerdictOfTwo(s.conditions, AccessKeyReady, KeySecretReady, WaitingForResources, generation);
  }

  /** What Initialized adds can be looked up and changes nothing that was there. */
  lemma InitializedMeaning(s: KeyStatus)
    ensures var r := Initialized(s);
            && Find(r.conditions, AccessKeyReady).Some? && Find(r.conditions, KeySecretReady).Some?
            && (forall t | Find(s.conditions, t).Some? :: Find(r.conditions, t) == Find(s.conditions, t))
            && (Find(s.conditions, AccessKeyReady).None? ==> Find(r.conditions, AccessKeyReady).value.status == Unknown)
  {
    hide Find, InitAll;
    assert AccessKeyReady in KEY_CONDITIONS && KeySecretReady in KEY_CONDITIONS;
  }

  /** The old status stays true of an object that has not yet observed its generation. */
  lemma OldStatusFits(c: Cluster, n: NsName, o: KeyObject)
    requires Good(c, n, o) && !o.deleting
    ensures StatusInv(c, n, o, o.status)
  {
    assert ObjectInv(c, n, c.objects[n]);
  }

  /** So does any status that keeps its ID and Secret name and records nothing about the generation. */
  lemma UnrecordedIsFresh(c: Cluster, n: NsName, o: KeyObject, s: KeyStatus)
    requires Good(c, n, o) && !o.deleting
    requires s.observedGeneration == o.status.observedGeneration && s.secretName == o.status.secretName
    requires s.accessKeyID == o.status.accessKeyID || NamesKeyOf(c, n, o, s.accessKeyID)
    ensures Fresh(c, n, o, s)
  {
    OldStatusFits(c, n, o);
  }

  lemma KeyFailureIsFresh(c: Cluster, n: NsName, o: KeyObject)
    requires Good(c, n, o) && !o.deleting
    ensures Fresh(c, n, o, Aggregated(Marked(Initialized(o.status), AccessKeyReady, False, AccessKeyUnknown, o.generation), o.generation))
  {
    hide Inv, Held, Find, SetCondition, InitAll, Aggregated;
    InitializedMeaning(o.status);
    var s := Marked(Initialized(o.status), AccessKeyReady, False, AccessKeyUnknown, o.generation);
    AggregatedMeaning(s, o.generation);
    UnrecordedIsFresh(c, n, o, Aggregated(s, o.generation));
  }

  /** The status of the full path once k is known to be the key. */
  function WithKey(o: KeyObject, k: S3Key): KeyStatus {
    Marked(Initialized(o.status).(accessKeyID := k.id), AccessKeyReady, True, Met, o.generation)
  }

  lemma WithKeyMeaning(o: KeyObject, k: S3Key)
    ensures IsMarked(WithKey(o, k), AccessKeyReady, True, Met, o.generation)
    ensures Find(WithKey(o, k).conditions, KeySecretReady).Some?
  {
    hide Find, SetCondition, InitAll;
    InitializedMeaning(o.status);
  }

  lemma SecretFailureIsFresh(c: Cluster, n: NsName, o: KeyObject, k: S3Key, reason: Reason)
    requires Good(c, n, o) && !o.deleting && IsKeyOf(c, n, o, k) && reason != Available
    ensures Fresh(c, n, o, Aggregated(Marked(WithKey(o, k), KeySecretReady, False, reason, o.generation), o.generation))
  {
    hide Inv, Held, Find, SetCondition, InitAll, Aggregated, IsKeyOf, StatusInv;
    WithKeyMeaning(o, k);
    var s := Marked(WithKey(o, k), KeySecretReady, False, reason, o.generation);
    AggregatedMeaning(s, o.generation);
    var r := Aggregated(s, o.generation);
    if reason == SecretNameConflict {
      assert RecordedConflict(o, r) && IsMarked(r, AccessKeyReady, True, Met, o.generation);
      ConflictIsFresh(c, n, o, k, r);
    } else {
      assert IsKeyOf(c, n, o, S3Key(r.accessKeyID, k.secret));
      UnrecordedIsFresh(c, n, o, r);
    }
  }

  lemma ConflictIsFresh(c: Cluster, n: NsName, o: KeyObject, k: S3Key, s: KeyStatus)
    requires Good(c, n, o) && !o.deleting && IsKeyOf(c, n, o, k)
    requires s.accessKeyID == k.id && s.secretName == o.status.secretName && s.observedGeneration == o.generation
    requires RecordedConflict(o, s) && IsMarked(s, AccessKeyReady, True, Met, o.generation)
    ensures Fresh(c, n, o, s)
  {
    OldStatusFits(c, n, o);
  }

  lemma PublishedIsFresh(w: World, n: NsName, o: KeyObject, k: S3Key)
    requires Good(w.c, n, o) && !o.deleting && InPlace(w.c, n, o, k)
    ensures Fresh(w.c, n, o, Aggregated(Published(w, o, WithKey(o, k)).status, o.generation))
  {
    hide Inv, Held, Find, SetCondition, InitAll, Aggregated, Holding, IsKeyOf, StatusInv;
    WithKeyMeaning(o, k);
    var s := Published(w, o, WithKey(o, k)).status;
    AggregatedMeaning(s, o.generation);
    ReadyIsFresh(w.c, n, o, k, Aggregated(s, o.generation));
  }

  lemma ReadyIsFresh(c: Cluster, n: NsName, o: KeyObject, k: S3Key, s: KeyStatus)
    requires Good(c, n, o) && !o.deleting && InPlace(c, n, o, k)
    requires s.accessKeyID == k.id && s.secretName == o.secretName && s.observedGeneration == o.generation
    requires RecordedReady(o, s) && IsMarked(s, AccessKeyReady, True, Met, o.generation)
    ensures Fresh(c, n, o, s)
  {
    OldStatusFits(c, n, o);
  }

  lemma FullPathMeaning(w: World, n: NsName, o: KeyObject)
    requires Good(w.c, n, o) && !o.deleting
    ensures var run := FullPath(w, n, o, Initialized(o.status));
            Good(run.w.c, n, o) && Fresh(run.w.c, n, o, Aggregated(run.status, o.generation))
  {
    hide Inv, Held, Holding, IsKeyOf, Fresh, Find, SetCondition, InitAll, Aggregated, EnsureExternalKey, EnsureSecret, CleanupOldSecret;
    EnsureExternalKeyMeaning(w, n, o);
    var ext := EnsureExternalKey(w, n, o);
    if ext.r.Err? {
      KeyFailureIsFresh(ext.w.c, n, o);
    } else {
      var k := ext.r.value;
      EnsureSecretMeaning(ext.w, n, o, k);
      var sec := EnsureSecret(ext.w, n, o, k.id, k.secret);
      if sec.r.Err? {
        SecretFailureIsFresh(sec.w.c, n, o, k, SecretFailure(sec.r.error));
      } else if o.status.secretName != NONE && o.status.secretName != o.secretName {
        OldNameClaimed(sec.w.c, n, o);
        CleanupMeaning(sec.w, n, o, k, o.status.secretName);
        var cleanup := CleanupOldSecret(sec.w, SecretOf(n, o.status.secretName));
        if cleanup.r.Err? {
          SecretFailureIsFresh(cleanup.w.c, n, o, k, SecretCleanupFailed);
        } else {
          PublishedIsFresh(cleanup.w, n, o, k);
        }
      } else {
        PublishedIsFresh(sec.w, n, o, k);
      }
    }
  }

  lemma OldNameClaimed(c: Cluster, n: NsName, o: KeyObject)
    requires Good(c, n, o) && o.status.secretName != NONE
    ensures ClaimedBy(c, n, o.status.secretName)
  {
    assert ObjectInv(c, n, c.objects[n]);
  }

  function StatusReplaced(c: Cluster, n: NsName, s: KeyStatus): Cluster
    requires n in c.objects
  {
    c.(objects := c.objects[n := c.objects[n].(status := s, version := c.clock)], clock := c.clock + 1)
  }

  /** Writing a fresh status is safe even when the object has been edited or marked for deletion since. */
  lemma FreshStatusKeepsObject(c: Cluster, n: NsName, o: KeyObject, s: KeyStatus)
    requires Good(c, n, o) && Fresh(c, n, o, s)
    ensures ObjectInv(StatusReplaced(c, n, s), n, StatusReplaced(c, n, s).objects[n])
  {
    assert ObjectInv(c, n, c.objects[n]);
  }

  lemma ObjectSurvivesOtherObject(c: Cluster, d: Cluster, m: NsName)
    requires m in c.objects && ObjectInv(c, m, c.objects[m])
    requires d == c.(objects := d.objects, clock := d.clock) && d.clock >= c.clock
    ensures ObjectInv(d, m, c.objects[m])
  {
  }

  lemma ReplacingStatusKeepsInv(c: Cluster, n: NsName, o: KeyObject, s: KeyStatus)
    requires Good(c, n, o) && Fresh(c, n, o, s)
    ensures Inv(StatusReplaced(c, n, s))
  {
    var d := StatusReplaced(c, n, s);
    FreshStatusKeepsObject(c, n, o, s);
    forall m | m in d.objects ensures ObjectInv(d, m, d.objects[m]) {
      if m != n {
        assert ObjectInv(c, m, c.objects[m]);
        ObjectSurvivesOtherObject(c, d, m);
      }
    }
    SameGuards(c, d, n);
  }

  /** Keys stay guarded when an object only changes in its status, version or finalizer being added. */
  lemma SameGuards(c: Cluster, d: Cluster, n: NsName)
    requires KeysInv(c) && MintInv(c) && n in c.objects && n in d.objects
    requires d == c.(objects := c.objects[n := d.objects[n]], clock := d.clock) && d.clock >= c.clock
    requires d.objects[n].uid == c.objects[n].uid && d.objects[n].deleting == c.objects[n].deleting
    requires c.objects[n].finalizer ==> d.objects[n].finalizer
    ensures KeysInv(d) && MintInv(d)
  {
    forall x | x in d.minted && x.owner in d.objects && d.objects[x.owner].uid == x.uid && !d.objects[x.owner].deleting
      ensures Named(d, x)
    {
      assert Named(c, x);
    }
  }

  lemma WriteStatusMeaning(w: World, n: NsName, o: KeyObject, s: KeyStatus)
    requires Good(w.c, n, o) && Fresh(w.c, n, o, s)
    ensures Inv(WriteStatus(w, n, s).w.c)
  {
    hide Inv, Held, Fresh, Rely;
    GoodOnArrival(w, n, o);
    FreshIsStable(w.c, Arrive(w), n, o, s);
    var got := GetObject(w, n);
    if got.r.Ok? {
      GoodOnArrival(got.w, n, o);
      FreshIsStable(got.w.c, Arrive(got.w), n, o, s);
      var a := Arrive(got.w);
      if n in a.objects {
        ReplacingStatusKeepsInv(a, n, o, s);
      }
    }
  }

  // ---------------------------------------------------------------- one reconcile

  /** Past the shortcut the status that is computed is the one that was read. */
  lemma ShortcutLeavesStatus(o: KeyObject)
    requires Recorded(o, o.status) && o.status.observedGeneration == o.generation
    ensures Shortcut(o, Initialized(o.status))
    ensures Aggregated(Initialized(o.status), o.generation) == o.status
  {
    hide Find, SetCondition, InitAll, Aggregated;
    assert forall t | t in KEY_CONDITIONS :: Find(o.status.conditions, t).Some? by {
      assert forall t | t in KEY_CONDITIONS :: t == Ready || t == AccessKeyReady || t == KeySecretReady;
    }
    InitOfInitialised(o.status.conditions, KEY_CONDITIONS);
    AggregatedMeaning(o.status, o.generation);
    AggregatedUnchanged(o);
  }

  lemma AggregatedUnchanged(o: KeyObject)
    requires Recorded(o, o.status) && o.status.observedGeneration == o.generation
    requires Find(Aggregated(o.status, o.generation).conditions, Ready) == Find(o.status.conditions, Ready)
    requires Aggregated(o.status, o.generation).observedGeneration == o.generation
    ensures Aggregated(o.status, o.generation) == o.status
  {
    hide Find, FirstFailure;
  }

  /** o has just been read and is live. */
  ghost predicate JustRead(c: Cluster, n: NsName, o: KeyObject) {
    Inv(c) && n in c.objects && c.objects[n] == o && o.finalizer && !o.deleting
  }

  lemma JustReadIsGood(c: Cluster, n: NsName, o: KeyObject)
    requires JustRead(c, n, o) && o.status.observedGeneration != o.generation
    ensures Good(c, n, o)
  {
    assert ObjectInv(c, n, o);
  }

  lemma NotShortcut(o: KeyObject)
    requires o.status.observedGeneration != o.generation
    ensures !Shortcut(o, Initialized(o.status))
  {
  }

  lemma ReconcileLiveKeepsInv(w: World, n: NsName, o: KeyObject)
    requires JustRead(w.c, n, o)
    ensures Inv(ReconcileLive(w, n, o).w.c)
  {
    hide Held, Fresh, Recorded, Aggregated, Shortcut, Initialized, FullPath, WriteStatus;
    assert Recorded(o, o.status) by {
      assert ObjectInv(w.c, n, o);
    }
    if o.status.observedGeneration == o.generation {
      ShortcutLeavesStatus(o);
    } else {
      JustReadIsGood(w.c, n, o);
      NotShortcut(o);
      FullPathMeaning(w, n, o);
      var run := Computed(w, n, o);
      WriteStatusMeaning(run.w, n, o, run.status);
    }
  }

  // ---------------------------------------------------------------- deletion

  /** What a finalizing reconcile knows about the cluster. */
  ghost predicate Finalizing(c: Cluster, n: NsName, o: KeyObject) {
    && Inv(c) && n in c.objects && SameStatus(o, c.objects[n]) && o.finalizer && o.deleting
  }

  lemma FinalizingOnArrival(w: World, n: NsName, o: KeyObject)
    requires Finalizing(w.c, n, o)
    ensures Finalizing(Arrive(w), n, o) && Rely(w.c, Arrive(w))
  {
    ArriveKeepsInv(w);
  }

  lemma ResolveMeaning(w: World, n: NsName, o: KeyObject)
    requires Finalizing(w.c, n, o)
    ensures var call := ResolveKeyID(w, n, o);
            && Finalizing(call.w.c, n, o)
            && (call.r.Ok? ==> forall id | id in call.w.c.keys ::
                  call.w.c.keys[id].name == ExtName(n, o.uid) <==> id == call.r.value)
  {
    if o.status.accessKeyID != NONE {
      assert ObjectInv(w.c, n, w.c.objects[n]);
    } else {
      ResolveByLookup(w, n, o);
    }
  }

  lemma ResolveByLookup(w: World, n: NsName, o: KeyObject)
    requires Finalizing(w.c, n, o)
    ensures var call := GarageLookup(w, ExtName(n, o.uid));
            && Finalizing(call.w.c, n, o)
            && (call.r == Err(NotFound) ==> forall id | id in call.w.c.keys :: call.w.c.keys[id].name != ExtName(n, o.uid) && id != NONE)
            && (call.r.Ok? ==> forall id | id in call.w.c.keys ::
                  call.w.c.keys[id].name == ExtName(n, o.uid) <==> id == call.r.value.id)
  {
    hide Rely, MintInv, ObjectInv, SameStatus;
    FinalizingOnArrival(w, n, o);
    LookupFinds(w, ExtName(n, o.uid));
    var c := GarageLookup(w, ExtName(n, o.uid)).w.c;
    if !Named(c, ExtName(n, o.uid)) {
      assert forall id | id in c.keys :: c.keys[id].name != ExtName(n, o.uid);
    }
  }

  lemma ObjectSurvivesKeyRemoval(c: Cluster, n: NsName, id: Id)
    requires n in c.objects && ObjectInv(c, n, c.objects[n])
    requires id in c.keys ==> c.keys[id].name != ExtName(n, c.objects[n].uid) || c.objects[n].deleting
    ensures ObjectInv(c.(keys := c.keys - {id}), n, c.objects[n])
  {
  }

  lemma KeyRemovalKeepsMint(c: Cluster, n: NsName, o: KeyObject, id: Id)
    requires Finalizing(c, n, o)
    requires forall k | k in c.keys :: c.keys[k].name == ExtName(n, o.uid) <==> k == id
    ensures MintInv(c.(keys := c.keys - {id}))
  {
    var d := c.(keys := c.keys - {id});
    forall x | x in d.minted && x.owner in d.objects && d.objects[x.owner].uid == x.uid && !d.objects[x.owner].deleting
      ensures Named(d, x)
    {
      assert Named(c, x);
      var k :| k in c.keys && c.keys[k].name == x;
      assert k in d.keys && d.keys[k].name == x;
    }
  }

  lemma KeyRemovalIsSafe(c: Cluster, n: NsName, o: KeyObject, id: Id)
    requires Finalizing(c, n, o)
    requires forall k | k in c.keys :: c.keys[k].name == ExtName(n, o.uid) <==> k == id
    ensures Finalizing(c.(keys := c.keys - {id}), n, o)
  {
    hide MintInv;
    var d := c.(keys := c.keys - {id});
    KeyRemovalKeepsMint(c, n, o, id);
    forall m | m in d.objects ensures ObjectInv(d, m, d.objects[m]) {
      assert ObjectInv(c, m, c.objects[m]);
      ObjectSurvivesKeyRemoval(c, m, id);
    }
  }

  /** After a delete that was not refused no key of that name is left. */
  lemma GarageDeleteMeaning(w: World, n: NsName, o: KeyObject, id: Id)
    requires Finalizing(w.c, n, o)
    requires forall k | k in w.c.keys :: w.c.keys[k].name == ExtName(n, o.uid) <==> k == id
    ensures var call := GarageDelete(w, id);
            && Finalizing(call.w.c, n, o)
            && (call.r.Ok? || call.r == Err(NotFound) ==>
                  forall k | k in call.w.c.keys :: call.w.c.keys[k].name != ExtName(n, o.uid))
  {
    hide Inv, SameStatus, ObjectsKept, ClaimsKept, OwnedKept;
    FinalizingOnArrival(w, n, o);
    KeyRemovalIsSafe(Arrive(w), n, o, id);
  }

  function Gone(c: Cluster, n: NsName): Cluster {
    c.(objects := c.objects - {n})
  }

  lemma RemovalKeepsInv(c: Cluster, n: NsName, o: KeyObject)
    requires Finalizing(c, n, o)
    requires forall k | k in c.keys :: c.keys[k].name != ExtName(n, o.uid)
    ensures Inv(Gone(c, n))
  {
    var d := Gone(c, n);
    forall m | m in d.objects ensures ObjectInv(d, m, d.objects[m]) {
      assert ObjectInv(c, m, c.objects[m]);
      ObjectSurvivesOtherObject(c, d, m);
    }
    forall x | x in d.minted && x.owner in d.objects && d.objects[x.owner].uid == x.uid && !d.objects[x.owner].deleting
      ensures Named(d, x)
    {
      assert Named(c, x);
    }
  }

  lemma DropFinalizerKeepsInv(w: World, n: NsName, o: KeyObject)
    requires Finalizing(w.c, n, o)
    requires forall k | k in w.c.keys :: w.c.keys[k].name != ExtName(n, o.uid)
    ensures Inv(DropFinalizer(w, n, o).w.c)
  {
    hide Inv, ObjectsKept, ClaimsKept, OwnedKept;
    FinalizingOnArrival(w, n, o);
    RemovalKeepsInv(Arrive(w), n, o);
  }

  lemma FinalizeKeepsInv(w: World, n: NsName, o: KeyObject)
    requires Finalizing(w.c, n, o)
    ensures Inv(Finalize(w, n, o).w.c)
  {
    hide Inv, SameStatus, DropFinalizer, ResolveKeyID, GarageDelete;
    ResolveMeaning(w, n, o);
    var id := ResolveKeyID(w, n, o);
    if id.r.Ok? {
      if id.r.value == NONE {
        NoKeyIsCalledNone(id.w.c);
        DropFinalizerKeepsInv(id.w, n, o);
      } else {
        GarageDeleteMeaning(id.w, n, o, id.r.value);
        var d := GarageDelete(id.w, id.r.value);
        if d.r.Ok? || d.r == Err(NotFound) {
          DropFinalizerKeepsInv(d.w, n, o);
        }
      }
    }
  }

  lemma NoKeyIsCalledNone(c: Cluster)
    requires Inv(c)
    ensures NONE !in c.keys
  {
  }

  // ---------------------------------------------------------------- adoption and runs

  lemma AdoptionIsSafe(c: Cluster, n: NsName)
    requires Inv(c) && n in c.objects
    ensures var o := c.objects[n].(finalizer := true, version := c.clock);
            Inv(c.(objects := c.objects[n := o], clock := c.clock + 1))
  {
    var o := c.objects[n].(finalizer := true, version := c.clock);
    var d := c.(objects := c.objects[n := o], clock := c.clock + 1);
    assert ObjectInv(c, n, c.objects[n]);
    AdoptedObject(c, d, n);
    forall m | m in d.objects ensures ObjectInv(d, m, d.objects[m]) {
      if m != n {
        assert ObjectInv(c, m, c.objects[m]);
        ObjectSurvivesOtherObject(c, d, m);
      }
    }
    SameGuards(c, d, n);
  }

  lemma AdoptedObject(c: Cluster, d: Cluster, n: NsName)
    requires n in c.objects && ObjectInv(c, n, c.objects[n]) && Recorded(c.objects[n], c.objects[n].status)
    requires d == c.(objects := c.objects[n := c.objects[n].(finalizer := true, version := c.clock)], clock := c.clock + 1)
    ensures ObjectInv(d, n, d.objects[n])
  {
  }

  /** Nobody else adds a finalizer, so an object seen without one is not being deleted. */
  lemma StillWithoutFinalizer(w: World, n: NsName)
    requires Inv(w.c) && (n in w.c.objects ==> !w.c.objects[n].finalizer)
    ensures Inv(Arrive(w))
    ensures n in Arrive(w).objects ==> !Arrive(w).objects[n].finalizer && !Arrive(w).objects[n].deleting
  {
    hide ClaimsKept, OwnedKept, KeysInv, MintInv;
    ArriveKeepsInv(w);
    if n in Arrive(w).objects {
      assert ObjectInv(Arrive(w), n, Arrive(w).objects[n]);
    }
  }

  lemma PatchKeepsInv(w: World, n: NsName)
    requires Inv(w.c) && (n in w.c.objects ==> !w.c.objects[n].finalizer)
    ensures var call := PatchFinalizer(w, n);
            Inv(call.w.c) && (call.r.Ok? ==> JustRead(call.w.c, n, call.r.value))
  {
    hide Inv;
    StillWithoutFinalizer(w, n);
    if n in Arrive(w).objects {
      AdoptionIsSafe(Arrive(w), n);
    }
  }

  lemma ReconcileKeepsInv(w: World, n: NsName)
    requires Inv(w.c)
    ensures Inv(Reconcile(w, n).w.c)
  {
    hide ObjectsKept, ClaimsKept, OwnedKept, KeysInv, MintInv, Finalize, ReconcileLive, PatchFinalizer;
    ArriveKeepsInv(w);
    var got := GetObject(w, n);
    if got.r.Ok? {
      var o := got.r.value;
      assert ObjectInv(got.w.c, n, o);
      if o.deleting {
        assert SameStatus(o, o);
        FinalizeKeepsInv(got.w, n, o);
      } else if o.finalizer {
        ReconcileLiveKeepsInv(got.w, n, o);
      } else {
        PatchKeepsInv(got.w, n);
        var patched := PatchFinalizer(got.w, n);
        if patched.r.Ok? {
          ReconcileLiveKeepsInv(patched.w, n, patched.r.value);
        }
      }
    }
  }

  /** Before the first AccessKey: no key of this controller, no Secret under anyone's control. */
  ghost predicate Initial(c: Cluster) {
    c.lawful && c.clock >= 1 && c.objects == map[] && c.keys == map[] && c.minted == multiset{} && c.claims == map[]
  }

  lemma {:induction false} InvAlways(c: Cluster, events: seq<Event>)
    requires Initial(c) || Inv(c)
    ensures Inv(Run(c, events))
    decreases |events|
  {
    if Initial(c) {
      assert Inv(c);
    }
    hide Inv;
    if events != [] {
      match events[0] {
        case Other(a) => ActionKeepsInv(c, a);
        case Work(n, tape) => ReconcileKeepsInv(World(c, tape), n);
      }
      InvAlways(Next(c, events[0]), events[1..]);
    }
  }
}
