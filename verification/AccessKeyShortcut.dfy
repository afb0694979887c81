/** The shortcut looks at the status only: what is done to the key in Garage goes unnoticed until the next edit. */
module AccessKeyShortcut {
  import opened Common
  import opened Conditions
  import opened AccessKeyWorld
  import opened AccessKeySpec

  /** Nobody edits, deletes or creates the AccessKey n. Anything may be done to keys and Secrets. */
  predicate Leaves(a: Action, n: NsName) {
    match a
    case CreateKeyObject(m, _, _) => m != n
    case DeleteKeyObject(m) => m != n
    case EditSecretName(m, _) => m != n
    case _ => true
  }

  ghost predicate AllLeave(tape: seq<Fate>, n: NsName) {
    forall f, a | f in tape && a in f.actions :: Leaves(a, n)
  }

  ghost predicate EventLeaves(e: Event, n: NsName) {
    match e
    case Other(a) => Leaves(a, n)
    case Work(_, tape) => AllLeave(tape, n)
  }

  /** The AccessKey is o, but perhaps for its version. */
  ghost predicate Still(c: Cluster, n: NsName, o: KeyObject) {
    n in c.objects && c.objects[n] == o.(version := c.objects[n].version)
  }

  ghost predicate Ahead(w: World, n: NsName, o: KeyObject) {
    Still(w.c, n, o) && AllLeave(w.tape, n)
  }

  lemma ActionKeepsStill(c: Cluster, a: Action, n: NsName, o: KeyObject)
    requires Still(c, n, o) && Leaves(a, n)
    ensures Still(Perform(c, a), n, o)
  {
    hide AliveUid, Permitted;
  }

  lemma {:induction false} ActionsKeepStill(c: Cluster, actions: seq<Action>, n: NsName, o: KeyObject)
    requires Still(c, n, o) && forall a | a in actions :: Leaves(a, n)
    ensures Still(PerformAll(c, actions), n, o)
    decreases |actions|
  {
    hide Still, Perform, Leaves;
    if actions != [] {
      ActionKeepsStill(c, actions[0], n, o);
      assert forall a | a in actions[1..] :: a in actions;
      ActionsKeepStill(Perform(c, actions[0]), actions[1..], n, o);
    }
  }

  lemma ArrivalKeepsAhead(w: World, n: NsName, o: KeyObject)
    requires Ahead(w, n, o)
    ensures Still(Arrive(w), n, o) && AllLeave(if w.tape == [] then [] else w.tape[1..], n)
  {
    hide Still, Leaves, PerformAll;
    if w.tape != [] {
      assert w.tape[0] in w.tape;
      ActionsKeepStill(w.c, w.tape[0].actions, n, o);
      assert forall f | f in w.tape[1..] :: f in w.tape;
    }
  }

  lemma ReadsKeepAhead(w: World, m: NsName, id: Id, name: ExtName, n: NsName, o: KeyObject)
    requires Ahead(w, n, o)
    ensures Ahead(GetObject(w, m).w, n, o) && Ahead(GarageGet(w, id).w, n, o)
    ensures Ahead(GarageLookup(w, name).w, n, o) && Ahead(GetSecret(w, m).w, n, o)
  {
    hide Still, AllLeave, Arrive, ReplyTo;
    ArrivalKeepsAhead(w, n, o);
  }

  lemma GarageWritesKeepAhead(w: World, id: Id, name: ExtName, n: NsName, o: KeyObject)
    requires Ahead(w, n, o)
    ensures Ahead(GarageCreate(w, name).w, n, o) && Ahead(GarageDelete(w, id).w, n, o)
  {
    hide AllLeave, Arrive, ReplyTo;
    ArrivalKeepsAhead(w, n, o);
  }

  lemma SecretWritesKeepAhead(w: World, s: NsName, read: Secret, secret: Secret, n: NsName, o: KeyObject)
    requires Ahead(w, n, o)
    ensures Ahead(CreateSecret(w, s, secret).w, n, o) && Ahead(UpdateSecret(w, s, read, secret).w, n, o) && Ahead(DeleteSecret(w, s).w, n, o)
  {
    hide AllLeave, Arrive, ReplyTo;
    ArrivalKeepsAhead(w, n, o);
  }

  /** Writes of other objects. */
  lemma ObjectWritesKeepAhead(w: World, m: NsName, version: int, s: KeyStatus, n: NsName, o: KeyObject)
    requires Ahead(w, n, o) && m != n
    ensures Ahead(PatchFinalizer(w, m).w, n, o) && Ahead(UpdateWithoutFinalizer(w, m, version).w, n, o)
    ensures Ahead(UpdateStatus(w, m, version, s).w, n, o)
  {
    hide UpdateWithoutFinalizer, AllLeave, Arrive, ReplyTo;
    ArrivalKeepsAhead(w, n, o);
    RemovalKeepsAhead(w, m, version, n, o);
  }

  lemma RemovalKeepsAhead(w: World, m: NsName, version: int, n: NsName, o: KeyObject)
    requires Ahead(w, n, o) && m != n
    ensures Ahead(UpdateWithoutFinalizer(w, m, version).w, n, o)
  {
    hide AllLeave, Arrive, ReplyTo;
    ArrivalKeepsAhead(w, n, o);
  }

  lemma EnsureKeepsAhead(w: World, m: NsName, p: KeyObject, n: NsName, o: KeyObject)
    requires Ahead(w, n, o)
    ensures Ahead(EnsureExternalKey(w, m, p).w, n, o)
  {
    hide Ahead, GarageGet, GarageLookup, GarageCreate;
    var name := ExtName(m, p.uid);
    ReadsKeepAhead(w, m, p.status.accessKeyID, name, n, o);
    GarageWritesKeepAhead(GarageGet(w, p.status.accessKeyID).w, NONE, name, n, o);
    GarageWritesKeepAhead(GarageLookup(w, name).w, NONE, name, n, o);
  }

  lemma CreateOrUpdateKeepsAhead(w: World, s: NsName, uid: Id, id: Id, secret: Id, n: NsName, o: KeyObject)
    requires Ahead(w, n, o)
    ensures Ahead(CreateOrUpdateSecret(w, s, uid, id, secret).w, n, o)
  {
    hide Ahead, GetSecret, CreateSecret, UpdateSecret;
    ReadsKeepAhead(w, s, NONE, ExtName(s, NONE), n, o);
    var got := GetSecret(w, s);
    var existing := if got.r.Ok? then got.r.value else Secret(None, NONE, NONE);
    SecretWritesKeepAhead(got.w, s, existing, Secret(Some(uid), id, secret), n, o);
    SecretWritesKeepAhead(got.w, s, existing, existing.(accessKeyID := id, secretAccessKey := secret), n, o);
  }

  lemma SecretStageKeepsAhead(w: World, m: NsName, p: KeyObject, s: KeyStatus, secret: Id, n: NsName, o: KeyObject)
    requires Ahead(w, n, o)
    ensures Ahead(SecretStage(w, m, p, s, secret).w, n, o)
  {
    hide Ahead, GetSecret, CreateOrUpdateSecret, DeleteSecret, Marked;
    var name := SecretOf(m, p.secretName);
    ReadsKeepAhead(w, name, NONE, ExtName(m, NONE), n, o);
    CreateOrUpdateKeepsAhead(GetSecret(w, name).w, name, p.uid, s.accessKeyID, secret, n, o);
    var sec := EnsureSecret(w, m, p, s.accessKeyID, secret);
    SecretWritesKeepAhead(sec.w, SecretOf(m, s.secretName), Secret(None, NONE, NONE), Secret(None, NONE, NONE), n, o);
  }

  lemma OtherLiveKeepsAhead(w: World, m: NsName, p: KeyObject, n: NsName, o: KeyObject)
    requires Ahead(w, n, o) && m != n
    ensures Ahead(ReconcileLive(w, m, p).w, n, o)
  {
    hide Ahead, EnsureExternalKey, SecretStage, Shortcut, Initialized, Aggregated, Marked, GetObject, UpdateStatus;
    EnsureKeepsAhead(w, m, p, n, o);
    var ext := EnsureExternalKey(w, m, p);
    if ext.r.Ok? {
      SecretStageKeepsAhead(ext.w, m, p, Marked(Initialized(p.status).(accessKeyID := ext.r.value.id), AccessKeyReady, True, Met, p.generation), ext.r.value.secret, n, o);
    }
    var run := Computed(w, m, p);
    ReadsKeepAhead(run.w, m, NONE, ExtName(m, NONE), n, o);
    var got := GetObject(run.w, m);
    ObjectWritesKeepAhead(got.w, m, if got.r.Ok? then got.r.value.version else 0, run.status, n, o);
  }

  lemma OtherFinalizeKeepsAhead(w: World, m: NsName, p: KeyObject, n: NsName, o: KeyObject)
    requires Ahead(w, n, o) && m != n
    ensures Ahead(Finalize(w, m, p).w, n, o)
  {
    hide Ahead, GarageLookup, GarageDelete, UpdateWithoutFinalizer;
    ReadsKeepAhead(w, m, NONE, ExtName(m, p.uid), n, o);
    var id := ResolveKeyID(w, m, p);
    ObjectWritesKeepAhead(id.w, m, p.version, p.status, n, o);
    if id.r.Ok? {
      GarageWritesKeepAhead(id.w, id.r.value, ExtName(m, p.uid), n, o);
      ObjectWritesKeepAhead(GarageDelete(id.w, id.r.value).w, m, p.version, p.status, n, o);
    }
  }

  lemma OtherReconcileKeepsAhead(w: World, m: NsName, n: NsName, o: KeyObject)
    requires Ahead(w, n, o) && m != n
    ensures Ahead(Reconcile(w, m).w, n, o)
  {
    hide Ahead, GetObject, PatchFinalizer, Finalize, ReconcileLive;
    ReadsKeepAhead(w, m, NONE, ExtName(m, NONE), n, o);
    var got := GetObject(w, m);
    if got.r.Ok? {
      OtherFinalizeKeepsAhead(got.w, m, got.r.value, n, o);
      OtherLiveKeepsAhead(got.w, m, got.r.value, n, o);
      ObjectWritesKeepAhead(got.w, m, 0, got.r.value.status, n, o);
      var patched := PatchFinalizer(got.w, m);
      if patched.r.Ok? {
        OtherLiveKeepsAhead(patched.w, m, patched.r.value, n, o);
      }
    }
  }

  // ---------------------------------------------------------------- the AccessKey itself

  /** A live AccessKey whose reconcile takes the shortcut and finds nothing to write. */
  ghost predicate Resting(o: KeyObject) {
    && o.finalizer && !o.deleting
    && Shortcut(o, Initialized(o.status)) && Aggregated(Initialized(o.status), o.generation) == o.status
  }

  lemma OwnReconcileKeepsAhead(w: World, n: NsName, o: KeyObject)
    requires Ahead(w, n, o) && Resting(o)
    ensures Ahead(Reconcile(w, n).w, n, o)
  {
    hide AllLeave, Initialized, Aggregated, Shortcut, Arrive, ReplyTo, FullPath;
    ArrivalKeepsAhead(w, n, o);
    SameShortcut(o, Arrive(w).objects[n]);
  }

  lemma SameShortcut(o: KeyObject, p: KeyObject)
    requires p == o.(version := p.version)
    ensures Shortcut(p, Initialized(p.status)) <==> Shortcut(o, Initialized(o.status))
  {
    hide Initialized, Holds;
  }

  lemma NextKeepsStill(c: Cluster, e: Event, n: NsName, o: KeyObject)
    requires Still(c, n, o) && Resting(o) && EventLeaves(e, n)
    ensures Still(Next(c, e), n, o)
  {
    hide Still, AllLeave, Leaves, Resting, Reconcile, Perform;
    match e {
      case Other(a) => ActionKeepsStill(c, a, n, o);
      case Work(m, tape) =>
        if m == n {
          OwnReconcileKeepsAhead(World(c, tape), n, o);
        } else {
          OtherReconcileKeepsAhead(World(c, tape), m, n, o);
        }
    }
  }

  lemma {:induction false} StillAlways(c: Cluster, events: seq<Event>, n: NsName, o: KeyObject)
    requires Still(c, n, o) && Resting(o) && forall e | e in events :: EventLeaves(e, n)
    ensures Still(Run(c, events), n, o)
    decreases |events|
  {
    hide Still, Resting, EventLeaves, Next;
    if events != [] {
      NextKeepsStill(c, events[0], n, o);
      assert forall e | e in events[1..] :: e in events;
      StillAlways(Next(c, events[0]), events[1..], n, o);
    }
  }

  /**
   An AccessKey that is Ready at its generation stays so until it is edited or deleted, whatever is done to its
   key and its Secret, by whatever run of reconciles and actions: a key removed from Garage is never missed.
   */
  lemma RemovalGoesUnnoticed(c: Cluster, events: seq<Event>, n: NsName)
    requires n in c.objects && Resting(c.objects[n]) && forall e | e in events :: EventLeaves(e, n)
    requires Holds(c.objects[n].status.conditions, Ready, True)
    ensures var o := Run(c, events).objects;
            && n in o && o[n].status == c.objects[n].status && o[n].generation == c.objects[n].generation
            && Holds(o[n].status.conditions, Ready, True) && o[n].status.observedGeneration == o[n].generation
            && o[n].status.accessKeyID != NONE
  {
    hide Run, Aggregated, Initialized, Holds;
    StillAlways(c, events, n, c.objects[n]);
    RestingIsObserved(c.objects[n]);
  }

  lemma RestingIsObserved(o: KeyObject)
    requires Resting(o)
    ensures o.status.observedGeneration == o.generation && o.status.accessKeyID != NONE
  {
    hide InitAll, Aggregated, Find;
  }
}
