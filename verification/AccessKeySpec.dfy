/**
 The AccessKey reconciler as a function of the world: internal/controller/accesskey_controller.go
 and accesskey_conditions.go.
 */
module AccessKeySpec {
  import opened Common
  import opened Conditions
  import opened AccessKeyWorld

  const KEY_CONDITIONS: seq<CondType> := [Ready, AccessKeyReady, KeySecretReady]
  const KEY_ORDER: seq<CondType> := [AccessKeyReady, KeySecretReady]

  function Initialized(s: KeyStatus): KeyStatus {
    s.(conditions := InitAll(s.conditions, KEY_CONDITIONS))
  }

  function Marked(s: KeyStatus, t: CondType, status: CondStatus, reason: Reason, generation: int): KeyStatus {
    s.(conditions := SetCondition(s.conditions, Condition(t, status, reason, generation)))
  }

  predicate IsPermanentFailure(reason: Reason) {
    reason == SecretNameConflict
  }

  /** updateAccessKeyCondition. */
  function Aggregated(s: KeyStatus, generation: int): KeyStatus {
    var ready := Verdict(s.conditions, KEY_ORDER, WaitingForResources, generation);
    s.(conditions := SetCondition(s.conditions, ready),
       observedGeneration := if ready.status == True || IsPermanentFailure(ready.reason) then generation
                             else s.observedGeneration)
  }

  function EnsureExternalKey(w: World, n: NsName, o: KeyObject): Call<S3Key> {
    var name := ExtName(n, o.uid);
    if o.status.accessKeyID != NONE then
      var got := GarageGet(w, o.status.accessKeyID);
      if got.r == Err(NotFound) then GarageCreate(got.w, name) else got
    else
      var found := GarageLookup(w, name);
      if found.r == Err(NotFound) then GarageCreate(found.w, name) else found
  }

  /** controllerutil.CreateOrUpdate on the Secret: read again, then create, update or leave it. */
  function CreateOrUpdateSecret(w: World, s: NsName, uid: Id, id: Id, secret: Id): Call<()> {
    var got := GetSecret(w, s);
    match got.r
    case Err(e) =>
      if e == NotFound then CreateSecret(got.w, s, Secret(Some(uid), id, secret)) else Call(got.w, Err(e))
    case Ok(existing) =>
      var desired := existing.(accessKeyID := id, secretAccessKey := secret);
      if desired == existing then Call(got.w, Ok(())) else UpdateSecret(got.w, s, existing, desired)
  }

  function EnsureSecret(w: World, n: NsName, o: KeyObject, id: Id, secret: Id): Call<()> {
    var s := SecretOf(n, o.secretName);
    var got := GetSecret(w, s);
    if got.r.Err? && got.r.error != NotFound then Call(got.w, Err(got.r.error))
    else if got.r.Ok? && got.r.value.controller != Some(o.uid) then Call(got.w, Err(NameConflict))
    else CreateOrUpdateSecret(got.w, s, o.uid, id, secret)
  }

  function CleanupOldSecret(w: World, s: NsName): Call<()> {
    var d := DeleteSecret(w, s);
    if d.r == Err(NotFound) then Call(d.w, Ok(())) else d
  }

  /** The status computed so far and the error returned. */
  datatype KeyRun = KeyRun(w: World, status: KeyStatus, error: Option<Error>)

  /** Whether reconcileAccessKey takes its shortcut. */
  predicate Shortcut(o: KeyObject, s: KeyStatus) {
    s.observedGeneration == o.generation && Holds(s.conditions, AccessKeyReady, True) && s.accessKeyID != NONE
  }

  function SecretFailure(e: Error): Reason {
    match e
    case NameConflict => SecretNameConflict
    case Forbidden => SecretAccessForbidden
    case _ => SecretSetupFailed
  }

  /** reconcileAccessKey past its shortcut; s is the status with initialised conditions. */
  function FullPath(w: World, n: NsName, o: KeyObject, s: KeyStatus): KeyRun {
    var ext := EnsureExternalKey(w, n, o);
    if ext.r.Err? then KeyRun(ext.w, Marked(s, AccessKeyReady, False, AccessKeyUnknown, o.generation), Some(ext.r.error))
    else
      SecretStage(ext.w, n, o, Marked(s.(accessKeyID := ext.r.value.id), AccessKeyReady, True, Met, o.generation), ext.r.value.secret)
  }

  /** The part of reconcileAccessKey that publishes the credentials. */
  function SecretStage(w: World, n: NsName, o: KeyObject, s: KeyStatus, secret: Id): KeyRun {
    var sec := EnsureSecret(w, n, o, s.accessKeyID, secret);
    if sec.r.Err? then
      KeyRun(sec.w, Marked(s, KeySecretReady, False, SecretFailure(sec.r.error), o.generation),
             if sec.r.error == NameConflict then None else Some(sec.r.error))
    else if s.secretName != NONE && s.secretName != o.secretName then
      var cleanup := CleanupOldSecret(sec.w, SecretOf(n, s.secretName));
      if cleanup.r.Err? then
        KeyRun(cleanup.w, Marked(s, KeySecretReady, False, SecretCleanupFailed, o.generation), Some(cleanup.r.error))
      else Published(cleanup.w, o, s)
    else Published(sec.w, o, s)
  }

  function Published(w: World, o: KeyObject, s: KeyStatus): KeyRun {
    KeyRun(w, Marked(s.(secretName := o.secretName), KeySecretReady, True, Met, o.generation), None)
  }

  function ReconcileAccessKey(w: World, n: NsName, o: KeyObject, s: KeyStatus): KeyRun {
    if Shortcut(o, s) then KeyRun(w, s, None) else FullPath(w, n, o, s)
  }

  /** updateStatus: read the latest object and replace its status. */
  function WriteStatus(w: World, n: NsName, s: KeyStatus): Call<()> {
    var got := GetObject(w, n);
    if got.r.Err? then Call(got.w, Err(got.r.error)) else UpdateStatus(got.w, n, got.r.value.version, s)
  }

  datatype End = End(w: World, outcome: Outcome)

  /** The run and the status that a reconcile of the live object o computes. */
  function Computed(w: World, n: NsName, o: KeyObject): KeyRun {
    var run := ReconcileAccessKey(w, n, o, Initialized(o.status));
    run.(status := Aggregated(run.status, o.generation))
  }

  function ReconcileLive(w: World, n: NsName, o: KeyObject): End {
    var run := Computed(w, n, o);
    if run.status == o.status then End(run.w, OutcomeOf(run.error))
    else
      var write := WriteStatus(run.w, n, run.status);
      End(write.w,
          if write.r == Err(Conflict) then Done
          else if write.r.Err? && run.error.None? then Failed(write.r.error)
          else OutcomeOf(run.error))
  }

  /** resolveExtKeyID: the ID to delete, or NONE. */
  function ResolveKeyID(w: World, n: NsName, o: KeyObject): Call<Id> {
    if o.status.accessKeyID != NONE then Call(w, Ok(o.status.accessKeyID))
    else
      var found := GarageLookup(w, ExtName(n, o.uid));
      if found.r == Err(NotFound) then Call(found.w, Ok(NONE))
      else if found.r.Err? then Call(found.w, Err(found.r.error))
      else Call(found.w, Ok(found.r.value.id))
  }

  function Finalize(w: World, n: NsName, o: KeyObject): End {
    if !o.finalizer then End(w, Done)
    else
      var id := ResolveKeyID(w, n, o);
      if id.r.Err? then End(id.w, Failed(id.r.error))
      else if id.r.value == NONE then DropFinalizer(id.w, n, o)
      else
        var d := GarageDelete(id.w, id.r.value);
        if d.r.Err? && d.r.error != NotFound then End(d.w, Failed(d.r.error)) else DropFinalizer(d.w, n, o)
  }

  function DropFinalizer(w: World, n: NsName, o: KeyObject): End {
    var u := UpdateWithoutFinalizer(w, n, o.version);
    End(u.w, if u.r.Err? then Failed(u.r.error) else Done)
  }

  function Reconcile(w: World, n: NsName): End {
    var got := GetObject(w, n);
    match got.r
    case Err(e) => End(got.w, if e == NotFound then Done else Failed(e))
    case Ok(o) =>
      if o.deleting then Finalize(got.w, n, o)
      else if o.finalizer then ReconcileLive(got.w, n, o)
      else
        var patched := PatchFinalizer(got.w, n);
        if patched.r.Err? then End(patched.w, Failed(patched.r.error)) else ReconcileLive(patched.w, n, patched.r.value)
  }

  // ---------------------------------------------------------------- runs

  /** Something others do on their own, or one reconcile, whose calls end as the tape says. */
  datatype Event = Other(action: Action) | Work(n: NsName, tape: seq<Fate>)

  function Next(c: Cluster, e: Event): Cluster {
    match e
    case Other(a) => Perform(c, a)
    case Work(n, tape) => Reconcile(World(c, tape), n).w.c
  }

  function Run(c: Cluster, events: seq<Event>): Cluster
    decreases |events|
  {
    if events == [] then c else Run(Next(c, events[0]), events[1..])
  }
}
