/** Importing an existing bucket: nothing is written before its ownership was shown. */
module BucketImport {
  import opened Common
  import opened Conditions
  import opened Permissions
  import opened Quotas
  import opened BucketWorld
  import opened BucketSpec

  /** The entries after the first k are not creations, and no quotas are sent but to the bucket id. */
  ghost predicate OnlyFor(log: seq<Entry>, k: nat, id: Id) {
    forall i | k <= i < |log| :: !log[i].BucketCreated? && (log[i].QuotasSent? ==> log[i].id == id)
  }

  /** What a later part of a reconcile adds to the log. */
  ghost predicate Adds(v: World, w: World, id: Id) {
    && |v.log| <= |w.log| && w.log[..|v.log|] == v.log
    && OnlyFor(w.log, |v.log|, id)
  }

  lemma AddsTwice(u: World, v: World, w: World, id: Id)
    requires Adds(u, v, id) && Adds(v, w, id)
    ensures Adds(u, w, id)
  {
    assert w.log[..|u.log|] == w.log[..|v.log|][..|u.log|];
    forall i | |u.log| <= i < |w.log| ensures !w.log[i].BucketCreated? && (w.log[i].QuotasSent? ==> w.log[i].id == id) {
      if i < |v.log| {
        assert w.log[i] == w.log[..|v.log|][i];
      }
    }
  }

  lemma CallsAdd(w: World, s: NsName, read: ConfigMap, cm: ConfigMap, quotas: Quotas, id: Id)
    ensures Adds(w, GarageUpdate(w, id, quotas).w, id) && Adds(w, GetConfigMap(w, s).w, id)
    ensures Adds(w, CreateConfigMap(w, s, cm).w, id) && Adds(w, UpdateConfigMap(w, s, read, cm).w, id)
  {
    hide Arrive, Rest, ReplyTo, FromS3;
  }

  lemma ListAdds(w: World, ns: Id, tag: Id, id: Id)
    ensures Adds(w, ListConfigMaps(w, ns, tag).w, id)
  {
    hide Arrive, Rest, Items, Listing, Tagged;
  }

  lemma EnsureAdds(w: World, q: Job, o: BucketObject, s: BucketStatus, id: Id)
    ensures Adds(w, EnsureConfigMap(w, q, o, s).w, id)
  {
    hide Adds, GetConfigMap, CreateConfigMap, UpdateConfigMap, DesiredConfigMap;
    var name := ConfigMapOf(q.n, o.spec);
    var desired := DesiredConfigMap(q, o, s);
    CallsAdd(w, name, desired, desired, o.spec.quotas, id);
    var got := GetConfigMap(w, name);
    var read := if got.r.Ok? then got.r.value else desired;
    CallsAdd(got.w, name, read, desired, o.spec.quotas, id);
    AddsTwice(w, got.w, CreateConfigMap(got.w, name, desired).w, id);
    AddsTwice(w, got.w, UpdateConfigMap(got.w, name, read, desired).w, id);
  }

  lemma {:induction false} DeleteEachAdds(w: World, ns: Id, items: seq<Item>, desired: Id, uid: Id, id: Id)
    ensures Adds(w, DeleteEach(w, ns, items, desired, uid).w, id)
    decreases |items|
  {
    hide OnlyFor, DeleteConfigMap;
    if items == [] {
      AddsNothing(w, id);
    } else if IsStale(items[0], desired, uid) {
      var s := NsName(ns, items[0].name);
      DeleteAdds(w, s, id);
      DeleteEachAdds(DeleteConfigMap(w, s).w, ns, items[1..], desired, uid, id);
      AddsTwice(w, DeleteConfigMap(w, s).w, DeleteEach(DeleteConfigMap(w, s).w, ns, items[1..], desired, uid).w, id);
    } else {
      DeleteEachAdds(w, ns, items[1..], desired, uid, id);
    }
  }

  lemma DeleteAdds(w: World, s: NsName, id: Id)
    ensures Adds(w, DeleteConfigMap(w, s).w, id)
  {
    hide Arrive, Rest, ReplyTo;
  }

  lemma AddsNothing(w: World, id: Id)
    ensures Adds(w, w, id)
  {
  }

  lemma MapStageAdds(w: World, q: Job, o: BucketObject, s: BucketStatus, id: Id)
    ensures Adds(w, ConfigMapStage(w, q, o, s).w, id)
  {
    hide Adds, EnsureConfigMap, ListConfigMaps, DeleteEach, Marked;
    EnsureAdds(w, q, o, s, id);
    var e := EnsureConfigMap(w, q, o, s).w;
    ListAdds(e, q.n.ns, q.n.name, id);
    var listed := ListConfigMaps(e, q.n.ns, q.n.name);
    AddsTwice(w, e, listed.w, id);
    if listed.r.Ok? {
      DeleteEachAdds(listed.w, q.n.ns, listed.r.value, ConfigMapOf(q.n, o.spec).name, o.uid, id);
      AddsTwice(w, listed.w, DeleteEach(listed.w, q.n.ns, listed.r.value, ConfigMapOf(q.n, o.spec).name, o.uid).w, id);
    }
  }

  lemma QuotaStageAdds(w: World, q: Job, o: BucketObject, s: BucketStatus, b: S3Bucket)
    ensures Adds(w, QuotaStage(w, q, o, s, b).w, b.id)
  {
    hide Adds, GarageUpdate, ConfigMapStage, Marked, Differs;
    var ready := Marked(s, BucketReady, True, Met, o.generation);
    MapStageAdds(w, q, o, ready, b.id);
    CallsAdd(w, q.n, DesiredConfigMap(q, o, s), DesiredConfigMap(q, o, s), o.spec.quotas, b.id);
    var sent := GarageUpdate(w, b.id, o.spec.quotas).w;
    MapStageAdds(sent, q, o, ready, b.id);
    AddsTwice(w, sent, ConfigMapStage(sent, q, o, ready).w, b.id);
  }

  // ---------------------------------------------------------------- resolving

  /** The log of a failed import: only what was read. */
  ghost predicate OnlyReads(log: seq<Entry>) {
    forall i | 0 <= i < |log| :: log[i].SecretRead? || log[i].PermissionsRead?
  }

  /** The owner's Secret was read, and the key in it owns the bucket id. */
  ghost predicate Shown(log: seq<Entry>, s: NsName, id: Id) {
    && |log| == 2
    && log[0].SecretRead? && log[0].s == s
    && log[1].PermissionsRead? && log[1].pair == Pair(log[0].keyID, id) && log[1].permissions.owner
  }

  lemma ResolveShows(w: World, alias: Alias, s: NsName)
    requires w.log == []
    ensures var resolved := ResolveExistingBucket(w, alias, s);
            && OnlyReads(resolved.w.log)
            && (resolved.r.Ok? ==> Shown(resolved.w.log, s, resolved.r.value.id))
  {
    hide Arrive, Rest, ToS3;
    var secret := GetSecret(w, s);
    assert OnlyReads(secret.w.log) && (secret.r.Ok? ==> secret.w.log == [SecretRead(s, secret.r.value)]);
    var got := GarageGet(secret.w, alias);
    assert got.w.log == secret.w.log;
  }

  /**
   Every entry that changes something comes after a read of the Secret that the spec names and a read that
   shows the key in it to own the very bucket that is being configured.
   */
  ghost predicate Authorised(log: seq<Entry>, s: NsName, id: Id) {
    forall i | 0 <= i < |log| ::
      && !log[i].BucketCreated?
      && (log[i].QuotasSent? || log[i].ConfigMapSent? || log[i].ConfigMapDeleted? ==> i >= 2 && Shown(log[..2], s, id))
      && (log[i].QuotasSent? ==> log[i].id == id)
  }

  lemma AuthorisedAfter(v: World, w: World, s: NsName, id: Id)
    requires Shown(v.log, s, id) && Adds(v, w, id)
    ensures Authorised(w.log, s, id)
  {
    assert w.log[..2] == v.log;
    assert w.log[0] == v.log[0] && w.log[1] == v.log[1];
  }

  lemma PatchAfterReads(w: World, n: NsName, version: int, st: BucketStatus, s: NsName, id: Id)
    requires OnlyReads(w.log)
    ensures Authorised(w.log, s, id) && Authorised(PatchStatus(w, n, version, st).w.log, s, id)
  {
    hide Arrive, Rest, Malformed, WithStatus;
    assert PatchStatus(w, n, version, st).w.log == w.log + [StatusSent(n)];
  }

  /**
   For an existing bucket no reconcile, however its calls end, creates a bucket, sends quotas or writes or
   deletes a ConfigMap before the Secret's key was seen to own that bucket; and quotas go to no other.
   */
  lemma ImportSafety(w: World, q: Job, o: BucketObject)
    requires w.log == [] && o.spec.source.Existing?
    ensures var resolved := Resolve(w, q, o);
            var s := NsName(q.n.ns, o.spec.source.ownerKeySecret);
            Authorised(ReconcileObject(w, q, o).w.log, s, if resolved.r.Ok? then resolved.r.value.id else NONE)
  {
    hide ResolveExistingBucket, QuotaStage, Initialized, Aggregated, Marked, Recorded, PatchStatus, ResolveFailure, OnlyReads, Shown, Authorised, Adds;
    var s := NsName(q.n.ns, o.spec.source.ownerKeySecret);
    ResolveShows(w, o.spec.source.alias, s);
    var resolved := Resolve(w, q, o);
    var run := Computed(w, q, o);
    if resolved.r.Ok? {
      var b := resolved.r.value;
      QuotaStageAdds(resolved.w, q, o, Recorded(Initialized(o.status), b.id, AliasOf(o)), b);
      AuthorisedAfter(resolved.w, run.w, s, b.id);
      PatchAdds(run.w, q.n, o.version, run.status, b.id);
      AddsTwice(resolved.w, run.w, PatchStatus(run.w, q.n, o.version, run.status).w, b.id);
      AuthorisedAfter(resolved.w, PatchStatus(run.w, q.n, o.version, run.status).w, s, b.id);
    } else {
      PatchAfterReads(run.w, q.n, o.version, run.status, s, NONE);
    }
  }

  lemma PatchAdds(w: World, n: NsName, version: int, st: BucketStatus, id: Id)
    ensures Adds(w, PatchStatus(w, n, version, st).w, id)
  {
    hide Arrive, Rest, ReplyTo, Malformed, WithStatus;
  }
}
