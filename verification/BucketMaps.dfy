/**
 What a reconcile of a Bucket does to ConfigMaps: it publishes one, removes every other one that the
 Bucket controls, whatever earlier renames and failures have left, and leaves foreign ones alone.
 */
module BucketMaps {
  import opened Common
  import opened Conditions
  import opened Quotas
  import opened BucketWorld
  import opened BucketSpec
  import opened BucketProofs

  /** The ConfigMaps that uid controls. */
  function Owned(c: Cluster, uid: Id): set<NsName> {
    set s | s in c.configMaps && c.configMaps[s].controller == Some(uid)
  }

  /** Those that the Bucket does not ask for any more. */
  function Stale(c: Cluster, n: NsName, o: BucketObject): set<NsName> {
    Owned(c, o.uid) - {ConfigMapOf(n, o.spec)}
  }

  // ---------------------------------------------------------------- others

  lemma ActionShrinksOwned(c: Cluster, a: Action, uid: Id)
    ensures Owned(Perform(c, a), uid) <= Owned(c, uid)
  {
    hide Perform;
    ActionMakesNoOwned(c, a);
  }

  lemma {:induction false} ActionsShrinkOwned(c: Cluster, actions: seq<Action>, uid: Id)
    ensures Owned(PerformAll(c, actions), uid) <= Owned(c, uid)
    decreases |actions|
  {
    hide Perform, Owned;
    if actions != [] {
      ActionShrinksOwned(c, actions[0], uid);
      ActionsShrinkOwned(Perform(c, actions[0]), actions[1..], uid);
    }
  }

  lemma ArrivalShrinksOwned(w: World, uid: Id)
    ensures Owned(Arrive(w), uid) <= Owned(w.c, uid)
  {
    hide Owned, PerformAll;
    if w.tape != [] {
      ActionsShrinkOwned(w.c, w.tape[0].actions, uid);
    }
  }

  // ---------------------------------------------------------------- the loop of deletes

  /** Every ConfigMap that uid controls is the desired one or is still to be deleted. */
  ghost predicate Covered(c: Cluster, n: NsName, uid: Id, items: seq<Item>, desired: Id) {
    forall s | s in Owned(c, uid) :: s.ns == n.ns && (s.name == desired || Item(s.name, Some(uid)) in items)
  }

  lemma DeleteRemoves(w: World, s: NsName, uid: Id)
    ensures var d := DeleteConfigMap(w, s);
            && Owned(d.w.c, uid) <= Owned(w.c, uid)
            && (d.r.Ok? || d.r.error == NotFound || !ReplyTo(w).Refused? ==> s !in Owned(d.w.c, uid))
  {
    hide Arrive;
    ArrivalShrinksOwned(w, uid);
  }

  lemma {:induction false} DeleteEachCleans(w: World, n: NsName, items: seq<Item>, desired: Id, uid: Id)
    requires Covered(w.c, n, uid, items, desired)
    ensures var d := DeleteEach(w, n.ns, items, desired, uid);
            d.r.Ok? ==> Owned(d.w.c, uid) <= {NsName(n.ns, desired)}
    decreases |items|
  {
    hide Owned, DeleteConfigMap;
    if items != [] {
      if IsStale(items[0], desired, uid) {
        var s := NsName(n.ns, items[0].name);
        DeleteRemoves(w, s, uid);
        var d := DeleteConfigMap(w, s);
        if d.r.Ok? || d.r.error == NotFound {
          assert Covered(d.w.c, n, uid, items[1..], desired);
          DeleteEachCleans(d.w, n, items[1..], desired, uid);
        }
      } else {
        DeleteEachCleans(w, n, items[1..], desired, uid);
      }
    }
  }

  lemma {:induction false} DeleteEachShrinks(w: World, ns: Id, items: seq<Item>, desired: Id, uid: Id)
    ensures Owned(DeleteEach(w, ns, items, desired, uid).w.c, uid) <= Owned(w.c, uid)
    decreases |items|
  {
    hide Owned, DeleteConfigMap;
    if items != [] {
      if IsStale(items[0], desired, uid) {
        DeleteRemoves(w, NsName(ns, items[0].name), uid);
        DeleteEachShrinks(DeleteConfigMap(w, NsName(ns, items[0].name)).w, ns, items[1..], desired, uid);
      } else {
        DeleteEachShrinks(w, ns, items[1..], desired, uid);
      }
    }
  }

  predicate AnyStale(items: seq<Item>, desired: Id, uid: Id) {
    exists i | i in items :: IsStale(i, desired, uid)
  }

  /** If there is something to delete and the first request is not refused, something is deleted for good. */
  lemma {:induction false} FirstStaleGoes(w: World, ns: Id, items: seq<Item>, desired: Id, uid: Id) returns (gone: Item)
    requires !ReplyTo(w).Refused? && AnyStale(items, desired, uid)
    ensures gone in items && IsStale(gone, desired, uid)
    ensures NsName(ns, gone.name) !in Owned(DeleteEach(w, ns, items, desired, uid).w.c, uid)
    decreases |items|
  {
    hide Owned, DeleteConfigMap;
    if IsStale(items[0], desired, uid) {
      gone := items[0];
      var s := NsName(ns, gone.name);
      DeleteRemoves(w, s, uid);
      DeleteEachShrinks(DeleteConfigMap(w, s).w, ns, items[1..], desired, uid);
    } else {
      gone := FirstStaleGoes(w, ns, items[1..], desired, uid);
    }
  }

  /** A list by label contains every ConfigMap that the Bucket controls. */
  lemma ListCovers(c: Cluster, n: NsName, uid: Id, desired: Id)
    requires OwnMaps(c, n, uid)
    ensures Covered(c, n, uid, Items(c, n.ns, Listing(Tagged(c, n.ns, n.name))), desired)
  {
    hide Listing;
    var names := Listing(Tagged(c, n.ns, n.name));
    var items := Items(c, n.ns, names);
    forall s | s in Owned(c, uid) ensures s.ns == n.ns && (s.name == desired || Item(s.name, Some(uid)) in items) {
      assert s.name in Tagged(c, n.ns, n.name);
      var i :| 0 <= i < |names| && names[i] == s.name;
      assert NsName(n.ns, names[i]) == s;
      assert items[i] == Item(s.name, Some(uid));
    }
  }

  lemma ListedIsStale(c: Cluster, n: NsName, o: BucketObject, i: Item)
    requires i in Items(c, n.ns, Listing(Tagged(c, n.ns, n.name))) && IsStale(i, ConfigMapOf(n, o.spec).name, o.uid)
    ensures NsName(n.ns, i.name) in Stale(c, n, o)
  {
    hide Listing;
  }

  lemma HeldOwnMaps(c: Cluster, n: NsName, o: BucketObject)
    requires Held(c, n, o)
    ensures OwnMaps(c, n, o.uid)
  {
  }

  /**
   However many ConfigMaps earlier renames and failed deletes have left, a cleanup that returns no
   error leaves at most the one that the Bucket asks for.
   */
  lemma CleanupLeavesOne(w: World, n: NsName, o: BucketObject)
    requires Held(w.c, n, o)
    ensures var d := DeleteStaleConfigMaps(w, n, o);
            d.r.Ok? ==>
              && Owned(d.w.c, o.uid) <= {ConfigMapOf(n, o.spec)}
              && (o.spec.configMapName != NONE ==> Owned(d.w.c, o.uid) <= {NsName(n.ns, o.spec.configMapName)})
              && (o.spec.configMapName == NONE ==> Owned(d.w.c, o.uid) <= {NsName(n.ns, n.name)})
  {
    hide Held, Arrive, ReplyTo, DeleteEach, Items, Listing, Tagged, Owned;
    HeldOnArrival(w, n, o);
    HeldOwnMaps(Arrive(w), n, o);
    ListCovers(Arrive(w), n, o.uid, ConfigMapOf(n, o.spec).name);
    var listed := ListConfigMaps(w, n.ns, n.name);
    if listed.r.Ok? {
      DeleteEachCleans(listed.w, n, listed.r.value, ConfigMapOf(n, o.spec).name, o.uid);
    }
  }

  /**
   A cleanup never adds to the stale ConfigMaps, leaves none when it succeeds, and makes progress
   whenever there is something to do, its list is answered and its first delete is not refused.
   */
  lemma StaleSetShrinks(w: World, n: NsName, o: BucketObject)
    requires Held(w.c, n, o)
    ensures var d := DeleteStaleConfigMaps(w, n, o);
            && Stale(d.w.c, n, o) <= Stale(w.c, n, o)
            && (d.r.Ok? ==> Stale(d.w.c, n, o) == {})
            && (Stale(Arrive(w), n, o) != {} && ReplyTo(w).Delivered? && |w.tape| > 1 && !w.tape[1].reply.Refused? ==>
                  Stale(d.w.c, n, o) < Stale(w.c, n, o))
  {
    hide Held, Arrive, DeleteEach, Items, Listing, Tagged, Owned;
    CleanupLeavesOne(w, n, o);
    HeldOnArrival(w, n, o);
    HeldOwnMaps(Arrive(w), n, o);
    ArrivalShrinksOwned(w, o.uid);
    var a := Arrive(w);
    var desired := ConfigMapOf(n, o.spec);
    var listed := ListConfigMaps(w, n.ns, n.name);
    if listed.r.Ok? {
      ListCovers(a, n, o.uid, desired.name);
      DeleteEachShrinks(listed.w, n.ns, listed.r.value, desired.name, o.uid);
      if Stale(a, n, o) != {} && |w.tape| > 1 && !w.tape[1].reply.Refused? {
        var s := Member(Stale(a, n, o));
        assert s in Owned(a, o.uid) && s.name != desired.name;
        assert IsStale(Item(s.name, Some(o.uid)), desired.name, o.uid);
        var gone := FirstStaleGoes(listed.w, n.ns, listed.r.value, desired.name, o.uid);
        ListedIsStale(a, n, o, gone);
        var g := NsName(n.ns, gone.name);
        assert g in Stale(a, n, o) && g in Stale(w.c, n, o);
        assert g !in Stale(DeleteStaleConfigMaps(w, n, o).w.c, n, o);
      }
    }
  }

  // ---------------------------------------------------------------- one ConfigMap

  ghost predicate Published(c: Cluster, s: NsName, cm: ConfigMap) {
    s in c.configMaps && c.configMaps[s] == cm
  }

  predicate Removes(a: Action, s: NsName) {
    (a.DeleteConfigMapObject? || a.CollectConfigMap?) && a.s == s
  }

  predicate Puts(a: Action, s: NsName) {
    a.PutUserConfigMap? && a.s == s
  }

  /** Nobody else removes s, and if it has no controller nobody else changes it. */
  ghost predicate Spares(tape: seq<Fate>, s: NsName, cm: ConfigMap) {
    forall f, a | f in tape && a in f.actions :: !Removes(a, s) && (cm.controller.None? ==> !Puts(a, s))
  }

  lemma ActionKeepsPublished(c: Cluster, a: Action, s: NsName, cm: ConfigMap)
    requires Published(c, s, cm) && !Removes(a, s) && (cm.controller.None? ==> !Puts(a, s))
    ensures Published(Perform(c, a), s, cm)
  {
    hide AliveUid, Admitted, Switches;
  }

  lemma {:induction false} ActionsKeepPublished(c: Cluster, actions: seq<Action>, s: NsName, cm: ConfigMap)
    requires Published(c, s, cm) && forall a | a in actions :: !Removes(a, s) && (cm.controller.None? ==> !Puts(a, s))
    ensures Published(PerformAll(c, actions), s, cm)
    decreases |actions|
  {
    hide Perform, Published, Removes, Puts;
    if actions != [] {
      ActionKeepsPublished(c, actions[0], s, cm);
      assert forall a | a in actions[1..] :: a in actions;
      ActionsKeepPublished(Perform(c, actions[0]), actions[1..], s, cm);
    }
  }

  /** s holds cm, and nobody else is going to change that. */
  ghost predicate Steady(w: World, s: NsName, cm: ConfigMap) {
    Published(w.c, s, cm) && Spares(w.tape, s, cm)
  }

  lemma ArrivalKeepsSteady(w: World, s: NsName, cm: ConfigMap, log: seq<Entry>)
    requires Steady(w, s, cm)
    ensures Steady(World(Arrive(w), Rest(w), log), s, cm)
  {
    hide PerformAll, Removes, Puts, Published;
    if w.tape != [] {
      assert w.tape[0] in w.tape;
      ActionsKeepPublished(w.c, w.tape[0].actions, s, cm);
      assert forall f | f in w.tape[1..] :: f in w.tape;
    }
  }

  lemma DeleteKeepsSteady(w: World, t: NsName, s: NsName, cm: ConfigMap)
    requires Steady(w, s, cm) && t != s
    ensures Steady(DeleteConfigMap(w, t).w, s, cm)
  {
    hide Arrive, Rest, ReplyTo, Spares;
    ArrivalKeepsSteady(w, s, cm, w.log + [ConfigMapDeleted(t, Victim(w, t))]);
  }

  lemma {:induction false} DeleteEachKeepsSteady(w: World, ns: Id, items: seq<Item>, desired: Id, uid: Id, s: NsName, cm: ConfigMap)
    requires Steady(w, s, cm)
    requires forall i | i in items && IsStale(i, desired, uid) :: NsName(ns, i.name) != s
    ensures Steady(DeleteEach(w, ns, items, desired, uid).w, s, cm)
    decreases |items|
  {
    hide Steady, DeleteConfigMap, IsStale;
    if items != [] {
      assert items[0] in items;
      assert forall i | i in items[1..] :: i in items;
      if IsStale(items[0], desired, uid) {
        DeleteKeepsSteady(w, NsName(ns, items[0].name), s, cm);
        DeleteEachKeepsSteady(DeleteConfigMap(w, NsName(ns, items[0].name)).w, ns, items[1..], desired, uid, s, cm);
      } else {
        DeleteEachKeepsSteady(w, ns, items[1..], desired, uid, s, cm);
      }
    }
  }

  /** An item of a list names a ConfigMap with the controller it has. */
  lemma ListedController(c: Cluster, n: NsName, i: Item, s: NsName)
    requires i in Items(c, n.ns, Listing(Tagged(c, n.ns, n.name))) && NsName(n.ns, i.name) == s
    ensures s in c.configMaps && i.controller == c.configMaps[s].controller
  {
    hide Listing;
    var names := Listing(Tagged(c, n.ns, n.name));
    var items := Items(c, n.ns, names);
    var k :| 0 <= k < |items| && items[k] == i;
    assert names[k] in Tagged(c, n.ns, n.name);
    var t :| t in c.configMaps && t.ns == n.ns && t.name == names[k];
    assert t == s;
  }

  /** The cleanup leaves the desired ConfigMap alone, and every one that somebody else controls. */
  lemma CleanupKeepsSteady(w: World, n: NsName, o: BucketObject, s: NsName, cm: ConfigMap)
    requires Steady(w, s, cm) && (s == ConfigMapOf(n, o.spec) || cm.controller != Some(o.uid))
    ensures Steady(DeleteStaleConfigMaps(w, n, o).w, s, cm)
  {
    hide Arrive, Rest, ReplyTo, Items, Listing, Tagged, DeleteEach, Spares;
    var a := Arrive(w);
    var listed := ListConfigMaps(w, n.ns, n.name);
    ArrivalKeepsSteady(w, s, cm, listed.w.log);
    if listed.r.Ok? {
      var desired := ConfigMapOf(n, o.spec).name;
      forall i | i in listed.r.value && IsStale(i, desired, o.uid) ensures NsName(n.ns, i.name) != s {
        if NsName(n.ns, i.name) == s {
          ListedController(a, n, i, s);
          assert false;
        }
      }
      DeleteEachKeepsSteady(listed.w, n.ns, listed.r.value, desired, o.uid, s, cm);
    }
  }

  // ---------------------------------------------------------------- publishing

  /** After a successful ensureConfigMap the desired ConfigMap is there, as desired. */
  lemma EnsurePublishes(w: World, q: Job, o: BucketObject, s: BucketStatus)
    requires EnsureConfigMap(w, q, o, s).r.Ok?
    ensures Published(EnsureConfigMap(w, q, o, s).w.c, ConfigMapOf(q.n, o.spec), DesiredConfigMap(q, o, s))
  {
    hide Arrive, Rest, ConfigMapOf;
  }

  lemma EnsureKeepsTape(w: World, q: Job, o: BucketObject, s: BucketStatus)
    ensures forall f | f in EnsureConfigMap(w, q, o, s).w.tape :: f in w.tape
  {
    hide Arrive, ConfigMapOf, DesiredConfigMap;
  }
}
