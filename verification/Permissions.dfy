/**
 internal/garage/client.go: setting and reading the permissions of a key on a bucket. Garage keeps
 one row of flags per (key, bucket) pair; DenyBucketKey clears the flags it names, AllowBucketKey
 sets them. Setting permissions is two requests, so another reader can see the state in between.
 */
module Permissions {
  import opened Common

  datatype Permissions = Permissions(owner: bool, read: bool, write: bool)

  const NOTHING := Permissions(false, false, false)

  predicate Within(p: Permissions, q: Permissions) {
    (p.owner ==> q.owner) && (p.read ==> q.read) && (p.write ==> q.write)
  }

  function Both(p: Permissions, q: Permissions): Permissions {
    Permissions(p.owner && q.owner, p.read && q.read, p.write && q.write)
  }

  function Complement(p: Permissions): Permissions {
    Permissions(!p.owner, !p.read, !p.write)
  }

  datatype Pair = Pair(key: Id, bucket: Id)

  /** What Garage stores; a pair without a row has no permissions. */
  datatype Garage = Garage(keys: set<Id>, buckets: set<Id>, rows: map<Pair, Permissions>)

  predicate Exists(g: Garage, p: Pair) {
    p.key in g.keys && p.bucket in g.buckets
  }

  function PermissionsOf(g: Garage, p: Pair): Permissions {
    if p in g.rows then g.rows[p] else NOTHING
  }

  /** Rows belong to keys and buckets that exist. */
  predicate Consistent(g: Garage) {
    forall p | p in g.rows :: Exists(g, p)
  }

  function Deny(g: Garage, p: Pair, flags: Permissions): Garage {
    g.(rows := g.rows[p := Both(PermissionsOf(g, p), Complement(flags))])
  }

  function Allow(g: Garage, p: Pair, flags: Permissions): Garage {
    var held := PermissionsOf(g, p);
    g.(rows := g.rows[p := Permissions(held.owner || flags.owner, held.read || flags.read, held.write || flags.write)])
  }

  /** The state and the answer of one request that is ended by reply. */
  datatype Step = Step(g: Garage, error: Option<Error>)

  /** DenyBucketKey reports an unknown key or bucket as not found. */
  function DenyBucketKey(g: Garage, p: Pair, flags: Permissions, reply: Reply): Step {
    if reply.Refused? then Step(g, Some(FaultOf(reply)))
    else
      var g' := if Exists(g, p) then Deny(g, p, flags) else g;
      Step(g', if reply.Lost? then Some(Transient) else if Exists(g, p) then None else Some(NotFound))
  }

  /** AllowBucketKey reports every failure the same way. */
  function AllowBucketKey(g: Garage, p: Pair, flags: Permissions, reply: Reply): Step {
    if reply.Refused? then Step(g, Some(FaultOf(reply)))
    else
      var g' := if Exists(g, p) then Allow(g, p, flags) else g;
      Step(g', if reply.Delivered? && Exists(g, p) then None else Some(Transient))
  }

  /** One call of SetPermissions and how its two requests end. */
  datatype Request = Request(pair: Pair, target: Permissions, deny: Reply, allow: Reply)

  /** The state after the first request of a call. */
  function AfterDeny(g: Garage, c: Request): Step {
    DenyBucketKey(g, c.pair, Complement(c.target), c.deny)
  }

  function SetPermissions(g: Garage, c: Request): Step {
    var denied := AfterDeny(g, c);
    if denied.error.Some? || c.target == NOTHING then denied
    else AllowBucketKey(denied.g, c.pair, c.target, c.allow)
  }

  /** Every state an observer can see during a sequence of calls, in order. */
  function Trace(g: Garage, calls: seq<Request>): seq<Garage>
    decreases |calls|
  {
    if calls == [] then [g]
    else [g, AfterDeny(g, calls[0]).g] + Trace(SetPermissions(g, calls[0]).g, calls[1..])
  }

  function Final(g: Garage, calls: seq<Request>): Garage
    decreases |calls|
  {
    if calls == [] then g else Final(SetPermissions(g, calls[0]).g, calls[1..])
  }

  /**
   However the two requests end: once the Deny has landed nothing outside the target is granted,
   what both the old state and the target grant is never interrupted, nothing else is ever
   granted, other pairs keep their rows, and success means exactly the target.
   */
  lemma CallMeaning(g: Garage, c: Request)
    ensures var before := PermissionsOf(g, c.pair);
            var mid := AfterDeny(g, c).g;
            var s := SetPermissions(g, c);
            var after := PermissionsOf(s.g, c.pair);
            && (!c.deny.Refused? && Exists(g, c.pair) ==> Within(PermissionsOf(mid, c.pair), c.target) && Within(after, c.target))
            && Within(Both(before, c.target), PermissionsOf(mid, c.pair)) && Within(Both(before, c.target), after)
            && Within(PermissionsOf(mid, c.pair), before)
            && (forall p | p != c.pair :: PermissionsOf(mid, p) == PermissionsOf(g, p) == PermissionsOf(s.g, p))
            && (s.error.None? ==> after == c.target)
            && (s.error.None? <==> Exists(g, c.pair) && c.deny.Delivered? && (c.target == NOTHING || c.allow.Delivered?))
            && s.g.keys == mid.keys == g.keys && s.g.buckets == mid.buckets == g.buckets
            && (Consistent(g) ==> Consistent(mid) && Consistent(s.g))
  {
  }

  /** Over any sequence of calls, what the old state and every target on a pair grant is never interrupted. */
  lemma {:induction false} NeverInterrupted(g: Garage, calls: seq<Request>, p: Pair, kept: Permissions)
    requires Within(kept, PermissionsOf(g, p))
    requires forall c | c in calls && c.pair == p :: Within(kept, c.target)
    ensures forall s | s in Trace(g, calls) :: Within(kept, PermissionsOf(s, p))
    ensures Within(kept, PermissionsOf(Final(g, calls), p))
    decreases |calls|
  {
    if calls != [] {
      var c := calls[0];
      CallMeaning(g, c);
      assert c in calls;
      assert forall d | d in calls[1..] :: d in calls;
      NeverInterrupted(SetPermissions(g, c).g, calls[1..], p, kept);
    }
  }

  /**
   Once the Deny of a call has landed, its pair stays within the target for as long as later calls on
   that pair ask for no more, whatever fails in them.
   */
  lemma {:induction false} StaysWithin(g: Garage, c: Request, later: seq<Request>)
    requires Exists(g, c.pair) && !c.deny.Refused?
    requires forall d | d in later && d.pair == c.pair :: Within(d.target, c.target)
    ensures forall s | s in Trace(g, [c] + later)[1..] :: Within(PermissionsOf(s, c.pair), c.target)
    ensures Within(PermissionsOf(Final(g, [c] + later), c.pair), c.target)
  {
    CallMeaning(g, c);
    WithinBound(SetPermissions(g, c).g, later, c.pair, c.target);
    assert ([c] + later)[1..] == later;
    var mid := AfterDeny(g, c).g;
    var rest := Trace(SetPermissions(g, c).g, later);
    assert Trace(g, [c] + later) == [g, mid] + rest;
    assert Trace(g, [c] + later)[1..] == [mid] + rest;
  }

  lemma {:induction false} WithinBound(g: Garage, calls: seq<Request>, p: Pair, bound: Permissions)
    requires Within(PermissionsOf(g, p), bound)
    requires forall c | c in calls && c.pair == p :: Within(c.target, bound)
    ensures forall s | s in Trace(g, calls) :: Within(PermissionsOf(s, p), bound)
    ensures Within(PermissionsOf(Final(g, calls), p), bound)
    decreases |calls|
  {
    if calls != [] {
      var c := calls[0];
      CallMeaning(g, c);
      assert c in calls;
      if c.pair == p {
        AllowedWithin(g, c, bound);
      }
      assert forall d | d in calls[1..] :: d in calls;
      WithinBound(SetPermissions(g, c).g, calls[1..], p, bound);
    }
  }

  lemma AllowedWithin(g: Garage, c: Request, bound: Permissions)
    requires Within(PermissionsOf(g, c.pair), bound) && Within(c.target, bound)
    ensures Within(PermissionsOf(SetPermissions(g, c).g, c.pair), bound)
  {
  }

  /** Pairs that no call names are untouched, in every state of the sequence. */
  lemma {:induction false} OtherPairsUntouched(g: Garage, calls: seq<Request>, p: Pair)
    requires forall c | c in calls :: c.pair != p
    ensures forall s | s in Trace(g, calls) :: PermissionsOf(s, p) == PermissionsOf(g, p)
    ensures PermissionsOf(Final(g, calls), p) == PermissionsOf(g, p)
    decreases |calls|
  {
    if calls != [] {
      CallMeaning(g, calls[0]);
      assert calls[0] in calls;
      assert forall d | d in calls[1..] :: d in calls;
      OtherPairsUntouched(SetPermissions(g, calls[0]).g, calls[1..], p);
    }
  }

  // ---------------------------------------------------------------- reading permissions

  /** One entry of the bucket list in a key's description. */
  datatype KeyBucket = KeyBucket(id: Id, permissions: Permissions)

  /** A description that lists each bucket on which the key has a row, once, in any order. */
  predicate Describes(buckets: seq<KeyBucket>, g: Garage, key: Id) {
    && (forall i, j | 0 <= i < j < |buckets| :: buckets[i].id != buckets[j].id)
    && (forall e | e in buckets :: Pair(key, e.id) in g.rows && g.rows[Pair(key, e.id)] == e.permissions)
    && (forall p | p in g.rows && p.key == key :: KeyBucket(p.bucket, g.rows[p]) in buckets)
  }

  /** The entries for these buckets, in order. */
  function Entries(g: Garage, key: Id, buckets: seq<Id>): (r: seq<KeyBucket>)
    ensures |r| == |buckets|
    ensures forall i | 0 <= i < |r| :: r[i] == KeyBucket(buckets[i], PermissionsOf(g, Pair(key, buckets[i])))
  {
    if buckets == [] then [] else [KeyBucket(buckets[0], PermissionsOf(g, Pair(key, buckets[0])))] + Entries(g, key, buckets[1..])
  }

  /** The bucket list in the description that Garage gives of a key. */
  function Description(g: Garage, key: Id): seq<KeyBucket> {
    Entries(g, key, Listing(set p | p in g.rows && p.key == key :: p.bucket))
  }

  /** It lists each bucket on which the key has a row, once. */
  lemma DescriptionDescribes(g: Garage, key: Id)
    ensures Describes(Description(g, key), g, key)
  {
    hide Listing;
    var listed := set p | p in g.rows && p.key == key :: p.bucket;
    var buckets := Listing(listed);
    var r := Description(g, key);
    forall e | e in r ensures Pair(key, e.id) in g.rows && g.rows[Pair(key, e.id)] == e.permissions {
      var i :| 0 <= i < |r| && r[i] == e;
      assert buckets[i] in listed;
      var p :| p in g.rows && p.key == key && p.bucket == buckets[i];
      assert p == Pair(key, e.id);
    }
    forall p | p in g.rows && p.key == key ensures KeyBucket(p.bucket, g.rows[p]) in r {
      assert p.bucket in listed;
      var i :| 0 <= i < |buckets| && buckets[i] == p.bucket;
      assert p == Pair(key, buckets[i]);
      assert r[i] == KeyBucket(p.bucket, g.rows[p]);
    }
  }

  /** What GetPermissions answers: an unknown key is an error, a bucket without a row means no permissions. */
  function Answered(g: Garage, p: Pair, reply: Reply): Result<Permissions> {
    if !reply.Delivered? then Err(FaultOf(reply))
    else if p.key in g.keys then Ok(PermissionsOf(g, p))
    else Err(NotFound)
  }

  /** The loop of GetPermissions over the buckets in the key's description. */
  method GetPermissions(buckets: seq<KeyBucket>, bucketID: Id) returns (result: Permissions)
    ensures forall g, key | Describes(buckets, g, key) :: result == PermissionsOf(g, Pair(key, bucketID))
  {
    for i := 0 to |buckets|
      invariant forall j | 0 <= j < i :: buckets[j].id != bucketID
    {
      if buckets[i].id == bucketID {
        assert buckets[i] in buckets;
        return buckets[i].permissions;
      }
    }
    assert forall e | e in buckets :: e.id != bucketID;
    return NOTHING;
  }

  // ---------------------------------------------------------------- the client

  /** The admin API as the client sees it; replies says how the coming requests end. */
  class PermissionClient {
    var garage: Garage
    var replies: seq<Reply>

    constructor (garage: Garage, replies: seq<Reply>)
      ensures this.garage == garage && this.replies == replies
    {
      this.garage := garage;
      this.replies := replies;
    }

    method DenyRequest(pair: Pair, flags: Permissions) returns (error: Option<Error>)
      requires |replies| > 0
      modifies this
      ensures Step(garage, error) == DenyBucketKey(old(garage), pair, flags, old(replies)[0])
      ensures replies == old(replies)[1..]
    {
      var s := DenyBucketKey(garage, pair, flags, replies[0]);
      garage, error, replies := s.g, s.error, replies[1..];
    }

    method AllowRequest(pair: Pair, flags: Permissions) returns (error: Option<Error>)
      requires |replies| > 0
      modifies this
      ensures Step(garage, error) == AllowBucketKey(old(garage), pair, flags, old(replies)[0])
      ensures replies == old(replies)[1..]
    {
      var s := AllowBucketKey(garage, pair, flags, replies[0]);
      garage, error, replies := s.g, s.error, replies[1..];
    }

    method Set(keyID: Id, bucketID: Id, permissions: Permissions) returns (error: Option<Error>)
      requires |replies| >= 2
      modifies this
      ensures Step(garage, error)
              == SetPermissions(old(garage), Request(Pair(keyID, bucketID), permissions, old(replies)[0], old(replies)[1]))
    {
      var denyPermissions := Permissions(!permissions.owner, !permissions.read, !permissions.write);
      error := DenyRequest(Pair(keyID, bucketID), denyPermissions);
      if error.Some? {
        return;
      }
      if !permissions.owner && !permissions.read && !permissions.write {
        return None;
      }
      error := AllowRequest(Pair(keyID, bucketID), permissions);
    }

    /** GetKeyInfo: the description of a key. */
    method InfoRequest(keyID: Id) returns (r: Result<seq<KeyBucket>>)
      requires |replies| > 0
      modifies this`replies
      ensures replies == old(replies)[1..]
      ensures r == (if !old(replies)[0].Delivered? then Err(FaultOf(old(replies)[0]))
                    else if keyID in garage.keys then Ok(Description(garage, keyID)) else Err(NotFound))
    {
      r := if !replies[0].Delivered? then Err(FaultOf(replies[0]))
      else if keyID in garage.keys then Ok(Description(garage, keyID)) else Err(NotFound);
      replies := replies[1..];
    }

    /** GetPermissions: fetch the key's description, and search it for the bucket. */
    method Get(keyID: Id, bucketID: Id) returns (r: Result<Permissions>)
      requires |replies| > 0
      modifies this`replies
      ensures replies == old(replies)[1..]
      ensures r == Answered(garage, Pair(keyID, bucketID), old(replies)[0])
    {
      var info := InfoRequest(keyID);
      if info.Err? {
        return Err(info.error);
      }
      DescriptionDescribes(garage, keyID);
      var permissions := GetPermissions(info.value, bucketID);
      return Ok(permissions);
    }
  }
}
