/**
 internal/controller/conditions.go: a list of conditions used as a map from condition type to
 condition, with Ready as the aggregate of the others.
 */
module Conditions {
  import opened Common

  datatype CondStatus = True | False | Unknown

  datatype CondType =
    | Ready
    | AccessKeyReady | KeySecretReady
    | BucketReady | BucketConfigMapReady
    | PolicyAccessKeyReady | PolicyBucketReady | PolicyReady
    | Foreign(name: Id)

  /** Met stands for the one positive reason each condition type has. */
  datatype Reason =
    | Pending | Available | Met
    | WaitingForResources | WaitingForBucket | DependenciesNotReady
    | AccessKeyUnknown | SecretNameConflict | SecretAccessForbidden | SecretSetupFailed | SecretCleanupFailed
    | CreateFailed | UnknownState | UpdateFailed | BucketNotFound
    | OwnerKeySecretNotFound | OwnershipVerificationFailed
    | ConfigMapNameConflict | ConfigMapAccessForbidden | ConfigMapCreateError
    | BucketMissing | AccessKeyMissing | PolicyAssignmentFailed
    | ForeignReason(name: Id)

  datatype Condition = Condition(kind: CondType, status: CondStatus, reason: Reason, observedGeneration: int)

  /** The position of the first condition of type t, or |cs|. */
  function IndexOf(cs: seq<Condition>, t: CondType): (i: nat)
    ensures i <= |cs|
    ensures i < |cs| ==> cs[i].kind == t
    ensures forall j | 0 <= j < i :: cs[j].kind != t
  {
    if cs == [] || cs[0].kind == t then 0 else 1 + IndexOf(cs[1..], t)
  }

  /** meta.FindStatusCondition. */
  function Find(cs: seq<Condition>, t: CondType): (r: Option<Condition>)
    ensures r.Some? ==> r.value in cs && r.value.kind == t
    ensures r.None? <==> forall c | c in cs :: c.kind != t
  {
    var i := IndexOf(cs, t);
    if i < |cs| then Some(cs[i]) else None
  }

  predicate Holds(cs: seq<Condition>, t: CondType, status: CondStatus) {
    Find(cs, t).Some? && Find(cs, t).value.status == status
  }

  /** meta.SetStatusCondition: overwrite the entry of that type in place, or append one. */
  function SetCondition(cs: seq<Condition>, c: Condition): (r: seq<Condition>)
    ensures forall t :: Find(r, t) == if t == c.kind then Some(c) else Find(cs, t)
    ensures Find(cs, c.kind) == Some(c) ==> r == cs
    ensures |cs| <= |r| <= |cs| + 1
    ensures forall j | 0 <= j < |cs| && cs[j].kind != c.kind :: r[j] == cs[j]
  {
    var i := IndexOf(cs, c.kind);
    var r := if i < |cs| then cs[i := c] else cs + [c];
    assert forall t :: Find(r, t) == if t == c.kind then Some(c) else Find(cs, t) by {
      forall t ensures Find(r, t) == if t == c.kind then Some(c) else Find(cs, t) {
        SetThenFind(cs, c, t);
      }
    }
    r
  }

  /** Positions of the other types do not move. */
  lemma FirstOccurrence(cs: seq<Condition>, t: CondType, i: nat)
    requires i <= |cs|
    requires i < |cs| ==> cs[i].kind == t
    requires forall j | 0 <= j < i :: cs[j].kind != t
    ensures IndexOf(cs, t) == i
  {
    var k := IndexOf(cs, t);
  }

  lemma SetThenFind(cs: seq<Condition>, c: Condition, t: CondType)
    ensures var i := IndexOf(cs, c.kind);
            var r := if i < |cs| then cs[i := c] else cs + [c];
            Find(r, t) == if t == c.kind then Some(c) else Find(cs, t)
  {
    var i := IndexOf(cs, c.kind);
    var r := if i < |cs| then cs[i := c] else cs + [c];
    var k := IndexOf(cs, t);
    assert forall j | 0 <= j < |cs| && j != i :: r[j] == cs[j];
    FirstOccurrence(r, t, if t == c.kind then i else if k < |cs| then k else |r|);
  }

  predicate UniqueTypes(cs: seq<Condition>) {
    forall i, j | 0 <= i < j < |cs| :: cs[i].kind != cs[j].kind
  }

  /** The list after initResourceConditions: an Unknown entry for each missing type. */
  function InitAll(cs: seq<Condition>, types: seq<CondType>): (r: seq<Condition>)
    ensures forall t :: Find(r, t) ==
                        if Find(cs, t).Some? then Find(cs, t)
                        else if t in types then Some(Condition(t, Unknown, Pending, 0))
                        else None
    ensures cs <= r
    decreases |types|
  {
    if types == [] then cs
    else
      var first := types[0];
      var cs' := if Find(cs, first).None? then SetCondition(cs, Condition(first, Unknown, Pending, 0)) else cs;
      InitAll(cs', types[1..])
  }

  /** The reason of the first False condition in priority order. */
  function FirstFailure(cs: seq<Condition>, order: seq<CondType>, waiting: Reason): Reason {
    if order == [] then waiting
    else if Holds(cs, order[0], False) then Find(cs, order[0]).value.reason
    else FirstFailure(cs, order[1..], waiting)
  }

  /** The Ready condition that the sub-conditions in order amount to. */
  function Verdict(cs: seq<Condition>, order: seq<CondType>, waiting: Reason, generation: int): Condition {
    if forall t | t in order :: Holds(cs, t, True)
    then Condition(Ready, True, Available, generation)
    else Condition(Ready, False, FirstFailure(cs, order, waiting), generation)
  }

  predicate IsFirstFailure(cs: seq<Condition>, order: seq<CondType>, k: nat) {
    && k < |order| && Holds(cs, order[k], False)
    && forall j | 0 <= j < k :: !Holds(cs, order[j], False)
  }

  /** The reason reported is that of the first False condition, wherever it stands in the order. */
  lemma {:induction false} FirstFailureIsFirst(cs: seq<Condition>, order: seq<CondType>, waiting: Reason, k: nat)
    requires IsFirstFailure(cs, order, k)
    ensures FirstFailure(cs, order, waiting) == Find(cs, order[k]).value.reason
    decreases |order|
  {
    hide Find;
    if k > 0 {
      assert forall j | 0 <= j < k - 1 :: order[1..][j] == order[j + 1];
      FirstFailureIsFirst(cs, order[1..], waiting, k - 1);
    }
  }

  lemma FirstOfTwo(cs: seq<Condition>, a: CondType, b: CondType, waiting: Reason)
    ensures FirstFailure(cs, [a, b], waiting) ==
            if Holds(cs, a, False) then Find(cs, a).value.reason
            else if Holds(cs, b, False) then Find(cs, b).value.reason
            else waiting
  {
    hide Find;
    assert [a, b][1..] == [b];
    assert [b][1..] == [];
    assert FirstFailure(cs, [b], waiting) == if Holds(cs, b, False) then Find(cs, b).value.reason else waiting;
  }

  lemma VerdictOfTwo(cs: seq<Condition>, a: CondType, b: CondType, waiting: Reason, generation: int)
    requires Find(cs, a).Some? && Find(cs, b).Some?
    ensures Verdict(cs, [a, b], waiting, generation) ==
            var first, second := Find(cs, a).value, Find(cs, b).value;
            if first.status == True && second.status == True then Condition(Ready, True, Available, generation)
            else if first.status == False then Condition(Ready, False, first.reason, generation)
            else if second.status == False then Condition(Ready, False, second.reason, generation)
            else Condition(Ready, False, waiting, generation)
  {
    hide Find;
    FirstOfTwo(cs, a, b, waiting);
    assert a in [a, b] && b in [a, b];
  }

  // ---------------------------------------------------------------- any sequence of operations

  /** One step of a reconciler on a condition list. */
  datatype Op =
    | Init(types: seq<CondType>)
    | Mark(c: Condition)
    | Aggregate(order: seq<CondType>, waiting: Reason, generation: int)

  predicate Touches(op: Op, t: CondType) {
    match op
    case Init(types) => t in types
    case Mark(c) => t == c.kind
    case Aggregate(_, _, _) => t == Ready
  }

  function Apply(cs: seq<Condition>, op: Op): seq<Condition> {
    match op
    case Init(types) => InitAll(cs, types)
    case Mark(c) => SetCondition(cs, c)
    case Aggregate(order, waiting, generation) => SetCondition(cs, Verdict(cs, order, waiting, generation))
  }

  function ApplyAll(cs: seq<Condition>, ops: seq<Op>): seq<Condition>
    decreases |ops|
  {
    if ops == [] then cs else ApplyAll(Apply(cs, ops[0]), ops[1..])
  }

  lemma SetKeepsUnique(cs: seq<Condition>, c: Condition)
    requires UniqueTypes(cs)
    ensures UniqueTypes(SetCondition(cs, c))
  {
    var i := IndexOf(cs, c.kind);
    assert SetCondition(cs, c) == if i < |cs| then cs[i := c] else cs + [c];
  }

  lemma {:induction false} InitKeepsUnique(cs: seq<Condition>, types: seq<CondType>)
    requires UniqueTypes(cs)
    ensures UniqueTypes(InitAll(cs, types))
    decreases |types|
  {
    if types != [] {
      var c := Condition(types[0], Unknown, Pending, 0);
      SetKeepsUnique(cs, c);
      InitKeepsUnique(if Find(cs, types[0]).None? then SetCondition(cs, c) else cs, types[1..]);
    }
  }

  /**
   Whatever a reconciler does, the list stays a map: one entry per type, and a type that no step
   touches keeps its entry, value and position.
   */
  lemma {:induction false} ListStaysMap(cs: seq<Condition>, ops: seq<Op>)
    requires UniqueTypes(cs)
    ensures UniqueTypes(ApplyAll(cs, ops))
    ensures |cs| <= |ApplyAll(cs, ops)|
    ensures forall j | 0 <= j < |cs| && (forall op | op in ops :: !Touches(op, cs[j].kind))
              :: ApplyAll(cs, ops)[j] == cs[j]
    decreases |ops|
  {
    if ops != [] {
      var op := ops[0];
      var next := Apply(cs, op);
      match op {
        case Init(types) => InitKeepsUnique(cs, types);
        case Mark(c) => SetKeepsUnique(cs, c);
        case Aggregate(order, waiting, generation) => SetKeepsUnique(cs, Verdict(cs, order, waiting, generation));
      }
      ListStaysMap(next, ops[1..]);
      forall j | 0 <= j < |cs| && (forall o | o in ops :: !Touches(o, cs[j].kind))
        ensures ApplyAll(cs, ops)[j] == cs[j]
      {
        assert !Touches(op, cs[j].kind);
        assert next[j] == cs[j];
        assert forall o | o in ops[1..] :: o in ops;
      }
    }
  }

  /** Initialising a second time, or after any later step, changes nothing; every type can be looked up. */
  lemma InitOnce(cs: seq<Condition>, types: seq<CondType>, ops: seq<Op>)
    ensures InitAll(ApplyAll(InitAll(cs, types), ops), types) == ApplyAll(InitAll(cs, types), ops)
    ensures forall t | t in types :: Find(ApplyAll(InitAll(cs, types), ops), t).Some?
  {
    EntriesPersist(InitAll(cs, types), ops);
    InitOfInitialised(ApplyAll(InitAll(cs, types), ops), types);
  }

  lemma {:induction false} EntriesPersist(cs: seq<Condition>, ops: seq<Op>)
    ensures forall t | Find(cs, t).Some? :: Find(ApplyAll(cs, ops), t).Some?
    decreases |ops|
  {
    if ops != [] {
      EntriesPersist(Apply(cs, ops[0]), ops[1..]);
    }
  }

  lemma {:induction false} InitOfInitialised(cs: seq<Condition>, types: seq<CondType>)
    requires forall t | t in types :: Find(cs, t).Some?
    ensures InitAll(cs, types) == cs
    decreases |types|
  {
    if types != [] {
      assert types[0] in types;
      assert forall t | t in types[1..] :: t in types;
      InitOfInitialised(cs, types[1..]);
    }
  }

  /**
   After an aggregation Ready is True or False, True exactly when every sub-condition is, and a
   False Ready carries the reason of the first False sub-condition.
   */
  lemma AggregateMeaning(cs: seq<Condition>, order: seq<CondType>, waiting: Reason, generation: int)
    requires Ready !in order
    ensures var r := Apply(cs, Aggregate(order, waiting, generation));
            && Find(r, Ready).Some?
            && Find(r, Ready).value.status != Unknown
            && Find(r, Ready).value.observedGeneration == generation
            && (Holds(r, Ready, True) <==> forall t | t in order :: Holds(r, t, True))
            && (forall k: nat | IsFirstFailure(r, order, k) ::
                  Find(r, Ready).value.reason == Find(r, order[k]).value.reason)
  {
    hide Find;
    var r := Apply(cs, Aggregate(order, waiting, generation));
    assert forall t | t in order :: Find(r, t) == Find(cs, t);
    forall k: nat | IsFirstFailure(r, order, k)
      ensures Find(r, Ready).value.reason == Find(r, order[k]).value.reason
    {
      assert order[k] in order;
      forall j | 0 <= j < k ensures !Holds(cs, order[j], False) {
        assert order[j] in order;
      }
      FirstFailureIsFirst(cs, order, waiting, k);
    }
  }

  // ---------------------------------------------------------------- the loop in conditions.go

  /** initResourceConditions; the slice pointer is passed in and out. */
  method InitResourceConditions(allConditions: seq<CondType>, conditions: seq<Condition>)
    returns (result: seq<Condition>)
    ensures result == InitAll(conditions, allConditions)
  {
    result := conditions;
    for i := 0 to |allConditions|
      invariant InitAll(result, allConditions[i..]) == InitAll(conditions, allConditions)
    {
      assert allConditions[i..][1..] == allConditions[i + 1..];
      if Find(result, allConditions[i]).None? {
        result := SetCondition(result, Condition(allConditions[i], Unknown, Pending, 0));
      }
    }
  }
}
