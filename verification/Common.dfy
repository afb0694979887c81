/**
 Vocabulary shared by the models of the three reconcilers: opaque identifiers, errors, and what can
 happen to one remote call.
 */
module Common {

  /** Names, UIDs, external IDs and credentials are compared and copied, never taken apart. */
  type Id = int

  /** The empty string. */
  const NONE: Id := 0

  datatype NsName = NsName(ns: Id, name: Id)

  datatype Option<+T> = None | Some(value: T)

  datatype Error =
    | NotFound
    | Conflict
    | Forbidden
    | Invalid
    | ServerError
    | Transient
    | MultipleMatches
    | NameConflict
    | DependencyNotReady
    | ExternalFailure

  datatype Result<+T> = Ok(value: T) | Err(error: Error)

  /** Why a call was refused: access denied, an error of the server, or no answer at all. */
  datatype Fault = Denied | Broken | Unreachable

  /**
   How one remote call ends. A delivered call takes effect and is answered; a refused one has no
   effect; a lost one takes effect but its caller sees an error.
   */
  datatype Reply = Delivered | Refused(fault: Fault) | Lost

  function FaultOf(reply: Reply): Error {
    match reply
    case Refused(Denied) => Forbidden
    case Refused(Broken) => ServerError
    case _ => Transient
  }

  /** What a reconcile tells the work queue. */
  datatype Outcome = Done | RequeueAfter(delay: int) | Failed(error: Error)

  predicate Retries(o: Outcome) {
    match o
    case Done => false
    case RequeueAfter(delay) => delay > 0
    case Failed(_) => true
  }

  function OutcomeOf(error: Option<Error>): Outcome {
    if error.None? then Done else Failed(error.value)
  }

  predicate IsLeast(m: Id, s: set<Id>) {
    m in s && forall x | x in s :: m <= x
  }

  lemma Member<T>(s: set<T>) returns (x: T)
    requires s != {}
    ensures x in s
  {
    x :| x in s;
  }

  /** A non-empty set of identifiers has a least element. */
  lemma {:induction false} LeastExists(s: set<Id>)
    requires s != {}
    ensures exists m :: IsLeast(m, s)
  {
    var m := Member(s);
    if s == {m} {
      assert IsLeast(m, s);
    } else {
      var rest := s - {m};
      LeastExists(rest);
      var r :| IsLeast(r, rest);
      assert s == rest + {m};
      assert IsLeast(if m <= r then m else r, s);
    }
  }

  /** The names of a set in the order in which the API server lists them. */
  function Listing(s: set<Id>): (r: seq<Id>)
    ensures forall x :: x in r <==> x in s
    ensures forall i, j | 0 <= i < j < |r| :: r[i] < r[j]
  {
    if s == {} then []
    else
      LeastExists(s);
      var m :| m in s && IsLeast(m, s);
      [m] + Listing(s - {m})
  }
}
