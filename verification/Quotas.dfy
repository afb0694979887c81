/**
 internal/garage/api_types.go: bucket quotas on the wire, where an absent limit means unlimited.
 */
module Quotas {
  import opened Common

  /** s3.Quotas; the values are those of an int64. */
  datatype Quotas = Quotas(maxObjects: int, maxSize: int)

  /** garage.Quotas; a nil pointer is None. */
  datatype WireQuotas = WireQuotas(maxObjects: Option<int>, maxSize: Option<int>)

  function FromS3(q: Quotas): WireQuotas {
    WireQuotas(if q.maxObjects > 0 then Some(q.maxObjects) else None,
               if q.maxSize > 0 then Some(q.maxSize) else None)
  }

  function ToS3(q: WireQuotas): Quotas {
    Quotas(if q.maxObjects.Some? then q.maxObjects.value else 0,
           if q.maxSize.Some? then q.maxSize.value else 0)
  }

  /** Whether a bucket of the given object count and size respects the limits it was configured with. */
  predicate Admits(q: WireQuotas, objects: nat, size: nat) {
    (q.maxObjects.Some? ==> objects <= q.maxObjects.value) && (q.maxSize.Some? ==> size <= q.maxSize.value)
  }

  /** Quotas survive the wire exactly when neither limit is negative. */
  lemma WireRoundTrip(q: Quotas)
    ensures ToS3(FromS3(q)) == q <==> q.maxObjects >= 0 && q.maxSize >= 0
    ensures ToS3(FromS3(ToS3(FromS3(q)))) == ToS3(FromS3(q))
  {
  }

  /** What the spec promises: a positive limit is respected, any other value means unlimited. */
  predicate Allows(q: Quotas, objects: nat, size: nat) {
    (q.maxObjects > 0 ==> objects <= q.maxObjects) && (q.maxSize > 0 ==> size <= q.maxSize)
  }

  /** A limit that is not positive means unlimited; a positive one is enforced as written. */
  lemma LimitsOnTheWire(q: Quotas, objects: nat, size: nat)
    ensures Admits(FromS3(q), objects, size) <==> Allows(q, objects, size)
  {
  }

  /** Garage's limits are unsigned. */
  predicate Unsigned(q: WireQuotas) {
    (q.maxObjects.Some? ==> q.maxObjects.value >= 0) && (q.maxSize.Some? ==> q.maxSize.value >= 0)
  }

  /** Quotas that were compared and found equal, or that were just sent. */
  predicate Meets(wire: WireQuotas, q: Quotas) {
    ToS3(wire) == q || wire == FromS3(q)
  }

  /**
   Garage then enforces what the spec promises, unless it already had a limit of zero, which the
   comparison cannot tell from no limit.
   */
  lemma MeetsExactly(wire: WireQuotas, q: Quotas)
    requires Meets(wire, q) && Unsigned(wire)
    ensures (forall objects: nat, size: nat :: Admits(wire, objects, size) <==> Allows(q, objects, size))
            <==> wire.maxObjects != Some(0) && wire.maxSize != Some(0)
  {
    assert Admits(wire, 1, 0) <==> (wire.maxObjects.Some? ==> 1 <= wire.maxObjects.value) && (wire.maxSize.Some? ==> 0 <= wire.maxSize.value);
    assert Admits(wire, 0, 1) <==> (wire.maxObjects.Some? ==> 0 <= wire.maxObjects.value) && (wire.maxSize.Some? ==> 1 <= wire.maxSize.value);
    assert Allows(q, 1, 0) <==> (q.maxObjects > 0 ==> 1 <= q.maxObjects);
    assert Allows(q, 0, 1);
  }
}
