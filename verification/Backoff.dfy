/**
 internal/controller/backoff.go: the requeue interval for a missing owner Secret, in Go's 64-bit
 arithmetic.
 */
module Backoff {

  const TWO_63: int := 0x8000_0000_0000_0000
  const TWO_64: int := 0x1_0000_0000_0000_0000

  /** A time.Duration, in nanoseconds. */
  type Int64 = x: int | -TWO_63 <= x < TWO_63

  const SECOND: Int64 := 1_000_000_000
  const BASE_REQUEUE_INTERVAL: Int64 := 5 * SECOND
  const MAX_REQUEUE_INTERVAL: Int64 := 900 * SECOND

  /** The value of an integer in two's complement 64-bit signed arithmetic. */
  function Wrap(x: int): Int64 {
    (x + TWO_63) % TWO_64 - TWO_63
  }

  /** The conversion uint(x). */
  function Unsigned(x: Int64): nat {
    if x < 0 then x + TWO_64 else x
  }

  /** Go's division truncates toward zero. */
  function Quotient(a: int, b: int): int
    requires a >= 0 && b != 0
  {
    if b > 0 then a / b else -(a / -b)
  }

  /** x doubled n times: x * 2^n. */
  function Doubled(x: int, n: nat): int {
    if n == 0 then x else 2 * Doubled(x, n - 1)
  }

  /** bits.Len: the number of bits needed to write x. */
  function BitLen(x: nat): nat {
    if x == 0 then 0 else 1 + BitLen(x / 2)
  }

  function ShiftLeft(x: Int64, n: int): Int64 {
    if 0 <= n < 64 then Wrap(Doubled(x, n)) else 0
  }

  function Min(a: int, b: int): int {
    if a < b then a else b
  }

  /** bits.Len(uint(q + 1)) - 1. */
  function Log2OfSuccessor(q: int): int {
    BitLen(Unsigned(Wrap(Wrap(q) + 1))) - 1
  }

  function OwnerSecretBackoff(age: Int64, base: Int64, maxInterval: Int64): Int64
    requires base != 0
  {
    var clamped := if age < 0 then 0 else age;
    Min(ShiftLeft(base, Log2OfSuccessor(Quotient(clamped, base))), maxInterval)
  }

  // ---------------------------------------------------------------- exactness

  /**
   Bracket n holds the ages from (2^n - 1) * base up to (2^(n+1) - 1) * base: those at which the
   intervals base, 2 * base, ..., 2^(n-1) * base have been waited out, but not the next one.
   */
  predicate InBracket(age: int, base: int, n: nat) {
    Doubled(base, n) - base <= age < Doubled(base, n + 1) - base
  }

  lemma {:induction false} DoubledMonotone(x: nat, m: nat, n: nat)
    requires m <= n
    ensures x <= Doubled(x, m) <= Doubled(x, n)
  {
    if m < n {
      DoubledMonotone(x, m, n - 1);
    } else if m > 0 {
      DoubledMonotone(x, m - 1, n - 1);
    }
  }

  lemma {:induction false} DoubledIsProduct(x: nat, n: nat)
    ensures Doubled(x, n) == x * Doubled(1, n)
  {
    if n > 0 {
      DoubledIsProduct(x, n - 1);
      var p := Doubled(1, n - 1);
      assert 2 * (x * p) == x * (2 * p);
    }
  }

  lemma {:induction false} BitLenBounds(x: nat)
    requires x > 0
    ensures BitLen(x) >= 1
    ensures Doubled(1, BitLen(x) - 1) <= x < Doubled(1, BitLen(x))
  {
    if x > 1 {
      BitLenBounds(x / 2);
    }
  }

  lemma MulMonotone(a: nat, b: nat, c: nat)
    requires a <= b
    ensures a * c <= b * c
  {
  }

  lemma QuotientBounds(age: nat, base: nat)
    requires base > 0
    ensures base * (age / base) <= age < base * (age / base + 1)
    ensures age / base <= age
  {
    var q := age / base;
    assert age == base * q + age % base;
    assert base * (q + 1) == base * q + base;
    MulMonotone(1, base, q);
  }

  /** No age lies in two brackets. */
  lemma BracketsDisjoint(age: int, base: nat, m: nat, n: nat)
    requires InBracket(age, base, m) && InBracket(age, base, n)
    ensures m == n
  {
    if m < n {
      DoubledMonotone(base, m + 1, n);
    } else if n < m {
      DoubledMonotone(base, n + 1, m);
    }
  }

  /** The bracket of an age is one less than the bit length of age/base + 1. */
  lemma BracketIsBitLength(age: nat, base: nat) returns (n: nat)
    requires base > 0
    ensures n == BitLen(age / base + 1) - 1
    ensures InBracket(age, base, n)
  {
    var q := age / base + 1;
    BitLenBounds(q);
    n := BitLen(q) - 1;
    var low, high := Doubled(1, n), Doubled(1, n + 1);
    QuotientBounds(age, base);
    MulMonotone(low, q, base);
    MulMonotone(q + 1, high, base);
    DoubledIsProduct(base, n);
    DoubledIsProduct(base, n + 1);
    Distribute(age, base, q, low, high);
  }

  lemma Distribute(age: nat, base: nat, q: nat, low: nat, high: nat)
    requires base * (q - 1) <= age < base * q
    requires low * base <= q * base && (q + 1) * base <= high * base
    ensures base * low - base <= age < base * high - base
  {
    assert base * (q - 1) == base * q - base;
    assert (q + 1) * base == base * q + base;
  }

  /**
   For a positive base the result is min(base * 2^n, max), n being the bracket of the clamped age,
   exactly when base * 2^n fits in 63 bits; otherwise the shift overflows and the result is negative.
   */
  lemma BackoffExact(age: Int64, base: Int64, maxInterval: Int64, n: nat)
    requires 0 < base <= maxInterval
    requires InBracket(if age < 0 then 0 else age, base, n)
    ensures OwnerSecretBackoff(age, base, maxInterval) == Min(Doubled(base, n), maxInterval)
            <==> Doubled(base, n) < TWO_63
    ensures Doubled(base, n) >= TWO_63 ==> OwnerSecretBackoff(age, base, maxInterval) < 0
  {
    var a: int := if age < 0 then 0 else age;
    BackoffShifts(age, base, maxInterval, n);
    BracketBelow64(a, base, n);
    DoubledMonotone(base, 0, n);
    WrapBounds(Doubled(base, n));
  }

  /** The quotient never overflows: only the shift can. */
  lemma BackoffShifts(age: Int64, base: Int64, maxInterval: Int64, n: nat)
    requires 0 < base
    requires InBracket(if age < 0 then 0 else age, base, n)
    ensures OwnerSecretBackoff(age, base, maxInterval) == Min(ShiftLeft(base, n), maxInterval)
  {
    var a: nat := if age < 0 then 0 else age;
    hide Doubled, BitLen, InBracket, Log2OfSuccessor, ShiftLeft;
    var k := BracketIsBitLength(a, base);
    BracketsDisjoint(a, base, k, n);
    QuotientBounds(a, base);
    UnsignedQuotient(a / base);
  }

  lemma BracketBelow64(age: Int64, base: Int64, n: nat)
    requires 0 < base && InBracket(age, base, n)
    ensures n < 64
  {
    DoubledIsProduct(base, 64);
    PowersOfTwo();
    MulMonotone(1, base, TWO_64);
    if n >= 64 {
      DoubledMonotone(base, 64, n);
    }
  }

  lemma WrapBounds(x: int)
    requires 0 <= x < TWO_64
    ensures Wrap(x) == if x < TWO_63 then x else x - TWO_64
  {
  }

  lemma UnsignedBounds(x: int)
    requires 0 <= x < TWO_64
    ensures Unsigned(Wrap(x)) == x
  {
  }

  lemma UnsignedQuotient(q: nat)
    requires q < TWO_63
    ensures Log2OfSuccessor(q) == BitLen(q + 1) - 1
  {
    hide BitLen, Wrap, Unsigned;
    WrapBounds(q);
    WrapBounds(q + 1);
    UnsignedBounds(q + 1);
  }

  lemma PowersOfTwo()
    ensures Doubled(1, 31) == 0x8000_0000
    ensures Doubled(1, 64) == TWO_64
  {
    assert Doubled(1, 8) == 0x100;
    assert Doubled(1, 16) == 0x1_0000;
    assert Doubled(1, 24) == 0x100_0000;
    assert Doubled(1, 31) == 0x8000_0000;
    assert Doubled(1, 40) == 0x100_0000_0000;
    assert Doubled(1, 48) == 0x1_0000_0000_0000;
    assert Doubled(1, 56) == 0x100_0000_0000_0000;
  }

  /** The interval without the limits of 64-bit arithmetic. */
  function Interval(age: nat, base: nat, maxInterval: nat): int
    requires base > 0
  {
    var b := BitLen(age / base + 1);
    if b == 0 then maxInterval else Min(Doubled(base, b - 1), maxInterval)
  }

  lemma IntervalInBracket(age: nat, base: nat, maxInterval: nat, n: nat)
    requires base > 0 && InBracket(age, base, n)
    ensures Interval(age, base, maxInterval) == Min(Doubled(base, n), maxInterval)
  {
    var k := BracketIsBitLength(age, base);
    BracketsDisjoint(age, base, k, n);
  }

  /** No overflow as long as the age plus the base is a duration. */
  lemma NoOverflow(age: Int64, base: Int64, maxInterval: Int64)
    requires 0 < base <= maxInterval
    requires (if age < 0 then 0 else age) + base < TWO_63
    ensures OwnerSecretBackoff(age, base, maxInterval) == Interval(if age < 0 then 0 else age, base, maxInterval)
  {
    hide Doubled, BitLen, OwnerSecretBackoff, Interval;
    var a: nat := if age < 0 then 0 else age;
    var n := BracketIsBitLength(a, base);
    BackoffExact(age, base, maxInterval, n);
    IntervalInBracket(a, base, maxInterval, n);
  }

  /** With the controller's constants, 5 seconds and 15 minutes, every age is safe. */
  lemma ControllerConstantsNeverOverflow(age: Int64)
    ensures OwnerSecretBackoff(age, BASE_REQUEUE_INTERVAL, MAX_REQUEUE_INTERVAL)
            == Interval(if age < 0 then 0 else age, BASE_REQUEUE_INTERVAL, MAX_REQUEUE_INTERVAL)
    ensures BASE_REQUEUE_INTERVAL
            <= OwnerSecretBackoff(age, BASE_REQUEUE_INTERVAL, MAX_REQUEUE_INTERVAL)
            <= MAX_REQUEUE_INTERVAL
  {
    var base := BASE_REQUEUE_INTERVAL;
    var a: nat := if age < 0 then 0 else age;
    var n := BracketIsBitLength(a, base);
    if n >= 31 {
      DoubledMonotone(base, 31, n);
      DoubledIsProduct(base, 31);
      PowersOfTwo();
      assert false;
    }
    DoubledMonotone(base, n, 30);
    DoubledIsProduct(base, 31);
    PowersOfTwo();
    assert 2 * Doubled(base, 30) == Doubled(base, 31);
    BackoffExact(age, base, MAX_REQUEUE_INTERVAL, n);
    IntervalBounds(a, base, MAX_REQUEUE_INTERVAL);
  }

  lemma IntervalBounds(age: nat, base: nat, maxInterval: nat)
    requires 0 < base <= maxInterval
    ensures base <= Interval(age, base, maxInterval) <= maxInterval
  {
    var n := BracketIsBitLength(age, base);
    DoubledMonotone(base, n, n);
  }

  lemma BracketMonotone(age: nat, older: nat, base: nat, m: nat, n: nat)
    requires 0 < base && age <= older && InBracket(age, base, m) && InBracket(older, base, n)
    ensures m <= n && Doubled(base, m) <= Doubled(base, n)
  {
    hide Doubled;
    if n < m {
      DoubledMonotone(base, n + 1, m);
    } else {
      DoubledMonotone(base, m, n);
    }
  }

  /** An older resource never waits less. */
  lemma IntervalMonotone(age: nat, older: nat, base: nat, maxInterval: nat)
    requires 0 < base && age <= older
    ensures Interval(age, base, maxInterval) <= Interval(older, base, maxInterval)
  {
    var m := BracketIsBitLength(age, base);
    var n := BracketIsBitLength(older, base);
    BracketMonotone(age, older, base, m, n);
  }

  // ---------------------------------------------------------------- the schedule of retries

  /** The age of the resource at the k-th retry after one at the given age. */
  function AgeAt(k: nat, age: nat, base: nat, maxInterval: nat): (a: nat)
    requires 0 < base <= maxInterval
  {
    if k == 0 then age
    else
      var before := AgeAt(k - 1, age, base, maxInterval);
      IntervalBounds(before, base, maxInterval);
      before + Interval(before, base, maxInterval)
  }

  /** An uncapped wait ends in the next bracket, and no wait goes past min(2 * age + base, age + max). */
  lemma NextRetry(age: nat, base: nat, maxInterval: nat, n: nat)
    requires 0 < base <= maxInterval && InBracket(age, base, n)
    ensures Doubled(base, n) <= maxInterval ==> InBracket(age + Interval(age, base, maxInterval), base, n + 1)
    ensures age + Interval(age, base, maxInterval) <= Min(2 * age + base, age + maxInterval)
  {
    IntervalInBracket(age, base, maxInterval, n);
    assert Doubled(base, n + 2) == 2 * Doubled(base, n + 1) == 4 * Doubled(base, n);
  }

  /** Each retry is at least one bracket further until the interval reaches its maximum. */
  lemma {:induction false} BracketAt(k: nat, age: nat, base: nat, maxInterval: nat) returns (n: nat)
    requires 0 < base <= maxInterval
    ensures InBracket(AgeAt(k, age, base, maxInterval), base, n)
    ensures n >= k || Doubled(base, n) > maxInterval
  {
    var a := AgeAt(k, age, base, maxInterval);
    n := BracketIsBitLength(a, base);
    if k > 0 {
      var before := AgeAt(k - 1, age, base, maxInterval);
      var m := BracketAt(k - 1, age, base, maxInterval);
      NextRetry(before, base, maxInterval, m);
      IntervalBounds(before, base, maxInterval);
      BracketMonotone(before, a, base, m, n);
      if Doubled(base, m) <= maxInterval {
        BracketsDisjoint(a, base, m + 1, n);
      }
    }
  }

  /**
   At most ceil(log2(max / base)) retries wait less than the maximum: from whatever age the retries
   start, the k-th waits the maximum as soon as base * 2^k reaches it.
   */
  lemma CappedAfterLogRetries(k: nat, age: nat, base: nat, maxInterval: nat)
    requires 0 < base <= maxInterval <= Doubled(base, k)
    ensures Interval(AgeAt(k, age, base, maxInterval), base, maxInterval) == maxInterval
  {
    var n := BracketAt(k, age, base, maxInterval);
    IntervalInBracket(AgeAt(k, age, base, maxInterval), base, maxInterval, n);
    if n >= k {
      DoubledMonotone(base, k, n);
    }
  }

  /** Retries that start when the resource is created hit the bracket boundaries (2^k - 1) * base. */
  lemma {:induction false} ScheduleFromCreation(k: nat, base: nat, maxInterval: nat)
    requires 0 < base <= maxInterval
    requires k > 0 ==> Doubled(base, k - 1) <= maxInterval
    ensures AgeAt(k, 0, base, maxInterval) == Doubled(base, k) - base
  {
    if k > 0 {
      DoubledMonotone(base, if k > 1 then k - 2 else 0, k - 1);
      ScheduleFromCreation(k - 1, base, maxInterval);
      IntervalInBracket(AgeAt(k - 1, 0, base, maxInterval), base, maxInterval, k - 1);
    }
  }
}
