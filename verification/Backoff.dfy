/** core/utils.go, calculateBackoff: exponential backoff in nanoseconds with 20% jitter. */
module Backoff {
  import opened Floats

  const TWO63 := 0x8000_0000_0000_0000
  const TWO64 := 0x1_0000_0000_0000_0000

  function Power2(n: nat): nat {
    if n == 0 then 1 else 2 * Power2(n - 1)
  }

  /** What a 64-bit signed product or shift leaves of `x`. */
  function Wrap(x: int): (r: int)
    ensures -TWO63 <= r < TWO63
    ensures -TWO63 <= x < TWO63 ==> r == x
    ensures exists k :: r == x + k * TWO64
  {
    var m := x % TWO64;
    var k := if m < TWO63 then -(x / TWO64) else -(x / TWO64) - 1;
    assert x == TWO64 * (x / TWO64) + m;
    assert (if m < TWO63 then m else m - TWO64) == x + k * TWO64;
    if m < TWO63 then m else m - TWO64
  }

  function Min(a: int, b: int): int { if a < b then a else b }

  /** `initial * 2^attempt` as computed, capped at `max`. */
  function Base(initial: int, max: int, attempt: nat): int {
    Min(Wrap(initial * Wrap(Power2(attempt))), max)
  }

  /** `u` is the random number in [0, 1). */
  function Jittered(b: int, u: real): int { Truncate(b as real * (0.8 + 0.4 * u)) }

  function Delay(initial: int, max: int, attempt: nat, u: real): int {
    Min(Jittered(Base(initial, max, attempt), u), max)
  }

  /** Four fifths, rounded down. */
  function FourFifths(b: int): int { (0.8 * b as real).Floor }

  /** The backoff the documentation describes. */
  function Ideal(initial: int, max: int, attempt: nat): int { Min(initial * Power2(attempt), max) }

  /** The computed product is the true one. */
  predicate Fits(initial: int, attempt: nat) { initial * Power2(attempt) < TWO63 }

  lemma {:induction false} Power2Grows(n: nat)
    ensures Power2(n) >= 1
  {
    if n > 0 { Power2Grows(n - 1); }
  }

  /** Multiplying by a positive number does not shrink. */
  lemma ProductBound(a: int, b: int)
    requires a >= 1 && b >= 1
    ensures a * b >= b && a * b >= a
  {
    assert a * b == (a - 1) * b + b;
    assert (a - 1) * b >= 0;
    assert a * b == a * (b - 1) + a;
    assert a * (b - 1) >= 0;
  }

  /**
   The base is exponential up to the cap exactly when the product fits in 64 bits, or happens to wrap
   to something at or above the cap.
   */
  lemma BaseIsIdealIff(initial: int, max: int, attempt: nat)
    requires 1 <= initial && 0 <= max < TWO63
    ensures Base(initial, max, attempt) == Ideal(initial, max, attempt) <==>
            Fits(initial, attempt) || Wrap(initial * Wrap(Power2(attempt))) >= max
  {
    Power2Grows(attempt);
    ProductBound(initial, Power2(attempt));
    if Fits(initial, attempt) {
      assert Wrap(Power2(attempt)) == Power2(attempt);
      assert initial * Wrap(Power2(attempt)) == initial * Power2(attempt);
    }
  }

  /** Every delay is at most the configured maximum, overflow or not. */
  lemma NeverAboveMax(initial: int, max: int, attempt: nat, u: real)
    ensures Delay(initial, max, attempt, u) <= max
  {
  }

  /** While the product fits, the delay lies between four fifths of the ideal backoff and the maximum. */
  lemma DelayBounds(initial: int, max: int, attempt: nat, u: real)
    requires 1 <= initial && 0 <= max < TWO63 && Fits(initial, attempt) && 0.0 <= u < 1.0
    ensures FourFifths(Ideal(initial, max, attempt)) <= Delay(initial, max, attempt, u) <= max
    ensures 0 <= Delay(initial, max, attempt, u)
  {
    hide Base, Ideal, Fits, Jittered, FourFifths, Wrap;
    BaseIsIdealIff(initial, max, attempt);
    IdealRange(initial, max, attempt);
    JitterBounds(Ideal(initial, max, attempt), u);
  }

  lemma IdealRange(initial: int, max: int, attempt: nat)
    requires 1 <= initial && 0 <= max
    ensures 0 <= Ideal(initial, max, attempt) <= max
  {
    Power2Grows(attempt);
    ProductBound(initial, Power2(attempt));
  }

  lemma JitterBounds(b: int, u: real)
    requires b >= 0 && 0.0 <= u < 1.0
    ensures 0 <= FourFifths(b) <= Jittered(b, u) && FourFifths(b) <= b
  {
    var x := b as real;
    assert x * (0.8 + 0.4 * u) == 0.8 * x + x * (0.4 * u);
    assert x * (0.4 * u) >= 0.0;
  }

  /** With the default initial delay of 500 ms, the 36th retry (attempt 35) wraps negative: no wait at all. */
  lemma OverflowExample()
    ensures !Fits(500_000_000, 35) && Wrap(500_000_000 * Wrap(Power2(35))) < 0
    ensures Delay(500_000_000, 5_000_000_000, 35, 0.0) < 0
  {
    assert Power2(5) == 32;
    Doubling(5, 5);
    Doubling(10, 10);
    Doubling(20, 10);
    Doubling(30, 5);
    assert Power2(35) == 34_359_738_368;
    var p := 500_000_000 * 34_359_738_368;
    assert p == 17_179_869_184_000_000_000;
    assert p - TWO64 == -1_266_874_889_709_551_616;
    assert Wrap(p) == p - TWO64 by { WrapOnce(p); }
  }

  lemma WrapOnce(x: int)
    requires TWO63 <= x < TWO64
    ensures Wrap(x) == x - TWO64
  {
  }

  lemma {:induction false} Doubling(a: nat, b: nat)
    ensures Power2(a + b) == Power2(a) * Power2(b)
  {
    if b > 0 { Doubling(a, b - 1); }
  }

  /** The time slept for a sequence of delays; a negative delay returns at once. */
  function TotalWait(delays: seq<int>): int {
    if delays == [] then 0
    else TotalWait(delays[..|delays| - 1]) + if delays[|delays| - 1] > 0 then delays[|delays| - 1] else 0
  }

  lemma {:induction false} TotalWaitBound(delays: seq<int>, max: nat)
    requires forall i :: 0 <= i < |delays| ==> delays[i] <= max
    ensures 0 <= TotalWait(delays) <= |delays| * max
  {
    if delays != [] {
      TotalWaitBound(delays[..|delays| - 1], max);
      assert |delays| * max == (|delays| - 1) * max + max;
    }
  }
}
