/**
 * The random number service. The C library's `rand` is replaced by a linear
 * congruential generator with the same range [0, RAND_MAX]; `RandomFloat` and
 * `RandomInt` scale its draws exactly as the source does.
 */
module Utils {

  const RAND_MAX: nat := 2147483647

  class Random {
    /** The generator's hidden state (libc keeps it in a global). */
    var state: nat

    /** Seeding once, from the wall clock in the source; the time is a parameter here. */
    constructor (seed: nat)
      ensures state == seed % (RAND_MAX + 1)
    {
      state := seed % (RAND_MAX + 1);
    }

    /** One draw of `rand()`. */
    method Rand() returns (r: nat)
      modifies this
      ensures r <= RAND_MAX
    {
      state := (1103515245 * state + 12345) % (RAND_MAX + 1);
      r := state;
    }

    /** `lo + (rand() / RAND_MAX) * (hi - lo)`: a value between the two bounds, both included. */
    method RandomFloat(lo: real, hi: real) returns (r: real)
      modifies this
      ensures lo <= hi ==> lo <= r <= hi
      ensures hi <= lo ==> hi <= r <= lo
    {
      var n := Rand();
      var scale := n as real / RAND_MAX as real;
      var span := hi - lo;
      r := lo + scale * span;
      ScaleBetween(scale, lo, span, r);
    }

    /** `lo + rand() % (hi - lo + 1)`: an integer in [lo, hi]. */
    method RandomInt(lo: int, hi: int) returns (r: int)
      requires lo <= hi
      modifies this
      ensures lo <= r <= hi
    {
      var n := Rand();
      r := lo + n % (hi - lo + 1);
    }
  }

  /** A value `scale` of the way along a span, with 0 <= scale <= 1, lies within the span. */
  lemma ScaleBetween(scale: real, lo: real, span: real, r: real)
    requires 0.0 <= scale <= 1.0
    requires r == lo + scale * span
    ensures 0.0 <= span ==> lo <= r <= lo + span
    ensures span <= 0.0 ==> lo + span <= r <= lo
  {
  }
}
