/**
 * The pseudo-random generator the shader generator draws from. The
 * generator's own algorithm and the hash that turns the seed into its state
 * are not part of this model: a generator is an abstract stream of raw draws
 * `stream(0), stream(1), ...`, and each of its methods consumes the next raw
 * draw and maps it into the range that method promises.
 */
module Prng {

  /** Maps a raw draw into the closed range `[lo, hi]`. */
  function Scale(raw: nat, lo: int, hi: int): (r: int)
    requires lo <= hi
    ensures lo <= r <= hi
  {
    lo + raw % (hi - lo + 1)
  }

  /** Every value of the range is the image of some raw draw. */
  lemma ScaleReaches(lo: int, hi: int, r: int)
    requires lo <= r <= hi
    ensures Scale(r - lo, lo, hi) == r
  {
  }

  /** Number of distinct values `FloatO` can return: those of a 24-bit mantissa. */
  const Resolution: nat := 0x100_0000

  /** The value in the open unit interval that a raw draw stands for. */
  function Unit(raw: nat): (x: real)
    ensures 0.0 < x < 1.0
  {
    Scale(raw, 1, Resolution - 1) as real / Resolution as real
  }

  class Random {
    /** The raw draws this generator produces, in order. */
    const stream: nat -> nat
    /** How many raw draws have been consumed so far. */
    var drawn: nat

    constructor(stream: nat -> nat)
      ensures this.stream == stream && drawn == 0
    {
      this.stream := stream;
      drawn := 0;
    }

    /** A uniform integer of the closed range `[lo, hi]`. */
    method IntBetween(lo: int, hi: int) returns (r: int)
      requires lo <= hi
      modifies this
      ensures lo <= r <= hi
      ensures r == Scale(stream(old(drawn)), lo, hi)
      ensures drawn == old(drawn) + 1
    {
      r := Scale(stream(drawn), lo, hi);
      drawn := drawn + 1;
    }

    /** A uniform entry of a non-empty catalog. */
    method Element<T>(items: seq<T>) returns (x: T)
      requires |items| > 0
      modifies this
      ensures x in items
      ensures x == items[Scale(stream(old(drawn)), 0, |items| - 1)]
      ensures drawn == old(drawn) + 1
    {
      var k := IntBetween(0, |items| - 1);
      x := items[k];
    }

    /** A value of the open unit interval. */
    method FloatO() returns (x: real)
      modifies this
      ensures 0.0 < x < 1.0
      ensures x == Unit(stream(old(drawn)))
      ensures drawn == old(drawn) + 1
    {
      x := Unit(stream(drawn));
      drawn := drawn + 1;
    }
  }
}
