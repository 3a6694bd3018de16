/**
 * The Mulberry32 generator behind `createRNG`: a 32-bit state advanced by a
 * fixed odd increment on every call, then mixed with multiplications, xors
 * and logical shifts, all wrapping at 32 bits.
 */
module Mulberry32 {

  const Increment: bv32 := 0x6D2B79F5
  const TwoTo32: int := 0x1_0000_0000

  /** The mixing of one call, applied to the already advanced state. */
  function Mix(state: bv32): bv32 {
    var t1 := (state ^ (state >> 15)) * (state | 1);
    var t2 := t1 ^ (t1 + (t1 ^ (t1 >> 7)) * (t1 | 61));
    t2 ^ (t2 >> 14)
  }

  /** The value a call returns once the state has advanced to `state`: the mixed word over 2^32. */
  function Output(state: bv32): (r: real)
    ensures 0.0 <= r < 1.0
  {
    (Mix(state) as int) as real / TwoTo32 as real
  }

  /** The state a seed starts from: the JavaScript number reduced to its low 32 bits. */
  function SeedState(seed: nat): bv32 {
    (seed % TwoTo32) as bv32
  }

  /** The state after `k` calls of a generator created with `seed`. */
  function StateAfter(seed: nat, k: nat): bv32 {
    if k == 0 then SeedState(seed) else StateAfter(seed, k - 1) + Increment
  }

  /** The value of the call numbered `k` (from 0) of a generator created with `seed`. */
  function Draw(seed: nat, k: nat): real {
    Output(StateAfter(seed, k + 1))
  }

  /** The first `k` values of the stream. */
  function Draws(seed: nat, k: nat): (xs: seq<real>)
    ensures |xs| == k
  {
    if k == 0 then [] else Draws(seed, k - 1) + [Draw(seed, k - 1)]
  }

  lemma {:induction false} DrawsAt(seed: nat, k: nat, i: nat)
    requires i < k
    ensures Draws(seed, k)[i] == Draw(seed, i)
    ensures 0.0 <= Draws(seed, k)[i] < 1.0
  {
    if i < k - 1 {
      DrawsAt(seed, k - 1, i);
    }
  }

  /** Taking more values only extends the stream: what has been drawn never changes. */
  lemma {:induction false} DrawsPrefix(seed: nat, j: nat, k: nat)
    requires j <= k
    ensures Draws(seed, j) == Draws(seed, k)[..j]
  {
    if j < k {
      DrawsPrefix(seed, j, k - 1);
      var shorter := Draws(seed, k - 1);
      assert (shorter + [Draw(seed, k - 1)])[..j] == shorter[..j];
    }
  }

  /** A generator object: the closure `createRNG` returns, with its captured `seed` as `state`. */
  class Rng {
    var state: bv32
    ghost const seed: nat
    ghost var calls: nat

    ghost predicate Valid()
      reads this
    {
      state == StateAfter(seed, calls)
    }

    constructor (seed: nat)
      ensures Valid() && this.seed == seed && calls == 0
    {
      state := SeedState(seed);
      this.seed := seed;
      calls := 0;
    }

    /** One call of the closure: advance the state, then mix it into a value in [0, 1). */
    method Next() returns (r: real)
      requires Valid()
      modifies this
      ensures Valid() && calls == old(calls) + 1
      ensures state == old(state) + Increment
      ensures r == Draw(seed, old(calls))
      ensures 0.0 <= r < 1.0
    {
      state := state + Increment;
      calls := calls + 1;
      r := Output(state);
    }
  }

  /**
   * Two generators created from the same seed, called alternately, give the
   * same values: neither shares state with the other.
   */
  method SameSeedSameStream(seed: nat, k: nat) returns (xs: seq<real>, ys: seq<real>)
    ensures xs == ys == Draws(seed, k)
  {
    var a := new Rng(seed);
    var b := new Rng(seed);
    xs, ys := [], [];
    var i := 0;
    while i < k
      invariant 0 <= i <= k
      invariant a.Valid() && a.seed == seed && a.calls == i
      invariant b.Valid() && b.seed == seed && b.calls == i
      invariant xs == ys == Draws(seed, i)
    {
      var x := a.Next();
      var y := b.Next();
      xs, ys := xs + [x], ys + [y];
      i := i + 1;
    }
  }
}
