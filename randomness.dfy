/**
 * The random numbers both scripts take from the global generator, supplied
 * as an injected stream of uniform draws in [0, 1) consumed in order.
 * `random()` returns the next draw; `randint(lo, hi)` turns the next draw
 * into an integer of the inclusive range [lo, hi] through the generator's
 * `pick` mapping.  The drawing code relies only on `pick` staying inside
 * the range; a fresh generator uses `Pick`, which scales the draw.
 */
module Randomness {

  /** How `randint(lo, hi)` turns one draw into an integer. */
  type Picker = (int, int, real) -> int

  /** `randint(lo, hi)` driven by one uniform draw `u`, by scaling. */
  function Pick(lo: int, hi: int, u: real): (r: int)
    ensures lo <= hi && 0.0 <= u < 1.0 ==> lo <= r <= hi
  {
    var width := (hi - lo + 1) as real;
    assert lo <= hi && 0.0 <= u < 1.0 ==> 0.0 <= u * width < width;
    lo + (u * width).Floor
  }

  /** Every draw lies in [0, 1), as `random()` promises. */
  ghost predicate Uniform(draws: nat -> real) {
    forall i :: 0.0 <= draws(i) < 1.0
  }

  /** `randint(lo, hi)` returns a member of [lo, hi] for every draw in
      [0, 1) whenever the range is not empty. */
  ghost predicate InRange(pick: Picker) {
    forall lo, hi, u :: lo <= hi && 0.0 <= u < 1.0 ==> lo <= pick(lo, hi, u) <= hi
  }

  lemma PickInRange()
    ensures InRange(Pick)
  {
    forall lo, hi, u | lo <= hi && 0.0 <= u < 1.0
      ensures lo <= Pick(lo, hi, u) <= hi
    {
    }
  }

  /** The generator: a fixed stream, the mapping `randint` uses and the
      number of draws taken so far. */
  class Rng {
    const draws: nat -> real
    const pick: Picker
    var used: nat

    ghost predicate Valid() {
      Uniform(draws) && InRange(pick)
    }

    constructor (draws: nat -> real)
      requires Uniform(draws)
      ensures Valid() && this.draws == draws && pick == Pick && used == 0
    {
      this.draws := draws;
      pick := Pick;
      used := 0;
      PickInRange();
    }

    /** `random.random()` */
    method Random() returns (u: real)
      requires Valid()
      modifies this
      ensures u == draws(old(used)) && used == old(used) + 1
      ensures 0.0 <= u < 1.0
    {
      u := draws(used);
      used := used + 1;
    }

    /** `random.randint(lo, hi)`; the library rejects an empty range. */
    method RandInt(lo: int, hi: int) returns (n: int)
      requires Valid() && lo <= hi
      modifies this
      ensures n == pick(lo, hi, draws(old(used))) && used == old(used) + 1
      ensures lo <= n <= hi
    {
      n := pick(lo, hi, draws(used));
      used := used + 1;
    }
  }
}
