/**
 * The random source of the generator.  The seeded std::mt19937_64 is
 * abstracted to the sequence of canonical draws (each in [0,1)) it produces
 * for one seed; every distribution call consumes exactly one draw.
 */
module Random {
  /** A sequence of canonical draws with a cursor on the next one to be consumed. */
  class Stream {
    const draws: seq<real>
    var cursor: nat

    constructor (draws: seq<real>)
      ensures this.draws == draws && cursor == 0
    {
      this.draws := draws;
      cursor := 0;
    }

    /** Consumes the next draw. */
    method Next() returns (u: real)
      requires cursor < |draws|
      modifies this`cursor
      ensures u == draws[old(cursor)] && cursor == old(cursor) + 1
    {
      u := draws[cursor];
      cursor := cursor + 1;
    }
  }

  /** Every draw in positions [from, to) of `s` lies in [0,1). */
  ghost predicate UnitDraws(s: seq<real>, from: nat, to: nat)
    requires from <= to <= |s|
  {
    forall i :: from <= i < to ==> 0.0 <= s[i] < 1.0
  }

  /** The product w * u, kept behind a function so that it stays one term for the solver. */
  function Scale(w: real, u: real): real
  {
    w * u
  }

  /** A positive width scaled by a canonical draw stays inside [0, width). */
  lemma ScaleBelow(w: real, u: real)
    requires w > 0.0 && 0.0 <= u < 1.0
    ensures 0.0 <= Scale(w, u) < w
  {
    assert w * (1.0 - u) > 0.0;
    assert w * (1.0 - u) == w - w * u;
  }

  /**
   * std::uniform_real_distribution(lo, hi) applied to the canonical draw `u`:
   * the affine image lo + (hi - lo) * u, which lies in [lo, hi) and is lo on
   * the least draw.
   */
  function Uniform(lo: real, hi: real, u: real): (r: real)
    requires lo < hi
    ensures 0.0 <= u < 1.0 ==> lo <= r < hi
    ensures u == 0.0 ==> r == lo
  {
    if 0.0 <= u < 1.0 then ScaleBelow(hi - lo, u); lo + Scale(hi - lo, u)
    else lo + Scale(hi - lo, u)
  }
}
