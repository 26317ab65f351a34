/**
 * Every `Math.random()` call of the effect becomes an explicit draw: a real
 * number in [0, 1) passed in by the caller.
 */
module Draws {
  predicate IsDraw(r: real) { 0.0 <= r < 1.0 }

  predicate AllDraws(rs: seq<real>) { forall i :: 0 <= i < |rs| ==> IsDraw(rs[i]) }

  /** A draw scales a non-negative length to at most that length, strictly below it when positive. */
  lemma ScaledBelow(r: real, len: real)
    requires IsDraw(r) && len >= 0.0
    ensures 0.0 <= r * len <= len
    ensures len > 0.0 ==> r * len < len
  {
    if len > 0.0 {
      assert r * len < 1.0 * len;
    }
  }

  /** `r * len - len / 2`: a point across a length `len`, centred on 0. */
  function Centred(r: real, len: real): (v: real)
    requires IsDraw(r) && len >= 0.0
    ensures -len / 2.0 <= v <= len / 2.0
    ensures len > 0.0 ==> v < len / 2.0
  {
    ScaledBelow(r, len);
    r * len - len / 2.0
  }
}
