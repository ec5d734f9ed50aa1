/** Scalar helpers shared by the controller and the overlay animation. */
module Numeric {

  function Abs(x: real): (r: real)
    ensures r >= 0.0
    ensures r == x || r == -x
  {
    if x < 0.0 then -x else x
  }

  /** Clipping as numpy does it: raise to `lo` first, then lower to `hi`. */
  function Clip(a: real, lo: real, hi: real): (r: real)
    ensures lo <= hi ==> lo <= r <= hi
    ensures lo <= a <= hi ==> r == a
    ensures lo <= hi && a < lo ==> r == lo
    ensures lo <= hi && hi < a ==> r == hi
  {
    var raised := if a < lo then lo else a;
    if raised > hi then hi else raised
  }
}
