/** Magnitudes and squares of real numbers. */
module Reals {

  function Abs(x: real): real {
    if x < 0.0 then -x else x
  }

  function Square(x: real): real {
    x * x
  }

  function MaxAbs(g: seq<real>): (m: real)
    ensures m >= 0.0 && forall i :: 0 <= i < |g| ==> Abs(g[i]) <= m
    ensures m == 0.0 || exists i :: 0 <= i < |g| && Abs(g[i]) == m
  {
    if g == [] then 0.0
    else
      var before, last := MaxAbs(g[..|g| - 1]), Abs(g[|g| - 1]);
      if before < last then last else before
  }
}
