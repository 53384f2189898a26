/** Arithmetic shared by the control code: numpy's clip, powers, and order facts about products. */
module Numeric {

  function Min(x: real, y: real): real {
    if x <= y then x else y
  }

  function Max(x: real, y: real): real {
    if x >= y then x else y
  }

  function Abs(x: real): real {
    if x < 0.0 then -x else x
  }

  /** numpy.clip: the lower bound is applied first, the upper bound last. */
  function Clip(x: real, lo: real, hi: real): real {
    Min(Max(x, lo), hi)
  }

  function Pow(b: real, n: nat): real {
    if n == 0 then 1.0 else b * Pow(b, n - 1)
  }

  lemma MulNonneg(x: real, y: real)
    requires x >= 0.0 && y >= 0.0
    ensures x * y >= 0.0
  {
  }

  lemma MulLe(x: real, y: real, k: real)
    requires x <= y && k >= 0.0
    ensures x * k <= y * k && k * x <= k * y
  {
    assert (y - x) * k >= 0.0;
  }

  lemma MulPositive(x: real, y: real)
    requires x > 0.0 && y > 0.0
    ensures x * y > 0.0
  {
  }

  lemma ProductPositive(x: real, y: real, xy: real)
    requires x > 0.0 && y > 0.0 && xy == x * y
    ensures xy > 0.0
  {
    MulPositive(x, y);
  }

  lemma FactorNonneg(k: real, x: real)
    requires k * x >= 0.0 && k > 0.0
    ensures x >= 0.0
  {
  }

  lemma CancelLe(x: real, y: real, k: real)
    requires x * k <= y * k && k > 0.0
    ensures x <= y
  {
  }

  lemma CancelEq(x: real, y: real, k: real)
    requires x * k == y * k && k != 0.0
    ensures x == y
  {
  }

  lemma Beyond(x: real, unit: real) returns (m: nat)
    requires unit > 0.0 && x >= 0.0
    ensures m as real * unit > x
  {
    var y := x / unit;
    assert y * unit == x;
    if y < 0.0 {
      MulPositive(-y, unit);
      assert false;
    }
    m := y.Floor + 1;
    MulPositive(m as real - y, unit);
  }
}
