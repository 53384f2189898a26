/** safety/smoothing.py: exponential smoothing of raw targets. */
module Smoothing {
  import opened Numeric

  function Blend(alpha: real, value: real, raw: real): real {
    alpha * raw + (1.0 - alpha) * value
  }

  /** The smoothed value after a whole sequence of raw targets. */
  function BlendRun(alpha: real, start: real, raws: seq<real>): real {
    if raws == [] then start
    else Blend(alpha, BlendRun(alpha, start, raws[..|raws| - 1]), raws[|raws| - 1])
  }

  lemma BlendInHull(alpha: real, value: real, raw: real, lo: real, hi: real)
    requires 0.0 <= alpha <= 1.0 && lo <= value <= hi && lo <= raw <= hi
    ensures lo <= Blend(alpha, value, raw) <= hi
  {
    MulNonneg(alpha, raw - lo);
    MulNonneg(alpha, hi - raw);
    MulNonneg(1.0 - alpha, value - lo);
    MulNonneg(1.0 - alpha, hi - value);
  }

  /** Smoothing never leaves the range spanned by its start and its inputs. */
  lemma {:induction false} StaysInHull(alpha: real, start: real, raws: seq<real>, lo: real, hi: real)
    requires 0.0 < alpha <= 1.0 && lo <= start <= hi
    requires forall i | 0 <= i < |raws| :: lo <= raws[i] <= hi
    ensures lo <= BlendRun(alpha, start, raws) <= hi
  {
    if raws != [] {
      var init := raws[..|raws| - 1];
      StaysInHull(alpha, start, init, lo, hi);
      BlendInHull(alpha, BlendRun(alpha, start, init), raws[|raws| - 1], lo, hi);
    }
  }

  /** Toward a constant target the error shrinks by exactly 1 - alpha each step. */
  lemma {:induction false} ConstantTargetError(alpha: real, start: real, raws: seq<real>, target: real)
    requires forall i | 0 <= i < |raws| :: raws[i] == target
    ensures BlendRun(alpha, start, raws) - target == Pow(1.0 - alpha, |raws|) * (start - target)
  {
    if raws != [] {
      var init := raws[..|raws| - 1];
      ConstantTargetError(alpha, start, init, target);
      var e, f := BlendRun(alpha, start, init) - target, Pow(1.0 - alpha, |init|);
      assert BlendRun(alpha, start, raws) - target == (1.0 - alpha) * e;
      assert (1.0 - alpha) * (f * (start - target)) == ((1.0 - alpha) * f) * (start - target);
    }
  }

  class EMASmoother {
    const alpha: real
    var value: seq<real>
    var primed: bool

    ghost predicate Valid()
      reads this
    {
      0.0 < alpha <= 1.0
    }

    /** Rejects an alpha outside (0, 1]. */
    static method Make(alpha: real) returns (s: EMASmoother?)
      ensures s == null <==> !(0.0 < alpha <= 1.0)
      ensures s != null ==> fresh(s) && s.Valid() && s.alpha == alpha && !s.primed
    {
      if 0.0 < alpha <= 1.0 {
        s := new EMASmoother(alpha);
      } else {
        s := null;
      }
    }

    constructor (a: real)
      requires 0.0 < a <= 1.0
      ensures Valid() && alpha == a && !primed
    {
      alpha := a;
      value := [];
      primed := false;
    }

    method Reset(q0: seq<real>)
      requires Valid()
      modifies this
      ensures Valid() && primed && value == q0
    {
      value := q0;
      primed := true;
    }

    method Step(raw: seq<real>) returns (smoothed: seq<real>)
      requires Valid() && (primed ==> |raw| == |value|)
      modifies this
      ensures Valid() && primed && smoothed == value && |value| == |raw|
      ensures !old(primed) ==> value == raw
      ensures old(primed) ==> forall i | 0 <= i < |raw| :: value[i] == Blend(alpha, old(value)[i], raw[i])
    {
      if !primed {
        value := raw;
        primed := true;
      } else {
        var a, v := alpha, value;
        value := seq(|raw|, i requires 0 <= i < |raw| && |raw| == |v| => Blend(a, v[i], raw[i]));
      }
      smoothed := value;
    }
  }
}
