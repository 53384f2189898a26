/**
 * kinematics/rotations.py rot6d_to_rot: six numbers to a rotation by Gram-Schmidt, inverse to
 * fr3_kinematics.py _rot6d, which keeps a rotation's first two columns.
 */
module Rot6d {
  import opened Numeric
  import opened Linear
  import opened AxisAngle

  const FLOOR := 0.000000001

  function Normalized(t: Trig, v: Vec): Vec
    requires Laws(t)
  {
    Divide(v, Max(Length(t, v), FLOOR))
  }

  /** The part of a2 orthogonal to b1. */
  function Orthogonal(b1: Vec, a2: Vec): Vec { Sub(a2, Scale(Dot(b1, a2), b1)) }

  function Rot6dToRot(t: Trig, a1: Vec, a2: Vec): Mat
    requires Laws(t)
  {
    var b1 := Normalized(t, a1);
    var b2 := Normalized(t, Orthogonal(b1, a2));
    Mat(b1, b2, Cross(b1, b2))
  }

  /** Normalisation yields a unit vector exactly when the length is not below the floor. */
  lemma NormalizedIsUnit(t: Trig, v: Vec)
    requires Laws(t)
    ensures Unit(Normalized(t, v)) <==> Length(t, v) >= FLOOR
    ensures Length(t, v) >= FLOOR ==> Scale(Length(t, v), Normalized(t, v)) == v
  {
    hide Laws, Dot, Divide, Scale;
    var len := Length(t, v);
    if len >= FLOOR {
      AxisIsUnit(v, len);
    } else {
      DivideScales(v, FLOOR);
      StrictlyShorter(len, FLOOR);
    }
  }

  lemma StrictlyShorter(x: real, y: real)
    requires 0.0 <= x < y
    ensures x * x < y * y
  {
    ProductPositive(y - x, y + x, y * y - x * x);
  }

  lemma OrthogonalDot(b1: Vec, a2: Vec)
    requires Unit(b1)
    ensures Dot(b1, Orthogonal(b1, a2)) == 0.0
  {
    DotAdd(b1, a2, Scale(Dot(b1, a2), b1));
    DotScale(Dot(b1, a2), b1, b1);
    DotCommutes(b1, Scale(Dot(b1, a2), b1));
    hide Dot, Scale, Sub;
  }

  lemma ScaledOrthogonal(d: real, u: Vec, v: Vec)
    requires d > 0.0 && Dot(u, Scale(d, v)) == 0.0
    ensures Dot(u, v) == 0.0
  {
    DotScale(d, v, u);
    DotCommutes(u, v);
    DotCommutes(u, Scale(d, v));
    CancelEq(Dot(v, u), 0.0, d);
  }

  /** The result is a proper rotation exactly when both Gram-Schmidt steps divide by a true length. */
  lemma Rot6dIsRotationIff(t: Trig, a1: Vec, a2: Vec)
    requires Laws(t)
    ensures Rotation(Rot6dToRot(t, a1, a2)) <==>
      Length(t, a1) >= 0.000000001 && Length(t, Orthogonal(Normalized(t, a1), a2)) >= 0.000000001
  {
    hide Laws, Dot, Cross, Normalized, Scale, Orthogonal;
    var b1 := Normalized(t, a1);
    var o := Orthogonal(b1, a2);
    var b2 := Normalized(t, o);
    NormalizedIsUnit(t, a1);
    NormalizedIsUnit(t, o);
    if Length(t, a1) >= FLOOR && Length(t, o) >= FLOOR {
      OrthogonalDot(b1, a2);
      ScaledOrthogonal(Length(t, o), b1, b2);
      RightHanded(b1, b2);
    }
  }

  /** _rot6d followed by rot6d_to_rot is the identity on rotations. */
  lemma Rot6dRoundTrip(t: Trig, r: Mat)
    requires Laws(t) && Rotation(r)
    ensures Rot6dToRot(t, r.c1, r.c2) == r
  {
    hide Laws, Dot, Cross, Divide;
    RotationColumns(r);
    UnitNormalized(t, r.c1);
    OrthogonalAlready(r.c1, r.c2);
    UnitNormalized(t, r.c2);
  }

  lemma UnitNormalized(t: Trig, v: Vec)
    requires Laws(t) && Unit(v)
    ensures Normalized(t, v) == v
  {
    hide Laws, Dot;
    RootUnique(Length(t, v), 1.0);
  }

  lemma OrthogonalAlready(u: Vec, v: Vec)
    requires Dot(u, v) == 0.0
    ensures Orthogonal(u, v) == v
  {
    hide Dot;
  }

  /** Parallel or vanishing inputs, which a policy may return, do not give a rotation. */
  lemma ParallelIsNotRotation(t: Trig, a1: Vec, k: real)
    requires Laws(t)
    ensures !Rotation(Rot6dToRot(t, a1, Scale(k, a1)))
  {
    hide Laws, Rotation, Rot6dToRot, Dot, Scale, Divide;
    Rot6dIsRotationIff(t, a1, Scale(k, a1));
    NormalizedIsUnit(t, a1);
    var b1, len := Normalized(t, a1), Length(t, a1);
    if len >= FLOOR {
      var o := Orthogonal(b1, Scale(k, a1));
      ScaleTwice(k, len, b1);
      DotScale(k * len, b1, b1);
      DotCommutes(b1, Scale(k * len, b1));
      SubSelf(Scale(k * len, b1));
      DotZero();
      SquareZero(Length(t, o));
    }
  }

  lemma ScaleTwice(k: real, l: real, v: Vec)
    ensures Scale(k, Scale(l, v)) == Scale(k * l, v)
  {
  }
}
