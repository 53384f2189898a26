/**
 * Braking at the acceleration clamp, in units of velocity: u is the slack, al the velocity that the clamp takes away
 * in one time constant, h the tick in time constants.  While the pull toward the limit asks for more than the clamp,
 * the state moves along a parabola, and on or above the arc below it the slack never gets negative.
 */
module BrakingArc {
  import opened Numeric

  /** The vertex of the arc is where the velocity is (1 + h/2) al and no slack is left. */
  ghost predicate OnArc(h: real, al: real, u: real, v: real) {
    (v - (1.0 + h / 2.0) * al) * (v - (1.0 + h / 2.0) * al) <= 2.0 * (al * u)
  }

  /** The pull toward the limit is at least the clamp. */
  ghost predicate Gentle(al: real, u: real, v: real) { v - u <= al }

  /** A tick at the clamp. */
  function Slower(h: real, al: real, v: real): real { v - h * al }

  function SlackAfter(h: real, u: real, v: real, w: real): real { u + v - (1.0 + h) * w }

  lemma SquareNonneg(x: real)
    ensures x * x >= 0.0
  {
  }

  lemma ArcSlack(h: real, al: real, u: real, v: real)
    requires OnArc(h, al, u, v) && al > 0.0
    ensures u >= 0.0
  {
    SquareNonneg(v - (1.0 + h / 2.0) * al);
    FactorNonneg(al, u);
  }

  /** The arc is kept exactly: a tick at the clamp moves along it. */
  lemma ArcStays(h: real, al: real, u: real, v: real)
    requires OnArc(h, al, u, v)
    ensures var w := Slower(h, al, v); OnArc(h, al, SlackAfter(h, u, v, w), w)
  {
    var x, g := v - (1.0 + h / 2.0) * al, h * al;
    var w := Slower(h, al, v);
    assert w - (1.0 + h / 2.0) * al == x - g;
    assert (x - g) * (x - g) == x * x - 2.0 * (x * g) + g * g;
    var u' := SlackAfter(h, u, v, w);
    assert u' - u == g + h * g - h * v;
    assert al * (u' - u) == g * al + g * g - g * v by {
      assert al * (h * g) == g * g;
      assert al * (h * v) == g * v;
    }
    assert x * g == g * v - g * al - g * g / 2.0 by {
      assert (1.0 + h / 2.0) * al == al + g / 2.0;
      assert (v - al - g / 2.0) * g == g * v - g * al - g * g / 2.0;
    }
    assert al * u' == al * u + al * (u' - u);
  }

  /** Beyond the gentle region the arc bounds the velocity. */
  lemma ArcSpeed(h: real, al: real, u: real, v: real)
    requires OnArc(h, al, u, v) && al > 0.0 && h >= 0.0 && !Gentle(al, u, v)
    ensures al < v <= (3.0 + h) * al
  {
    ArcSlack(h, al, u, v);
    var x, b := v - (1.0 + h / 2.0) * al, (2.0 + h / 2.0) * al;
    MulPositive(al, v - al - u);
    if v > (3.0 + h) * al {
      ArcTooFast(h, al, u, v, x, v - (3.0 + h) * al);
      assert false;
    }
  }

  lemma ArcTooFast(h: real, al: real, u: real, v: real, x: real, d: real)
    requires al > 0.0 && h >= 0.0 && d > 0.0 && x == v - (1.0 + h / 2.0) * al && d == v - (3.0 + h) * al
    ensures x * x > 2.0 * (al * (v - al))
  {
    var g := h * al;
    assert x == d + 2.0 * al + g / 2.0 && v - al == d + 2.0 * al + g;
    MulNonneg(h, al);
    MulPositive(d, al);
    MulNonneg(d, g);
    MulPositive(d, d);
    SquareNonneg(g);
    assert x * x == d * d + 4.0 * (d * al) + d * g + 4.0 * (al * al) + 2.0 * (al * g) + g * g / 4.0;
    assert al * (v - al) == d * al + 2.0 * (al * al) + al * g;
  }

  /** Facets of slope at most one half survive a tick at the clamp from the arc. */
  lemma ArcFacet(h: real, al: real, c: real, u: real, v: real, k: real)
    requires 0.0 <= h && al > 0.0 && 0.0 <= c && 2.0 * c <= 1.0 && 0.0 < v <= (3.0 + h) * al && v - c * u <= k
    ensures var w := Slower(h, al, v); w - c * SlackAfter(h, u, v, w) <= k
  {
    var g := h * al;
    var w := Slower(h, al, v);
    assert SlackAfter(h, u, v, w) == u - h * v + g + h * g;
    assert w - c * SlackAfter(h, u, v, w) == v - c * u - (g - c * (h * v) + c * g + c * (h * g));
    MulNonneg(h, (3.0 + h) * al - v);
    MulNonneg(h, al);
    MulNonneg(c, h * ((3.0 + h) * al - v));
    MulNonneg(1.0 - 2.0 * c, g);
    assert h * ((3.0 + h) * al) == 3.0 * g + h * g;
  }

  /** How much speed a facet of slope c may leave, in units of al, for the arc to be reached. */
  function Grip(h: real, c: real): real { c + (1.0 - c) * (3.0 - h * h / 8.0) }

  /** A gentle tick that ends beyond the gentle region ends on the arc, if a facet of slope c bounds it. */
  lemma ArcEntry(h: real, al: real, c: real, u: real, v: real, w: real, u': real, k: real)
    requires 0.0 < h && 2.0 * h <= 1.0 && al > 0.0 && 0.0 <= c && 2.0 * c <= 1.0 && k <= Grip(h, c) * al
    requires Gentle(al, u, v) && w <= v + h * (u - v) && u' == SlackAfter(h, u, v, w)
    requires !Gentle(al, u', w) && w - c * u' <= k
    ensures OnArc(h, al, u', w)
  {
    EntryBrake(h, al, u, v, w, u');
    ArcBetween(h, al, c, w, u', k);
  }

  lemma ArcBetween(h: real, al: real, c: real, w: real, u: real, k: real)
    requires 0.0 < h && 2.0 * h <= 1.0 && al > 0.0 && 0.0 <= c && 2.0 * c <= 1.0 && k <= Grip(h, c) * al
    requires w - u <= h * w + (1.0 - 2.0 * h) * al && !Gentle(al, u, w) && w - c * u <= k
    ensures OnArc(h, al, u, w)
  {
    hide Grip, OnArc;
    EntryTop(h, al, c, w, u, k);
    EntryBottom(h, al, w, w - u);
    EntryArc(h, al, w, u);
  }

  /** After it the pull asks for at most this much braking. */
  lemma EntryBrake(h: real, al: real, u: real, v: real, w: real, u': real)
    requires 0.0 < h && 2.0 * h <= 1.0 && Gentle(al, u, v) && w <= v + h * (u - v) && u' == SlackAfter(h, u, v, w)
    ensures w - u' <= h * w + (1.0 - 2.0 * h) * al
  {
    var y := w - u';
    MulNonneg(1.0 - 2.0 * h, al - (v - u));
    assert y == (2.0 + h) * w - u - v;
    assert h * w + (1.0 - 2.0 * h) * (v - u) - y == 2.0 * (v + h * (u - v) - w);
  }

  lemma EntryBottom(h: real, al: real, w: real, y: real)
    requires 0.0 < h && y <= h * w + (1.0 - 2.0 * h) * al && y > al
    ensures w > 2.0 * al
  {
    if w <= 2.0 * al {
      MulNonneg(h, 2.0 * al - w);
      assert false;
    }
  }

  lemma EntryTop(h: real, al: real, c: real, w: real, u: real, k: real)
    requires 0.0 <= c && 2.0 * c <= 1.0 && k <= Grip(h, c) * al && w - u > al && w - c * u <= k
    ensures w <= (3.0 - h * h / 8.0) * al
  {
    var top := (3.0 - h * h / 8.0) * al;
    MulNonneg(c, w - u - al);
    assert Grip(h, c) * al == c * al + (1.0 - c) * top;
    if w > top {
      MulPositive(1.0 - c, w - top);
      assert false;
    }
  }

  /** The square of the arc, and twice al times the least slack a gentle tick can leave. */
  function Square(h: real, ww: real, aw: real, aa: real): real {
    ww - (2.0 + h) * aw + (1.0 + h + h * h / 4.0) * aa
  }

  function Line(h: real, aw: real, aa: real): real { (2.0 - 2.0 * h) * aw - (2.0 - 4.0 * h) * aa }

  /** The velocities between which the arc lies above the line that a gentle tick can reach, as a quadratic. */
  function Quadratic(h: real, ww: real, aw: real, aa: real): real {
    ww - (4.0 - h) * aw + (3.0 - 3.0 * h + h * h / 4.0) * aa
  }

  lemma EntryArc(h: real, al: real, w: real, u: real)
    requires 0.0 < h && 2.0 * h <= 1.0 && al > 0.0 && 2.0 * al <= w <= (3.0 - h * h / 8.0) * al
    requires w - u <= h * w + (1.0 - 2.0 * h) * al
    ensures OnArc(h, al, u, w)
  {
    var aw, aa, x := al * w, al * al, w - (1.0 + h / 2.0) * al;
    hide Quadratic, Square, Line, OnArc;
    EntryQuadratic(h, al, w, w * w, aw, aa);
    ArcSquare(h, al, w, x);
    LineTimes(h, al, w, u);
    QuadraticSplit(h, w * w, aw, aa);
    ArcFrom(h, al, u, w, x, x * x, al * u);
  }

  lemma ArcFrom(h: real, al: real, u: real, w: real, x: real, xx: real, au: real)
    requires x == w - (1.0 + h / 2.0) * al && xx == x * x && au == al * u && xx <= 2.0 * au
    ensures OnArc(h, al, u, w)
  {
  }

  lemma ArcSquare(h: real, al: real, w: real, x: real)
    requires x == w - (1.0 + h / 2.0) * al
    ensures x * x == Square(h, w * w, al * w, al * al)
  {
  }

  lemma LineTimes(h: real, al: real, w: real, u: real)
    requires al > 0.0 && w - u <= h * w + (1.0 - 2.0 * h) * al
    ensures 2.0 * (al * u) >= Line(h, al * w, al * al)
  {
    MulNonneg(al, u - w + h * w + (1.0 - 2.0 * h) * al);
  }

  lemma QuadraticSplit(h: real, ww: real, aw: real, aa: real)
    ensures Quadratic(h, ww, aw, aa) == Square(h, ww, aw, aa) - Line(h, aw, aa)
  {
  }

  lemma EntryQuadratic(h: real, al: real, w: real, ww: real, aw: real, aa: real)
    requires 0.0 < h && 2.0 * h <= 1.0 && al > 0.0 && 2.0 * al <= w <= (3.0 - h * h / 8.0) * al
    requires ww == w * w && aw == al * w && aa == al * al
    ensures Quadratic(h, ww, aw, aa) <= 0.0
  {
    var e := h * h / 8.0;
    SmallSquare(h, e);
    BetweenRoots(e, al, w);
    RoomAtTop(h, e, al, w);
    SquareNonneg(al);
    MulNonneg(e * (h - e), aa);
    hide Quadratic;
    EntryBalance(h, e, aw, aa, ww);
  }

  lemma BetweenRoots(e: real, al: real, w: real)
    requires 2.0 * al <= w <= (3.0 - e) * al
    ensures w * w <= (5.0 - e) * (al * w) - (6.0 - 2.0 * e) * (al * al)
  {
    MulNonneg(w - 2.0 * al, (3.0 - e) * al - w);
  }

  lemma RoomAtTop(h: real, e: real, al: real, w: real)
    requires al > 0.0 && w <= (3.0 - e) * al && 1.0 + h - e >= 0.0
    ensures (1.0 + h - e) * ((3.0 - e) * (al * al) - al * w) >= 0.0
  {
    MulNonneg(al, (3.0 - e) * al - w);
    assert al * ((3.0 - e) * al - w) == (3.0 - e) * (al * al) - al * w;
    MulNonneg(1.0 + h - e, (3.0 - e) * (al * al) - al * w);
  }

  lemma SmallSquare(h: real, e: real)
    requires 0.0 < h && 2.0 * h <= 1.0 && e == h * h / 8.0
    ensures 0.0 <= e <= h && e * (h - e) >= 0.0
  {
    MulNonneg(h, 1.0 - h);
    SquareNonneg(h);
    MulNonneg(e, h - e);
  }

  lemma EntryBalance(h: real, e: real, aw: real, aa: real, ww: real)
    requires e == h * h / 8.0 && ww <= (5.0 - e) * aw - (6.0 - 2.0 * e) * aa
    requires (1.0 + h - e) * ((3.0 - e) * aa - aw) >= 0.0 && (e * (h - e)) * aa >= 0.0
    ensures Quadratic(h, ww, aw, aa) <= 0.0
  {
    BalanceIdentity(h, e, aw, aa, ww);
  }

  lemma BalanceIdentity(h: real, e: real, aw: real, aa: real, ww: real)
    requires e == h * h / 8.0
    ensures Quadratic(h, ww, aw, aa) == ww - ((5.0 - e) * aw - (6.0 - 2.0 * e) * aa)
         - (1.0 + h - e) * ((3.0 - e) * aa - aw) - (e * (h - e)) * aa
  {
    RoomExpands(h, e, aw, aa);
    assert (3.0 - 3.0 * h + h * h / 4.0) * aa == 3.0 * aa - 3.0 * (h * aa) + 2.0 * (e * aa) by {
      assert h * h / 4.0 == 2.0 * e;
    }
  }

  lemma RoomExpands(h: real, e: real, aw: real, aa: real)
    ensures (1.0 + h - e) * ((3.0 - e) * aa - aw)
         == 3.0 * aa + 3.0 * (h * aa) - 4.0 * (e * aa) - (e * (h - e)) * aa - aw - h * aw + e * aw
  {
  }
}
