/** Particles, axis-aligned boxes and the distance bounds the walks prune with.  Coordinates are
    reals: the claims of the code are geometric, rounding is not part of this model. */
module Geometry {

  datatype Vec = Vec(x: real, y: real, z: real)
  datatype Box = Box(lo: Vec, hi: Vec)
  datatype Particle = Particle(pos: Vec, order: nat)

  /** What a run fixes: squared linking length, and per axis the period (0 means open). */
  datatype Rule = Rule(b2: real, period: Vec) {
    predicate Periodic() {
      period.x > 0.0 || period.y > 0.0 || period.z > 0.0
    }
  }

  function Max(a: real, b: real): real { if a > b then a else b }
  function Min(a: real, b: real): real { if a < b then a else b }
  function Abs(a: real): real { if a < 0.0 then -a else a }
  function Square(a: real): real { a * a }

  /** std::round: to nearest, halves away from zero. */
  function Round(a: real): int {
    if a >= 0.0 then (a + 0.5).Floor else -((-a + 0.5).Floor)
  }

  /** One axis of the minimum-image difference. */
  function Wrap(d: real, p: real): real {
    if p > 0.0 then d - p * (Round(d / p) as real) else d
  }

  function DistSq(a: Vec, b: Vec, period: Vec): real {
    Square(Wrap(a.x - b.x, period.x)) + Square(Wrap(a.y - b.y, period.y)) + Square(Wrap(a.z - b.z, period.z))
  }

  /** The link relation friends-of-friends closes transitively. */
  predicate Linked(p: Particle, q: Particle, rule: Rule) {
    DistSq(p.pos, q.pos, rule.period) <= rule.b2
  }

  function Gap(alo: real, ahi: real, blo: real, bhi: real): real {
    Max(alo - bhi, blo - ahi)
  }

  /** The periodic gap of two intervals: the smallest over the shifts -p, 0, +p, or 0. */
  function AxisGap(alo: real, ahi: real, blo: real, bhi: real, p: real): real {
    var g0 := Gap(alo, ahi, blo, bhi);
    if p <= 0.0 then Max(g0, 0.0) else
      var gp := Gap(alo, ahi, blo + p, bhi + p);
      var gm := Gap(alo, ahi, blo - p, bhi - p);
      if g0 <= 0.0 || gp <= 0.0 || gm <= 0.0 then 0.0 else Min(g0, Min(gp, gm))
  }

  function MinDist2(a: Box, b: Box, period: Vec): real {
    Square(AxisGap(a.lo.x, a.hi.x, b.lo.x, b.hi.x, period.x))
    + Square(AxisGap(a.lo.y, a.hi.y, b.lo.y, b.hi.y, period.y))
    + Square(AxisGap(a.lo.z, a.hi.z, b.lo.z, b.hi.z, period.z))
  }

  function AxisFar(alo: real, ahi: real, blo: real, bhi: real): real {
    Max(Abs(alo - bhi), Abs(ahi - blo))
  }

  function MaxDist2(a: Box, b: Box): real {
    Square(AxisFar(a.lo.x, a.hi.x, b.lo.x, b.hi.x))
    + Square(AxisFar(a.lo.y, a.hi.y, b.lo.y, b.hi.y))
    + Square(AxisFar(a.lo.z, a.hi.z, b.lo.z, b.hi.z))
  }

  function Measure(b: Box): real {
    (b.hi.x - b.lo.x) + (b.hi.y - b.lo.y) + (b.hi.z - b.lo.z)
  }

  predicate Within(v: Vec, b: Box) {
    b.lo.x <= v.x <= b.hi.x && b.lo.y <= v.y <= b.hi.y && b.lo.z <= v.z <= b.hi.z
  }

  predicate Inside(inner: Box, outer: Box) {
    && outer.lo.x <= inner.lo.x && inner.hi.x <= outer.hi.x
    && outer.lo.y <= inner.lo.y && inner.hi.y <= outer.hi.y
    && outer.lo.z <= inner.lo.z && inner.hi.z <= outer.hi.z
  }

  /** The separation on one axis the three shifts of AxisGap suffice for. */
  predicate AxisReached(d: real, p: real) {
    p > 0.0 ==> Abs(d) <= 1.5 * p
  }

  /** True in particular when both points lie in one period of the box. */
  predicate Reached(a: Vec, b: Vec, period: Vec) {
    AxisReached(a.x - b.x, period.x) && AxisReached(a.y - b.y, period.y) && AxisReached(a.z - b.z, period.z)
  }

  // ---- Per-axis facts.

  lemma SquareMono(a: real, b: real)
    requires Abs(a) <= Abs(b)
    ensures 0.0 <= Square(a) <= Square(b)
  {
    var c, d := Abs(a), Abs(b);
    assert c * c <= c * d <= d * d;
  }

  /** Comparing d / p with c without dividing. */
  lemma QuotientBound(q: real, p: real, c: real)
    requires p > 0.0
    ensures q * p < c * p <==> q < c
    ensures q * p == c * p <==> q == c
  {
    if q < c { assert q * p < c * p; }
    if q > c { assert q * p > c * p; }
  }

  lemma RoundSmall(d: real, p: real)
    requires p > 0.0
    ensures Abs(d) < 1.5 * p ==> -1 <= Round(d / p) <= 1
    ensures d == 1.5 * p ==> Round(d / p) == 2
    ensures d == -1.5 * p ==> Round(d / p) == -2
  {
    var q := d / p;
    assert q * p == d;
    QuotientBound(q, p, 1.5);
    QuotientBound(q, p, -1.5);
  }

  lemma WrapCases(d: real, p: real)
    requires p > 0.0 && Abs(d) <= 1.5 * p
    ensures Wrap(d, p) in {d, d - p, d + p} || (Wrap(d, p) == d - 2.0 * p && d == 1.5 * p) ||
          (Wrap(d, p) == d + 2.0 * p && d == -1.5 * p)
  {
    RoundSmall(d, p);
    var k := Round(d / p);
    if k == -1 { assert p * (k as real) == -p; }
    if k == 0 { assert p * (k as real) == 0.0; }
    if k == 1 { assert p * (k as real) == p; }
    if k == 2 { assert p * (k as real) == 2.0 * p; }
    if k == -2 { assert p * (k as real) == -2.0 * p; }
  }

  lemma AxisGapBound(alo: real, ahi: real, blo: real, bhi: real, a: real, b: real, p: real)
    requires alo <= a <= ahi && blo <= b <= bhi && AxisReached(a - b, p)
    ensures 0.0 <= AxisGap(alo, ahi, blo, bhi, p) <= Abs(Wrap(a - b, p))
  {
    if p > 0.0 { WrapCases(a - b, p); }
  }

  /** Between two points the periodic gap is a lower bound exactly up to one and a half periods:
      beyond that the three shifts no longer include the nearest image. */
  lemma AxisGapExact(a: real, b: real, p: real)
    requires p > 0.0
    ensures AxisGap(a, a, b, b, p) <= Abs(Wrap(a - b, p)) <==> AxisReached(a - b, p)
  {
    var d := a - b;
    if AxisReached(d, p) {
      AxisGapBound(a, a, b, b, a, b, p);
    } else {
      var q := d / p;
      assert q * p == d;
      var k := Round(q) as real;
      var e := q - k;
      assert -0.5 <= e <= 0.5;
      assert e * p <= 0.5 * p by { QuotientBound(e, p, 0.5); }
      assert e * p >= -0.5 * p by { QuotientBound(e, p, -0.5); }
      assert Wrap(d, p) == d - p * k == e * p;
      assert Abs(Wrap(d, p)) <= 0.5 * p;
      assert AxisGap(a, a, b, b, p) > 0.5 * p;
      assert AxisGap(a, a, b, b, p) > 0.5 * p;
    }
  }

  lemma AxisFarBound(alo: real, ahi: real, blo: real, bhi: real, a: real, b: real)
    requires alo <= a <= ahi && blo <= b <= bhi
    ensures Abs(a - b) <= AxisFar(alo, ahi, blo, bhi)
    ensures (ahi - alo) + (bhi - blo) <= 2.0 * AxisFar(alo, ahi, blo, bhi)
  {
  }

  // ---- The certificates.

  /** Negative certificate: the box gap never exceeds the distance of a contained pair. */
  lemma MinDistBound(A: Box, B: Box, a: Vec, b: Vec, period: Vec)
    requires Within(a, A) && Within(b, B) && Reached(a, b, period)
    ensures MinDist2(A, B, period) <= DistSq(a, b, period)
  {
    AxisGapBound(A.lo.x, A.hi.x, B.lo.x, B.hi.x, a.x, b.x, period.x);
    AxisGapBound(A.lo.y, A.hi.y, B.lo.y, B.hi.y, a.y, b.y, period.y);
    AxisGapBound(A.lo.z, A.hi.z, B.lo.z, B.hi.z, a.z, b.z, period.z);
    SquareMono(AxisGap(A.lo.x, A.hi.x, B.lo.x, B.hi.x, period.x), Wrap(a.x - b.x, period.x));
    SquareMono(AxisGap(A.lo.y, A.hi.y, B.lo.y, B.hi.y, period.y), Wrap(a.y - b.y, period.y));
    SquareMono(AxisGap(A.lo.z, A.hi.z, B.lo.z, B.hi.z, period.z), Wrap(a.z - b.z, period.z));
  }

  /** Positive certificate: with open boundaries no contained pair is farther than the far corners. */
  lemma MaxDistBound(A: Box, B: Box, a: Vec, b: Vec, rule: Rule)
    requires Within(a, A) && Within(b, B) && !rule.Periodic()
    ensures DistSq(a, b, rule.period) <= MaxDist2(A, B)
  {
    AxisFarBound(A.lo.x, A.hi.x, B.lo.x, B.hi.x, a.x, b.x);
    AxisFarBound(A.lo.y, A.hi.y, B.lo.y, B.hi.y, a.y, b.y);
    AxisFarBound(A.lo.z, A.hi.z, B.lo.z, B.hi.z, a.z, b.z);
    SquareMono(Wrap(a.x - b.x, rule.period.x), AxisFar(A.lo.x, A.hi.x, B.lo.x, B.hi.x));
    SquareMono(Wrap(a.y - b.y, rule.period.y), AxisFar(A.lo.y, A.hi.y, B.lo.y, B.hi.y));
    SquareMono(Wrap(a.z - b.z, rule.period.z), AxisFar(A.lo.z, A.hi.z, B.lo.z, B.hi.z));
  }

  function Nearest(lo: real, hi: real, olo: real): real {
    if olo > hi then hi else if olo < lo then lo else olo
  }

  /** Both bounds are attained by contained pairs, so neither can be improved (open boundaries). */
  lemma DistBoundsTight(A: Box, B: Box) returns (a: Vec, b: Vec, c: Vec, d: Vec)
    requires Within(A.lo, A) && Within(A.hi, A) && Within(B.lo, B) && Within(B.hi, B)
    ensures Within(a, A) && Within(b, B) && DistSq(a, b, Vec(0.0, 0.0, 0.0)) == MinDist2(A, B, Vec(0.0, 0.0, 0.0))
    ensures Within(c, A) && Within(d, B) && DistSq(c, d, Vec(0.0, 0.0, 0.0)) == MaxDist2(A, B)
  {
    a := Vec(Nearest(A.lo.x, A.hi.x, B.lo.x), Nearest(A.lo.y, A.hi.y, B.lo.y), Nearest(A.lo.z, A.hi.z, B.lo.z));
    b := Vec(Nearest(B.lo.x, B.hi.x, a.x), Nearest(B.lo.y, B.hi.y, a.y), Nearest(B.lo.z, B.hi.z, a.z));
    var fx := Abs(A.lo.x - B.hi.x) >= Abs(A.hi.x - B.lo.x);
    var fy := Abs(A.lo.y - B.hi.y) >= Abs(A.hi.y - B.lo.y);
    var fz := Abs(A.lo.z - B.hi.z) >= Abs(A.hi.z - B.lo.z);
    c := Vec(if fx then A.lo.x else A.hi.x, if fy then A.lo.y else A.hi.y, if fz then A.lo.z else A.hi.z);
    d := Vec(if fx then B.hi.x else B.lo.x, if fy then B.hi.y else B.lo.y, if fz then B.hi.z else B.lo.z);
    SameSquare(a.x - b.x, AxisGap(A.lo.x, A.hi.x, B.lo.x, B.hi.x, 0.0));
    SameSquare(a.y - b.y, AxisGap(A.lo.y, A.hi.y, B.lo.y, B.hi.y, 0.0));
    SameSquare(a.z - b.z, AxisGap(A.lo.z, A.hi.z, B.lo.z, B.hi.z, 0.0));
    SameSquare(c.x - d.x, AxisFar(A.lo.x, A.hi.x, B.lo.x, B.hi.x));
    SameSquare(c.y - d.y, AxisFar(A.lo.y, A.hi.y, B.lo.y, B.hi.y));
    SameSquare(c.z - d.z, AxisFar(A.lo.z, A.hi.z, B.lo.z, B.hi.z));
  }

  lemma SameSquare(u: real, v: real)
    requires Abs(u) == Abs(v)
    ensures Square(u) == Square(v)
  {
  }

  /** The cheap gate in front of the positive certificate never hides a certificate that holds. */
  lemma GateKeepsCertificates(A: Box, B: Box, b2: real)
    requires Within(A.lo, A) && Within(A.hi, A) && Within(B.lo, B) && Within(B.hi, B)
    requires MaxDist2(A, B) <= b2
    ensures Square(Measure(A) + Measure(B)) <= 12.0 * b2
  {
    AxisFarBound(A.lo.x, A.hi.x, B.lo.x, B.hi.x, A.lo.x, B.lo.x);
    AxisFarBound(A.lo.y, A.hi.y, B.lo.y, B.hi.y, A.lo.y, B.lo.y);
    AxisFarBound(A.lo.z, A.hi.z, B.lo.z, B.hi.z, A.lo.z, B.lo.z);
    var x, y, z := AxisFar(A.lo.x, A.hi.x, B.lo.x, B.hi.x), AxisFar(A.lo.y, A.hi.y, B.lo.y, B.hi.y),
          AxisFar(A.lo.z, A.hi.z, B.lo.z, B.hi.z);
    var m := Measure(A) + Measure(B);
    assert 0.0 <= m <= 2.0 * (x + y + z);
    SquareMono(m, 2.0 * (x + y + z));
    CauchySchwarz(x, y, z);
  }

  lemma CauchySchwarz(x: real, y: real, z: real)
    ensures Square(2.0 * (x + y + z)) <= 12.0 * (Square(x) + Square(y) + Square(z))
  {
    SquareMono(0.0, x - y);
    SquareMono(0.0, y - z);
    SquareMono(0.0, z - x);
    SumOfSquares(x, y, z);
  }

  lemma SumOfSquares(x: real, y: real, z: real)
    ensures 12.0 * (Square(x) + Square(y) + Square(z)) - Square(2.0 * (x + y + z))
         == 4.0 * (Square(x - y) + Square(y - z) + Square(z - x))
  {
  }

  lemma RoundOdd(a: real)
    ensures Round(-a) == -Round(a)
  {
  }

  lemma WrapOdd(d: real, p: real)
    ensures Wrap(-d, p) == -Wrap(d, p)
  {
    if p > 0.0 {
      assert (-d) / p == -(d / p);
      RoundOdd(d / p);
      var k := Round(d / p) as real;
      assert p * (-k) == -(p * k);
    }
  }

  lemma LinkedSymmetric(p: Particle, q: Particle, rule: Rule)
    ensures Linked(p, q, rule) <==> Linked(q, p, rule)
  {
    WrapOdd(p.pos.x - q.pos.x, rule.period.x);
    WrapOdd(p.pos.y - q.pos.y, rule.period.y);
    WrapOdd(p.pos.z - q.pos.z, rule.period.z);
    SameSquare(Wrap(p.pos.x - q.pos.x, rule.period.x), Wrap(q.pos.x - p.pos.x, rule.period.x));
    SameSquare(Wrap(p.pos.y - q.pos.y, rule.period.y), Wrap(q.pos.y - p.pos.y, rule.period.y));
    SameSquare(Wrap(p.pos.z - q.pos.z, rule.period.z), Wrap(q.pos.z - p.pos.z, rule.period.z));
  }

  // ---- The minimum image is the nearest of all images.

  /** Wrapping subtracts a whole number of periods. */
  lemma WrapShifts(d: real, p: real) returns (n: int)
    requires p > 0.0
    ensures Wrap(d, p) == d - (n as real) * p && Abs(Wrap(d, p)) <= 0.5 * p
  {
    n := Round(d / p);
    var q, k := d / p, n as real;
    assert q * p == d;
    var e := q - k;
    assert -0.5 <= e <= 0.5;
    assert e * p <= 0.5 * p by { QuotientBound(e, p, 0.5); }
    assert e * p >= -0.5 * p by { QuotientBound(e, p, -0.5); }
    assert Wrap(d, p) == d - p * k == e * p;
    Bounded(Wrap(d, p), 0.5 * p);
  }

  lemma Bounded(x: real, c: real)
    requires -c <= x <= c
    ensures Abs(x) <= c
  {
  }

  /** What the wrapped difference is: the distance to the nearest periodic image, attained by one. */
  lemma WrapNearest(d: real, p: real, m: int)
    requires p > 0.0
    ensures Abs(Wrap(d, p)) <= Abs(d - (m as real) * p)
    ensures Abs(Wrap(d, p)) <= 0.5 * p
  {
    var n := WrapShifts(d, p);
    Farther(Wrap(d, p), n - m, p);
    assert d - (m as real) * p == Wrap(d, p) + ((n - m) as real) * p;
  }

  lemma WholePeriods(k: int, p: real) returns (w: real)
    requires p > 0.0
    ensures w == (k as real) * p && (k > 0 ==> w >= p) && (k < 0 ==> w <= -p) && (k == 0 ==> w == 0.0)
  {
    var x := k as real;
    w := x * p;
    QuotientBound(x, p, 1.0);
    QuotientBound(x, p, -1.0);
    QuotientBound(x, p, 0.0);
  }

  lemma Farther(e: real, k: int, p: real)
    requires p > 0.0 && Abs(e) <= 0.5 * p
    ensures Abs(e) <= Abs(e + (k as real) * p)
  {
    var w := WholePeriods(k, p);
    assert Abs(e) <= Abs(e + w);
  }

  /** A coordinate moved by n periods; an open axis has one image. */
  function Moved(c: real, n: int, p: real): real {
    if p > 0.0 then c + (n as real) * p else c
  }

  function Shifted(v: Vec, x: int, y: int, z: int, period: Vec): Vec {
    Vec(Moved(v.x, x, period.x), Moved(v.y, y, period.y), Moved(v.z, z, period.z))
  }

  function PlainDistSq(a: Vec, b: Vec): real {
    Square(a.x - b.x) + Square(a.y - b.y) + Square(a.z - b.z)
  }

  /** No image is nearer on an axis, and some image is as near. */
  lemma AxisImage(a: real, b: real, p: real, m: int) returns (n: int)
    ensures Square(Wrap(a - b, p)) <= Square(a - Moved(b, m, p))
    ensures Square(Wrap(a - b, p)) == Square(a - Moved(b, n, p))
  {
    n := 0;
    if p > 0.0 {
      n := WrapShifts(a - b, p);
      WrapNearest(a - b, p, m);
      assert a - Moved(b, m, p) == (a - b) - (m as real) * p;
      SquareMono(Wrap(a - b, p), a - Moved(b, m, p));
      assert a - Moved(b, n, p) == Wrap(a - b, p);
    }
  }

  /** Two particles are linked if and only if some periodic image of one lies within the linking length of
      the other. */
  lemma LinkedIsShift(p: Particle, q: Particle, rule: Rule)
    ensures Linked(p, q, rule) <==> exists x: int, y: int, z: int {:trigger Shifted(q.pos, x, y, z, rule.period)} ::
            PlainDistSq(p.pos, Shifted(q.pos, x, y, z, rule.period)) <= rule.b2
  {
    var nx := AxisImage(p.pos.x, q.pos.x, rule.period.x, 0);
    var ny := AxisImage(p.pos.y, q.pos.y, rule.period.y, 0);
    var nz := AxisImage(p.pos.z, q.pos.z, rule.period.z, 0);
    assert DistSq(p.pos, q.pos, rule.period) == PlainDistSq(p.pos, Shifted(q.pos, nx, ny, nz, rule.period));
    forall x: int, y: int, z: int
      ensures DistSq(p.pos, q.pos, rule.period) <= PlainDistSq(p.pos, Shifted(q.pos, x, y, z, rule.period))
    {
      var mx := AxisImage(p.pos.x, q.pos.x, rule.period.x, x);
      var my := AxisImage(p.pos.y, q.pos.y, rule.period.y, y);
      var mz := AxisImage(p.pos.z, q.pos.z, rule.period.z, z);
    }
  }
}
