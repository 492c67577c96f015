/** The geometry of the cell grid of side c = b / sqrt(6): which cells are cliques, which neighbours
    are test-free, and that the forward stencil misses no pair within the linking length. */
module Stencil {
  import opened Geometry

  const SIDE: int := 0x10_0000  // 20 bits per axis of a packed cell key

  function CellKey(ix: int, iy: int, iz: int): int {
    ix * SIDE * SIDE + iy * SIDE + iz
  }

  lemma {:induction false} CellKeyUnpacks(ix: int, iy: int, iz: int)
    requires 0 <= ix < SIDE && 0 <= iy < SIDE && 0 <= iz < SIDE
    ensures CellKey(ix, iy, iz) / (SIDE * SIDE) == ix
    ensures (CellKey(ix, iy, iz) / SIDE) % SIDE == iy
    ensures CellKey(ix, iy, iz) % SIDE == iz
  {
    assert CellKey(ix, iy, iz) / SIDE == ix * SIDE + iy;
  }

  datatype Offset = Offset(x: int, y: int, z: int)

  function Reach(d: int): int {
    var a := (if d < 0 then -d else d) - 1;
    if a > 0 then a else 0
  }

  predicate Backward(d: Offset) {
    d.z < 0 || (d.z == 0 && d.y < 0) || (d.z == 0 && d.y == 0 && d.x <= 0)
  }

  predicate Reachable(d: Offset) {
    Reach(d.x) * Reach(d.x) + Reach(d.y) * Reach(d.y) + Reach(d.z) * Reach(d.z) <= 6
  }

  function Negated(d: Offset): Offset {
    Offset(-d.x, -d.y, -d.z)
  }

  predicate Face(d: Offset) {
    (if d.x < 0 then -d.x else d.x) + (if d.y < 0 then -d.y else d.y) + (if d.z < 0 then -d.z else d.z) == 1
  }

  /** gridOffsets: the forward half of the offsets whose cells can hold a pair within b. */
  method GridOffsets() returns (v: seq<Offset>)
    ensures forall d :: d in v <==> !Backward(d) && Reachable(d)
  {
    v := [];
    for z := -3 to 4
      invariant forall d :: d in v <==>
            !Backward(d) && Reachable(d) && d.z < z && -3 <= d.z && -3 <= d.y <= 3 && -3 <= d.x <= 3
    {
      for y := -3 to 4
        invariant forall d :: d in v <==>
          && !Backward(d) && Reachable(d) && -3 <= d.z && (d.z < z || (d.z == z && d.y < y))
          && -3 <= d.y <= 3 && -3 <= d.x <= 3
      {
        for x := -3 to 4
          invariant forall d :: d in v <==>
            && !Backward(d) && Reachable(d) && -3 <= d.z
            && (d.z < z || (d.z == z && (d.y < y || (d.y == y && d.x < x))))
            && -3 <= d.y <= 3 && -3 <= d.x <= 3
        {
          var d := Offset(x, y, z);
          if Backward(d) { continue; }
          if Reachable(d) { v := v + [d]; }
        }
      }
    }
    forall d | Reachable(d)
      ensures -3 <= d.x <= 3 && -3 <= d.y <= 3 && -3 <= d.z <= 3
    {
      ReachBounded(d);
    }
  }

  lemma ReachBounded(d: Offset)
    requires Reachable(d)
    ensures -3 <= d.x <= 3 && -3 <= d.y <= 3 && -3 <= d.z <= 3
  {
    SquareGrows(Reach(d.x));
    SquareGrows(Reach(d.y));
    SquareGrows(Reach(d.z));
  }

  lemma SquareGrows(n: int)
    requires n >= 0
    ensures n * n >= 0 && (n >= 3 ==> n * n >= 9)
  {
    if n >= 3 { assert n * n >= 3 * n; }
  }

  // ---- Cells of points.

  /** The cell index of coordinate v on an axis with origin o. */
  function CellOf(v: real, o: real, c: real): int
    requires c > 0.0
  {
    ((v - o) / c).Floor
  }

  lemma CellBounds(v: real, o: real, c: real)
    requires c > 0.0
    ensures (CellOf(v, o, c) as real) * c <= v - o
    ensures v - o < (CellOf(v, o, c) as real) * c + c
  {
    var q := (v - o) / c;
    FloorBounds(q, CellOf(v, o, c) as real, c, v - o);
  }

  lemma FloorBounds(q: real, i: real, c: real, w: real)
    requires c > 0.0 && i <= q < i + 1.0 && q * c == w
    ensures i * c <= w < i * c + c
  {
    MulMono(i, q, c);
    var x := i * c + c;
    assert x == (i + 1.0) * c;
    MulStrict(q, i + 1.0, c, w, x);
  }

  lemma MulStrict(a: real, b: real, c: real, x: real, y: real)
    requires a < b && c > 0.0 && x == a * c && y == b * c
    ensures x < y
  {
    assert (b - a) * c > 0.0;
  }

  lemma Distribute(a: real, c: real)
    ensures (a + 1.0) * c == a * c + c
    ensures (a - 1.0) * c == a * c - c
    ensures (-a) * c == -(a * c)
  {
  }

  lemma MulMono(a: real, b: real, c: real)
    requires a <= b && c >= 0.0
    ensures a * c <= b * c
  {
  }

  lemma CellOrdered(u: real, v: real, o: real, c: real)
    requires c > 0.0 && u <= v
    ensures CellOf(u, o, c) <= CellOf(v, o, c)
  {
    var p, q := (u - o) / c, (v - o) / c;
    assert p * c == u - o && q * c == v - o;
    QuotientBound(q, c, p);
  }

  /** On one axis, d cells apart means more than Reach(d) and less than |d| + 1 sides apart. */
  lemma AxisApart(u: real, v: real, o: real, c: real)
    requires c > 0.0
    ensures var d := CellOf(v, o, c) - CellOf(u, o, c);
            && (Reach(d) as real) * c <= Abs(u - v)
            && Abs(u - v) <= ((if d < 0 then -d else d) as real + 1.0) * c
  {
    CellBounds(u, o, c);
    CellBounds(v, o, c);
    var i, j := CellOf(u, o, c), CellOf(v, o, c);
    Difference(j as real, i as real, c);
    var ic, jc := (i as real) * c, (j as real) * c;
    assert ic <= u - o < ic + c && jc <= v - o < jc + c;
    assert (j - i) as real == (j as real) - (i as real);
    SidesApart(j - i, jc - ic, c, v - u);
  }

  /** A difference w within one side of x = d sides. */
  lemma SidesApart(d: int, x: real, c: real, w: real)
    requires c > 0.0 && x == (d as real) * c && x - c < w < x + c
    ensures (Reach(d) as real) * c <= Abs(w) <= ((if d < 0 then -d else d) as real + 1.0) * c
  {
    Distribute(d as real, c);
    Distribute(-(d as real), c);
    if d > 0 {
      MulMono(1.0, d as real, c);
      assert (Reach(d) as real) * c == x - c;
    } else if d < 0 {
      MulMono(1.0, -(d as real), c);
      assert (Reach(d) as real) * c == -x - c;
    }
  }

  lemma Difference(a: real, b: real, c: real)
    ensures (a - b) * c == a * c - b * c
  {
  }

  function OffsetOf(a: Vec, b: Vec, o: Vec, c: real): Offset
    requires c > 0.0
  {
    Offset(CellOf(b.x, o.x, c) - CellOf(a.x, o.x, c), CellOf(b.y, o.y, c) - CellOf(a.y, o.y, c),
          CellOf(b.z, o.z, c) - CellOf(a.z, o.z, c))
  }

  lemma ScaledSquare(k: real, c: real)
    ensures Square(k * c) == Square(k) * Square(c)
  {
  }

  /** The stencil misses no pair: points within b lie in cells whose offset is reachable. */
  lemma StencilComplete(a: Vec, b: Vec, o: Vec, c: real, b2: real)
    requires c > 0.0 && 6.0 * Square(c) == b2 && b2 > 0.0 && PlainDistSq(a, b) <= b2
    ensures Reachable(OffsetOf(a, b, o, c))
  {
    AxisSide(a.x, b.x, o.x, c);
    AxisSide(a.y, b.y, o.y, c);
    AxisSide(a.z, b.z, o.z, c);
    var d := OffsetOf(a, b, o, c);
    OffsetBounded(d, Square(c), Square(a.x - b.x), Square(a.y - b.y), Square(a.z - b.z));
  }

  predicate SideWithin(d: int, q: real, w: real) {
    ((Reach(d) * Reach(d)) as real) * q <= w
  }

  lemma OffsetBounded(d: Offset, q: real, u: real, v: real, w: real)
    requires q > 0.0 && u + v + w <= 6.0 * q
    requires SideWithin(d.x, q, u) && SideWithin(d.y, q, v) && SideWithin(d.z, q, w)
    ensures Reachable(d)
  {
    AtMostSix(Reach(d.x), Reach(d.y), Reach(d.z), q, u, v, w);
  }

  lemma AxisSide(u: real, v: real, o: real, c: real)
    requires c > 0.0
    ensures SideWithin(CellOf(v, o, c) - CellOf(u, o, c), Square(c), Square(u - v))
  {
    AxisApart(u, v, o, c);
    SideSquares(Reach(CellOf(v, o, c) - CellOf(u, o, c)), c, u - v);
  }

  lemma AtMostSix(x: int, y: int, z: int, q: real, u: real, v: real, w: real)
    requires q > 0.0 && u + v + w <= 6.0 * q
    requires ((x * x) as real) * q <= u && ((y * y) as real) * q <= v && ((z * z) as real) * q <= w
    ensures x * x + y * y + z * z <= 6
  {
    ScaledSum(x * x, y * y, z * z, q);
    QuotientBound(6.0, q, (x * x + y * y + z * z) as real);
  }

  lemma ScaledSum(x: int, y: int, z: int, q: real)
    ensures ((x + y + z) as real) * q == (x as real) * q + (y as real) * q + (z as real) * q
  {
    assert (x + y + z) as real == (x as real) + (y as real) + (z as real);
  }

  lemma SideSquares(n: int, c: real, w: real)
    requires n >= 0 && c > 0.0 && (n as real) * c <= Abs(w)
    ensures ((n * n) as real) * Square(c) <= Square(w)
  {
    var k := n as real;
    assert 0.0 <= k * c by { MulMono(0.0, k, c); }
    SquareMono(k * c, w);
    ScaledSquare(k, c);
    SquareOfInt(n);
  }

  lemma SquareOfInt(n: int)
    ensures Square(n as real) == (n * n) as real
  {
  }

  /** Same cell, or face-adjacent cells: within b with no test. */
  lemma NearIsFree(a: Vec, b: Vec, o: Vec, c: real)
    requires c > 0.0
    requires var d := OffsetOf(a, b, o, c); d == Offset(0, 0, 0) || Face(d)
    ensures PlainDistSq(a, b) <= 6.0 * Square(c)
  {
    var d := OffsetOf(a, b, o, c);
    AxisApart(a.x, b.x, o.x, c);
    AxisApart(a.y, b.y, o.y, c);
    AxisApart(a.z, b.z, o.z, c);
    AxisNear(a.x - b.x, d.x, c); AxisNear(a.y - b.y, d.y, c); AxisNear(a.z - b.z, d.z, c);
  }

  lemma AxisNear(w: real, d: int, c: real)
    requires c > 0.0 && -1 <= d <= 1
    requires Abs(w) <= ((if d < 0 then -d else d) as real + 1.0) * c
    ensures Square(w) <= (if d == 0 then 1.0 else 4.0) * Square(c)
  {
    if d == 0 {
      SquareMono(w, c);
    } else {
      SquareMono(w, 2.0 * c);
      ScaledSquare(2.0, c);
    }
  }

  /** Within half a period the minimum image is the plain difference, up to sign. */
  lemma HalfPeriodPlain(d: real, p: real)
    requires p > 0.0 ==> Abs(d) <= p / 2.0
    ensures Square(Wrap(d, p)) == Square(d)
  {
    if p > 0.0 {
      var q := d / p;
      assert q * p == d;
      QuotientBound(q, p, 0.5);
      QuotientBound(q, p, -0.5);
      var k := Round(q);
      if k == 1 { assert p * (k as real) == p; SameSquare(Wrap(d, p), d); }
      if k == 0 { assert p * (k as real) == 0.0; }
      if k == -1 {
        assert p * (k as real) == -p;
        assert d == -0.5 * p;
        SameSquare(Wrap(d, p), d);
      }
    }
  }
}
