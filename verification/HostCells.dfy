/** Host-cell decomposition: staged octree cells are completed to a tiling of the key space, and a
    sorted flush sends every particle to the one leaf that holds its key. */
module HostCells {
  import opened Arithmetic
  import opened Sorting

  type Key = nat

  const LEVELS: nat := 21                        // BITS_PER_DIM
  const TOP: nat := 0x1_0000_0000_0000_0000      // 2^64
  const BASE: nat := 0x8000_0000_0000_0000       // 2^63: the placeholder bit of every particle key

  function Pow8(d: nat): (r: nat)
    ensures r > 0
  {
    if d == 0 then 1 else 8 * Pow8(d - 1)
  }

  lemma Pow8Levels()
    ensures Pow8(21) == BASE && TOP == 2 * BASE
  {
    assert Pow8(3) == 512;
    assert Pow8(6) == 0x4_0000 by { assert Pow8(6) == 8 * (8 * (8 * Pow8(3))); }
    assert Pow8(9) == 0x800_0000 by { assert Pow8(9) == 8 * (8 * (8 * Pow8(6))); }
    assert Pow8(12) == 0x10_0000_0000 by { assert Pow8(12) == 8 * (8 * (8 * Pow8(9))); }
    assert Pow8(15) == 0x2000_0000_0000 by { assert Pow8(15) == 8 * (8 * (8 * Pow8(12))); }
    assert Pow8(18) == 0x40_0000_0000_0000 by { assert Pow8(18) == 8 * (8 * (8 * Pow8(15))); }
    assert Pow8(21) == BASE by { assert Pow8(21) == 8 * (8 * (8 * Pow8(18))); }
  }

  // ---- Octree keys: the root is 1, child j of k is 8k + j.

  predicate OctKey(k: Key) {
    k == 1 || (k >= 8 && OctKey(k / 8))
  }

  function Depth(k: Key): nat {
    if k < 8 then 0 else 1 + Depth(k / 8)
  }

  /** The first particle key of a cell, and how many its range spans. */
  function Span(k: Key): nat {
    if Depth(k) <= LEVELS then Pow8(LEVELS - Depth(k)) else 1
  }

  function From(k: Key): nat {
    k * Span(k)
  }

  function To(k: Key): nat {
    if From(k) + Span(k) == TOP then TOP - 1 else From(k) + Span(k)
  }

  /** The ancestor at depth d of the particle key x. */
  function CellAt(x: nat, d: nat): Key
    requires d <= LEVELS
  {
    QuotientNat(x, Pow8(LEVELS - d));
    x / Pow8(LEVELS - d)
  }

  lemma DivRange(x: nat, k: nat, s: nat)
    requires s > 0
    ensures x / s == k <==> k * s <= x < k * s + s
  {
    var q, r := x / s, x % s;
    assert x == q * s + r;
    if q < k { NextMultiple(q, k, s); }
    if k < q { NextMultiple(k, q, s); }
  }

  lemma DivTwice(x: nat, s: nat)
    requires s > 0
    ensures x / s / 8 == x / (8 * s)
  {
    var q := x / s;
    var p := q / 8;
    assert x == q * s + x % s;
    assert q == p * 8 + q % 8;
    assert q * s == p * (8 * s) + (q % 8) * s;
    Products(s, q % 8, 7);
    assert (q % 8) * s <= 7 * s;
    DivRange(x, p, 8 * s);
  }

  /** The cells of a key along its path: each is a child of the one before, and starts at the root. */
  lemma PathSteps(x: nat, d: nat)
    requires BASE <= x < TOP && d <= LEVELS
    ensures CellAt(x, 0) == 1 && (d > 0 ==> CellAt(x, d) / 8 == CellAt(x, d - 1))
  {
    Pow8Levels();
    DivRange(x, 1, BASE);
    if d > 0 {
      assert Pow8(LEVELS - (d - 1)) == 8 * Pow8(LEVELS - d);
      DivTwice(x, Pow8(LEVELS - d));
    }
  }

  lemma {:induction false} PathDepth(x: nat, d: nat)
    requires BASE <= x < TOP && d <= LEVELS
    ensures OctKey(CellAt(x, d)) && Depth(CellAt(x, d)) == d
  {
    PathSteps(x, d);
    if d > 0 {
      PathDepth(x, d - 1);
      assert CellAt(x, d) >= 8;
    }
  }

  /** A cell's range holds x exactly when the cell is on x's path. */
  lemma OnPath(x: nat, k: Key)
    requires BASE <= x < TOP && OctKey(k) && Depth(k) <= LEVELS
    ensures From(k) <= x < From(k) + Span(k) <==> CellAt(x, Depth(k)) == k
  {
    DivRange(x, k, Span(k));
  }

  lemma {:induction false} KeyRange(k: Key)
    requires OctKey(k) && Depth(k) <= LEVELS
    ensures BASE <= From(k) && From(k) + Span(k) <= TOP
  {
    Pow8Levels();
    if k > 1 {
      KeyRange(k / 8);
      assert Pow8(LEVELS - (Depth(k) - 1)) == 8 * Pow8(LEVELS - Depth(k));
      ChildRange(k, Pow8(LEVELS - Depth(k)));
    }
  }

  /** A child's range lies in its parent's. */
  lemma ChildRange(k: nat, s: nat)
    requires s > 0
    ensures (k / 8) * (8 * s) <= k * s && k * s + s <= (k / 8) * (8 * s) + 8 * s
  {
    var p, j := k / 8, k % 8;
    assert k == p * 8 + j;
    assert k * s == p * (8 * s) + j * s;
    Products(s, 0, j);
    Products(s, j, 7);
    assert s * 0 == 0 && s * 7 == 7 * s && s * j == j * s;
  }

  // ---- The completion.

  /** The staged cells, every proper ancestor, and the missing children of those. */
  ghost predicate Complete(cells: set<Key>, internal: set<Key>, fill: set<Key>) {
    && (forall k {:trigger k in cells} :: k in cells ==> OctKey(k) && Depth(k) <= LEVELS && k !in internal)
    && (forall a {:trigger a in internal} :: a in internal ==> OctKey(a) && Depth(a) < LEVELS && (a > 1 ==>
          a / 8 in internal))
    && (forall k {:trigger k in cells} :: k in cells && k > 1 ==> k / 8 in internal)
    && (forall k {:trigger k in fill} :: k in fill <==> k / 8 in internal && k !in cells && k !in internal)
  }

  predicate Leaf(cells: set<Key>, fill: set<Key>, k: Key) {
    k in cells || k in fill
  }

  lemma FillKey(cells: set<Key>, internal: set<Key>, fill: set<Key>, k: Key)
    requires Complete(cells, internal, fill) && k in fill
    ensures OctKey(k) && Depth(k) <= LEVELS && k / 8 in internal && k >= 8
  {
    assert OctKey(k / 8);
    assert k / 8 >= 1;
  }

  /** Going up from a leaf meets internal nodes only. */
  lemma {:induction false} AboveLeaf(cells: set<Key>, internal: set<Key>, fill: set<Key>, x: nat, d: nat, e: nat)
    requires Complete(cells, internal, fill) && BASE <= x < TOP && d < e <= LEVELS
    requires Leaf(cells, fill, CellAt(x, e)) || CellAt(x, e) in internal
    ensures CellAt(x, d) in internal
    decreases e - d
  {
    PathSteps(x, e);
    PathDepth(x, e);
    assert CellAt(x, e) > 1;
    if CellAt(x, e) in fill { FillKey(cells, internal, fill, CellAt(x, e)); }
    assert CellAt(x, e - 1) in internal;
    if d < e - 1 { AboveLeaf(cells, internal, fill, x, d, e - 1); }
  }

  /** Going down from an internal node reaches a leaf. */
  lemma {:induction false} BelowInternal(cells: set<Key>, internal: set<Key>, fill: set<Key>, x: nat, d: nat)
    returns (k: Key)
    requires Complete(cells, internal, fill) && BASE <= x < TOP && d <= LEVELS && CellAt(x, d) in internal
    ensures Leaf(cells, fill, k) && From(k) <= x < From(k) + Span(k)
    decreases LEVELS - d
  {
    PathDepth(x, d);
    PathDepth(x, d + 1);
    PathSteps(x, d + 1);
    var child := CellAt(x, d + 1);
    if child in internal {
      k := BelowInternal(cells, internal, fill, x, d + 1);
    } else {
      k := child;
      OnPath(x, k);
    }
  }

  /** The leaves cover the key space... */
  lemma LeavesCover(cells: set<Key>, internal: set<Key>, fill: set<Key>, x: nat) returns (k: Key)
    requires Complete(cells, internal, fill) && cells != {} && BASE <= x < TOP
    ensures Leaf(cells, fill, k) && From(k) <= x < From(k) + Span(k)
  {
    PathSteps(x, 0);
    var c :| c in cells;
    if 1 in cells {
      k := 1;
      OnPath(x, 1);
    } else {
      RootInternal(cells, internal, fill, c);
      k := BelowInternal(cells, internal, fill, x, 0);
    }
  }

  lemma {:induction false} UpToRoot(internal: set<Key>, a: Key)
    requires a in internal && OctKey(a) && forall b {:trigger b in internal} :: b in internal && b > 1 ==>
          b / 8 in internal
    ensures 1 in internal
  {
    if a > 1 { UpToRoot(internal, a / 8); }
  }

  lemma RootInternal(cells: set<Key>, internal: set<Key>, fill: set<Key>, c: Key)
    requires Complete(cells, internal, fill) && c in cells && c != 1
    ensures 1 in internal
  {
    assert OctKey(c) && c > 1;
    assert OctKey(c / 8);
    UpToRoot(internal, c / 8);
  }

  /** ...and never overlap. */
  lemma LeavesApart(cells: set<Key>, internal: set<Key>, fill: set<Key>, j: Key, k: Key, x: nat)
    requires Complete(cells, internal, fill) && Leaf(cells, fill, j) && Leaf(cells, fill, k)
    requires From(j) <= x < From(j) + Span(j) && From(k) <= x < From(k) + Span(k)
    ensures j == k
  {
    if j in fill { FillKey(cells, internal, fill, j); }
    if k in fill { FillKey(cells, internal, fill, k); }
    KeyRange(j);
    OnPath(x, j);
    OnPath(x, k);
    if Depth(j) < Depth(k) { AboveLeaf(cells, internal, fill, x, Depth(j), Depth(k)); }
    if Depth(k) < Depth(j) { AboveLeaf(cells, internal, fill, x, Depth(k), Depth(j)); }
  }
}
