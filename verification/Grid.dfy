/** The cell-grid solver of a dense node's self pair: cliques inside a cell, test-free unions across
    faces, and first-witness tests over the rest of the forward stencil. */
module Grid {
  import opened Geometry
  import opened Graph
  import opened Forest
  import opened Trees
  import opened Linking
  import opened Sorting
  import opened Stencil
  import opened PhaseA

  /** A run of the sorted cell list with one key; `rep` is its first particle. */
  datatype Occ = Occ(key: int, begin: nat, end: nat, rep: nat)

  function Clamp(i: int, n: int): int {
    var a := if i < 0 then 0 else i;
    if a >= n then n - 1 else a
  }

  /** The packed key of a cell, and the unpacking of the neighbour loop. */
  function Pack(a: Offset): int {
    CellKey(a.x, a.y, a.z)
  }

  function Unpack(key: int): Offset {
    Offset(key / (SIDE * SIDE), (key / SIDE) % SIDE, key % SIDE)
  }

  function Plus(a: Offset, d: Offset): Offset {
    Offset(a.x + d.x, a.y + d.y, a.z + d.z)
  }

  function Between(a: Offset, b: Offset): Offset {
    Offset(b.x - a.x, b.y - a.y, b.z - a.z)
  }

  /** The grid laid over a box: origin, side, and cells per axis. */
  datatype Frame = Frame(o: Vec, c: real, nx: int, ny: int, nz: int) {
    function CellAt(p: Vec): Offset
      requires c > 0.0
    {
      Offset(Clamp(CellOf(p.x, o.x, c), nx), Clamp(CellOf(p.y, o.y, c), ny), Clamp(CellOf(p.z, o.z, c), nz))
    }

    predicate Holds(a: Offset) {
      0 <= a.x < nx && 0 <= a.y < ny && 0 <= a.z < nz
    }

    predicate Fits() {
      nx <= SIDE && ny <= SIDE && nz <= SIDE
    }
  }

  function FrameOf(box: Box, c: real): Frame
    requires c > 0.0
  {
    Frame(box.lo, c, CellOf(box.hi.x, box.lo.x, c) + 1, CellOf(box.hi.y, box.lo.y, c) + 1, CellOf(box.hi.z, box.lo.z, c)
          + 1)
  }

  /** Within 20 bits per axis, packing loses nothing. */
  lemma PackUnpacks(f: Frame, a: Offset)
    requires f.Fits() && f.Holds(a)
    ensures Unpack(Pack(a)) == a
  {
    CellKeyUnpacks(a.x, a.y, a.z);
  }

  lemma AxisInGrid(v: real, lo: real, hi: real, c: real)
    requires c > 0.0 && lo <= v <= hi
    ensures 0 <= CellOf(v, lo, c) <= CellOf(hi, lo, c)
  {
    CellOrdered(lo, v, lo, c);
    CellOrdered(v, hi, lo, c);
  }

  /** For particles inside the box no index is clamped. */
  lemma CellOfContained(p: Vec, box: Box, c: real)
    requires c > 0.0 && Within(p, box)
    ensures FrameOf(box, c).Holds(FrameOf(box, c).CellAt(p))
    ensures FrameOf(box, c).CellAt(p) == Offset(CellOf(p.x, box.lo.x, c), CellOf(p.y, box.lo.y, c),
          CellOf(p.z, box.lo.z, c))
  {
    AxisInGrid(p.x, box.lo.x, box.hi.x, c);
    AxisInGrid(p.y, box.lo.y, box.hi.y, c);
    AxisInGrid(p.z, box.lo.z, box.hi.z, c);
  }

  predicate HalfPeriod(box: Box, period: Vec) {
    && (period.x > 0.0 ==> box.hi.x - box.lo.x <= period.x / 2.0)
    && (period.y > 0.0 ==> box.hi.y - box.lo.y <= period.y / 2.0)
    && (period.z > 0.0 ==> box.hi.z - box.lo.z <= period.z / 2.0)
  }

  lemma PlainWithinHalfPeriod(p: Vec, q: Vec, box: Box, period: Vec)
    requires Within(p, box) && Within(q, box) && HalfPeriod(box, period)
    ensures DistSq(p, q, period) == PlainDistSq(p, q)
  {
    HalfPeriodPlain(p.x - q.x, period.x);
    HalfPeriodPlain(p.y - q.y, period.y);
    HalfPeriodPlain(p.z - q.z, period.z);
  }

  /** Beyond half a period the far sides of an axis are nearer through the boundary. */
  lemma FarSides(lo: real, hi: real, p: real)
    requires p > 0.0 && hi - lo > p / 2.0
    ensures Square(Wrap(hi - lo, p)) < Square(hi - lo)
  {
    var d, e := hi - lo, Abs(Wrap(hi - lo, p));
    WrapNearest(d, p, 0);
    SameSquare(Wrap(d, p), e);
    assert 0.0 <= e < d;
    assert e * e <= e * d < d * d;
  }

  /** Over a box plain distances are the periodic ones exactly when the box spans at most half a period an axis. */
  lemma HalfPeriodExact(box: Box, period: Vec)
    requires Within(box.lo, box) && Within(box.hi, box)
    ensures HalfPeriod(box, period)
       <==> forall p: Vec, q: Vec {:trigger DistSq(p, q, period)} :: Within(p, box) && Within(q, box) ==>
              DistSq(p, q, period) == PlainDistSq(p, q)
  {
    var lo, hi := box.lo, box.hi;
    if HalfPeriod(box, period) {
      forall p: Vec, q: Vec | Within(p, box) && Within(q, box) ensures DistSq(p, q, period) == PlainDistSq(p, q) {
        PlainWithinHalfPeriod(p, q, box, period);
      }
    } else {
      var p := if period.x > 0.0 && hi.x - lo.x > period.x / 2.0 then Vec(hi.x, lo.y, lo.z)
               else if period.y > 0.0 && hi.y - lo.y > period.y / 2.0 then Vec(lo.x, hi.y, lo.z)
               else Vec(lo.x, lo.y, hi.z);
      OneAxisApart(lo, p, period);
      assert Within(p, box) && DistSq(p, lo, period) != PlainDistSq(p, lo);
    }
  }

  /** Two points apart on one axis only, by more than half its period. */
  lemma OneAxisApart(q: Vec, p: Vec, period: Vec)
    requires (period.x > 0.0 && p.x - q.x > period.x / 2.0 && p.y == q.y && p.z == q.z)
          || (period.y > 0.0 && p.y - q.y > period.y / 2.0 && p.x == q.x && p.z == q.z)
          || (period.z > 0.0 && p.z - q.z > period.z / 2.0 && p.x == q.x && p.y == q.y)
    ensures DistSq(p, q, period) < PlainDistSq(p, q)
  {
    HalfPeriodPlain(0.0, period.x);
    HalfPeriodPlain(0.0, period.y);
    HalfPeriodPlain(0.0, period.z);
    if period.x > 0.0 && p.x - q.x > period.x / 2.0 { FarSides(q.x, p.x, period.x); }
    else if period.y > 0.0 && p.y - q.y > period.y / 2.0 { FarSides(q.y, p.y, period.y); }
    else { FarSides(q.z, p.z, period.z); }
  }

  /** What the grid knows of a linked pair, and of a pair in the same or face-adjacent cells. */
  lemma PairInGrid(p: Particle, q: Particle, box: Box, c: real, rule: Rule)
    requires GridFits(rule, box, c) && Within(p.pos, box) && Within(q.pos, box)
    ensures var d := Between(FrameOf(box, c).CellAt(p.pos), FrameOf(box, c).CellAt(q.pos));
            && (Linked(p, q, rule) ==> Reachable(d))
            && (d == Offset(0, 0, 0) || Face(d) ==> Linked(p, q, rule))
  {
    CellOfContained(p.pos, box, c);
    CellOfContained(q.pos, box, c);
    PlainWithinHalfPeriod(p.pos, q.pos, box, rule.period);
    var d := OffsetOf(p.pos, q.pos, box.lo, c);
    if Linked(p, q, rule) { StencilComplete(p.pos, q.pos, box.lo, c, rule.b2); }
    if d == Offset(0, 0, 0) || Face(d) { NearIsFree(p.pos, q.pos, box.lo, c); }
  }

  ghost predicate AllWithin(parts: seq<Particle>, box: Box, base: nat, n: nat) {
    base + n <= |parts| && forall i {:trigger parts[i]} :: base <= i < base + n ==> Within(parts[i].pos, box)
  }

  ghost predicate GridFits(rule: Rule, box: Box, c: real) {
    c > 0.0 && 6.0 * Square(c) == rule.b2 && rule.b2 > 0.0 && HalfPeriod(box, rule.period) && FrameOf(box, c).Fits()
  }

  // ---- The state of the solve, over `ids`: the flat indices in cell order.

  ghost predicate RunJoined(parent: seq<nat>, order: seq<nat>, ids: seq<nat>, lo: nat, hi: nat, rep: nat)
    requires Ranked(parent, order) && hi <= |ids|
  {
    forall q {:trigger ids[q]} :: lo <= q < hi ==> Joined(parent, order, ids[q], rep)
  }

  ghost predicate CellsJoined(parent: seq<nat>, order: seq<nat>, ids: seq<nat>, occ: seq<Occ>)
    requires Ranked(parent, order)
  {
    forall m {:trigger occ[m]} :: 0 <= m < |occ| ==>
          occ[m].end <= |ids| && RunJoined(parent, order, ids, occ[m].begin, occ[m].end, occ[m].rep)
  }

  /** Every link between the two runs has been joined. */
  ghost predicate RunsSolved(parts: seq<Particle>, rule: Rule, parent: seq<nat>, order: seq<nat>, ids: seq<nat>,
                             a: Occ, b: Occ)
    requires Ranked(parent, order) && |parts| == |parent|
  {
    forall q, r {:trigger ids[q], ids[r]} ::
      (a.begin <= q < a.end && b.begin <= r < b.end && q < |ids| && r < |ids|
       && ids[q] < |parts| && ids[r] < |parts| && Linked(parts[ids[q]], parts[ids[r]], rule))
      ==> Joined(parent, order, ids[q], ids[r])
  }

  predicate Abuts(occ: seq<Occ>, m: nat) {
    0 < m < |occ| ==> occ[m].begin == occ[m - 1].end
  }

  /** The runs partition the first k entries of the sorted list by key. */
  ghost predicate Groups(keys: seq<int>, occ: seq<Occ>, k: nat) {
    && k <= |keys|
    && (k == 0 <==> occ == [])
    && (occ != [] ==> occ[0].begin == 0 && occ[|occ| - 1].end == k)
    && (forall m {:trigger occ[m]} :: 0 <= m < |occ| ==> occ[m].begin < occ[m].end <= k)
    && (forall m: nat {:trigger Abuts(occ, m)} :: Abuts(occ, m))
    && (forall m, q {:trigger occ[m], keys[q]} :: 0 <= m < |occ| && occ[m].begin <= q < occ[m].end ==>
          keys[q] == occ[m].key)
    && (forall m, l {:trigger occ[m], occ[l]} :: 0 <= m < l < |occ| ==> occ[m].key < occ[l].key)
  }

  lemma {:induction false} FindRun(keys: seq<int>, occ: seq<Occ>, k: nat, q: nat) returns (m: nat)
    requires Groups(keys, occ, k) && q < k
    ensures m < |occ| && occ[m].begin <= q < occ[m].end && occ[m].key == keys[q]
  {
    m := |occ| - 1;
    while occ[m].begin > q
      invariant 0 <= m < |occ| && q < occ[m].end
    {
      assert Abuts(occ, m);
      m := m - 1;
    }
    assert keys[q] == occ[m].key;
  }

  /** findOcc: binary search over the runs. */
  method FindOcc(occ: seq<Occ>, key: int) returns (found: bool, at: nat)
    requires forall m, l {:trigger occ[m], occ[l]} :: 0 <= m < l < |occ| ==> occ[m].key < occ[l].key
    ensures found ==> at < |occ| && occ[at].key == key
    ensures !found ==> forall m :: 0 <= m < |occ| ==> occ[m].key != key
  {
    var lo, hi := 0, |occ| - 1;
    while lo <= hi
      invariant 0 <= lo <= |occ| && -1 <= hi < |occ|
      invariant forall m :: 0 <= m < |occ| && !(lo <= m <= hi) ==> occ[m].key != key
      decreases hi - lo + 1
    {
      var mid := (lo + hi) / 2;
      if occ[mid].key == key { return true, mid; }
      if occ[mid].key < key { lo := mid + 1; } else { hi := mid - 1; }
    }
    found, at := false, 0;
  }

  // ---- Stability under further unions.

  lemma CoarserCells(before: seq<nat>, after: seq<nat>, order: seq<nat>, ids: seq<nat>, occ: seq<Occ>)
    requires Ranked(before, order) && Ranked(after, order) && Coarser(before, after, order)
    requires CellsJoined(before, order, ids, occ)
    ensures CellsJoined(after, order, ids, occ)
  {
    forall m, q | 0 <= m < |occ| && occ[m].begin <= q < occ[m].end
      ensures Joined(after, order, ids[q], occ[m].rep)
    {
      assert Joined(before, order, ids[q], occ[m].rep);
    }
  }

  lemma CoarserRuns(parts: seq<Particle>, rule: Rule, before: seq<nat>, after: seq<nat>, order: seq<nat>,
                    ids: seq<nat>, a: Occ, b: Occ)
    requires Ranked(before, order) && Ranked(after, order) && Coarser(before, after, order) && |parts| == |order|
    requires RunsSolved(parts, rule, before, order, ids, a, b)
    ensures RunsSolved(parts, rule, after, order, ids, a, b)
  {
    forall q, r | a.begin <= q < a.end && b.begin <= r < b.end && q < |ids| && r < |ids|
      && ids[q] < |parts| && ids[r] < |parts| && Linked(parts[ids[q]], parts[ids[r]], rule)
      ensures Joined(after, order, ids[q], ids[r])
    {
      assert Joined(before, order, ids[q], ids[r]);
    }
  }

  /** Two cliques whose representatives share a root have nothing left to join. */
  lemma CliquesSolve(parts: seq<Particle>, rule: Rule, parent: seq<nat>, order: seq<nat>, ids: seq<nat>, a: Occ, b: Occ)
    requires Ranked(parent, order) && |parts| == |parent| && a.end <= |ids| && b.end <= |ids|
    requires RunJoined(parent, order, ids, a.begin, a.end, a.rep)
    requires RunJoined(parent, order, ids, b.begin, b.end, b.rep)
    requires Joined(parent, order, a.rep, b.rep)
    ensures RunsSolved(parts, rule, parent, order, ids, a, b)
  {
  }

  /** The list the grid works on: flat indices below a node, keyed by cell and sorted. */
  ghost predicate Keyed(parts: seq<Particle>, box: Box, c: real, ids: seq<nat>, keys: seq<int>, base: nat, n: nat) {
    && c > 0.0 && |ids| == |keys| == n && base + n <= |parts|
    && (forall q {:trigger ids[q]} :: 0 <= q < n ==> base <= ids[q] < base + n)
    && (forall q {:trigger keys[q]} :: 0 <= q < n ==> keys[q] == Pack(FrameOf(box, c).CellAt(parts[ids[q]].pos)))
    && (forall i {:trigger i in ids} :: base <= i < base + n ==> i in ids)
    && (forall q, r {:trigger keys[q], keys[r]} :: 0 <= q < r < n ==> keys[q] <= keys[r])
  }

  /** The cell list, sorted by key. */
  method SortedCells(parts: seq<Particle>, box: Box, c: real, base: nat, n: nat) returns (ids: seq<nat>, keys: seq<int>)
    requires c > 0.0 && base + n <= |parts|
    ensures Keyed(parts, box, c, ids, keys, base, n)
  {
    var f := FrameOf(box, c);
    var cells: seq<(int, nat)> := [];
    for i := 0 to n
      invariant |cells| == i
      invariant forall k {:trigger cells[k]} :: 0 <= k < i ==>
            cells[k] == (Pack(f.CellAt(parts[base + k].pos)), base + k)
    {
      cells := cells + [(Pack(f.CellAt(parts[base + i].pos)), base + i)];
    }
    var sorted := SortBy(cells, (e: (int, nat)) => e.0);
    ids := seq(n, q requires 0 <= q < n => sorted[q].1);
    keys := seq(n, q requires 0 <= q < n => sorted[q].0);
    forall q | 0 <= q < n
      ensures base <= ids[q] < base + n && keys[q] == Pack(f.CellAt(parts[ids[q]].pos))
    {
      SameMembers(sorted, cells, sorted[q]);
      assert sorted[q] in sorted;
    }
    forall i: nat | base <= i < base + n
      ensures i in ids
    {
      var e := cells[i - base];
      SameMembers(sorted, cells, e);
      var q :| 0 <= q < n && sorted[q] == e;
      assert ids[q] == i;
    }
    forall q, r | 0 <= q < r < n
      ensures keys[q] <= keys[r]
    {
      assert sorted[q].0 <= sorted[r].0;
    }
  }

  /** First pass: each cell becomes a clique through its first particle. */
  method UniteCells(e: Engine, box: Box, c: real, base: nat, n: nat, ids: seq<nat>, keys: seq<int>)
    returns (occ: seq<Occ>)
    requires e.Valid() && GridFits(e.rule, box, c) && Keyed(e.parts, box, c, ids, keys, base, n)
    requires AllWithin(e.parts, box, base, n)
    modifies e`parent
    ensures e.Valid() && Coarser(old(e.parent), e.parent, e.order)
    ensures Groups(keys, occ, n) && CellsJoined(e.parent, e.order, ids, occ)
    ensures forall m {:trigger occ[m]} :: 0 <= m < |occ| ==> occ[m].rep == ids[occ[m].begin]
  {
    occ := [];
    var k := 0;
    while k < n
      invariant 0 <= k <= n && e.Valid() && Coarser(old(e.parent), e.parent, e.order)
      invariant Groups(keys, occ, k) && CellsJoined(e.parent, e.order, ids, occ)
      invariant occ != [] && k < n ==> occ[|occ| - 1].key < keys[k]
      invariant forall m {:trigger occ[m]} :: 0 <= m < |occ| ==> occ[m].rep == ids[occ[m].begin]
      decreases n - k
    {
      ghost var before := e.parent;
      var rep := ids[k];
      var end := UniteRun(e, box, c, base, n, ids, keys, k);
      CoarserTrans(old(e.parent), before, e.parent, e.order);
      CoarserCells(before, e.parent, e.order, ids, occ);
      occ := GroupsGrow(keys, occ, k, end, rep);
      k := end;
    }
  }

  function GroupsGrow(keys: seq<int>, occ: seq<Occ>, k: nat, end: nat, rep: nat): (r: seq<Occ>)
    requires Groups(keys, occ, k) && k < end <= |keys|
    requires occ != [] ==> occ[|occ| - 1].key < keys[k]
    requires forall q {:trigger keys[q]} :: k <= q < end ==> keys[q] == keys[k]
    ensures Groups(keys, r, end)
  {
    var r := occ + [Occ(keys[k], k, end, rep)];
    assert forall m: nat {:trigger Abuts(r, m)} :: Abuts(r, m) by {
      forall m: nat ensures Abuts(r, m) { assert Abuts(occ, m); }
    }
    assert forall m {:trigger occ[m]} :: 0 <= m < |occ| - 1 ==> occ[m].key < occ[|occ| - 1].key;
    r
  }

  method UniteRun(e: Engine, box: Box, c: real, base: nat, n: nat, ids: seq<nat>, keys: seq<int>, k: nat)
    returns (end: nat)
    requires e.Valid() && GridFits(e.rule, box, c) && Keyed(e.parts, box, c, ids, keys, base, n)
    requires AllWithin(e.parts, box, base, n)
    requires k < n
    modifies e`parent
    ensures e.Valid() && Coarser(old(e.parent), e.parent, e.order)
    ensures k < end <= n && (forall q {:trigger keys[q]} :: k <= q < end ==> keys[q] == keys[k])
    ensures (end < n ==> keys[k] < keys[end])
    ensures RunJoined(e.parent, e.order, ids, k, end, ids[k])
  {
    end := k + 1;
    while end < n && keys[end] == keys[k]
      invariant k < end <= n && e.Valid() && Coarser(old(e.parent), e.parent, e.order)
      invariant forall q {:trigger keys[q]} :: k <= q < end ==> keys[q] == keys[k]
      invariant RunJoined(e.parent, e.order, ids, k, end, ids[k])
    {
      ghost var before := e.parent;
      UniteNext(e, box, c, base, n, ids, keys, k, end);
      CoarserTrans(old(e.parent), before, e.parent, e.order);
      end := end + 1;
    }
  }

  method UniteNext(e: Engine, ghost box: Box, ghost c: real, ghost base: nat, n: nat, ids: seq<nat>,
                   ghost keys: seq<int>, k: nat, end: nat)
    requires e.Valid() && GridFits(e.rule, box, c) && Keyed(e.parts, box, c, ids, keys, base, n)
    requires AllWithin(e.parts, box, base, n)
    requires k < end < n && keys[end] == keys[k] && RunJoined(e.parent, e.order, ids, k, end, ids[k])
    modifies e`parent
    ensures e.Valid() && Coarser(old(e.parent), e.parent, e.order)
    ensures RunJoined(e.parent, e.order, ids, k, end + 1, ids[k])
  {
    ghost var before := e.parent;
    UniteSameCell(e, box, c, ids[k], ids[end]);
    RunJoinedNext(before, e.parent, e.order, ids, k, end, ids[k]);
  }

  method UniteSameCell(e: Engine, ghost box: Box, ghost c: real, i: nat, j: nat)
    requires e.Valid() && GridFits(e.rule, box, c) && i < |e.parts| && j < |e.parts|
    requires Within(e.parts[i].pos, box) && Within(e.parts[j].pos, box)
    requires Pack(FrameOf(box, c).CellAt(e.parts[i].pos)) == Pack(FrameOf(box, c).CellAt(e.parts[j].pos))
    modifies e`parent
    ensures e.Valid() && Coarser(old(e.parent), e.parent, e.order) && Joined(e.parent, e.order, i, j)
  {
    SameKeySameCell(e.parts, e.rule, box, c, i, j);
    PairInGrid(e.parts[i], e.parts[j], box, c, e.rule);
    LinkedConn(e.parts, e.rule, i, j);
    e.Unite(i, j);
  }

  lemma RunJoinedNext(before: seq<nat>, after: seq<nat>, order: seq<nat>, ids: seq<nat>, lo: nat, hi: nat, rep: nat)
    requires Ranked(before, order) && Ranked(after, order) && Coarser(before, after, order) && hi < |ids|
    requires RunJoined(before, order, ids, lo, hi, rep) && Joined(after, order, rep, ids[hi])
    ensures RunJoined(after, order, ids, lo, hi + 1, rep)
  {
    forall q | lo <= q < hi
      ensures Joined(after, order, ids[q], rep)
    {
      assert Joined(before, order, ids[q], rep);
    }
  }

  /** Particles with equal keys lie in one cell. */
  lemma SameKeySameCell(parts: seq<Particle>, rule: Rule, box: Box, c: real, i: nat, j: nat)
    requires i < |parts| && j < |parts| && GridFits(rule, box, c) && Within(parts[i].pos, box)
    requires Within(parts[j].pos, box)
    requires Pack(FrameOf(box, c).CellAt(parts[i].pos)) == Pack(FrameOf(box, c).CellAt(parts[j].pos))
    ensures FrameOf(box, c).CellAt(parts[i].pos) == FrameOf(box, c).CellAt(parts[j].pos)
  {
    CellOfContained(parts[i].pos, box, c);
    CellOfContained(parts[j].pos, box, c);
    PackUnpacks(FrameOf(box, c), FrameOf(box, c).CellAt(parts[i].pos));
    PackUnpacks(FrameOf(box, c), FrameOf(box, c).CellAt(parts[j].pos));
  }

  method FirstWitness(parts: seq<Particle>, rule: Rule, ids: seq<nat>, a: Occ, b: Occ)
    returns (found: bool, q: nat, r: nat)
    requires a.end <= |ids| && b.end <= |ids| && forall i {:trigger ids[i]} :: 0 <= i < |ids| ==> ids[i] < |parts|
    ensures found ==> a.begin <= q < a.end && b.begin <= r < b.end && Linked(parts[ids[q]], parts[ids[r]], rule)
    ensures !found ==> forall i, j {:trigger ids[i], ids[j]} :: a.begin <= i < a.end && b.begin <= j < b.end ==>
          !Linked(parts[ids[i]], parts[ids[j]], rule)
  {
    q := a.begin;
    while q < a.end
      invariant forall i, j {:trigger ids[i], ids[j]} :: a.begin <= i < q && i < a.end && b.begin <= j < b.end ==>
            !Linked(parts[ids[i]], parts[ids[j]], rule)
      decreases a.end - q
    {
      r := b.begin;
      while r < b.end
        invariant forall j {:trigger ids[j]} :: b.begin <= j < r && j < b.end ==>
              !Linked(parts[ids[q]], parts[ids[j]], rule)
        decreases b.end - r
      {
        if Linked(parts[ids[q]], parts[ids[r]], rule) { return true, q, r; }
        r := r + 1;
      }
      q := q + 1;
    }
    found, r := false, 0;
  }

  /** What every step of the crossing loops keeps; `cells` are the unpacked cells of the runs. */
  ghost predicate Gridded(e: Engine, box: Box, c: real, base: nat, n: nat, ids: seq<nat>, keys: seq<int>,
                          occ: seq<Occ>, cells: seq<Offset>)
    reads e
  {
    && e.Valid() && GridFits(e.rule, box, c) && Keyed(e.parts, box, c, ids, keys, base, n)
    && AllWithin(e.parts, box, base, n)
    && Groups(keys, occ, n) && CellsJoined(e.parent, e.order, ids, occ)
    && (forall m {:trigger occ[m]} :: 0 <= m < |occ| ==> occ[m].rep == ids[occ[m].begin])
    && RunsInCells(FrameOf(box, c), occ, cells)
  }

  ghost predicate RunsInCells(f: Frame, occ: seq<Occ>, cells: seq<Offset>) {
    && |cells| == |occ|
    && (forall m {:trigger cells[m]} :: 0 <= m < |occ| ==> f.Holds(cells[m]) && occ[m].key == Pack(cells[m]))
  }

  lemma RunCell(parts: seq<Particle>, rule: Rule, box: Box, c: real, base: nat, n: nat, ids: seq<nat>, keys: seq<int>,
                occ: seq<Occ>, cells: seq<Offset>, m: nat, q: nat)
    requires GridFits(rule, box, c) && Keyed(parts, box, c, ids, keys, base, n) && AllWithin(parts, box, base, n)
    requires Groups(keys, occ, n) && RunsInCells(FrameOf(box, c), occ, cells)
    requires m < |occ| && occ[m].begin <= q < occ[m].end
    ensures q < n && FrameOf(box, c).CellAt(parts[ids[q]].pos) == cells[m]
  {
    var f := FrameOf(box, c);
    assert keys[q] == occ[m].key;
    assert occ[m].key == Pack(cells[m]);
    CellOfContained(parts[ids[q]].pos, box, c);
    PackUnpacks(f, f.CellAt(parts[ids[q]].pos));
    PackUnpacks(f, cells[m]);
  }

  /** Cross a cell with one forward neighbour: free across a face, skipped when already one
      component, else the first pair within b merges both cliques. */
  method CrossCells(e: Engine, box: Box, c: real, base: nat, n: nat, ids: seq<nat>, keys: seq<int>, occ: seq<Occ>,
                    ghost cells: seq<Offset>, x: nat, y: nat, d: Offset)
    requires Gridded(e, box, c, base, n, ids, keys, occ, cells) && x < |occ| && y < |occ|
    requires d == Between(cells[x], cells[y])
    modifies e`parent
    ensures Gridded(e, box, c, base, n, ids, keys, occ, cells) && Coarser(old(e.parent), e.parent, e.order)
    ensures RunsSolved(e.parts, e.rule, e.parent, e.order, ids, occ[x], occ[y])
  {
    if Face(d) {
      RunCell(e.parts, e.rule, box, c, base, n, ids, keys, occ, cells, x, occ[x].begin);
      RunCell(e.parts, e.rule, box, c, base, n, ids, keys, occ, cells, y, occ[y].begin);
      PairInGrid(e.parts[occ[x].rep], e.parts[occ[y].rep], box, c, e.rule);
      LinkedConn(e.parts, e.rule, occ[x].rep, occ[y].rep);
      e.Unite(occ[x].rep, occ[y].rep);
      CoarserCells(old(e.parent), e.parent, e.order, ids, occ);
      CliquesSolve(e.parts, e.rule, e.parent, e.order, ids, occ[x], occ[y]);
    } else {
      var same := SameComponent(e, occ[x].rep, occ[y].rep);
      CoarserCells(old(e.parent), e.parent, e.order, ids, occ);
      if same {
        CliquesSolve(e.parts, e.rule, e.parent, e.order, ids, occ[x], occ[y]);
      } else {
        ghost var p1 := e.parent;
        MergeByWitness(e, ids, occ, x, y);
        CoarserTrans(old(e.parent), p1, e.parent, e.order);
      }
    }
  }

  method SameComponent(e: Engine, p: nat, q: nat) returns (same: bool)
    requires e.Valid() && p < |e.parent| && q < |e.parent|
    modifies e`parent
    ensures e.Valid() && Coarser(old(e.parent), e.parent, e.order)
    ensures same ==> Joined(e.parent, e.order, p, q)
  {
    var fp := e.Find(p);
    ghost var p1 := e.parent;
    var fq := e.Find(q);
    CoarserTrans(old(e.parent), p1, e.parent, e.order);
    same := fp == fq;
  }

  /** The first pair within b merges both cliques; without one there is no link to join. */
  method MergeByWitness(e: Engine, ids: seq<nat>, occ: seq<Occ>, x: nat, y: nat)
    requires e.Valid() && CellsJoined(e.parent, e.order, ids, occ) && x < |occ| && y < |occ|
    requires forall i {:trigger ids[i]} :: 0 <= i < |ids| ==> ids[i] < |e.parts|
    modifies e`parent
    ensures e.Valid() && Coarser(old(e.parent), e.parent, e.order) && CellsJoined(e.parent, e.order, ids, occ)
    ensures RunsSolved(e.parts, e.rule, e.parent, e.order, ids, occ[x], occ[y])
  {
    var a, b := occ[x], occ[y];
    var found, q, r := FirstWitness(e.parts, e.rule, ids, a, b);
    if found {
      LinkedConn(e.parts, e.rule, ids[q], ids[r]);
      e.Unite(ids[q], ids[r]);
      CoarserCells(old(e.parent), e.parent, e.order, ids, occ);
      assert Joined(e.parent, e.order, ids[q], a.rep) && Joined(e.parent, e.order, ids[r], b.rep);
      CliquesSolve(e.parts, e.rule, e.parent, e.order, ids, a, b);
    }
  }

  /** The forward neighbours of run x already crossed. */
  ghost predicate Crossed(parts: seq<Particle>, rule: Rule, parent: seq<nat>, order: seq<nat>, ids: seq<nat>,
                          occ: seq<Occ>, cells: seq<Offset>, x: nat, offs: seq<Offset>)
    requires Ranked(parent, order) && |parts| == |parent| && x < |occ| == |cells|
  {
    forall y {:trigger cells[y]} :: 0 <= y < |occ| && Between(cells[x], cells[y]) in offs ==>
      RunsSolved(parts, rule, parent, order, ids, occ[x], occ[y])
  }

  lemma CoarserCrossed(parts: seq<Particle>, rule: Rule, before: seq<nat>, after: seq<nat>, order: seq<nat>,
                       ids: seq<nat>, occ: seq<Occ>, cells: seq<Offset>, x: nat, offs: seq<Offset>)
    requires Ranked(before, order) && Ranked(after, order) && Coarser(before, after, order) && |parts| == |order|
    requires x < |occ| == |cells|
    requires Crossed(parts, rule, before, order, ids, occ, cells, x, offs)
    ensures Crossed(parts, rule, after, order, ids, occ, cells, x, offs)
  {
    forall y | 0 <= y < |occ| && Between(cells[x], cells[y]) in offs
      ensures RunsSolved(parts, rule, after, order, ids, occ[x], occ[y])
    {
      CoarserRuns(parts, rule, before, after, order, ids, occ[x], occ[y]);
    }
  }

  /** Unpacking every run's key gives the cell its particles lie in. */
  method UnpackRuns(ghost parts: seq<Particle>, ghost rule: Rule, ghost box: Box, ghost c: real, ghost base: nat,
                    ghost n: nat, ghost ids: seq<nat>, ghost keys: seq<int>, occ: seq<Occ>)
    returns (cells: seq<Offset>)
    requires GridFits(rule, box, c) && Keyed(parts, box, c, ids, keys, base, n) && AllWithin(parts, box, base, n)
    requires Groups(keys, occ, n)
    ensures RunsInCells(FrameOf(box, c), occ, cells)
  {
    cells := [];
    for m := 0 to |occ|
      invariant |cells| == m
      invariant forall k {:trigger cells[k]} :: 0 <= k < m ==>
            FrameOf(box, c).Holds(cells[k]) && occ[k].key == Pack(cells[k])
    {
      assert keys[occ[m].begin] == occ[m].key;
      CellOfContained(parts[ids[occ[m].begin]].pos, box, c);
      PackUnpacks(FrameOf(box, c), FrameOf(box, c).CellAt(parts[ids[occ[m].begin]].pos));
      cells := cells + [Unpack(occ[m].key)];
    }
  }

  /** One forward offset of one cell. */
  method CrossOffset(e: Engine, box: Box, c: real, base: nat, n: nat, ids: seq<nat>, keys: seq<int>, occ: seq<Occ>,
                     cells: seq<Offset>, x: nat, d: Offset)
    requires Gridded(e, box, c, base, n, ids, keys, occ, cells) && x < |occ|
    modifies e`parent
    ensures Gridded(e, box, c, base, n, ids, keys, occ, cells) && Coarser(old(e.parent), e.parent, e.order)
    ensures Crossed(e.parts, e.rule, e.parent, e.order, ids, occ, cells, x, [d])
  {
    var f := FrameOf(box, c);
    var j := Plus(cells[x], d);
    if !f.Holds(j) {
      NoNeighbour(f, occ, cells, x, d);
      return;
    }
    var found, y := FindOcc(occ, Pack(j));
    if !found {
      NoNeighbour(f, occ, cells, x, d);
      return;
    }
    NeighbourIs(f, occ, cells, x, d, y);
    CrossCells(e, box, c, base, n, ids, keys, occ, cells, x, y, d);
  }

  lemma NoNeighbour(f: Frame, occ: seq<Occ>, cells: seq<Offset>, x: nat, d: Offset)
    requires RunsInCells(f, occ, cells) && x < |occ|
    requires !f.Holds(Plus(cells[x], d)) || forall m :: 0 <= m < |occ| ==> occ[m].key != Pack(Plus(cells[x], d))
    ensures forall y {:trigger cells[y]} :: 0 <= y < |occ| ==> Between(cells[x], cells[y]) !in [d]
  {
    forall y | 0 <= y < |occ| && Between(cells[x], cells[y]) == d
      ensures cells[y] == Plus(cells[x], d)
    {
    }
  }

  /** The run found is the one neighbour at offset d. */
  lemma NeighbourIs(f: Frame, occ: seq<Occ>, cells: seq<Offset>, x: nat, d: Offset, y: nat)
    requires f.Fits() && RunsInCells(f, occ, cells) && x < |occ| && y < |occ|
    requires forall m, l {:trigger occ[m], occ[l]} :: 0 <= m < l < |occ| ==> occ[m].key < occ[l].key
    requires f.Holds(Plus(cells[x], d)) && occ[y].key == Pack(Plus(cells[x], d))
    ensures d == Between(cells[x], cells[y])
    ensures forall z {:trigger cells[z]} :: 0 <= z < |occ| && Between(cells[x], cells[z]) in [d] ==> z == y
  {
    PackUnpacks(f, Plus(cells[x], d));
    PackUnpacks(f, cells[y]);
    assert cells[y] == Plus(cells[x], d);
    forall z | 0 <= z < |occ| && Between(cells[x], cells[z]) in [d]
      ensures z == y
    {
      assert cells[z] == Plus(cells[x], d) && occ[z].key == Pack(cells[z]) == occ[y].key;
    }
  }

  lemma CrossedNext(parts: seq<Particle>, rule: Rule, parent: seq<nat>, order: seq<nat>, ids: seq<nat>,
                    occ: seq<Occ>, cells: seq<Offset>, x: nat, offs: seq<Offset>, t: nat)
    requires Ranked(parent, order) && |parts| == |parent| && x < |occ| == |cells| && t < |offs|
    requires Crossed(parts, rule, parent, order, ids, occ, cells, x, offs[..t])
    requires Crossed(parts, rule, parent, order, ids, occ, cells, x, [offs[t]])
    ensures Crossed(parts, rule, parent, order, ids, occ, cells, x, offs[..t + 1])
  {
    assert offs[..t + 1] == offs[..t] + [offs[t]];
  }

  /** All forward neighbours of one cell. */
  method CrossRun(e: Engine, box: Box, c: real, base: nat, n: nat, ids: seq<nat>, keys: seq<int>, occ: seq<Occ>,
                  cells: seq<Offset>, offs: seq<Offset>, x: nat)
    requires Gridded(e, box, c, base, n, ids, keys, occ, cells) && x < |occ|
    modifies e`parent
    ensures Gridded(e, box, c, base, n, ids, keys, occ, cells) && Coarser(old(e.parent), e.parent, e.order)
    ensures Crossed(e.parts, e.rule, e.parent, e.order, ids, occ, cells, x, offs)
  {
    for t := 0 to |offs|
      invariant Gridded(e, box, c, base, n, ids, keys, occ, cells) && Coarser(old(e.parent), e.parent, e.order)
      invariant Crossed(e.parts, e.rule, e.parent, e.order, ids, occ, cells, x, offs[..t])
    {
      ghost var before := e.parent;
      CrossOffset(e, box, c, base, n, ids, keys, occ, cells, x, offs[t]);
      CoarserTrans(old(e.parent), before, e.parent, e.order);
      CoarserCrossed(e.parts, e.rule, before, e.parent, e.order, ids, occ, cells, x, offs[..t]);
      CrossedNext(e.parts, e.rule, e.parent, e.order, ids, occ, cells, x, offs, t);
    }
    assert offs[..|offs|] == offs;
  }

  ghost predicate AllCrossed(parts: seq<Particle>, rule: Rule, parent: seq<nat>, order: seq<nat>, ids: seq<nat>,
                             occ: seq<Occ>, cells: seq<Offset>, offs: seq<Offset>, k: nat)
    requires Ranked(parent, order) && |parts| == |parent| && k <= |occ| == |cells|
  {
    forall x {:trigger occ[x]} :: 0 <= x < k ==> Crossed(parts, rule, parent, order, ids, occ, cells, x, offs)
  }

  lemma CoarserAllCrossed(parts: seq<Particle>, rule: Rule, before: seq<nat>, after: seq<nat>, order: seq<nat>,
                          ids: seq<nat>, occ: seq<Occ>, cells: seq<Offset>, offs: seq<Offset>, k: nat)
    requires Ranked(before, order) && Ranked(after, order) && Coarser(before, after, order) && |parts| == |order|
    requires k <= |occ| == |cells|
    requires AllCrossed(parts, rule, before, order, ids, occ, cells, offs, k)
    ensures AllCrossed(parts, rule, after, order, ids, occ, cells, offs, k)
  {
    forall x | 0 <= x < k
      ensures Crossed(parts, rule, after, order, ids, occ, cells, x, offs)
    {
      var o := occ[x];
      CoarserCrossed(parts, rule, before, after, order, ids, occ, cells, x, offs);
    }
  }

  /** All cells. */
  method CrossAll(e: Engine, box: Box, c: real, base: nat, n: nat, ids: seq<nat>, keys: seq<int>, occ: seq<Occ>,
                  cells: seq<Offset>, offs: seq<Offset>)
    requires Gridded(e, box, c, base, n, ids, keys, occ, cells)
    modifies e`parent
    ensures Gridded(e, box, c, base, n, ids, keys, occ, cells) && Coarser(old(e.parent), e.parent, e.order)
    ensures AllCrossed(e.parts, e.rule, e.parent, e.order, ids, occ, cells, offs, |occ|)
  {
    for x := 0 to |occ|
      invariant Gridded(e, box, c, base, n, ids, keys, occ, cells) && Coarser(old(e.parent), e.parent, e.order)
      invariant AllCrossed(e.parts, e.rule, e.parent, e.order, ids, occ, cells, offs, x)
    {
      ghost var before := e.parent;
      CrossRun(e, box, c, base, n, ids, keys, occ, cells, offs, x);
      CoarserTrans(old(e.parent), before, e.parent, e.order);
      CoarserAllCrossed(e.parts, e.rule, before, e.parent, e.order, ids, occ, cells, offs, x);
      forall y | 0 <= y < x + 1
        ensures Crossed(e.parts, e.rule, e.parent, e.order, ids, occ, cells, y, offs)
      {
        var o := occ[y];
      }
    }
  }

  /** Cliques plus forward neighbours cover every pair of the range, whichever side comes first. */
  lemma GridCovers(e: Engine, box: Box, c: real, base: nat, n: nat, ids: seq<nat>, keys: seq<int>, occ: seq<Occ>,
                   cells: seq<Offset>, offs: seq<Offset>, i: nat, j: nat)
    requires Gridded(e, box, c, base, n, ids, keys, occ, cells)
    requires forall d :: d in offs <==> !Backward(d) && Reachable(d)
    requires AllCrossed(e.parts, e.rule, e.parent, e.order, ids, occ, cells, offs, |occ|)
    requires base <= i < base + n && base <= j < base + n && Linked(e.parts[i], e.parts[j], e.rule)
    ensures Joined(e.parent, e.order, i, j)
  {
    assert i in ids && j in ids;
    var q :| 0 <= q < n && ids[q] == i;
    var r :| 0 <= r < n && ids[r] == j;
    var x := FindRun(keys, occ, n, q);
    var y := FindRun(keys, occ, n, r);
    RunCell(e.parts, e.rule, box, c, base, n, ids, keys, occ, cells, x, q);
    RunCell(e.parts, e.rule, box, c, base, n, ids, keys, occ, cells, y, r);
    PairInGrid(e.parts[i], e.parts[j], box, c, e.rule);
    LinkedSymmetric(e.parts[i], e.parts[j], e.rule);
    RunsCover(e.parts, e.rule, e.parent, e.order, ids, occ, cells, offs, x, y, q, r);
  }

  lemma RunsCover(parts: seq<Particle>, rule: Rule, parent: seq<nat>, order: seq<nat>, ids: seq<nat>, occ: seq<Occ>,
                  cells: seq<Offset>, offs: seq<Offset>, x: nat, y: nat, q: nat, r: nat)
    requires Ranked(parent, order) && |parts| == |parent| && x < |occ| == |cells| && y < |occ| && q < |ids| && r < |ids|
    requires ids[q] < |parts| && ids[r] < |parts|
    requires occ[x].begin <= q < occ[x].end && occ[y].begin <= r < occ[y].end
    requires forall m, l {:trigger occ[m], occ[l]} :: 0 <= m < l < |occ| ==> occ[m].key < occ[l].key
    requires occ[x].key == Pack(cells[x]) && occ[y].key == Pack(cells[y])
    requires CellsJoined(parent, order, ids, occ)
    requires forall d :: d in offs <==> !Backward(d) && Reachable(d)
    requires AllCrossed(parts, rule, parent, order, ids, occ, cells, offs, |occ|)
    requires Reachable(Between(cells[x], cells[y]))
    requires Linked(parts[ids[q]], parts[ids[r]], rule) && Linked(parts[ids[r]], parts[ids[q]], rule)
    ensures Joined(parent, order, ids[q], ids[r])
  {
    var d := Between(cells[x], cells[y]);
    if d == Offset(0, 0, 0) {
      assert cells[x] == cells[y] && x == y;
      assert Joined(parent, order, ids[q], occ[x].rep) && Joined(parent, order, ids[r], occ[x].rep);
    } else if !Backward(d) {
      assert Crossed(parts, rule, parent, order, ids, occ, cells, x, offs);
      assert RunsSolved(parts, rule, parent, order, ids, occ[x], occ[y]);
    } else {
      var b := Between(cells[y], cells[x]);
      assert b == Negated(d) && !Backward(b) && Reachable(b);
      assert Crossed(parts, rule, parent, order, ids, occ, cells, y, offs);
      assert RunsSolved(parts, rule, parent, order, ids, occ[y], occ[x]);
      assert Joined(parent, order, ids[r], ids[q]);
    }
  }

  /** gridSelfUnionRange: solve all pairs of the contiguous range [base, base + n), or decline when
      a packed key could overflow or the range spans more than half a period. */
  method GridSelfUnion(e: Engine, box: Box, c: real, base: nat, n: nat) returns (solved: bool)
    requires e.Valid() && AllWithin(e.parts, box, base, n)
    requires c > 0.0 && 6.0 * Square(c) == e.rule.b2 && e.rule.b2 > 0.0
    modifies e`parent
    ensures e.Valid() && Coarser(old(e.parent), e.parent, e.order)
    ensures solved ==> BlockSolved(e.parts, e.rule, e.parent, e.order, base, base + n, base, base + n)
    ensures !solved ==> e.parent == old(e.parent)
    ensures solved <==> FrameOf(box, c).Fits() && HalfPeriod(box, e.rule.period)
  {
    solved := FrameOf(box, c).Fits() && HalfPeriod(box, e.rule.period);
    if !solved { return; }
    var ids, keys := SortedCells(e.parts, box, c, base, n);
    var occ := UniteCells(e, box, c, base, n, ids, keys);
    ghost var p1 := e.parent;
    var cells := UnpackRuns(e.parts, e.rule, box, c, base, n, ids, keys, occ);
    var offs := GridOffsets();
    CrossAll(e, box, c, base, n, ids, keys, occ, cells, offs);
    CoarserTrans(old(e.parent), p1, e.parent, e.order);
    forall i: nat, j: nat | base <= i < base + n && base <= j < base + n && Linked(e.parts[i], e.parts[j], e.rule)
      ensures Joined(e.parent, e.order, i, j)
    {
      GridCovers(e, box, c, base, n, ids, keys, occ, cells, offs, i, j);
    }
  }
}
