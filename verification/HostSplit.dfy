/** findSplitters of the host-cell decomposition, and the flush over its splitters. */
module HostSplit {
  import opened Arithmetic
  import opened Sorting
  import opened HostCells

  datatype Report = Report(key: Key, n: nat)

  datatype Splitter = Splitter(from: nat, to: nat, key: Key, n: nat)

  /** The ways findSplitters ends: splitters, or one of its aborts. */
  datatype Outcome = Splits(splitters: seq<Splitter>) | BadKey | Nested | Overlap | Miscounted

  // ---- Ancestors.

  predicate ProperAncestor(a: Key, k: Key) {
    k >= 8 && (a == k / 8 || ProperAncestor(a, k / 8))
  }

  lemma {:induction false} AncestorUp(a: Key, k: Key)
    requires ProperAncestor(a, k) && a >= 8
    ensures ProperAncestor(a / 8, k)
  {
    if a != k / 8 { AncestorUp(a, k / 8); }
  }

  lemma {:induction false} AncestorKey(a: Key, k: Key)
    requires OctKey(k) && ProperAncestor(a, k)
    ensures OctKey(a) && Depth(a) < Depth(k)
    ensures (forall S: set<Key> {:trigger UpClosed(S)} :: UpClosed(S) && k / 8 in S ==> a in S)
  {
    if a != k / 8 { AncestorKey(a, k / 8); }
  }

  ghost predicate UpClosed(internal: set<Key>) {
    forall b {:trigger b in internal} :: b in internal ==> OctKey(b) && (b > 1 ==> b / 8 in internal)
  }

  /** Insert a cell's proper ancestors, from the parent up, stopping at the first already there. */
  method InsertAncestors(k: Key, internal: set<Key>) returns (more: set<Key>)
    requires OctKey(k) && UpClosed(internal)
    ensures internal <= more && UpClosed(more) && (k > 1 ==> k / 8 in more)
    ensures forall a {:trigger a in more} :: a in more && a !in internal ==> ProperAncestor(a, k)
  {
    more := internal;
    if k == 1 { return; }
    var a := k / 8;
    while a >= 1
      invariant internal <= more && (a >= 1 ==> ProperAncestor(a, k) && OctKey(a))
      invariant k / 8 == a || k / 8 in more
      invariant forall b {:trigger b in more} :: b in more ==> OctKey(b) && (b > 1 ==> b / 8 in more || b / 8 == a)
      invariant forall b {:trigger b in more} :: b in more && b !in internal ==> ProperAncestor(b, k)
      decreases a
    {
      if a in more { return; }
      more := more + {a};
      if a >= 8 { AncestorUp(a, k); }
      a := a / 8;
    }
  }

  /** a is a proper ancestor of some cell. */
  ghost predicate Above(cells: set<Key>, a: Key) {
    exists k {:trigger k in cells} :: k in cells && ProperAncestor(a, k)
  }

  method Ancestors(cells: set<Key>) returns (internal: set<Key>)
    requires forall k {:trigger k in cells} :: k in cells ==> OctKey(k)
    ensures UpClosed(internal) && forall a {:trigger a in internal} :: a in internal <==> Above(cells, a)
    ensures forall k {:trigger k in cells} :: k in cells && k > 1 ==> k / 8 in internal
  {
    internal := {};
    var todo := cells;
    while todo != {}
      invariant todo <= cells && UpClosed(internal)
      invariant forall a {:trigger a in internal} :: a in internal ==> Above(cells, a)
      invariant forall k {:trigger k in cells} :: k in cells && k !in todo && k > 1 ==> k / 8 in internal
      decreases todo
    {
      var k :| k in todo;
      internal := InsertAncestors(k, internal);
      todo := todo - {k};
    }
    forall a | Above(cells, a)
      ensures a in internal
    {
      var k :| k in cells && ProperAncestor(a, k);
      AncestorKey(a, k);
    }
  }

  // ---- Fill.

  function Children(a: Key): set<Key> {
    {8 * a, 8 * a + 1, 8 * a + 2, 8 * a + 3, 8 * a + 4, 8 * a + 5, 8 * a + 6, 8 * a + 7}
  }

  lemma ChildOf(a: Key, k: Key)
    ensures k in Children(a) <==> k / 8 == a
  {
    assert k == (k / 8) * 8 + k % 8;
  }

  method Fill(cells: set<Key>, internal: set<Key>) returns (fill: set<Key>)
    ensures forall k {:trigger k in fill} :: k in fill <==> k / 8 in internal && k !in cells && k !in internal
  {
    fill := {};
    var todo := internal;
    while todo != {}
      invariant todo <= internal
      invariant forall k {:trigger k in fill} :: k in fill <==>
            k / 8 in internal && k / 8 !in todo && k !in cells && k !in internal
      decreases todo
    {
      var a :| a in todo;
      forall k { ChildOf(a, k); }
      fill := fill + (set k | k in Children(a) && k !in cells && k !in internal);
      todo := todo - {a};
    }
  }

  // ---- Sorting and tiling.

  /** The splitters of a set of leaves: one each, in key order. */
  ghost predicate Lists(leaves: set<Key>, s: seq<Key>) {
    && (forall k {:trigger k in leaves} {:trigger k in s} :: k in leaves <==> k in s)
    && (forall i, j {:trigger s[i], s[j]} :: 0 <= i < j < |s| ==> s[i] != s[j])
  }

  method SetToSeq(leaves: set<Key>) returns (s: seq<Key>)
    ensures Lists(leaves, s)
  {
    s := [];
    var todo := leaves;
    while todo != {}
      invariant todo <= leaves && Lists(leaves - todo, s)
      decreases todo
    {
      var k :| k in todo;
      s := s + [k];
      todo := todo - {k};
    }
    assert leaves - todo == leaves;
  }

  lemma PermutedLists(leaves: set<Key>, s: seq<Key>, r: seq<Key>)
    requires Lists(leaves, s) && multiset(r) == multiset(s)
    ensures Lists(leaves, r)
  {
    forall k ensures k in r <==> k in s { SameMembers(r, s, k); }
    forall i, j | 0 <= i < j < |r|
      ensures r[i] != r[j]
    {
      if r[i] == r[j] {
        SameMembers(r, s, r[i]);
        var a :| 0 <= a < |s| && s[a] == r[i];
        OnceIn(s, a);
        TwiceCounted(r, i, j);
      }
    }
  }

  lemma OnceIn(s: seq<Key>, a: nat)
    requires a < |s| && forall i, j {:trigger s[i], s[j]} :: 0 <= i < j < |s| ==> s[i] != s[j]
    ensures multiset(s)[s[a]] == 1
  {
    assert s == s[..a] + [s[a]] + s[a + 1..];
    assert s[a] !in s[..a] && s[a] !in s[a + 1..];
  }

  ghost predicate SortedLeaves(cells: set<Key>, internal: set<Key>, fill: set<Key>, s: seq<Key>) {
    && Complete(cells, internal, fill) && cells != {}
    && (forall k {:trigger k in s} :: k in s <==> Leaf(cells, fill, k))
    && (forall i, j {:trigger s[i], s[j]} :: 0 <= i < j < |s| ==> s[i] != s[j] && From(s[i]) <= From(s[j]))
  }

  lemma LeafFacts(cells: set<Key>, internal: set<Key>, fill: set<Key>, s: seq<Key>, i: nat)
    requires SortedLeaves(cells, internal, fill, s) && i < |s|
    ensures Leaf(cells, fill, s[i]) && BASE <= From(s[i]) && From(s[i]) + Span(s[i]) <= TOP && Span(s[i]) > 0
    ensures OctKey(s[i]) && Depth(s[i]) <= LEVELS
  {
    assert s[i] in s;
    if s[i] in fill { FillKey(cells, internal, fill, s[i]); }
    KeyRange(s[i]);
  }

  /** Sorted leaves do not overlap. */
  lemma SortedApart(cells: set<Key>, internal: set<Key>, fill: set<Key>, s: seq<Key>, i: nat, j: nat)
    requires SortedLeaves(cells, internal, fill, s) && i < j < |s|
    ensures From(s[i]) + Span(s[i]) <= From(s[j])
  {
    LeafFacts(cells, internal, fill, s, i);
    LeafFacts(cells, internal, fill, s, j);
    if From(s[j]) < From(s[i]) + Span(s[i]) {
      LeavesApart(cells, internal, fill, s[i], s[j], From(s[j]));
    }
  }

  lemma Holder(cells: set<Key>, internal: set<Key>, fill: set<Key>, s: seq<Key>, x: nat) returns (j: nat)
    requires SortedLeaves(cells, internal, fill, s) && BASE <= x < TOP
    ensures j < |s| && From(s[j]) <= x < From(s[j]) + Span(s[j])
  {
    var k := LeavesCover(cells, internal, fill, x);
    assert k in s;
    j :| 0 <= j < |s| && s[j] == k;
  }

  function Lows(s: seq<Key>): (r: seq<nat>)
    ensures |r| == |s| && forall i {:trigger r[i]} :: 0 <= i < |s| ==> r[i] == From(s[i])
  {
    seq(|s|, i requires 0 <= i < |s| => From(s[i]))
  }

  function Highs(s: seq<Key>): (r: seq<nat>)
    ensures |r| == |s| && forall i {:trigger r[i]} :: 0 <= i < |s| ==> r[i] == From(s[i]) + Span(s[i])
  {
    seq(|s|, i requires 0 <= i < |s| => From(s[i]) + Span(s[i]))
  }

  ghost predicate Inside(lo: seq<nat>, hi: seq<nat>, x: nat) {
    |lo| == |hi| && exists j {:trigger lo[j]} :: 0 <= j < |lo| && lo[j] <= x < hi[j]
  }

  /** Disjoint ranges in order that together hold every key of the space. */
  ghost predicate Fills(lo: seq<nat>, hi: seq<nat>) {
    && |lo| == |hi| && (forall i {:trigger lo[i]} :: 0 <= i < |lo| ==> BASE <= lo[i] < hi[i] <= TOP)
    && (forall i, j {:trigger lo[i], lo[j]} :: 0 <= i < j < |lo| ==> hi[i] <= lo[j])
    && (forall x: nat {:trigger Inside(lo, hi, x)} :: BASE <= x < TOP ==> Inside(lo, hi, x))
  }

  /** Such ranges abut, from the first key of the space to the last. */
  lemma FillsAbut(lo: seq<nat>, hi: seq<nat>, i: nat)
    requires Fills(lo, hi) && i < |lo|
    ensures lo[0] == BASE && hi[i] == if i + 1 < |lo| then lo[i + 1] else TOP
  {
    assert Inside(lo, hi, BASE);
    var j :| 0 <= j < |lo| && lo[j] <= BASE < hi[j];
    assert lo[0] <= lo[j];
    assert BASE <= lo[i] < hi[i] <= TOP;
    if i + 1 < |lo| { assert hi[i] <= lo[i + 1] < TOP; }
    if hi[i] < TOP {
      assert Inside(lo, hi, hi[i]);
      var k :| 0 <= k < |lo| && lo[k] <= hi[i] < hi[k];
      assert k > i;
      assert lo[i + 1] < hi[i + 1];
    }
  }

  lemma LeavesFill(cells: set<Key>, internal: set<Key>, fill: set<Key>, s: seq<Key>)
    requires SortedLeaves(cells, internal, fill, s)
    ensures Fills(Lows(s), Highs(s)) && |s| > 0
  {
    var lo, hi := Lows(s), Highs(s);
    forall i: nat | i < |s| ensures BASE <= lo[i] < hi[i] <= TOP { LeafFacts(cells, internal, fill, s, i); }
    forall i: nat, j: nat | i < j < |s| ensures hi[i] <= lo[j] { SortedApart(cells, internal, fill, s, i, j); }
    forall x: nat | BASE <= x < TOP
      ensures Inside(lo, hi, x)
    {
      var j := Holder(cells, internal, fill, s, x);
      assert lo[j] <= x < hi[j];
    }
    Pow8Levels();
    assert Inside(lo, hi, BASE);
  }

  // ---- findSplitters.

  function SumOf(reports: seq<Report>): nat {
    if reports == [] then 0 else reports[0].n + SumOf(reports[1..])
  }

  /** Particles staged for a cell, over all PEs. */
  function Staged(reports: seq<Report>, k: Key): nat {
    if reports == [] then 0 else (if reports[0].key == k then reports[0].n else 0) + Staged(reports[1..], k)
  }

  /** The splitters tile [2^63, 2^64 - 1): adjacent, and closed at the clamped top. */
  ghost predicate Tiling(sp: seq<Splitter>) {
    && |sp| > 0 && sp[0].from == BASE && sp[|sp| - 1].to == TOP - 1
    && (forall i: nat {:trigger Abuts(sp, i)} :: i < |sp| ==> Abuts(sp, i))
  }

  predicate Abuts(sp: seq<Splitter>, i: nat)
    requires i < |sp|
  {
    sp[i].from <= sp[i].to && (i + 1 < |sp| ==> sp[i].to == sp[i + 1].from)
  }

  predicate Antichain(cells: set<Key>) {
    forall j, k {:trigger j in cells, k in cells} :: j in cells && k in cells ==> !ProperAncestor(j, k)
  }

  function KeysOf(reports: seq<Report>): set<Key> {
    set r | r in reports :: r.key
  }

  /** The code's `to`: the next leaf's start, or the clamp for the last leaf, whose end would wrap. */
  lemma TopClamp(cells: set<Key>, internal: set<Key>, fill: set<Key>, s: seq<Key>, i: nat)
    requires SortedLeaves(cells, internal, fill, s) && i < |s|
    ensures From(s[i]) <= To(s[i]) && To(s[i]) == if i + 1 < |s| then From(s[i + 1]) else TOP - 1
  {
    LeavesFill(cells, internal, fill, s);
    var lo, hi := Lows(s), Highs(s);
    FillsAbut(lo, hi, i);
    assert lo[i] < hi[i] && hi[i] == From(s[i]) + Span(s[i]);
    if i + 1 < |s| { assert lo[i + 1] < hi[i + 1] <= TOP && lo[i + 1] == From(s[i + 1]); }
  }

  ghost predicate Clamped(s: seq<Key>) {
    && |s| > 0 && From(s[0]) == BASE
    && forall i: nat {:trigger ClampedAt(s, i)} :: i < |s| ==> ClampedAt(s, i)
  }

  ghost predicate ClampedAt(s: seq<Key>, i: nat)
    requires i < |s|
  {
    From(s[i]) <= To(s[i]) && To(s[i]) == if i + 1 < |s| then From(s[i + 1]) else TOP - 1
  }

  lemma LeavesClamped(cells: set<Key>, internal: set<Key>, fill: set<Key>, s: seq<Key>)
    requires SortedLeaves(cells, internal, fill, s)
    ensures Clamped(s)
  {
    LeavesFill(cells, internal, fill, s);
    FillsAbut(Lows(s), Highs(s), 0);
    assert Lows(s)[0] == From(s[0]);
    forall i: nat | i < |s|
      ensures ClampedAt(s, i)
    {
      TopClamp(cells, internal, fill, s, i);
    }
  }

  lemma TilingFrom(s: seq<Key>, sp: seq<Splitter>)
    requires Clamped(s) && |sp| == |s|
    requires forall j {:trigger sp[j]} :: 0 <= j < |s| ==> sp[j].from == From(s[j]) && sp[j].to == To(s[j])
    ensures Tiling(sp)
  {
    forall i: nat | i < |sp| ensures Abuts(sp, i) { assert ClampedAt(s, i); }
    assert ClampedAt(s, |s| - 1);
  }

  function Sum(reports: seq<Report>, s: seq<Key>): nat {
    if s == [] then 0 else Staged(reports, s[0]) + Sum(reports, s[1..])
  }

  lemma {:induction false} SumSnoc(reports: seq<Report>, s: seq<Key>, k: Key)
    ensures Sum(reports, s + [k]) == Sum(reports, s) + Staged(reports, k)
  {
    if s == [] {
      var none: seq<Key> := [k][1..];
      assert none == [] && s + [k] == [k];
    } else {
      SumSnoc(reports, s[1..], k);
      assert (s + [k])[1..] == s[1..] + [k];
    }
  }

  function SplitterOf(reports: seq<Report>, k: Key): Splitter {
    Splitter(From(k), To(k), k, Staged(reports, k))
  }

  /** The leaf loop: one splitter per sorted leaf, aborting if the next leaf starts too early. */
  method MakeSplitters(reports: seq<Report>, s: seq<Key>) returns (overlap: bool, sp: seq<Splitter>, staged: nat)
    requires Clamped(s)
    ensures !overlap && |sp| == |s| && Tiling(sp)
    ensures forall i {:trigger sp[i]} :: 0 <= i < |sp| ==> sp[i] == SplitterOf(reports, s[i])
    ensures staged == Sum(reports, s)
  {
    sp, staged, overlap := [], 0, false;
    assert s[..0] == [];
    for i := 0 to |s|
      invariant |sp| == i && staged == Sum(reports, s[..i])
      invariant forall j {:trigger sp[j]} :: 0 <= j < i ==> sp[j] == SplitterOf(reports, s[j])
    {
      assert ClampedAt(s, i);
      if i + 1 < |s| && From(s[i + 1]) < To(s[i]) { return true, sp, staged; }
      sp := sp + [SplitterOf(reports, s[i])];
      SumSnoc(reports, s[..i], s[i]);
      assert s[..i + 1] == s[..i] + [s[i]];
      staged := staged + Staged(reports, s[i]);
    }
    assert s[..|s|] == s;
    TilingFrom(s, sp);
  }

  lemma {:induction false} SumHead(r: Report, rest: seq<Report>, s: seq<Key>)
    requires forall i, j {:trigger s[i], s[j]} :: 0 <= i < j < |s| ==> s[i] != s[j]
    ensures Sum([r] + rest, s) == Sum(rest, s) + if r.key in s then r.n else 0
  {
    assert ([r] + rest)[1..] == rest;
    if s != [] {
      forall i, j | 0 <= i < j < |s[1..]| ensures s[1..][i] != s[1..][j] { assert s[i + 1] != s[j + 1]; }
      SumHead(r, rest, s[1..]);
      assert s == [s[0]] + s[1..];
      if r.key == s[0] {
        forall i | 0 <= i < |s[1..]| ensures s[1..][i] != r.key { assert s[0] != s[i + 1]; }
      }
    }
  }

  lemma {:induction false} SumZero(s: seq<Key>)
    ensures Sum([], s) == 0
  {
    if s != [] { SumZero(s[1..]); }
  }

  /** The leaves' counts add up to everything staged. */
  lemma {:induction false} StagedSum(reports: seq<Report>, s: seq<Key>)
    requires forall i, j {:trigger s[i], s[j]} :: 0 <= i < j < |s| ==> s[i] != s[j]
    requires forall r {:trigger r in reports} :: r in reports ==> r.key in s
    ensures Sum(reports, s) == SumOf(reports)
  {
    if reports == [] {
      SumZero(s);
    } else {
      assert reports == [reports[0]] + reports[1..];
      assert forall r :: r in reports[1..] ==> r in reports;
      StagedSum(reports[1..], s);
      SumHead(reports[0], reports[1..], s);
      assert reports[0] in reports;
    }
  }

  method FindNested(cells: set<Key>, internal: set<Key>) returns (nested: bool)
    ensures nested <==> exists k {:trigger k in cells} :: k in cells && k in internal
  {
    var todo := cells;
    while todo != {}
      invariant todo <= cells && forall k {:trigger k in cells} :: k in cells && k !in todo ==> k !in internal
      decreases todo
    {
      var k :| k in todo;
      if k in internal { return true; }
      todo := todo - {k};
    }
    nested := false;
  }

  lemma NestedMeans(cells: set<Key>, internal: set<Key>)
    requires forall a {:trigger a in internal} :: a in internal <==> Above(cells, a)
    ensures (exists k {:trigger k in cells} :: k in cells && k in internal) <==> !Antichain(cells)
  {
    if exists k {:trigger k in cells} :: k in cells && k in internal {
      var j :| j in cells && j in internal;
      assert Above(cells, j);
      var k :| k in cells && ProperAncestor(j, k);
    }
    if !Antichain(cells) {
      var j, k :| j in cells && k in cells && ProperAncestor(j, k);
      assert Above(cells, j) && j in internal;
    }
  }

  lemma CompleteHolds(cells: set<Key>, internal: set<Key>, fill: set<Key>)
    requires forall k {:trigger k in cells} :: k in cells ==>
          OctKey(k) && Depth(k) <= LEVELS && k !in internal && (k > 1 ==> k / 8 in internal)
    requires UpClosed(internal) && forall a {:trigger a in internal} :: a in internal ==> Above(cells, a)
    requires forall k {:trigger k in fill} :: k in fill <==> k / 8 in internal && k !in cells && k !in internal
    ensures Complete(cells, internal, fill)
  {
    forall a | a in internal
      ensures Depth(a) < LEVELS
    {
      var k :| k in cells && ProperAncestor(a, k);
      AncestorKey(a, k);
    }
  }

  predicate GoodKey(k: Key) {
    k >= 1 && Depth(k) <= LEVELS
  }

  method CheckKeys(reports: seq<Report>) returns (bad: bool)
    ensures bad <==> exists i {:trigger reports[i]} :: 0 <= i < |reports| && !GoodKey(reports[i].key)
  {
    for i := 0 to |reports|
      invariant forall j {:trigger reports[j]} :: 0 <= j < i ==> GoodKey(reports[j].key)
    {
      if !GoodKey(reports[i].key) { return true; }
    }
    bad := false;
  }

  /** Ancestors, the nesting check, the fill, and the leaves in key order. */
  method CompleteAndSort(cells: set<Key>) returns (nested: bool, ghost internal: set<Key>, fill: set<Key>, s: seq<Key>)
    requires forall k {:trigger k in cells} :: k in cells ==> OctKey(k) && Depth(k) <= LEVELS
    ensures nested <==> !Antichain(cells)
    ensures !nested && cells != {} ==> SortedLeaves(cells, internal, fill, s)
    ensures !nested ==> forall a {:trigger a in internal} :: a in internal <==> Above(cells, a)
    ensures !nested ==> forall k {:trigger k in fill} :: k in fill <==>
          k / 8 in internal && k !in cells && k !in internal
  {
    var above := Ancestors(cells);
    internal := above;
    nested := FindNested(cells, above);
    NestedMeans(cells, above);
    fill, s := {}, [];
    if nested { return; }
    fill := Fill(cells, above);
    CompleteHolds(cells, above, fill);
    var leaves := SetToSeq(cells + fill);
    s := SortBy(leaves, (k: Key) => From(k));
    PermutedLists(cells + fill, leaves, s);
  }

  /** findSplitters.  It refuses bad keys and nested cells, never finds an overlap, and refuses a count
      that does not match; otherwise its splitters tile the key space, one per leaf of the completion. */
  method FindSplitters(reports: seq<Report>, total: nat) returns (out: Outcome)
    requires forall i {:trigger reports[i]} :: 0 <= i < |reports| && GoodKey(reports[i].key) ==> OctKey(reports[i].key)
    ensures out.BadKey? <==> exists i {:trigger reports[i]} :: 0 <= i < |reports| && !GoodKey(reports[i].key)
    ensures !out.BadKey? ==> (out.Nested? <==> !Antichain(KeysOf(reports)))
    ensures !out.Overlap?
    ensures !out.BadKey? && !out.Nested? ==> (out.Splits? <==> SumOf(reports) == total)
    ensures out.Splits? && reports != [] ==> Tiling(out.splitters) && Completed(reports, out.splitters)
    ensures out.Splits? && reports == [] ==> out.splitters == []
  {
    var bad := CheckKeys(reports);
    if bad { return BadKey; }
    var cells := KeysOf(reports);
    ReportedKeys(reports);
    var nested, fill, s; ghost var internal;
    nested, internal, fill, s := CompleteAndSort(cells);
    if nested { return Nested; }
    if reports == [] { return if total == 0 then Splits([]) else Miscounted; }
    assert reports[0].key in cells;
    LeavesClamped(cells, internal, fill, s);
    var overlap, sp, staged := MakeSplitters(reports, s);
    if overlap { return Overlap; }
    assert forall r :: r in reports ==> r.key in cells;
    StagedSum(reports, s);
    if staged != total { return Miscounted; }
    out := Splits(sp);
    SplitsComplete(reports, internal, fill, s, sp);
  }

  lemma ReportedKeys(reports: seq<Report>)
    requires forall i {:trigger reports[i]} :: 0 <= i < |reports| ==>
          OctKey(reports[i].key) && Depth(reports[i].key) <= LEVELS
    ensures forall k {:trigger k in KeysOf(reports)} :: k in KeysOf(reports) ==> OctKey(k) && Depth(k) <= LEVELS
  {
    forall k | k in KeysOf(reports)
      ensures OctKey(k) && Depth(k) <= LEVELS
    {
      var r :| r in reports && r.key == k;
      var i :| 0 <= i < |reports| && reports[i] == r;
    }
  }

  /** The leaves are the cells and their missing siblings. */
  lemma LeafMeans(cells: set<Key>, internal: set<Key>, fill: set<Key>, k: Key)
    requires forall a {:trigger a in internal} :: a in internal <==> Above(cells, a)
    requires forall k {:trigger k in fill} :: k in fill <==> k / 8 in internal && k !in cells && k !in internal
    ensures Leaf(cells, fill, k) <==> k in cells || Sibling(cells, k)
  {
    assert k / 8 in internal <==> Above(cells, k / 8);
    assert k in internal <==> Above(cells, k);
  }

  lemma SplitsComplete(reports: seq<Report>, internal: set<Key>, fill: set<Key>, s: seq<Key>, sp: seq<Splitter>)
    requires SortedLeaves(KeysOf(reports), internal, fill, s) && |sp| == |s|
    requires forall i {:trigger sp[i]} :: 0 <= i < |sp| ==> sp[i] == SplitterOf(reports, s[i])
    requires forall a {:trigger a in internal} :: a in internal <==> Above(KeysOf(reports), a)
    requires forall k {:trigger k in fill} :: k in fill <==>
          k / 8 in internal && k !in KeysOf(reports) && k !in internal
    ensures Completed(reports, sp)
  {
    var cells := KeysOf(reports);
    forall k: Key
      ensures Leaf(cells, fill, k) <==> k in cells || Sibling(cells, k)
    {
      LeafMeans(cells, internal, fill, k);
    }
    ListComplete(reports, fill, s, sp);
  }

  lemma ListComplete(reports: seq<Report>, fill: set<Key>, s: seq<Key>, sp: seq<Splitter>)
    requires |sp| == |s| && forall i {:trigger sp[i]} :: 0 <= i < |sp| ==> sp[i] == SplitterOf(reports, s[i])
    requires forall k: Key {:trigger Leaf(KeysOf(reports), fill, k)} :: Leaf(KeysOf(reports), fill, k) <==>
          k in KeysOf(reports) || Sibling(KeysOf(reports), k)
    requires forall k {:trigger k in s} :: k in s <==> Leaf(KeysOf(reports), fill, k)
    requires forall i, j {:trigger s[i], s[j]} :: 0 <= i < j < |s| ==> s[i] != s[j]
    ensures Completed(reports, sp)
  {
    var cells := KeysOf(reports);
    forall k: Key | k in cells || Sibling(cells, k)
      ensures HasSplitter(sp, k)
    {
      assert Leaf(cells, fill, k) && k in s;
      var i :| 0 <= i < |s| && s[i] == k;
      assert sp[i].key == k;
    }
    forall i | 0 <= i < |sp|
      ensures sp[i].key in cells || Sibling(cells, sp[i].key)
    {
      assert s[i] in s && Leaf(cells, fill, s[i]);
    }
    forall i, j | 0 <= i < j < |sp|
      ensures sp[i].key != sp[j].key
    {
      assert s[i] != s[j];
    }
  }

  predicate HasSplitter(sp: seq<Splitter>, k: Key) {
    exists i {:trigger sp[i]} :: 0 <= i < |sp| && sp[i].key == k
  }

  /** One splitter per leaf of the completion - every staged cell and every missing sibling of a split
      node's child, no other cell, none twice - with the cell's range and its staged count. */
  ghost predicate Completed(reports: seq<Report>, sp: seq<Splitter>) {
    && (forall k: Key {:trigger HasSplitter(sp, k)} :: k in KeysOf(reports) || Sibling(KeysOf(reports), k) ==>
          HasSplitter(sp, k))
    && (forall i {:trigger sp[i]} :: 0 <= i < |sp| ==>
          && (sp[i].key in KeysOf(reports) || Sibling(KeysOf(reports), sp[i].key))
          && sp[i].from == From(sp[i].key) && sp[i].to == To(sp[i].key) && sp[i].n == Staged(reports, sp[i].key))
    && (forall i, j {:trigger sp[i], sp[j]} :: 0 <= i < j < |sp| ==> sp[i].key != sp[j].key)
  }

  /** A child of some cell's proper ancestor, itself neither a cell nor such an ancestor. */
  ghost predicate Sibling(cells: set<Key>, k: Key) {
    Above(cells, k / 8) && k !in cells && !Above(cells, k)
  }
}
