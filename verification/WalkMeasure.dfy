/** A measure of the dual walk's stack: everything an entry is replaced by is smaller than the entry. */
module WalkMeasure {
  import opened Trees
  import opened Linking
  import opened Visitor

  /** Particles and nodes below t, each node counted again as a child. */
  function Load(t: Tree): (r: nat)
    ensures r > 0
  {
    match t
    case Leaf(_, _, n) => n + 1
    case Inner(_, cs) => 1 + LoadAll(cs)
  }

  function LoadAll(ts: seq<Tree>): nat {
    if ts == [] then 0 else Load(ts[0]) + 1 + LoadAll(ts[1..])
  }

  lemma {:induction false} LoadSnoc(ts: seq<Tree>, n: nat)
    requires n < |ts|
    ensures LoadAll(ts[..n + 1]) == LoadAll(ts[..n]) + Load(ts[n]) + 1
  {
    if n == 0 {
      assert ts[..1] == [ts[0]] && ts[..1][1..] == [];
      assert ts[..0] == [];
    } else {
      LoadSnoc(ts[1..], n - 1);
      assert ts[1..][..n] == ts[..n + 1][1..] && ts[1..][..n - 1] == ts[..n][1..];
    }
  }

  /** What a pair costs beyond its product when its source may have to be fetched first. */
  const FETCH: nat := 26

  function Product(v: View, k: Key, t: Tree): (r: nat)
    ensures r > 0
  {
    Times(Load(v.source(k)), Load(t))
  }

  function Times(x: nat, y: nat): (r: nat)
    ensures x > 0 && y > 0 ==> r > 0
  {
    x * y
  }

  /** Tests the particle loop has still to make, from a, b on; the end of a row is one more. */
  function ScanLeft(n: nat, m: nat, a: nat, b: nat): nat {
    if a >= n then 0 else Times(n - a, m + 1) - if b < m then b else m
  }

  /** The load of one entry of a walk started at node `at` (-1 for a walk from the root): that node is there, any
      other source may have to be fetched. */
  function ItemLoad(v: View, at: int, x: Item): (r: nat)
    ensures r > 0
  {
    match x
    case Pair(k, t) => 32 * Product(v, k, t) + if k == at then 0 else FETCH
    case Inverted(k, t) => 16 * Product(v, k, t)
    case Scan(k, t, a, b, _) =>
      1 + if v.source(k).Leaf? && t.Leaf? then 2 * ScanLeft(v.source(k).n, t.n, a, b) else 0
    case Emit(_) => 1
  }

  function StackLoad(v: View, at: int, xs: seq<Item>): nat {
    if xs == [] then 0 else ItemLoad(v, at, xs[0]) + StackLoad(v, at, xs[1..])
  }

  lemma {:induction false} StackConcat(v: View, at: int, x: seq<Item>, y: seq<Item>)
    ensures StackLoad(v, at, x + y) == StackLoad(v, at, x) + StackLoad(v, at, y)
  {
    if x == [] {
      assert x + y == y;
    } else {
      StackConcat(v, at, x[1..], y);
      assert (x + y)[1..] == x[1..] + y;
    }
  }

  lemma StackOne(v: View, at: int, x: Item)
    ensures StackLoad(v, at, [x]) == ItemLoad(v, at, x)
  {
    assert [x][1..] == [];
  }

  lemma TimesGrows(x: nat, y: nat, z: nat)
    ensures Times(x + y + 1, z) == Times(x, z) + Times(y, z) + z && Times(z, x + y + 1) == Times(z, x) + Times(z, y) + z
    ensures Times(0, z) == 0 && Times(z, 0) == 0
    ensures Times(1 + x, z) == z + Times(x, z) && Times(z, 1 + x) == z + Times(z, x)
  {
  }

  /** Looking up child c of key k finds it. */
  ghost predicate ByKey(v: View, k: Key) {
    v.source(k).Inner? && forall c: nat {:trigger v.source(k).children[c]} :: c < |v.source(k).children| ==>
      v.source(8 * k + c) == v.source(k).children[c]
  }

  lemma {:induction false} SourceKidsLoad(v: View, at: int, k: Key, n: nat, t: Tree)
    requires ByKey(v, k) && n <= |v.source(k).children|
    ensures StackLoad(v, at, SourceKids(k, n, t)) <= 32 * Times(LoadAll(v.source(k).children[..n]), Load(t))
  {
    var cs := v.source(k).children;
    if n > 0 {
      var c := n - 1;
      SourceKidsLoad(v, at, k, c, t);
      assert SourceKids(k, n, t) == SourceKids(k, c, t) + [Pair(8 * k + c, t)];
      StackConcat(v, at, SourceKids(k, c, t), [Pair(8 * k + c, t)]);
      StackOne(v, at, Pair(8 * k + c, t));
      LoadSnoc(cs, c);
      assert v.source(8 * k + c) == cs[c];
      TimesGrows(LoadAll(cs[..c]), Load(cs[c]), Load(t));
    }
  }

  function Kid(k: Key, t: Tree, inverted: bool): Item {
    if inverted then Inverted(k, t) else Pair(k, t)
  }

  lemma {:induction false} TargetKidsLoad(v: View, at: int, k: Key, cs: seq<Tree>, inverted: bool, n: nat)
    requires n <= |cs|
    ensures StackLoad(v, at, TargetKids(k, cs[..n], inverted))
         <= (if inverted then 16 else 32) * Times(Load(v.source(k)), LoadAll(cs[..n]))
  {
    if n > 0 {
      var c := n - 1;
      TargetKidsLoad(v, at, k, cs, inverted, c);
      assert TargetKids(k, cs[..n], inverted) == TargetKids(k, cs[..c], inverted) + [Kid(k, cs[c], inverted)];
      StackConcat(v, at, TargetKids(k, cs[..c], inverted), [Kid(k, cs[c], inverted)]);
      StackOne(v, at, Kid(k, cs[c], inverted));
      LoadSnoc(cs, c);
      TimesGrows(LoadAll(cs[..c]), Load(cs[c]), Load(v.source(k)));
    }
  }

  /** Splitting the source makes the product smaller, and so does splitting the target. */
  lemma SourceShrinks(v: View, at: int, k: Key, t: Tree)
    requires ByKey(v, k)
    ensures StackLoad(v, at, SourceKids(k, |v.source(k).children|, t)) < 32 * Product(v, k, t)
  {
    var s := v.source(k);
    SourceKidsLoad(v, at, k, |s.children|, t);
    assert s.children[..|s.children|] == s.children;
    TimesGrows(LoadAll(s.children), 0, Load(t));
  }

  lemma TargetShrinks(v: View, at: int, k: Key, t: Tree, inverted: bool)
    requires t.Inner?
    ensures StackLoad(v, at, TargetKids(k, t.children, inverted)) < (if inverted then 16 else 32) * Product(v, k, t)
  {
    var s := v.source(k);
    TargetKidsLoad(v, at, k, t.children, inverted, |t.children|);
    assert t.children[..|t.children|] == t.children;
    TimesGrows(LoadAll(t.children), 0, Load(s));
  }

  lemma ScanStarts(n: nat, m: nat)
    ensures 2 * ScanLeft(n, m, 0, 0) + 1 < 16 * Times(n + 1, m + 1)
  {
    TimesGrows(n, 0, m + 1);
  }

  lemma ScanGoesOn(n: nat, m: nat, a: nat, b: nat)
    requires a < n
    ensures b >= m ==> ScanLeft(n, m, a + 1, 0) < ScanLeft(n, m, a, b)
    ensures b < m ==> ScanLeft(n, m, a, b + 1) < ScanLeft(n, m, a, b)
  {
    TimesGrows(n - a - 1, 0, m + 1);
  }

  lemma LeafShrinks(v: View, at: int, seen: set<TipPair>, k: Key, t: Tree)
    ensures StackLoad(v, at, LeafVisit(v, seen, k, t).0) < 16 * Product(v, k, t)
  {
    var s, push := v.source(k), LeafVisit(v, seen, k, t).0;
    if push != [] {
      StackOne(v, at, push[0]);
      assert push == [push[0]];
      if s.Leaf? && t.Leaf? { ScanStarts(s.n, t.n); }
    }
  }

  lemma ScanShrinks(v: View, at: int, seen: set<TipPair>, x: Item)
    requires x.Scan?
    ensures StackLoad(v, at, ScanStep(v, seen, v.source(x.k), x).0) < ItemLoad(v, at, x)
  {
    var s, t := v.source(x.k), x.t;
    if s.Leaf? && t.Leaf? && x.a < s.n {
      ScanGoesOn(s.n, t.n, x.a, x.b);
      var push := ScanStep(v, seen, s, x).0;
      if |push| == 1 {
        StackOne(v, at, push[0]);
        assert push == [push[0]];
      } else if |push| == 2 {
        StackOne(v, at, push[0]);
        StackOne(v, at, push[1]);
        StackConcat(v, at, [push[0]], [push[1]]);
        assert push == [push[0]] + [push[1]];
      }
    }
  }

  /** The walk's variant: all that handling an entry pushes together is smaller than the entry. */
  lemma ExpandShrinks(v: View, e: int, seen: set<TipPair>, x: Item, splitSource: bool, at: int)
    requires v.Ok()
    ensures StackLoad(v, at, Expand(v, e, seen, x, splitSource).0) < ItemLoad(v, at, x)
  {
    match x
    case Pair(k, t) =>
      if v.source(k).Inner? { SourceShrinks(v, at, k, t); }
      if t.Inner? { TargetShrinks(v, at, k, t, false); }
      LeafShrinks(v, at, seen, k, t);
      StackOne(v, at, Inverted(k, t));
      OpenShrinks(v, at, seen, k, t, SourceKids(k, if v.source(k).Inner? then |v.source(k).children| else 0, t));
    case Inverted(k, t) =>
      if t.Inner? { TargetShrinks(v, at, k, t, true); }
      LeafShrinks(v, at, seen, k, t);
      OpenShrinks(v, at, seen, k, t, TargetKids(k, if t.Inner? then t.children else [], true));
    case Scan(_, _, _, _, _) => ScanShrinks(v, at, seen, x);
    case Emit(_) =>
  }

  lemma OpenShrinks(v: View, at: int, seen: set<TipPair>, k: Key, t: Tree, kids: seq<Item>)
    ensures StackLoad(v, at, OpenItem(v, seen, k, t, kids).0) <= 1 + StackLoad(v, at, kids)
    ensures StackLoad(v, at, OpenItem(v, seen, k, t, kids).0) <= 1 || OpenItem(v, seen, k, t, kids).0 == kids
  {
    var push := OpenItem(v, seen, k, t, kids).0;
    if push != [] && push != kids {
      StackOne(v, at, push[0]);
      assert push == [push[0]];
    }
  }
}
