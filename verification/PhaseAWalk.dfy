/** Phase A's dual walk and its two drivers: the static path over registered pieces, and the claim
    path that admits pieces in whatever order this PE wins them. */
module PhaseAWalk {
  import opened Geometry
  import opened Graph
  import opened Forest
  import opened Trees
  import opened Linking
  import opened PhaseA
  import opened Grid

  /** The cell grid: off, or on with side c and the occupancy gate (a cost heuristic, so any answer
      is allowed). */
  datatype GridConfig = Off | On(c: real, dense: Tree -> bool)

  ghost predicate GridSound(cfg: GridConfig, rule: Rule) {
    cfg.On? ==> cfg.c > 0.0 && 6.0 * Square(cfg.c) == rule.b2 && rule.b2 > 0.0
  }

  /** Boxes farther apart than the linking length hold no linked pair. */
  lemma FarApart(parts: seq<Particle>, rule: Rule, a: Tree, b: Tree)
    requires AllReached(parts, rule)
    requires Good(a, parts) && Good(b, parts) && MinDist2(a.box, b.box, rule.period) > rule.b2
    ensures forall i: nat, j: nat {:trigger Linked(parts[i], parts[j], rule)} ::
              In(a, i) && In(b, j) && i < |parts| && j < |parts| ==> !Linked(parts[i], parts[j], rule)
  {
    forall i: nat, j: nat | In(a, i) && In(b, j) && i < |parts| && j < |parts|
      ensures !Linked(parts[i], parts[j], rule)
    {
      GoodMember(a, parts, i);
      GoodMember(b, parts, j);
      assert Reached(parts[i].pos, parts[j].pos, rule.period);
      MinDistBound(a.box, b.box, parts[i].pos, parts[j].pos, rule.period);
    }
  }

  lemma AllNear(parts: seq<Particle>, rule: Rule, a: Tree, b: Tree)
    requires Good(a, parts) && Good(b, parts) && !rule.Periodic() && MaxDist2(a.box, b.box) <= rule.b2
    ensures AllLinked(parts, rule, a, b)
  {
    forall i: nat, j: nat | In(a, i) && In(b, j) && i < |parts| && j < |parts|
      ensures Linked(parts[i], parts[j], rule)
    {
      GoodMember(a, parts, i);
      GoodMember(b, parts, j);
      MaxDistBound(a.box, b.box, parts[i].pos, parts[j].pos, rule);
    }
  }

  /** The positive certificate as the walk tests it, cheap gate first. */
  predicate Certified(a: Tree, b: Tree, rule: Rule) {
    && !rule.Periodic()
    && Square(Measure(a.box) + Measure(b.box)) <= 12.0 * rule.b2
    && MaxDist2(a.box, b.box) <= rule.b2
  }

  /** The gate changes no verdict. */
  lemma GateIsFree(a: Tree, b: Tree, parts: seq<Particle>, rule: Rule)
    requires Good(a, parts) && Good(b, parts) && !a.Empty() && !b.Empty()
    ensures Certified(a, b, rule) <==> !rule.Periodic() && MaxDist2(a.box, b.box) <= rule.b2
  {
    BoxProper(a, parts);
    BoxProper(b, parts);
    if MaxDist2(a.box, b.box) <= rule.b2 { GateKeepsCertificates(a.box, b.box, rule.b2); }
  }

  /** Which side a mixed pair opens: never a leaf, else the one with the larger box. */
  predicate OpensFirst(a: Tree, b: Tree) {
    a.Inner? && (b.Leaf? || Measure(a.box) >= Measure(b.box))
  }

  method Walk(e: Engine, a: Tree, b: Tree, cfg: GridConfig)
    requires e.Valid() && Good(a, e.parts) && Good(b, e.parts) && GridSound(cfg, e.rule)
    modifies e`parent, e`memo
    ensures e.Valid() && Coarser(old(e.parent), e.parent, e.order)
    ensures Solved(e.parts, e.rule, e.parent, e.order, a, b)
    decreases Size(a) + Size(b), 1
  {
    if a.Empty() || b.Empty() { return; }
    if MinDist2(a.box, b.box, e.rule.period) > e.rule.b2 {
      FarApart(e.parts, e.rule, a, b);
      return;
    }
    var done := e.Prune(a, b);
    if done { return; }
    ghost var p1 := e.parent;
    if Certified(a, b, e.rule) {
      AllNear(e.parts, e.rule, a, b);
      e.Certify(a, b);
    } else if a.Leaf? && b.Leaf? {
      if a == b { e.LeafSelfUnion(a); } else { e.LeafPairUnion(a, b); }
    } else if a == b {
      var solved := false;
      if cfg.On? && cfg.dense(a) { solved := GridNode(e, a, cfg.c); }
      ghost var p2 := e.parent;
      if !solved { WalkSelf(e, a, cfg); }
      CoarserTrans(p1, p2, e.parent, e.order);
    } else if OpensFirst(a, b) {
      WalkLeft(e, a, b, cfg);
    } else {
      WalkRight(e, a, b, cfg);
    }
    CoarserTrans(old(e.parent), p1, e.parent, e.order);
  }

  /** The grid over a node's contiguous range. */
  method GridNode(e: Engine, a: Tree, c: real) returns (solved: bool)
    requires e.Valid() && Good(a, e.parts) && !a.Empty()
    requires c > 0.0 && 6.0 * Square(c) == e.rule.b2 && e.rule.b2 > 0.0
    modifies e`parent
    ensures e.Valid() && Coarser(old(e.parent), e.parent, e.order)
    ensures solved ==> Solved(e.parts, e.rule, e.parent, e.order, a, a)
    ensures !solved ==> e.parent == old(e.parent)
    ensures solved <==> FrameOf(a.box, c).Fits() && HalfPeriod(a.box, e.rule.period)
  {
    var first := e.FirstFlat(a);
    forall i | First(a) <= i < First(a) + Count(a)
      ensures i < |e.parts| && Within(e.parts[i].pos, a.box)
    {
      GoodMember(a, e.parts, i);
    }
    GoodMember(a, e.parts, First(a) + Count(a) - 1);
    solved := GridSelfUnion(e, a.box, c, first, Count(a));
  }

  /** A self pair descends into each unordered child pair once. */
  method WalkSelf(e: Engine, a: Tree, cfg: GridConfig)
    requires e.Valid() && Good(a, e.parts) && a.Inner? && GridSound(cfg, e.rule)
    modifies e`parent, e`memo
    ensures e.Valid() && Coarser(old(e.parent), e.parent, e.order)
    ensures Solved(e.parts, e.rule, e.parent, e.order, a, a)
    decreases Size(a) + Size(a), 0
  {
    var cs := a.children;
    for i := 0 to |cs|
      invariant e.Valid() && Coarser(old(e.parent), e.parent, e.order)
      invariant PairsSolved(e.parts, e.rule, e.parent, e.order, cs, i, i)
    {
      for j := i to |cs|
        invariant e.Valid() && Coarser(old(e.parent), e.parent, e.order)
        invariant PairsSolved(e.parts, e.rule, e.parent, e.order, cs, i, j)
      {
        ghost var before := e.parent;
        ChildFacts(a, e.parts, i);
        ChildFacts(a, e.parts, j);
        Walk(e, cs[i], cs[j], cfg);
        CoarserTrans(old(e.parent), before, e.parent, e.order);
        PairsGrow(e.parts, e.rule, before, e.parent, e.order, cs, i, j);
      }
    }
    PairsSolveSelf(e.parts, e.rule, e.parent, e.order, a);
  }

  method WalkLeft(e: Engine, a: Tree, b: Tree, cfg: GridConfig)
    requires e.Valid() && Good(a, e.parts) && Good(b, e.parts) && a.Inner? && GridSound(cfg, e.rule)
    modifies e`parent, e`memo
    ensures e.Valid() && Coarser(old(e.parent), e.parent, e.order)
    ensures Solved(e.parts, e.rule, e.parent, e.order, a, b)
    decreases Size(a) + Size(b), 0
  {
    for i := 0 to |a.children|
      invariant e.Valid() && Coarser(old(e.parent), e.parent, e.order)
      invariant LeftSolved(e.parts, e.rule, e.parent, e.order, a.children, i, b)
    {
      ghost var before := e.parent;
      ChildFacts(a, e.parts, i);
      Walk(e, a.children[i], b, cfg);
      CoarserTrans(old(e.parent), before, e.parent, e.order);
      LeftGrows(e.parts, e.rule, before, e.parent, e.order, a.children, i, b);
    }
    LeftSolves(e.parts, e.rule, e.parent, e.order, a, b);
  }

  method WalkRight(e: Engine, a: Tree, b: Tree, cfg: GridConfig)
    requires e.Valid() && Good(a, e.parts) && Good(b, e.parts) && b.Inner? && GridSound(cfg, e.rule)
    modifies e`parent, e`memo
    ensures e.Valid() && Coarser(old(e.parent), e.parent, e.order)
    ensures Solved(e.parts, e.rule, e.parent, e.order, a, b)
    decreases Size(a) + Size(b), 0
  {
    for i := 0 to |b.children|
      invariant e.Valid() && Coarser(old(e.parent), e.parent, e.order)
      invariant RightSolved(e.parts, e.rule, e.parent, e.order, a, b.children, i)
    {
      ghost var before := e.parent;
      ChildFacts(b, e.parts, i);
      Walk(e, a, b.children[i], cfg);
      CoarserTrans(old(e.parent), before, e.parent, e.order);
      RightGrows(e.parts, e.rule, before, e.parent, e.order, a, b.children, i);
    }
    RightSolves(e.parts, e.rule, e.parent, e.order, a, b);
  }

  lemma ChildFacts(t: Tree, parts: seq<Particle>, k: nat)
    requires Good(t, parts) && t.Inner? && k < |t.children|
    ensures Good(t.children[k], parts) && Size(t.children[k]) < Size(t)
  {
    SizeOfChild(t.children, k);
    assert t.children[k] in t.children;
  }

  ghost predicate LeftSolved(parts: seq<Particle>, rule: Rule, parent: seq<nat>, order: seq<nat>, ts: seq<Tree>,
                             n: nat, b: Tree)
    requires Ranked(parent, order) && |parts| == |parent|
  {
    forall k {:trigger ts[k]} :: 0 <= k < n && k < |ts| ==> Solved(parts, rule, parent, order, ts[k], b)
  }

  ghost predicate RightSolved(parts: seq<Particle>, rule: Rule, parent: seq<nat>, order: seq<nat>, a: Tree,
                              ts: seq<Tree>, n: nat)
    requires Ranked(parent, order) && |parts| == |parent|
  {
    forall k {:trigger ts[k]} :: 0 <= k < n && k < |ts| ==> Solved(parts, rule, parent, order, a, ts[k])
  }

  lemma LeftGrows(parts: seq<Particle>, rule: Rule, before: seq<nat>, after: seq<nat>, order: seq<nat>, ts: seq<Tree>,
                  n: nat, b: Tree)
    requires Ranked(before, order) && Ranked(after, order) && Coarser(before, after, order) && |parts| == |order|
    requires LeftSolved(parts, rule, before, order, ts, n, b)
    requires n < |ts| && Solved(parts, rule, after, order, ts[n], b)
    ensures LeftSolved(parts, rule, after, order, ts, n + 1, b)
  {
    forall k | 0 <= k < n
      ensures Solved(parts, rule, after, order, ts[k], b)
    {
      CoarserSolved(parts, rule, before, after, order, ts[k], b);
    }
  }

  lemma RightGrows(parts: seq<Particle>, rule: Rule, before: seq<nat>, after: seq<nat>, order: seq<nat>, a: Tree,
                   ts: seq<Tree>, n: nat)
    requires Ranked(before, order) && Ranked(after, order) && Coarser(before, after, order) && |parts| == |order|
    requires RightSolved(parts, rule, before, order, a, ts, n)
    requires n < |ts| && Solved(parts, rule, after, order, a, ts[n])
    ensures RightSolved(parts, rule, after, order, a, ts, n + 1)
  {
    forall k | 0 <= k < n
      ensures Solved(parts, rule, after, order, a, ts[k])
    {
      CoarserSolved(parts, rule, before, after, order, a, ts[k]);
    }
  }

  lemma LeftSolves(parts: seq<Particle>, rule: Rule, parent: seq<nat>, order: seq<nat>, a: Tree, b: Tree)
    requires Ranked(parent, order) && |parts| == |parent| && Good(a, parts) && a.Inner?
    requires LeftSolved(parts, rule, parent, order, a.children, |a.children|, b)
    ensures Solved(parts, rule, parent, order, a, b)
  {
    forall i: nat, j: nat | In(a, i) && In(b, j) && i < |parts| && j < |parts| && Linked(parts[i], parts[j], rule)
      ensures Joined(parent, order, i, j)
    {
      var k := FindChild(a, parts, i);
      assert Solved(parts, rule, parent, order, a.children[k], b);
    }
  }

  lemma RightSolves(parts: seq<Particle>, rule: Rule, parent: seq<nat>, order: seq<nat>, a: Tree, b: Tree)
    requires Ranked(parent, order) && |parts| == |parent| && Good(b, parts) && b.Inner?
    requires RightSolved(parts, rule, parent, order, a, b.children, |b.children|)
    ensures Solved(parts, rule, parent, order, a, b)
  {
    forall i: nat, j: nat | In(a, i) && In(b, j) && i < |parts| && j < |parts| && Linked(parts[i], parts[j], rule)
      ensures Joined(parent, order, i, j)
    {
      var k := FindChild(b, parts, j);
      assert Solved(parts, rule, parent, order, a, b.children[k]);
    }
  }

  /** The child pairs (k, l), k <= l, with k < i, or k == i and l < j. */
  ghost predicate PairsSolved(parts: seq<Particle>, rule: Rule, parent: seq<nat>, order: seq<nat>, ts: seq<Tree>,
                              i: nat, j: nat)
    requires Ranked(parent, order) && |parts| == |parent|
  {
    forall k, l {:trigger ts[k], ts[l]} :: 0 <= k <= l < |ts| && (k < i || (k == i && l < j)) ==>
      Solved(parts, rule, parent, order, ts[k], ts[l])
  }

  lemma PairsGrow(parts: seq<Particle>, rule: Rule, before: seq<nat>, after: seq<nat>, order: seq<nat>, ts: seq<Tree>,
                  i: nat, j: nat)
    requires Ranked(before, order) && Ranked(after, order) && Coarser(before, after, order) && |parts| == |order|
    requires PairsSolved(parts, rule, before, order, ts, i, j)
    requires i <= j < |ts| && Solved(parts, rule, after, order, ts[i], ts[j])
    ensures PairsSolved(parts, rule, after, order, ts, i, j + 1)
  {
    forall k, l | 0 <= k <= l < |ts| && (k < i || (k == i && l < j))
      ensures Solved(parts, rule, after, order, ts[k], ts[l])
    {
      CoarserSolved(parts, rule, before, after, order, ts[k], ts[l]);
    }
  }

  lemma OrderedPairsSuffice(parts: seq<Particle>, rule: Rule, parent: seq<nat>, order: seq<nat>, ts: seq<Tree>,
                            k: nat, l: nat, i: nat, j: nat)
    requires Ranked(parent, order) && |parts| == |parent| && k < |ts| && l < |ts|
    requires PairsSolved(parts, rule, parent, order, ts, |ts|, 0)
    requires In(ts[k], i) && In(ts[l], j) && i < |parts| && j < |parts| && Linked(parts[i], parts[j], rule)
    ensures Joined(parent, order, i, j)
  {
    if k <= l {
      assert Solved(parts, rule, parent, order, ts[k], ts[l]);
    } else {
      LinkedSymmetric(parts[i], parts[j], rule);
      assert Solved(parts, rule, parent, order, ts[l], ts[k]);
      assert Joined(parent, order, j, i);
    }
  }

  lemma PairsSolveSelf(parts: seq<Particle>, rule: Rule, parent: seq<nat>, order: seq<nat>, a: Tree)
    requires Ranked(parent, order) && |parts| == |parent| && Good(a, parts) && a.Inner?
    requires PairsSolved(parts, rule, parent, order, a.children, |a.children|, |a.children|)
    ensures Solved(parts, rule, parent, order, a, a)
  {
    forall i: nat, j: nat | In(a, i) && In(a, j) && i < |parts| && j < |parts| && Linked(parts[i], parts[j], rule)
      ensures Joined(parent, order, i, j)
    {
      var k := FindChild(a, parts, i);
      var l := FindChild(a, parts, j);
      OrderedPairsSuffice(parts, rule, parent, order, a.children, k, l, i, j);
    }
  }
}
