/** A whole phase A on one PE: admit pieces, walk every self pair and every cross pair.  Two
    drivers, one result: the components of the linking graph of this PE's particles. */
module PhaseARun {
  import opened Geometry
  import opened Graph
  import opened Forest
  import opened Trees
  import opened Linking
  import opened PhaseA
  import opened PhaseAWalk

  /** A tree piece: its local tree indexes its own particle block from 0. */
  datatype Piece = Piece(root: Tree, parts: seq<Particle>)

  ghost predicate PieceOk(p: Piece) {
    && Good(p.root, p.parts)
    && Count(p.root) == |p.parts|
    && (p.parts != [] ==> First(p.root) == 0)
  }

  function Blocks(pieces: seq<Piece>): seq<Particle> {
    if pieces == [] then [] else pieces[0].parts + Blocks(pieces[1..])
  }

  // ---- Moving a piece's tree to its flat offset on this PE.

  function Shift(t: Tree, k: nat): Tree {
    match t
    case Leaf(box, begin, n) => Leaf(box, begin + k, n)
    case Inner(box, cs) => Inner(box, ShiftAll(cs, k))
  }

  function ShiftAll(ts: seq<Tree>, k: nat): seq<Tree> {
    if ts == [] then [] else [Shift(ts[0], k)] + ShiftAll(ts[1..], k)
  }

  lemma {:induction false} ShiftCounts(t: Tree, k: nat)
    ensures Count(Shift(t, k)) == Count(t)
    ensures Count(t) > 0 ==> First(Shift(t, k)) == First(t) + k
    decreases t, 1
  {
    match t
    case Leaf(_, _, _) =>
    case Inner(_, cs) => ShiftCountsAll(cs, k);
  }

  lemma {:induction false} ShiftCountsAll(ts: seq<Tree>, k: nat)
    ensures CountAll(ShiftAll(ts, k)) == CountAll(ts)
    ensures CountAll(ts) > 0 ==> FirstOf(ShiftAll(ts, k)) == FirstOf(ts) + k
    decreases ts, 0
  {
    if ts != [] {
      ShiftCounts(ts[0], k);
      ShiftCountsAll(ts[1..], k);
    }
  }

  lemma {:induction false} ShiftAdjoin(ts: seq<Tree>, at: nat, k: nat)
    requires Adjoin(ts, at)
    ensures Adjoin(ShiftAll(ts, k), at + k)
  {
    if ts != [] {
      ShiftCounts(ts[0], k);
      ShiftAdjoin(ts[1..], at + Count(ts[0]), k);
    }
  }

  lemma {:induction false} ShiftMember(ts: seq<Tree>, k: nat, c: Tree) returns (d: Tree)
    requires c in ShiftAll(ts, k)
    ensures d in ts && c == Shift(d, k)
  {
    if c == Shift(ts[0], k) {
      d := ts[0];
    } else {
      d := ShiftMember(ts[1..], k, c);
    }
  }

  lemma {:induction false} ShiftGood(t: Tree, pre: seq<Particle>, parts: seq<Particle>)
    requires Good(t, parts)
    ensures Good(Shift(t, |pre|), pre + parts)
  {
    match t
    case Leaf(box, begin, n) =>
      forall i | begin + |pre| <= i < begin + |pre| + n
        ensures Within((pre + parts)[i].pos, box)
      {
        assert (pre + parts)[i] == parts[i - |pre|];
      }
    case Inner(box, cs) =>
      var k := |pre|;
      ShiftCounts(t, k);
      ShiftAdjoin(cs, First(t), k);
      forall c | c in ShiftAll(cs, k)
        ensures Good(c, pre + parts) && (Count(c) > 0 ==> Inside(c.box, box))
      {
        var d := ShiftMember(cs, k, c);
        ShiftGood(d, pre, parts);
        ShiftCounts(d, k);
      }
  }

  lemma {:induction false} GoodExtends(t: Tree, parts: seq<Particle>, more: seq<Particle>)
    requires Good(t, parts)
    ensures Good(t, parts + more)
  {
    match t
    case Leaf(_, _, _) =>
    case Inner(_, cs) =>
      forall c | c in cs
        ensures Good(c, parts + more)
      {
        GoodExtends(c, parts, more);
      }
  }

  // ---- Admission.

  function Identity(n: nat, m: nat): (r: seq<nat>)
    ensures |r| == m && forall i :: 0 <= i < m ==> r[i] == n + i
  {
    seq(m, i requires 0 <= i < m => n + i)
  }

  function Orders(parts: seq<Particle>): (r: seq<nat>)
    ensures |r| == |parts| && forall i :: 0 <= i < |r| ==> r[i] == parts[i].order
  {
    seq(|parts|, i requires 0 <= i < |parts| => parts[i].order)
  }

  lemma {:induction false} ExtendedRoot(parent: seq<nat>, order: seq<nat>, more: seq<nat>, i: nat)
    requires Ranked(parent, order) && Distinct(order + more) && i < |parent| + |more|
    ensures Ranked(parent + Identity(|parent|, |more|), order + more)
    ensures Root(parent + Identity(|parent|, |more|), order + more, i) == if i < |parent| then Root(parent, order, i)
          else i
    decreases (order + more)[i]
  {
    var after := parent + Identity(|parent|, |more|);
    assert Ranked(after, order + more);
    if i < |parent| && parent[i] != i {
      ExtendedRoot(parent, order, more, parent[i]);
      assert Ascend(after, order + more, i) == Ascend(after, order + more, parent[i]);
    }
  }

  ghost predicate JoinsKept(before: seq<nat>, order: seq<nat>, after: seq<nat>, orders: seq<nat>)
    requires Ranked(before, order) && Ranked(after, orders)
  {
    forall i: nat, j: nat {:trigger Joined(after, orders, i, j)} {:trigger Joined(before, order, i, j)} ::
      Joined(before, order, i, j) ==> Joined(after, orders, i, j)
  }

  /** phaseAAdmit: append a piece's particles as singletons, flat indices after the present ones. */
  method Admit(e: Engine, p: Piece) returns (root: Tree)
    requires e.Valid() && PieceOk(p)
    requires DistinctOrders(e.parts + p.parts) && AllReached(e.parts + p.parts, e.rule)
    modifies e`parts, e`order, e`parent
    ensures e.Valid() && e.parts == old(e.parts) + p.parts && e.order == old(e.order) + Orders(p.parts)
    ensures JoinsKept(old(e.parent), old(e.order), e.parent, e.order)
    ensures Good(root, e.parts) && Count(root) == |p.parts| && (p.parts != [] ==> First(root) == |old(e.parts)|)
  {
    root := Shift(p.root, |e.parts|);
    ShiftGood(p.root, e.parts, p.parts);
    ShiftCounts(p.root, |e.parts|);
    ghost var more := Orders(p.parts);
    ghost var parent, order, parts := e.parent, e.order, e.parts;
    forall i: nat, j: nat
      ensures Differ(order + more, i, j)
    {
      if i < j < |order + more| { assert (parts + p.parts)[i].order != (parts + p.parts)[j].order; }
      if j < i < |order + more| { assert (parts + p.parts)[j].order != (parts + p.parts)[i].order; }
    }
    forall i: nat | i < |parent| + |more| { ExtendedRoot(parent, order, more, i); }
    AdmitKeeps(parts, p.parts, e.rule, parent, order, e.memo);
    e.parent := e.parent + Identity(|e.parent|, |p.parts|);
    e.order := e.order + Orders(p.parts);
    e.parts := e.parts + p.parts;
  }

  lemma AdmitKeeps(parts: seq<Particle>, more: seq<Particle>, rule: Rule, parent: seq<nat>, order: seq<nat>,
                   memo: map<Tree, nat>)
    requires Ranked(parent, order) && |parts| == |parent| && Distinct(order + Orders(more))
    requires forall i :: 0 <= i < |parts| ==> order[i] == parts[i].order
    requires Sound(parts, rule, parent, order) && MemoHolds(memo, parts, parent, order)
    ensures var after, orders := parent + Identity(|parent|, |more|), order + Orders(more);
            && Ranked(after, orders) && JoinsKept(parent, order, after, orders)
            && Sound(parts + more, rule, after, orders) && MemoHolds(memo, parts + more, after, orders)
  {
    var after, orders := parent + Identity(|parent|, |more|), order + Orders(more);
    forall i: nat | i < |after| { ExtendedRoot(parent, order, Orders(more), i); }
    if |after| == 0 { assert Ranked(after, orders); } else { ExtendedRoot(parent, order, Orders(more), 0); }
    LinkGraphGrows(parts, parts + more, rule);
    forall i: nat | i < |after|
      ensures Conn(LinkGraph(parts + more, rule), orders[i], orders[Root(after, orders, i)])
    {
      if i < |parent| {
        ConnMono(LinkGraph(parts, rule), LinkGraph(parts + more, rule), order[i], order[Root(parent, order, i)]);
      } else {
        ConnRefl(LinkGraph(parts + more, rule), orders[i]);
      }
    }
    forall t | t in memo
      ensures Good(t, parts + more) && OneTree(after, orders, t, memo[t])
    {
      GoodExtends(t, parts, more);
      forall i: nat | In(t, i)
        ensures Joined(after, orders, i, memo[t])
      {
        assert Joined(parent, order, i, memo[t]);
      }
    }
  }

  // ---- Exactness.

  /** The forest's trees are the components of the linking graph, each rooted at its least order. */
  ghost predicate Exact(parts: seq<Particle>, rule: Rule, parent: seq<nat>, order: seq<nat>)
    requires Ranked(parent, order) && |parts| == |parent|
  {
    && (forall i: nat {:trigger Root(parent, order, i)} :: i < |parts| ==>
          IsComponentMin(LinkGraph(parts, rule), order[i], order[Root(parent, order, i)]))
    && (forall i: nat, j: nat {:trigger Joined(parent, order, i, j)} :: i < |parts| && j < |parts| ==>
          (Joined(parent, order, i, j) <==> Conn(LinkGraph(parts, rule), order[i], order[j])))
  }

  /** The pieces tile the flat index space. */
  ghost predicate Tiles(roots: seq<Tree>, parts: seq<Particle>) {
    && Adjoin(roots, 0) && CountAll(roots) == |parts|
    && forall k {:trigger roots[k]} :: 0 <= k < |roots| ==> Good(roots[k], parts)
  }

  /** Nothing linked is left unjoined: the walk over all piece pairs was complete. */
  lemma AllLinksJoined(parts: seq<Particle>, rule: Rule, parent: seq<nat>, order: seq<nat>, roots: seq<Tree>, i: nat,
                       j: nat)
    requires Ranked(parent, order) && |parts| == |parent| && Tiles(roots, parts)
    requires PairsSolved(parts, rule, parent, order, roots, |roots|, 0)
    requires i < |parts| && j < |parts| && Linked(parts[i], parts[j], rule)
    ensures Joined(parent, order, i, j)
  {
    var k := LocateIn(roots, 0, i);
    var l := LocateIn(roots, 0, j);
    OrderedPairsSuffice(parts, rule, parent, order, roots, k, l, i, j);
  }

  /** y is the order of a particle in i's tree. */
  ghost predicate InTreeOf(parent: seq<nat>, order: seq<nat>, i: nat, y: int)
    requires Ranked(parent, order)
  {
    exists k: nat {:trigger Joined(parent, order, i, k)} :: k < |order| && y == order[k] && Joined(parent, order, i, k)
  }

  lemma TreeAlongLink(parts: seq<Particle>, parent: seq<nat>, order: seq<nat>, i: nat, p: nat, q: nat)
    requires Ranked(parent, order) && p < |parent| && Joined(parent, order, p, q)
    requires InTreeOf(parent, order, i, order[p])
    ensures InTreeOf(parent, order, i, order[q])
  {
    var k: nat :| k < |order| && order[p] == order[k] && Joined(parent, order, i, k);
    assert Differ(order, k, p);
    assert Joined(parent, order, i, q);
  }

  lemma ComponentInTree(parts: seq<Particle>, rule: Rule, parent: seq<nat>, order: seq<nat>, roots: seq<Tree>, i: nat,
                        y: int)
    requires Ranked(parent, order) && |parts| == |parent| && Tiles(roots, parts)
    requires forall i :: 0 <= i < |parts| ==> order[i] == parts[i].order
    requires PairsSolved(parts, rule, parent, order, roots, |roots|, 0)
    requires i < |parts| && Conn(LinkGraph(parts, rule), order[i], y)
    ensures InTreeOf(parent, order, i, y)
  {
    var L := LinkGraph(parts, rule);
    var S := iset z | InTreeOf(parent, order, i, z);
    forall u, v | (u, v) in L
      ensures u in S <==> v in S
    {
      var p: nat, q: nat :| p < |parts| && q < |parts| && Linked(parts[p], parts[q], rule) && u == parts[p].order &&
            v == parts[q].order;
      AllLinksJoined(parts, rule, parent, order, roots, p, q);
      assert Joined(parent, order, q, p);
      if u in S { TreeAlongLink(parts, parent, order, i, p, q); }
      if v in S { TreeAlongLink(parts, parent, order, i, q, p); }
    }
    assert Joined(parent, order, i, i);
    ConnClosed(L, S, order[i], y);
  }

  lemma JoinedIsConnected(parts: seq<Particle>, rule: Rule, parent: seq<nat>, order: seq<nat>, roots: seq<Tree>,
                          i: nat, j: nat)
    requires Ranked(parent, order) && |parts| == |parent| && Tiles(roots, parts)
    requires forall i :: 0 <= i < |parts| ==> order[i] == parts[i].order
    requires Sound(parts, rule, parent, order)
    requires PairsSolved(parts, rule, parent, order, roots, |roots|, 0)
    requires i < |parts| && j < |parts|
    ensures Joined(parent, order, i, j) <==> Conn(LinkGraph(parts, rule), order[i], order[j])
  {
    if Joined(parent, order, i, j) { RootConn(parts, rule, parent, order, i, j); }
    if Conn(LinkGraph(parts, rule), order[i], order[j]) {
      ComponentInTree(parts, rule, parent, order, roots, i, order[j]);
      var k: nat :| k < |order| && order[j] == order[k] && Joined(parent, order, i, k);
      assert Differ(order, j, k);
    }
  }

  lemma RootIsMinimum(parts: seq<Particle>, rule: Rule, parent: seq<nat>, order: seq<nat>, roots: seq<Tree>, i: nat)
    requires Ranked(parent, order) && |parts| == |parent| && Tiles(roots, parts)
    requires forall i :: 0 <= i < |parts| ==> order[i] == parts[i].order
    requires Sound(parts, rule, parent, order)
    requires PairsSolved(parts, rule, parent, order, roots, |roots|, 0)
    requires i < |parts|
    ensures IsComponentMin(LinkGraph(parts, rule), order[i], order[Root(parent, order, i)])
  {
    forall y: int | Conn(LinkGraph(parts, rule), order[i], y)
      ensures order[Root(parent, order, i)] <= y
    {
      ComponentInTree(parts, rule, parent, order, roots, i, y);
      var k: nat :| k < |order| && y == order[k] && Joined(parent, order, i, k);
      assert Root(parent, order, k) == Root(parent, order, i);
    }
  }

  /** Sound unions plus a complete walk give exactly the components and their minima. */
  lemma PhaseAExact(parts: seq<Particle>, rule: Rule, parent: seq<nat>, order: seq<nat>, roots: seq<Tree>)
    requires Ranked(parent, order) && |parts| == |parent| && Tiles(roots, parts)
    requires forall i :: 0 <= i < |parts| ==> order[i] == parts[i].order
    requires Sound(parts, rule, parent, order)
    requires PairsSolved(parts, rule, parent, order, roots, |roots|, 0)
    ensures Exact(parts, rule, parent, order)
  {
    forall i: nat, j: nat | i < |parts| && j < |parts|
      ensures Joined(parent, order, i, j) <==> Conn(LinkGraph(parts, rule), order[i], order[j])
    {
      JoinedIsConnected(parts, rule, parent, order, roots, i, j);
    }
    forall i: nat | i < |parts|
      ensures IsComponentMin(LinkGraph(parts, rule), order[i], order[Root(parent, order, i)])
    {
      RootIsMinimum(parts, rule, parent, order, roots, i);
    }
  }

  // ---- The drivers.

  ghost predicate Runnable(pieces: seq<Piece>, rule: Rule, cfg: GridConfig) {
    && (forall k {:trigger pieces[k]} :: 0 <= k < |pieces| ==> PieceOk(pieces[k]))
    && DistinctOrders(Blocks(pieces)) && AllReached(Blocks(pieces), rule) && GridSound(cfg, rule)
  }

  lemma {:induction false} BlocksSnoc(pieces: seq<Piece>, k: nat)
    requires k < |pieces|
    ensures Blocks(pieces[..k + 1]) == Blocks(pieces[..k]) + pieces[k].parts
    ensures Blocks(pieces[..k + 1]) <= Blocks(pieces)
    decreases k
  {
    if k == 0 {
      assert pieces[..1] == [pieces[0]];
      assert Blocks([pieces[0]]) == pieces[0].parts + Blocks([]);
    } else {
      BlocksSnoc(pieces[1..], k - 1);
      assert pieces[..k + 1][1..] == pieces[1..][..k];
      assert pieces[..k][1..] == pieces[1..][..k - 1];
    }
  }

  ghost predicate SelfSolved(parts: seq<Particle>, rule: Rule, parent: seq<nat>, order: seq<nat>, roots: seq<Tree>,
                             n: nat)
    requires Ranked(parent, order) && |parts| == |parent|
  {
    forall k {:trigger roots[k]} :: 0 <= k < n && k < |roots| ==> Solved(parts, rule, parent, order, roots[k], roots[k])
  }

  /** Cross pairs (k, l), k < l, with k < i, or k == i and l < j. */
  ghost predicate CrossSolved(parts: seq<Particle>, rule: Rule, parent: seq<nat>, order: seq<nat>, roots: seq<Tree>,
                              i: nat, j: nat)
    requires Ranked(parent, order) && |parts| == |parent|
  {
    forall k, l {:trigger roots[k], roots[l]} :: 0 <= k < l < |roots| && (k < i || (k == i && l < j)) ==>
      Solved(parts, rule, parent, order, roots[k], roots[l])
  }

  lemma CoarserSelf(parts: seq<Particle>, rule: Rule, before: seq<nat>, after: seq<nat>, order: seq<nat>,
                    roots: seq<Tree>, n: nat)
    requires Ranked(before, order) && Ranked(after, order) && Coarser(before, after, order) && |parts| == |order|
    requires SelfSolved(parts, rule, before, order, roots, n)
    ensures SelfSolved(parts, rule, after, order, roots, n)
  {
    forall k | 0 <= k < n && k < |roots|
      ensures Solved(parts, rule, after, order, roots[k], roots[k])
    {
      CoarserSolved(parts, rule, before, after, order, roots[k], roots[k]);
    }
  }

  lemma CrossGrows(parts: seq<Particle>, rule: Rule, before: seq<nat>, after: seq<nat>, order: seq<nat>,
                   roots: seq<Tree>, i: nat, j: nat)
    requires Ranked(before, order) && Ranked(after, order) && Coarser(before, after, order) && |parts| == |order|
    requires CrossSolved(parts, rule, before, order, roots, i, j)
    requires i < j < |roots| && Solved(parts, rule, after, order, roots[i], roots[j])
    ensures CrossSolved(parts, rule, after, order, roots, i, j + 1)
  {
    forall k, l | 0 <= k < l < |roots| && (k < i || (k == i && l < j))
      ensures Solved(parts, rule, after, order, roots[k], roots[l])
    {
      CoarserSolved(parts, rule, before, after, order, roots[k], roots[l]);
    }
  }

  /** Work done on earlier pieces survives the admission of a later one. */
  lemma AdmitSelfSolved(parts: seq<Particle>, more: seq<Particle>, rule: Rule, before: seq<nat>, order: seq<nat>,
                        after: seq<nat>, orders: seq<nat>, roots: seq<Tree>)
    requires Ranked(before, order) && Ranked(after, orders) && |parts| == |before| && |parts + more| == |after|
    requires JoinsKept(before, order, after, orders)
    requires forall k {:trigger roots[k]} :: 0 <= k < |roots| ==> Good(roots[k], parts)
    requires SelfSolved(parts, rule, before, order, roots, |roots|)
    ensures SelfSolved(parts + more, rule, after, orders, roots, |roots|)
  {
    forall k | 0 <= k < |roots|
      ensures Solved(parts + more, rule, after, orders, roots[k], roots[k])
    {
      forall i: nat, j: nat | In(roots[k], i) && In(roots[k], j) && i < |parts + more| && j < |parts + more| &&
            Linked((parts + more)[i], (parts + more)[j], rule)
        ensures Joined(after, orders, i, j)
      {
        GoodMember(roots[k], parts, i);
        GoodMember(roots[k], parts, j);
        assert Linked(parts[i], parts[j], rule);
        assert Joined(before, order, i, j);
      }
    }
  }

  lemma TilesGrow(roots: seq<Tree>, parts: seq<Particle>, root: Tree, more: seq<Particle>)
    requires Tiles(roots, parts) && Good(root, parts + more) && Count(root) == |more|
    requires (more != [] ==> First(root) == |parts|)
    ensures Tiles(roots + [root], parts + more)
  {
    forall k | 0 <= k < |roots| { GoodExtends(roots[k], parts, more); }
    AdjoinSnoc(roots, 0, root);
  }

  lemma {:induction false} AdjoinSnoc(ts: seq<Tree>, at: nat, t: Tree)
    requires Adjoin(ts, at) && (Count(t) > 0 ==> First(t) == at + CountAll(ts))
    ensures Adjoin(ts + [t], at) && CountAll(ts + [t]) == CountAll(ts) + Count(t)
  {
    if ts != [] {
      AdjoinSnoc(ts[1..], at + Count(ts[0]), t);
      assert (ts + [t])[1..] == ts[1..] + [t];
    } else {
      assert ([t])[1..] == [];
    }
  }

  /** One self pair: the grid at the piece root if the gate asks for it, else the walk. */
  method SelfPair(e: Engine, root: Tree, cfg: GridConfig)
    requires e.Valid() && Good(root, e.parts) && GridSound(cfg, e.rule)
    modifies e`parent, e`memo
    ensures e.Valid() && Coarser(old(e.parent), e.parent, e.order)
    ensures Solved(e.parts, e.rule, e.parent, e.order, root, root)
  {
    if cfg.On? && !root.Empty() && cfg.dense(root) {
      var solved := GridNode(e, root, cfg.c);
      if solved { return; }
    }
    ghost var p1 := e.parent;
    Walk(e, root, root, cfg);
    CoarserTrans(old(e.parent), p1, e.parent, e.order);
  }

  /** The cross pass over the realised set of pieces. */
  method CrossPass(e: Engine, roots: seq<Tree>)
    requires e.Valid() && Tiles(roots, e.parts) && SelfSolved(e.parts, e.rule, e.parent, e.order, roots, |roots|)
    modifies e`parent, e`memo
    ensures e.Valid() && Exact(e.parts, e.rule, e.parent, e.order)
  {
    for i := 0 to |roots|
      invariant e.Valid() && SelfSolved(e.parts, e.rule, e.parent, e.order, roots, |roots|)
      invariant CrossSolved(e.parts, e.rule, e.parent, e.order, roots, i, i + 1)
    {
      for j := i + 1 to |roots|
        invariant e.Valid() && SelfSolved(e.parts, e.rule, e.parent, e.order, roots, |roots|)
        invariant CrossSolved(e.parts, e.rule, e.parent, e.order, roots, i, j)
      {
        ghost var before := e.parent;
        Walk(e, roots[i], roots[j], Off);
        CoarserSelf(e.parts, e.rule, before, e.parent, e.order, roots, |roots|);
        CrossGrows(e.parts, e.rule, before, e.parent, e.order, roots, i, j);
      }
    }
    PhaseAExact(e.parts, e.rule, e.parent, e.order, roots);
  }

  /** Admit piece k after pieces 0..k-1. */
  method AdmitNext(e: Engine, pieces: seq<Piece>, k: nat, roots: seq<Tree>, ghost cfg: GridConfig)
    returns (all: seq<Tree>)
    requires e.Valid() && Runnable(pieces, e.rule, cfg) && k < |pieces|
    requires e.parts == Blocks(pieces[..k]) && Tiles(roots, e.parts) && |roots| == k
    modifies e`parts, e`order, e`parent
    ensures e.Valid() && e.parts == Blocks(pieces[..k + 1]) && Tiles(all, e.parts) && |all| == k + 1
    ensures all[..k] == roots
    ensures old(SelfSolved(e.parts, e.rule, e.parent, e.order, roots, k)) ==>
          SelfSolved(e.parts, e.rule, e.parent, e.order, roots, k)
  {
    BlocksSnoc(pieces, k);
    PrefixFacts(Blocks(pieces[..k + 1]), Blocks(pieces), e.rule);
    ghost var had, parent, order := e.parts, e.parent, e.order;
    var root := Admit(e, pieces[k]);
    TilesGrow(roots, had, root, pieces[k].parts);
    if old(SelfSolved(e.parts, e.rule, e.parent, e.order, roots, k)) {
      AdmitSelfSolved(had, pieces[k].parts, e.rule, parent, order, e.parent, e.order, roots);
    }
    all := roots + [root];
  }

  /** Self-walk root k, with roots 0..k-1 already done. */
  method SelfNext(e: Engine, roots: seq<Tree>, k: nat, cfg: GridConfig)
    requires e.Valid() && Tiles(roots, e.parts) && GridSound(cfg, e.rule) && k < |roots|
    requires SelfSolved(e.parts, e.rule, e.parent, e.order, roots, k)
    modifies e`parent, e`memo
    ensures e.Valid() && SelfSolved(e.parts, e.rule, e.parent, e.order, roots, k + 1)
  {
    SelfPair(e, roots[k], cfg);
    CoarserSelf(e.parts, e.rule, old(e.parent), e.parent, e.order, roots, k);
  }

  lemma SelfPrefix(parts: seq<Particle>, rule: Rule, parent: seq<nat>, order: seq<nat>, roots: seq<Tree>,
                   all: seq<Tree>)
    requires Ranked(parent, order) && |parts| == |parent| && roots <= all
    requires SelfSolved(parts, rule, parent, order, roots, |roots|)
    ensures SelfSolved(parts, rule, parent, order, all, |roots|)
  {
    forall k | 0 <= k < |roots|
      ensures Solved(parts, rule, parent, order, all[k], all[k])
    {
      assert all[k] == roots[k];
    }
  }

  /** The static path: admit every registered piece, then self pairs, then cross pairs. */
  method RunStatic(pieces: seq<Piece>, rule: Rule, cfg: GridConfig) returns (e: Engine)
    requires Runnable(pieces, rule, cfg)
    ensures fresh(e) && e.Valid() && e.rule == rule && e.parts == Blocks(pieces)
    ensures Exact(e.parts, e.rule, e.parent, e.order)
  {
    var roots;
    e, roots := AdmitAll(pieces, rule, cfg);
    SelfAll(e, roots, cfg);
    CrossPass(e, roots);
  }

  method AdmitAll(pieces: seq<Piece>, rule: Rule, cfg: GridConfig) returns (e: Engine, roots: seq<Tree>)
    requires Runnable(pieces, rule, cfg)
    ensures fresh(e) && e.Valid() && e.rule == rule && e.parts == Blocks(pieces) && Tiles(roots, e.parts)
    ensures |roots| == |pieces|
  {
    e := new Engine(rule);
    roots := [];
    for k := 0 to |pieces|
      invariant fresh(e) && e.Valid() && e.rule == rule
      invariant e.parts == Blocks(pieces[..k]) && Tiles(roots, e.parts) && |roots| == k
    {
      roots := AdmitNext(e, pieces, k, roots, cfg);
    }
    assert pieces[..|pieces|] == pieces;
  }

  method SelfAll(e: Engine, roots: seq<Tree>, cfg: GridConfig)
    requires e.Valid() && Tiles(roots, e.parts) && GridSound(cfg, e.rule)
    modifies e`parent, e`memo
    ensures e.Valid() && SelfSolved(e.parts, e.rule, e.parent, e.order, roots, |roots|)
  {
    for k := 0 to |roots|
      invariant e.Valid() && SelfSolved(e.parts, e.rule, e.parent, e.order, roots, k)
    {
      SelfNext(e, roots, k, cfg);
    }
  }

  method ClaimNext(e: Engine, claims: seq<Piece>, k: nat, roots: seq<Tree>, cfg: GridConfig) returns (all: seq<Tree>)
    requires e.Valid() && Runnable(claims, e.rule, cfg) && k < |claims|
    requires e.parts == Blocks(claims[..k]) && Tiles(roots, e.parts) && |roots| == k
    requires SelfSolved(e.parts, e.rule, e.parent, e.order, roots, k)
    modifies e
    ensures e.Valid() && e.parts == Blocks(claims[..k + 1]) && Tiles(all, e.parts) && |all| == k + 1
    ensures SelfSolved(e.parts, e.rule, e.parent, e.order, all, k + 1)
  {
    all := AdmitNext(e, claims, k, roots, cfg);
    SelfPrefix(e.parts, e.rule, e.parent, e.order, roots, all);
    SelfNext(e, all, k, cfg);
  }

  /** The claim path: each piece this PE wins is admitted and self-walked at once, in whatever order
      the claims fall; the cross pass runs over what it ended up with. */
  method RunClaims(claims: seq<Piece>, rule: Rule, cfg: GridConfig) returns (e: Engine)
    requires Runnable(claims, rule, cfg)
    ensures fresh(e) && e.Valid() && e.rule == rule && e.parts == Blocks(claims)
    ensures Exact(e.parts, e.rule, e.parent, e.order)
  {
    var roots;
    e, roots := ClaimLoop(claims, rule, cfg);
    CrossPass(e, roots);
  }

  method ClaimLoop(claims: seq<Piece>, rule: Rule, cfg: GridConfig) returns (e: Engine, roots: seq<Tree>)
    requires Runnable(claims, rule, cfg)
    ensures fresh(e) && e.Valid() && e.rule == rule && e.parts == Blocks(claims) && Tiles(roots, e.parts)
    ensures SelfSolved(e.parts, e.rule, e.parent, e.order, roots, |roots|)
  {
    e := new Engine(rule);
    roots := [];
    for k := 0 to |claims|
      invariant fresh(e) && e.Valid() && e.rule == rule
      invariant e.parts == Blocks(claims[..k]) && Tiles(roots, e.parts) && |roots| == k
      invariant SelfSolved(e.parts, e.rule, e.parent, e.order, roots, k)
    {
      roots := ClaimNext(e, claims, k, roots, cfg);
    }
    assert claims[..|claims|] == claims;
  }

  lemma PrefixFacts(pre: seq<Particle>, all: seq<Particle>, rule: Rule)
    requires pre <= all && DistinctOrders(all) && AllReached(all, rule)
    ensures DistinctOrders(pre) && AllReached(pre, rule)
  {
    forall i, j | 0 <= i < |pre| && 0 <= j < |pre|
      ensures Reached(pre[i].pos, pre[j].pos, rule.period)
    {
      assert Reached(all[i].pos, all[j].pos, rule.period);
    }
  }
}
