/** All processes together: the mirror prune gives every cross-process pair to exactly one side, so
    the edges of all walks bridge the processes and the final labels are exact. */
module WalkEnd {
  import opened Geometry
  import opened Graph
  import opened Forest
  import opened Sorting
  import opened Trees
  import opened Linking
  import opened PhaseBRun
  import opened Labels
  import opened Phase3
  import opened EndToEnd
  import opened Visitor
  import opened WalkMachine
  import opened WalkCover

  // ---- keepMirroredPair.

  /** The tie-break modes: index parity, or a hash weighted per home PE. */
  datatype TieBreak = Parity | Weighted(mix: (int, int) -> nat, weight: int -> nat)

  predicate KeepPair(tb: TieBreak, target: int, source: int)
    requires tb.Weighted? ==> forall x {:trigger tb.weight(x)} :: tb.weight(x) > 0
  {
    match tb
    case Parity => if (target + source) % 2 == 0 then target < source else target > source
    case Weighted(mix, weight) =>
      var lo, hi := if target < source then target else source, if target < source then source else target;
      var winner := if mix(lo, hi) % (weight(lo) + weight(hi)) < weight(hi) then lo else hi;
      winner == target
  }

  /** Both owners evaluate the same expression and exactly one keeps the pair. */
  lemma KeepsOneSide(tb: TieBreak, a: int, b: int)
    requires (tb.Weighted? ==> forall x {:trigger tb.weight(x)} :: tb.weight(x) > 0) && a != b
    ensures KeepPair(tb, a, b) <==> !KeepPair(tb, b, a)
  {
  }

  /** By index parity the kept pairs alternate on either side of a piece, so each piece keeps half of them. */
  lemma ParityAlternates(a: int, b: int)
    requires a < b || b + 1 < a
    ensures KeepPair(Parity, a, b) <==> !KeepPair(Parity, a, b + 1)
    ensures KeepPair(Parity, b, a) <==> !KeepPair(Parity, b + 1, a)
  {
  }

  // ---- Every process walks its own pieces against the whole tree.

  /** Position k of the tree's particle list holds particle i of process q.  The tree lists particles in
      its own order; which process and which place of its list each one has is any bijection. */
  predicate Stands(w: World, tree: seq<Particle>, q: nat, i: nat, k: nat) {
    w.At(q, i) && k < |tree| && tree[k] == w.procs[q].parts[i]
  }

  /** Process p's walk sees the world: the particles of the one tree with their encoded tips, its own
      pieces as targets, the tie-break as keep. */
  ghost predicate Sees(w: World, tree: seq<Particle>, tb: TieBreak, pieceOf: nat -> int, p: nat, c: Config) {
    && c.Ok() && c.v.parts == tree && c.v.rule == w.rule && c.v.pieceOf == pieceOf
    && (tb.Weighted? ==> forall x {:trigger tb.weight(x)} :: tb.weight(x) > 0)
    && (forall a, b {:trigger c.v.keep(a, b)} :: c.v.keep(a, b) == KeepPair(tb, a, b))
    && (forall k: nat {:trigger In(c.v.source(1), k)} :: k < |tree| ==> In(c.v.source(1), k))
    && (forall q: nat, i: nat, k: nat {:trigger Stands(w, tree, q, i, k)} :: Stands(w, tree, q, i, k) ==>
          c.v.tips[k] == w.Enc(q, i) && (c.v.mine(k) <==> q == p))
    && (forall i: nat, k: nat {:trigger Stands(w, tree, p, i, k)} :: Stands(w, tree, p, i, k) ==>
          exists e: nat {:trigger c.target[e]} :: e < |c.home| && In(c.target[e], k) && c.piece[e] == pieceOf(k))
  }

  /** The tree holds the world's particles, and a tree piece belongs to one process. */
  ghost predicate PiecesAtHome(w: World, tree: seq<Particle>, pieceOf: nat -> int) {
    && multiset(tree) == multiset(w.Parts())
    && forall p: nat, i: nat, k: nat, q: nat, j: nat,
          l: nat {:trigger Stands(w, tree, p, i, k), Stands(w, tree, q, j, l)} ::
         Stands(w, tree, p, i, k) && Stands(w, tree, q, j, l) && pieceOf(k) == pieceOf(l) ==> p == q
  }

  /** What WalkComplete proves of each process. */
  ghost predicate Walked(c: Config, edges: seq<TipPair>)
    requires c.Ok()
  {
    && (forall x {:trigger x in edges} :: x in edges ==> c.v.Witnessed(x))
    && (forall e: nat, i: nat, j: nat {:trigger Owed(c, e, i, j)} :: e < |c.home| && Owed(c, e, i, j) ==>
          Pack(c.v.tips[i], c.v.tips[j]) in edges)
  }

  /** Process p's walk ran until its done reduction fired, leaving these edges. */
  ghost predicate Fired(c: Config, trace: seq<State>, steps: seq<Step>, edges: seq<TipPair>) {
    Run(c, trace, steps) && trace[|steps|].fired == 1 && trace[|steps|].edges == edges
  }

  lemma FiredWalked(c: Config, trace: seq<State>, steps: seq<Step>, edges: seq<TipPair>)
    requires c.Ok() && Fired(c, trace, steps, edges)
    ensures Walked(c, edges)
  {
    WalkComplete(c, trace, steps, |steps|);
  }

  function Gather(es: seq<seq<TipPair>>): seq<Edge> {
    if es == [] then [] else es[0] + Gather(es[1..])
  }

  lemma {:induction false} Gathers(es: seq<seq<TipPair>>, x: TipPair)
    ensures x in Gather(es) <==> exists p {:trigger es[p]} :: 0 <= p < |es| && x in es[p]
  {
    if es != [] {
      Gathers(es[1..], x);
      if exists p {:trigger es[p]} :: 0 <= p < |es| && x in es[p] {
        var p :| 0 <= p < |es| && x in es[p];
        if p > 0 { assert es[1..][p - 1] == es[p]; }
      }
      if x in Gather(es[1..]) {
        var p :| 0 <= p < |es[1..]| && x in es[1..][p];
        assert es[p + 1] == es[1..][p];
      }
    }
  }

  ghost predicate AllWalked(w: World, tree: seq<Particle>, tb: TieBreak, pieceOf: nat -> int, cs: seq<Config>,
                            es: seq<seq<TipPair>>) {
    && |cs| == |es| == |w.procs| && PiecesAtHome(w, tree, pieceOf)
    && forall p: nat {:trigger cs[p]} {:trigger es[p]} :: p < |cs| ==>
          Sees(w, tree, tb, pieceOf, p, cs[p]) && Walked(cs[p], es[p])
  }

  /** Every position holds some process's particle, and every particle has a position. */
  lemma Everywhere(w: World, tree: seq<Particle>, k: nat) returns (p: nat, i: nat)
    requires w.Ok() && multiset(tree) == multiset(w.Parts()) && k < |tree|
    ensures Stands(w, tree, p, i, k)
  {
    SameMembers(tree, w.Parts(), tree[k]);
    var l :| 0 <= l < |w.Parts()| && w.Parts()[l] == tree[k];
    p, i := WherePlaced(w.procs, l);
    assert ExactTips(w.procs[p].parts, w.rule, w.procs[p].tips);
  }

  lemma PositionOf(w: World, tree: seq<Particle>, p: nat, i: nat) returns (k: nat)
    requires w.Ok() && multiset(tree) == multiset(w.Parts()) && w.At(p, i)
    ensures Stands(w, tree, p, i, k)
  {
    var l := PartOf(w.procs, p, i);
    SameMembers(tree, w.Parts(), w.Parts()[l]);
    k :| 0 <= k < |tree| && tree[k] == w.Parts()[l];
  }

  lemma TreeLinks(w: World, tree: seq<Particle>)
    requires multiset(tree) == multiset(w.Parts())
    ensures LinkGraph(tree, w.rule) == w.Links()
  {
    forall x ensures x in tree <==> x in w.Parts() { SameMembers(tree, w.Parts(), x); }
    LinkGraphGrows(tree, w.Parts(), w.rule);
    LinkGraphGrows(w.Parts(), tree, w.rule);
  }

  /** An edge of process p joins the tips of connected particles, and one of the two is a particle of p. */
  lemma EdgeSound(w: World, tree: seq<Particle>, tb: TieBreak, pieceOf: nat -> int, p: nat, c: Config, x: TipPair)
    returns (a: nat, i: nat, b: nat, j: nat)
    requires w.Ok() && multiset(tree) == multiset(w.Parts()) && Sees(w, tree, tb, pieceOf, p, c) && c.v.Witnessed(x)
    ensures w.At(a, i) && w.At(b, j) && x == (w.Enc(a, i), w.Enc(b, j)) && x.0 != x.1
    ensures Conn(w.Links(), w.Order(a, i), w.Order(b, j)) && (a == p || b == p)
  {
    var k: nat, l: nat :| k < |tree| && l < |tree| && Linked(tree[k], tree[l], c.v.rule)
                          && Pack(c.v.tips[k], c.v.tips[l]) == x && c.v.tips[k] != c.v.tips[l] && c.v.mine(l);
    a, i := Everywhere(w, tree, k);
    b, j := Everywhere(w, tree, l);
    LinkedConn(tree, w.rule, k, l);
    TreeLinks(w, tree);
    assert c.v.tips[k] == w.Enc(a, i) && c.v.tips[l] == w.Enc(b, j) && b == p;
    ConnSym(w.Links(), w.Order(a, i), w.Order(b, j));
    if x != (w.Enc(a, i), w.Enc(b, j)) { a, i, b, j := b, j, a, i; }
  }

  lemma TipsApart(w: World, p: nat, i: nat, q: nat, j: nat)
    requires w.Ok() && w.At(p, i) && w.At(q, j) && p != q
    ensures w.Enc(p, i) != w.Enc(q, j)
  {
    EncOwner(w, p, i);
    EncOwner(w, q, j);
  }

  /** An encoded tip names the process that carries it. */
  lemma EncOwner(w: World, p: nat, i: nat)
    requires w.Ok() && w.At(p, i)
    ensures Owner(w.Enc(p, i)) == p
  {
    TipIsOrder(w, p, i);
    EncodingAt(w, p, w.procs[p].tips[i]);
  }

  /** The side that keeps the pair finds it. */
  lemma KeptSideFinds(w: World, tree: seq<Particle>, tb: TieBreak, pieceOf: nat -> int, q: nat, c: Config,
                      es: seq<TipPair>,
                      p: nat, i: nat, j: nat, k: nat, l: nat)
    requires w.Ok() && Sees(w, tree, tb, pieceOf, q, c) && Walked(c, es) && p != q
    requires Stands(w, tree, p, i, k) && Stands(w, tree, q, j, l)
    requires Linked(tree[k], tree[l], w.rule) && KeepPair(tb, pieceOf(l), pieceOf(k))
    ensures Pack(w.Enc(p, i), w.Enc(q, j)) in es
  {
    TipsApart(w, p, i, q, j);
    var e: nat :| e < |c.home| && In(c.target[e], l) && c.piece[e] == pieceOf(l);
    assert c.v.tips[k] == w.Enc(p, i) && c.v.tips[l] == w.Enc(q, j);
    assert c.v.keep(pieceOf(l), pieceOf(k));
    assert Owed(c, e, k, l);
  }

  lemma PackConn(edges: seq<Edge>, x: nat, y: nat)
    requires Pack(x, y) in edges
    ensures Conn(EdgeSet(edges), x, y) && Conn(EdgeSet(edges), y, x)
  {
    var e := Pack(x, y);
    assert Adjacent(EdgeSet(edges), x, y);
    ConnEdge(EdgeSet(edges), x, y);
    ConnSym(EdgeSet(edges), x, y);
  }

  lemma LinkFound(w: World, tree: seq<Particle>, tb: TieBreak, pieceOf: nat -> int, cs: seq<Config>,
                  es: seq<seq<TipPair>>,
                  p: nat, i: nat, q: nat, j: nat)
    requires w.Ok() && AllWalked(w, tree, tb, pieceOf, cs, es) && w.At(p, i) && w.At(q, j) && p != q
    requires Linked(w.procs[p].parts[i], w.procs[q].parts[j], w.rule)
    ensures Conn(EdgeSet(Gather(es)), w.Enc(p, i), w.Enc(q, j))
  {
    var k := PositionOf(w, tree, p, i);
    var l := PositionOf(w, tree, q, j);
    assert Sees(w, tree, tb, pieceOf, q, cs[q]) && Sees(w, tree, tb, pieceOf, p, cs[p]);
    assert Walked(cs[q], es[q]) && Walked(cs[p], es[p]);
    LinkedSymmetric(w.procs[p].parts[i], w.procs[q].parts[j], w.rule);
    KeepsOneSide(tb, pieceOf(l), pieceOf(k));
    if KeepPair(tb, pieceOf(l), pieceOf(k)) {
      KeptSideFinds(w, tree, tb, pieceOf, q, cs[q], es[q], p, i, j, k, l);
      Gathers(es, Pack(w.Enc(p, i), w.Enc(q, j)));
      PackConn(Gather(es), w.Enc(p, i), w.Enc(q, j));
    } else {
      KeptSideFinds(w, tree, tb, pieceOf, p, cs[p], es[p], q, j, i, l, k);
      Gathers(es, Pack(w.Enc(q, j), w.Enc(p, i)));
      PackConn(Gather(es), w.Enc(q, j), w.Enc(p, i));
    }
  }

  /** The edges of all processes' walks bridge the world. */
  lemma WalksBridge(w: World, tree: seq<Particle>, tb: TieBreak, pieceOf: nat -> int, cs: seq<Config>,
                    es: seq<seq<TipPair>>)
    requires w.Ok() && AllWalked(w, tree, tb, pieceOf, cs, es)
    ensures w.Bridged(Gather(es))
  {
    var edges := Gather(es);
    forall x | x in edges
      ensures x.0 != x.1
      ensures exists a: nat, i: nat, b: nat, j: nat ::
                w.At(a, i) && w.At(b, j) && x == (w.Enc(a, i), w.Enc(b, j)) &&
                      Conn(w.Links(), w.Order(a, i), w.Order(b, j))
    {
      Gathers(es, x);
      var p :| 0 <= p < |es| && x in es[p];
      assert Sees(w, tree, tb, pieceOf, p, cs[p]) && Walked(cs[p], es[p]);
      var a, i, b, j := EdgeSound(w, tree, tb, pieceOf, p, cs[p], x);
    }
    forall p: nat, i: nat, q: nat, j: nat | w.At(p, i) && w.At(q, j) && p != q &&
          Linked(w.procs[p].parts[i], w.procs[q].parts[j], w.rule)
      ensures Conn(EdgeSet(edges), w.Enc(p, i), w.Enc(q, j))
    {
      LinkFound(w, tree, tb, pieceOf, cs, es, p, i, q, j);
    }
  }

  /** The pipeline theorem: any walks that fired on every process, the flat union-find over their edges
      and the relabel give every particle a label that decodes to the least order of its component. */
  lemma PipelineExact(w: World, tree: seq<Particle>, tb: TieBreak, pieceOf: nat -> int, cs: seq<Config>,
                      es: seq<seq<TipPair>>,
                      traces: seq<seq<State>>, steps: seq<seq<Step>>, flat: map<nat, int>, p: nat, i: nat)
    requires w.Ok() && |cs| == |es| == |traces| == |steps| == |w.procs| && PiecesAtHome(w, tree, pieceOf)
    requires forall q: nat {:trigger cs[q]} :: q < |cs| ==>
               Sees(w, tree, tb, pieceOf, q, cs[q]) && Fired(cs[q], traces[q], steps[q], es[q])
    requires FinalLabels(Gather(es), flat) && w.At(p, i)
    ensures IsComponentMin(w.Links(), w.Order(p, i), MinOrderLabel(FinalLabel(flat, w.Enc(p, i))))
  {
    forall q: nat | q < |cs|
      ensures Walked(cs[q], es[q])
    {
      FiredWalked(cs[q], traces[q], steps[q], es[q]);
    }
    WalksBridge(w, tree, tb, pieceOf, cs, es);
    LabelsExact(w, Gather(es), flat, p, i);
  }
}
