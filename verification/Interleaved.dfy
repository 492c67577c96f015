/** A world whose tree interleaves the processes: two octants, each with a piece of either process.  The
    pipeline theorem's hypotheses hold of it. */
module Interleaved {
  import opened Geometry
  import opened Graph
  import opened Forest
  import opened Trees
  import opened Linking
  import opened PhaseBRun
  import opened Labels
  import opened Phase3
  import opened EndToEnd
  import opened Annotation
  import opened PhaseAWalk
  import opened Visitor
  import opened WalkMachine
  import opened WalkEnd
  import opened WholeRun

  function At(x: real, order: nat): Particle {
    Particle(Vec(x, 0.0, 0.0), order)
  }

  function Span(lo: real, hi: real): Box {
    Box(Vec(lo, 0.0, 0.0), Vec(hi, 0.0, 0.0))
  }

  function Line(): seq<Particle> {
    [At(0.0, 0), At(1.0, 1), At(2.0, 2), At(3.0, 3)]
  }

  function OpenRule(): Rule {
    Rule(16.0, Vec(0.0, 0.0, 0.0))
  }

  /** Process 0 holds orders 0 and 2, process 1 orders 1 and 3. */
  function Two(): World {
    World([Process([At(0.0, 0), At(2.0, 2)], [0, 0]), Process([At(1.0, 1), At(3.0, 3)], [1, 1])], OpenRule())
  }

  function One(k: nat): Tree {
    Leaf(Span(k as real, k as real), k, 1)
  }

  function Octant(k: nat): Tree {
    Inner(Span(k as real, (k + 1) as real), [One(k), One(k + 1)])
  }

  /** The one tree by key: the root, its two octants, a leaf per particle. */
  function Node(k: Key): Tree {
    if k == 1 then Inner(Span(0.0, 3.0), [Octant(0), Octant(2)])
    else if k == 8 then Octant(0) else if k == 9 then Octant(2)
    else if k == 64 then One(0) else if k == 65 then One(1) else if k == 72 then One(2) else if k == 73 then One(3)
    else Leaf(Span(0.0, 0.0), 0, 0)
  }

  /** The piece a leaf is, or -1. */
  function PieceOfNode(k: Key): int {
    if k == 64 then 0 else if k == 65 then 1 else if k == 72 then 2 else if k == 73 then 3 else -1
  }

  /** Every particle is a piece of its own. */
  function PieceOfPart(i: nat): int {
    i
  }

  function Eyes(p: nat): View {
    View(Node, Line(), OpenRule(), [EncodeTip(0, 0), EncodeTip(1, 1), EncodeTip(0, 0), EncodeTip(1, 1)], map[],
         (i: nat) => i % 2 == p, (k: Key) => PieceOfNode(k) >= 0 && PieceOfNode(k) % 2 == p,
         PieceOfPart, PieceOfNode, (a: int, b: int) => KeepPair(Parity, a, b))
  }

  function Walker(p: nat): Config {
    Config(Eyes(p), 1, [0, 0], [p, p + 2], [One(p), One(p + 2)])
  }

  lemma Counts()
    ensures forall k: nat {:trigger One(k)} :: Count(One(k)) == 1 && First(One(k)) == k
    ensures forall k: nat {:trigger Octant(k)} :: Count(Octant(k)) == 2 && First(Octant(k)) == k
  {
    forall k: nat
      ensures Count(Octant(k)) == 2 && First(Octant(k)) == k
    {
      CountTwo(One(k), One(k + 1));
    }
  }

  lemma CountTwo(a: Tree, b: Tree)
    ensures CountAll([a, b]) == Count(a) + Count(b) && (Count(a) > 0 ==> FirstOf([a, b]) == First(a))
  {
    var ts: seq<Tree> := [a, b];
    assert ts[1..] == [b] && ts[1..][1..] == [];
    assert CountAll(ts[1..]) == Count(b) + CountAll(ts[1..][1..]);
  }

  lemma GoodOne(k: nat)
    requires k < 4
    ensures Good(One(k), Line())
  {
  }

  lemma GoodOctant(k: nat)
    requires k == 0 || k == 2
    ensures Good(Octant(k), Line())
  {
    Counts();
    GoodOne(k);
    GoodOne(k + 1);
    var cs := Octant(k).children;
    assert cs[1..] == [One(k + 1)] && cs[1..][1..] == [];
    assert Adjoin(cs[1..], k + 1);
  }

  lemma GoodRoot()
    ensures Good(Node(1), Line()) && Count(Node(1)) == 4 && First(Node(1)) == 0
  {
    Counts();
    GoodOctant(0);
    GoodOctant(2);
    var cs := Node(1).children;
    assert cs[1..] == [Octant(2)] && cs[1..][1..] == [];
    assert Adjoin(cs[1..], 2);
  }

  lemma GoodNode(k: Key)
    ensures Good(Node(k), Line())
  {
    GoodRoot();
    GoodOctant(0);
    GoodOctant(2);
    GoodOne(0);
    GoodOne(1);
    GoodOne(2);
    GoodOne(3);
  }

  lemma Children(k: Key, c: nat)
    requires Node(k).Inner? && c < |Node(k).children|
    ensures c < 8 && Node(8 * k + c) == Node(k).children[c]
  {
  }

  lemma PieceLeaf(k: Key, i: nat)
    requires PieceOfNode(k) >= 0 && In(Node(k), i)
    ensures i == PieceOfNode(k)
  {
  }

  lemma LineReached()
    ensures AllReached(Line(), OpenRule())
  {
  }

  lemma EyesLocal(p: nat, k: Key, i: nat)
    requires Eyes(p).local(k) && In(Eyes(p).source(k), i)
    ensures Eyes(p).mine(i)
  {
    PieceLeaf(k, i);
  }

  lemma EyesPiece(p: nat, k: Key, i: nat)
    requires Eyes(p).piece(k) >= 0 && In(Eyes(p).source(k), i)
    ensures Eyes(p).pieceOf(i) == Eyes(p).piece(k)
  {
    PieceLeaf(k, i);
  }

  lemma EyesChildren(p: nat, k: Key, c: nat)
    requires Eyes(p).source(k).Inner? && c < |Eyes(p).source(k).children|
    ensures c < 8 && Eyes(p).source(8 * k + c) == Eyes(p).source(k).children[c]
  {
    Children(k, c);
  }

  lemma EyesGood(p: nat, k: Key)
    ensures Good(Eyes(p).source(k), Eyes(p).parts)
  {
    GoodNode(k);
  }

  lemma EyesNotes(p: nat)
    requires p < 2
    ensures |Eyes(p).tips| == |Eyes(p).parts| && NotesHold(Eyes(p).notes, Eyes(p).tips)
    ensures AllReached(Eyes(p).parts, Eyes(p).rule)
  {
    LineReached();
  }

  lemma EyesOk(p: nat)
    requires p < 2
    ensures Eyes(p).Ok()
  {
    EyesNotes(p);
    AllEyes(Eyes(p), p);
  }

  lemma AllEyes(v: View, p: nat)
    requires v == Eyes(p) && |v.tips| == |v.parts| && NotesHold(v.notes, v.tips) && AllReached(v.parts, v.rule)
    ensures v.Ok()
  {
    forall k: Key ensures Good(v.source(k), v.parts) { EyesGood(p, k); }
    forall k: Key, c: nat | v.source(k).Inner? && c < |v.source(k).children|
      ensures c < 8 && v.source(8 * k + c) == v.source(k).children[c]
    {
      EyesChildren(p, k, c);
    }
    forall k: Key, i: nat | v.local(k) && In(v.source(k), i) ensures v.mine(i) { EyesLocal(p, k, i); }
    forall k: Key, i: nat | v.piece(k) >= 0 && In(v.source(k), i)
      ensures v.pieceOf(i) == v.piece(k)
    {
      EyesPiece(p, k, i);
    }
  }

  predicate AtLeast(tip: nat, v: int) {
    v >= tip
  }

  /** A process's tips are exact when all its particles are linked and tip is the order of the first. */
  lemma Exact(parts: seq<Particle>, tip: nat)
    requires |parts| == 2 && parts[0].order == tip && tip <= parts[1].order && Linked(parts[0], parts[1], OpenRule())
    ensures ExactTips(parts, OpenRule(), [tip, tip])
  {
    var E := LinkGraph(parts, OpenRule());
    LinkedSymmetric(parts[0], parts[1], OpenRule());
    LinkedConn(parts, OpenRule(), 1, 0);
    ConnRefl(E, parts[0].order);
    forall i, y: int | 0 <= i < 2 && Conn(E, parts[i].order, y)
      ensures tip <= y
    {
      var S := iset v: int | AtLeast(tip, v);
      ConnClosed(E, S, parts[i].order, y);
    }
  }

  lemma TwoOk()
    ensures Two().Ok() && Two().Parts() == [At(0.0, 0), At(2.0, 2), At(1.0, 1), At(3.0, 3)]
  {
    var w := Two();
    Exact(w.procs[0].parts, 0);
    Exact(w.procs[1].parts, 1);
    assert w.procs[1..] == [w.procs[1]] && w.procs[1..][1..] == [];
    assert AllParts(w.procs[1..]) == w.procs[1].parts + AllParts(w.procs[1..][1..]);
  }

  lemma Standing(q: nat, i: nat, k: nat)
    requires Stands(Two(), Line(), q, i, k)
    ensures k == 2 * i + q && q < 2
  {
  }

  lemma TipsTwo(p: nat, q: nat, i: nat, k: nat)
    requires p < 2 && Stands(Two(), Line(), q, i, k)
    ensures k < 4 && Eyes(p).tips[k] == Two().Enc(q, i) && (Eyes(p).mine(k) <==> q == p)
  {
    Standing(q, i, k);
  }

  lemma TargetsTwo(p: nat, i: nat, k: nat)
    requires p < 2 && Stands(Two(), Line(), p, i, k)
    ensures i < 2 && In(Walker(p).target[i], k) && Walker(p).piece[i] == PieceOfPart(k)
  {
    Standing(p, i, k);
    Counts();
  }

  lemma WalkerOk(p: nat)
    requires p < 2
    ensures Walker(p).Ok()
  {
    EyesOk(p);
    Counts();
    GoodOne(p);
    GoodOne(p + 2);
  }

  lemma RootHolds(k: nat)
    requires k < 4
    ensures In(Node(1), k)
  {
    GoodRoot();
  }

  lemma SeesTwo(p: nat)
    requires p < 2
    ensures Sees(Two(), Line(), Parity, PieceOfPart, p, Walker(p))
  {
    WalkerOk(p);
    Assemble(Two(), Line(), p, Walker(p));
  }

  lemma Assemble(w: World, tree: seq<Particle>, p: nat, c: Config)
    requires p < 2 && w == Two() && tree == Line() && c == Walker(p) && c.Ok()
    ensures Sees(w, tree, Parity, PieceOfPart, p, c)
  {
    forall k: nat | k < |tree| ensures In(c.v.source(1), k) { RootHolds(k); }
    forall q: nat, i: nat, k: nat | Stands(w, tree, q, i, k)
      ensures c.v.tips[k] == w.Enc(q, i) && (c.v.mine(k) <==> q == p)
    {
      TipsTwo(p, q, i, k);
    }
    forall i: nat, k: nat | Stands(w, tree, p, i, k)
      ensures exists e: nat {:trigger c.target[e]} :: e < |c.home| && In(c.target[e], k) && c.piece[e] == PieceOfPart(k)
    {
      TargetsTwo(p, i, k);
    }
  }

  lemma Mixed(o: nat)
    requires o == 0 || o == 2
    ensures In(Octant(o), o) && Stands(Two(), Line(), 0, o / 2, o)
    ensures In(Octant(o), o + 1) && Stands(Two(), Line(), 1, o / 2, o + 1)
  {
    Counts();
  }

  lemma SameParticles()
    ensures multiset(Line()) == multiset(Two().Parts())
  {
    TwoOk();
    var all := Two().Parts();
    assert Line() == [all[0], all[2], all[1], all[3]];
  }

  /** Every hypothesis of the pipeline theorem about the tree holds, and both octants mix the processes. */
  lemma HypothesesHold()
    ensures Two().Ok() && PiecesAtHome(Two(), Line(), PieceOfPart)
    ensures forall p: nat {:trigger Walker(p)} :: p < 2 ==> Sees(Two(), Line(), Parity, PieceOfPart, p, Walker(p))
    ensures forall o: nat {:trigger Octant(o)} :: o == 0 || o == 2 ==>
              && In(Octant(o), o) && Stands(Two(), Line(), 0, o / 2, o)
              && In(Octant(o), o + 1) && Stands(Two(), Line(), 1, o / 2, o + 1)
  {
    TwoOk();
    SameParticles();
    forall p: nat | p < 2 ensures Sees(Two(), Line(), Parity, PieceOfPart, p, Walker(p)) { SeesTwo(p); }
    forall p: nat, i: nat, k: nat, q: nat, j: nat, l: nat
      | Stands(Two(), Line(), p, i, k) && Stands(Two(), Line(), q, j, l) && PieceOfPart(k) == PieceOfPart(l)
      ensures p == q
    {
      Standing(p, i, k);
      Standing(q, j, l);
    }
    Mixed(0);
    Mixed(2);
  }

  /** Both processes' walks over this world can be run to their end. */
  lemma WalksEndToo() returns (r: Walks)
    ensures AllEnded(Two(), r) && r.cs == [Walker(0), Walker(1)]
  {
    HypothesesHold();
    var cs := [Walker(0), Walker(1)];
    forall q: nat | q < |cs| ensures Sees(Two(), Line(), Parity, PieceOfPart, q, cs[q]) { assert cs[q] == Walker(q); }
    r := WalksExist(Two(), Line(), Parity, PieceOfPart, cs);
  }
}
