/** Whatever world phase 1 leaves, there are walks over it: each process can be given a view of the one tree, and
    its walk can be run to its end. */
module AnyWorld {
  import opened Geometry
  import opened Trees
  import opened Linking
  import opened Labels
  import opened EndToEnd
  import opened Annotation
  import opened PhaseAWalk
  import opened PhaseBRun
  import opened Visitor
  import opened WalkMachine
  import opened WalkEnd
  import opened WholeRun

  // ---- One box around all particles.

  function Join(a: Box, v: Vec): Box {
    Box(Vec(Min(a.lo.x, v.x), Min(a.lo.y, v.y), Min(a.lo.z, v.z)), Vec(Max(a.hi.x, v.x), Max(a.hi.y, v.y),
          Max(a.hi.z, v.z)))
  }

  function Around(parts: seq<Particle>): Box {
    if parts == [] then Box(Vec(0.0, 0.0, 0.0), Vec(0.0, 0.0, 0.0)) else Join(Around(parts[1..]), parts[0].pos)
  }

  lemma {:induction false} AroundAll(parts: seq<Particle>, i: nat)
    requires i < |parts|
    ensures Within(parts[i].pos, Around(parts))
  {
    if i > 0 { AroundAll(parts[1..], i - 1); }
  }

  // ---- The particles in the order of their processes.

  /** The process of the k-th particle, and where a process's particles begin. */
  function ProcOf(procs: seq<Process>, k: nat): nat {
    if procs == [] || k < |procs[0].parts| then 0 else 1 + ProcOf(procs[1..], k - |procs[0].parts|)
  }

  function Before(procs: seq<Process>, p: nat): nat
    requires p <= |procs|
  {
    if p == 0 then 0 else |procs[0].parts| + Before(procs[1..], p - 1)
  }

  lemma {:induction false} BeforeAt(procs: seq<Process>, p: nat, k: nat)
    requires p < |procs| && k < |procs[p].parts|
    ensures Before(procs, p) + k < |AllParts(procs)| && ProcOf(procs, Before(procs, p) + k) == p
    ensures AllParts(procs)[Before(procs, p) + k] == procs[p].parts[k]
  {
    if p > 0 { BeforeAt(procs[1..], p - 1, k); }
  }

  lemma {:induction false} BeforeFits(procs: seq<Process>, p: nat)
    requires p < |procs|
    ensures Before(procs, p) + |procs[p].parts| <= |AllParts(procs)|
  {
    if p > 0 { BeforeFits(procs[1..], p - 1); }
  }

  /** The process and place of the k-th particle. */
  lemma {:induction false} ProcAt(procs: seq<Process>, k: nat)
    requires k < |AllParts(procs)|
    ensures var q := ProcOf(procs, k); q < |procs| && Before(procs, q) <= k < Before(procs, q) + |procs[q].parts|
  {
    if k >= |procs[0].parts| { ProcAt(procs[1..], k - |procs[0].parts|); }
  }

  // ---- One process's view: the tree is one leaf, its pieces are the processes.

  function TipAt(w: World, k: nat): nat {
    var q := ProcOf(w.procs, k);
    if q < |w.procs| && Before(w.procs, q) <= k < Before(w.procs, q) + |w.procs[q].tips| then
      EncodeTip(q, w.procs[q].tips[k - Before(w.procs, q)])
    else 0
  }

  function Root(parts: seq<Particle>, k: Key): Tree {
    Leaf(Around(parts), 0, if k == 1 then |parts| else 0)
  }

  function ViewOf(w: World, p: nat): View {
    var tree := w.Parts();
    View((k: Key) => Root(tree, k), tree, w.rule, seq(|tree|, (k: nat) => TipAt(w, k)), map[],
         (k: nat) => ProcOf(w.procs, k) == p, (k: Key) => false, (k: nat) => ProcOf(w.procs, k), (k: Key) => -1,
         (a: int, b: int) => KeepPair(Parity, a, b))
  }

  function ConfigOf(w: World, p: nat): Config
    requires p < |w.procs|
  {
    Config(ViewOf(w, p), 1, [0], [p], [Leaf(Around(w.Parts()), Before(w.procs, p), |w.procs[p].parts|)])
  }

  lemma BlockGood(parts: seq<Particle>, begin: nat, n: nat)
    requires begin + n <= |parts|
    ensures Good(Leaf(Around(parts), begin, n), parts)
  {
    forall i | begin <= i < begin + n ensures Within(parts[i].pos, Around(parts)) { AroundAll(parts, i); }
  }

  lemma ViewOk(w: World, p: nat)
    requires AllReached(w.Parts(), w.rule)
    ensures ViewOf(w, p).Ok()
  {
    var v := ViewOf(w, p);
    forall k: Key ensures Good(v.source(k), v.parts) { BlockGood(v.parts, 0, if k == 1 then |v.parts| else 0); }
  }

  lemma ConfigOk(w: World, p: nat)
    requires AllReached(w.Parts(), w.rule) && p < |w.procs|
    ensures ConfigOf(w, p).Ok()
  {
    var c := ConfigOf(w, p);
    ViewOk(w, p);
    BeforeFits(w.procs, p);
    BlockGood(w.Parts(), Before(w.procs, p), |w.procs[p].parts|);
    forall j: nat | In(c.target[0], j)
      ensures c.v.mine(j)
    {
      BeforeAt(w.procs, p, j - Before(w.procs, p));
    }
  }

  /** Orders being distinct, a particle stands where its process put it. */
  lemma StandsAt(w: World, q: nat, i: nat, k: nat)
    requires w.Ok() && Stands(w, w.Parts(), q, i, k)
    ensures k == Before(w.procs, q) + i && ProcOf(w.procs, k) == q && TipAt(w, k) == w.Enc(q, i)
  {
    BeforeAt(w.procs, q, i);
    var all, l := w.Parts(), Before(w.procs, q) + i;
    assert all[l] == all[k];
    assert !(l < k) && !(k < l);
  }

  lemma SeesAll(w: World, p: nat)
    requires w.Ok() && AllReached(w.Parts(), w.rule) && p < |w.procs|
    ensures Sees(w, w.Parts(), Parity, (k: nat) => ProcOf(w.procs, k), p, ConfigOf(w, p))
  {
    ConfigOk(w, p);
    var c := ConfigOf(w, p);
    forall q: nat, i: nat, k: nat | Stands(w, w.Parts(), q, i, k)
      ensures c.v.tips[k] == w.Enc(q, i) && (c.v.mine(k) <==> q == p)
    {
      StandsAt(w, q, i, k);
    }
    forall i: nat, k: nat | Stands(w, w.Parts(), p, i, k)
      ensures In(c.target[0], k) && c.piece[0] == ProcOf(w.procs, k)
    {
      StandsAt(w, p, i, k);
    }
  }

  /** Every world phase 1 can leave has walks that end: the hypothesis of the whole run can be met. */
  lemma SomeWalks(w: World) returns (r: Walks)
    requires w.Ok() && AllReached(w.Parts(), w.rule)
    ensures AllEnded(w, r)
  {
    var pieceOf := (k: nat) => ProcOf(w.procs, k);
    var cs := seq(|w.procs|, p requires 0 <= p < |w.procs| => ConfigOf(w, p));
    forall q: nat | q < |cs| ensures Sees(w, w.Parts(), Parity, pieceOf, q, cs[q]) { SeesAll(w, q); }
    forall p: nat, i: nat, k: nat, q: nat, j: nat, l: nat
      | Stands(w, w.Parts(), p, i, k) && Stands(w, w.Parts(), q, j, l) && pieceOf(k) == pieceOf(l)
      ensures p == q
    {
      StandsAt(w, p, i, k);
      StandsAt(w, q, j, l);
    }
    r := WalksExist(w, w.Parts(), Parity, pieceOf, cs);
  }
}
