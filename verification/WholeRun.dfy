/** From piece assignments to group names: phase 1 on every process with its race, the walks run to
    their end, any of the three ways to deliver the labels. */
module WholeRun {
  import opened Geometry
  import opened Graph
  import opened Forest
  import opened Linking
  import opened PhaseARun
  import opened ProcessRun
  import opened ClaimedRun
  import opened Labels
  import opened Phase3
  import opened Staged
  import opened EndToEnd
  import opened Pipeline
  import opened Visitor
  import opened WalkMachine
  import opened WalkCover
  import opened WalkProgress
  import opened WalkBound
  import opened WalkEnd

  // ---- Staging what the walks emitted.

  /** What stagePhase3Edges and routeCrossEdges enforce: every edge has an end at home, both ends exist. */
  predicate AtHome(p: nat, n: nat, es: seq<Edge>) {
    forall e {:trigger e in es} :: e in es ==> (Owner(e.0) == p || Owner(e.1) == p) && Owner(e.0) < n && Owner(e.1) < n
  }

  predicate AllAtHome(es: seq<seq<Edge>>) {
    forall p {:trigger es[p]} :: 0 <= p < |es| ==> AtHome(p, |es|, es[p])
  }

  /** The owners never have to refuse an edge: what a process's walk emits has an end at home. */
  lemma WalksAtHome(w: World, tree: seq<Particle>, tb: TieBreak, pieceOf: nat -> int, cs: seq<Config>,
                    es: seq<seq<TipPair>>)
    requires w.Ok() && AllWalked(w, tree, tb, pieceOf, cs, es)
    ensures AllAtHome(es)
  {
    forall p, x | 0 <= p < |es| && x in es[p]
      ensures (Owner(x.0) == p || Owner(x.1) == p) && Owner(x.0) < |es| && Owner(x.1) < |es|
    {
      assert Sees(w, tree, tb, pieceOf, p, cs[p]) && Walked(cs[p], es[p]);
      var a, i, b, j := EdgeSound(w, tree, tb, pieceOf, p, cs[p], x);
      EncOwner(w, a, i);
      EncOwner(w, b, j);
    }
  }

  ghost predicate StagedSoFar(es: seq<seq<Edge>>, s: Staging, n: nat)
    requires n <= |es|
  {
    && |s.locals| == |s.crosses| == n
    && (forall p {:trigger s.locals[p]} :: 0 <= p < n ==> forall e {:trigger e in s.locals[p]} ::
          e in s.locals[p] <==> e in es[p] && Owner(e.0) == p && Owner(e.1) == p)
    && (forall p {:trigger s.crosses[p]} :: 0 <= p < n ==> forall e {:trigger e in s.crosses[p]} ::
          e in s.crosses[p] <==> e in es[p] && !(Owner(e.0) == p && Owner(e.1) == p))
  }

  /** Every process splits its own edges. */
  method StageAll(es: seq<seq<Edge>>) returns (s: Staging)
    requires AllAtHome(es)
    ensures s.Ok() && s.N() == |es| && s.RawIs(Gather(es))
  {
    s := Staging([], []);
    for p := 0 to |es|
      invariant StagedSoFar(es, s, p)
    {
      var loc, cross := StagePhase3Edges(p, es[p]);
      s := Staging(s.locals + [loc], s.crosses + [cross]);
    }
    StagedWell(es, s);
  }

  lemma StagedWell(es: seq<seq<Edge>>, s: Staging)
    requires AllAtHome(es) && StagedSoFar(es, s, |es|)
    ensures s.Ok() && s.RawIs(Gather(es))
  {
    forall p, e | 0 <= p < s.N() && (e in s.locals[p] || e in s.crosses[p])
      ensures e in es[p] && (Owner(e.0) == p || Owner(e.1) == p) && Owner(e.0) < s.N() && Owner(e.1) < s.N()
    {
      assert AtHome(p, |es|, es[p]);
    }
    forall e: Edge
      ensures e in Gather(es) <==> s.Raw(e)
    {
      Gathers(es, e);
      if e in Gather(es) {
        var p :| 0 <= p < |es| && e in es[p];
        assert e in s.locals[p] || e in s.crosses[p];
      }
      if s.Raw(e) {
        var p :| 0 <= p < s.N() && (e in s.locals[p] || e in s.crosses[p]);
        assert e in es[p];
      }
    }
  }

  /** The finish of a run whose walks have fired, staged gather included: nothing is assumed of the edges
      but that the walks left them. */
  method FinishWalked(w: World, ghost tree: seq<Particle>, ghost tb: TieBreak, ghost pieceOf: nat -> int,
                      ghost cs: seq<Config>,
                      es: seq<seq<TipPair>>, transport: Transport, pick: nat -> nat)
    returns (labels: seq<seq<int>>)
    requires w.Ok() && AllWalked(w, tree, tb, pieceOf, cs, es)
    ensures AllExact(w, labels)
  {
    WalksBridge(w, tree, tb, pieceOf, cs, es);
    WalksAtHome(w, tree, tb, pieceOf, cs, es);
    var s := StageAll(es);
    labels := FinishRun(w, s, Gather(es), transport, pick);
  }

  // ---- The whole run.

  /** One walk per process over one world: what each sees, the steps it took, the edges it left. */
  datatype Walks = Walks(tree: seq<Particle>, tb: TieBreak, pieceOf: nat -> int, cs: seq<Config>,
                         traces: seq<seq<State>>, steps: seq<seq<Step>>, edges: seq<seq<TipPair>>)

  /** A walk that went on until no lane could take a step. */
  ghost predicate Ended(c: Config, trace: seq<State>, steps: seq<Step>, edges: seq<TipPair>) {
    WalkMachine.Run(c, trace, steps) && Stuck(c, trace[|steps|]) && trace[|steps|].edges == edges
  }

  ghost predicate EndsAt(w: World, r: Walks, q: nat)
    requires q < |r.cs| == |r.edges| == |r.traces| == |r.steps|
  {
    Sees(w, r.tree, r.tb, r.pieceOf, q, r.cs[q]) && Ended(r.cs[q], r.traces[q], r.steps[q], r.edges[q])
  }

  ghost predicate AllEnded(w: World, r: Walks) {
    && |r.cs| == |r.edges| == |r.traces| == |r.steps| == |w.procs| && PiecesAtHome(w, r.tree, r.pieceOf)
    && forall q: nat {:trigger r.cs[q]} :: q < |r.cs| ==> EndsAt(w, r, q)
  }

  lemma EndedWalks(w: World, r: Walks)
    requires AllEnded(w, r)
    ensures AllWalked(w, r.tree, r.tb, r.pieceOf, r.cs, r.edges)
  {
    forall q: nat | q < |r.cs|
      ensures Sees(w, r.tree, r.tb, r.pieceOf, q, r.cs[q]) && Walked(r.cs[q], r.edges[q])
    {
      assert EndsAt(w, r, q);
      StuckIffFired(r.cs[q], r.traces[q], r.steps[q], |r.steps[q]|);
      FiredWalked(r.cs[q], r.traces[q], r.steps[q], r.edges[q]);
    }
  }

  /** Such walks there are: whatever each process sees, its walk can be run to its end. */
  lemma {:induction false} WalksEnd(w: World, tree: seq<Particle>, tb: TieBreak, pieceOf: nat -> int, cs: seq<Config>,
                                    n: nat) returns (r: Walks)
    requires n <= |cs| == |w.procs|
    requires forall q: nat {:trigger cs[q]} :: q < |cs| ==> Sees(w, tree, tb, pieceOf, q, cs[q])
    ensures r.cs == cs[..n] && r.tree == tree && r.tb == tb && r.pieceOf == pieceOf
    ensures |r.edges| == |r.traces| == |r.steps| == n
    ensures forall q: nat {:trigger r.cs[q]} :: q < n ==> EndsAt(w, r, q)
  {
    if n == 0 {
      r := Walks(tree, tb, pieceOf, [], [], [], []);
    } else {
      var before := WalksEnd(w, tree, tb, pieceOf, cs, n - 1);
      var c := cs[n - 1];
      assert Sees(w, tree, tb, pieceOf, n - 1, c);
      var trace, steps := FromStart(c);
      var edges := trace[|steps|].edges;
      r := Walks(tree, tb, pieceOf, before.cs + [c], before.traces + [trace], before.steps + [steps], before.edges
            + [edges]);
      forall q: nat | q < n
        ensures EndsAt(w, r, q)
      {
        if q < n - 1 { assert EndsAt(w, before, q) && r.cs[q] == before.cs[q]; }
      }
    }
  }

  lemma WalksExist(w: World, tree: seq<Particle>, tb: TieBreak, pieceOf: nat -> int, cs: seq<Config>)
    returns (r: Walks)
    requires |cs| == |w.procs| && PiecesAtHome(w, tree, pieceOf)
    requires forall q: nat {:trigger cs[q]} :: q < |cs| ==> Sees(w, tree, tb, pieceOf, q, cs[q])
    ensures AllEnded(w, r) && r.cs == cs
  {
    r := WalksEnd(w, tree, tb, pieceOf, cs, |cs|);
    assert cs[..|cs|] == cs;
    forall q: nat | q < |r.cs| ensures EndsAt(w, r, q) { assert r.cs[q] == cs[q]; }
  }

  /** A world phase 1 can leave over these pools. */
  ghost predicate Reachable(pools: seq<seq<Piece>>, rule: Rule, w: World) {
    w.Ok() && w.rule == rule && |w.procs| == |pools| && multiset(w.Parts()) == multiset(AllBlocks(pools))
  }

  /** Every assignment of pieces to processes, every race for them, every heuristic, any walks that go on as long
      as they can in the world phase 1 leaves, every delivery: each particle's label names its group's least order. */
  method Run(pools: seq<seq<Piece>>, rule: Rule, ch: Choices, races: seq<Race>, walks: World -> Walks,
             transport: Transport, pick: nat -> nat)
    returns (w: World, labels: seq<seq<int>>)
    requires PoolsOk(pools, rule, ch, races)
    requires forall w {:trigger walks(w)} :: Reachable(pools, rule, w) ==> AllEnded(w, walks(w))
    ensures Reachable(pools, rule, w) && AllExact(w, labels)
  {
    w := Phase1Everywhere(pools, rule, ch, races);
    var r := walks(w);
    EndedWalks(w, r);
    labels := FinishWalked(w, r.tree, r.tb, r.pieceOf, r.cs, r.edges, transport, pick);
  }
}
