/** Phase 1 on every process: the world the cross-process stages start from. */
module Pipeline {
  import opened Geometry
  import opened Linking
  import opened PhaseAWalk
  import opened PhaseARun
  import opened PhaseBRun
  import opened ProcessRun
  import opened ClaimedRun
  import opened Labels
  import opened EndToEnd
  import opened Sorting

  /** How the PEs of a process race for its pieces. */
  datatype Race = Race(pes: nat, schedule: seq<(nat, nat)>, drainer: nat -> nat)

  ghost predicate RaceOk(r: Race, pieces: seq<Piece>) {
    r.pes > 0 && forall k :: 0 <= k < |r.schedule| ==> r.schedule[k].0 < r.pes && r.schedule[k].1 < |pieces|
  }

  ghost predicate PoolsOk(pools: seq<seq<Piece>>, rule: Rule, ch: Choices, races: seq<Race>) {
    && |races| == |pools| <= PROC_SPAN && ch.ranks > 0 && ch.workers > 0 && DistinctOrders(AllBlocks(pools))
    && forall p {:trigger pools[p]} {:trigger races[p]} :: 0 <= p < |pools| ==>
          PoolOk(pools[p], rule, ch.cfg) && RaceOk(races[p], pools[p])
  }

  lemma {:induction false} PartsSnoc(procs: seq<Process>, p: Process)
    ensures AllParts(procs + [p]) == AllParts(procs) + p.parts
  {
    if procs == [] {
      var none: seq<Process> := [p][1..];
      assert none == [] && procs + [p] == [p];
      assert AllParts([p]) == p.parts + AllParts([]);
    } else {
      PartsSnoc(procs[1..], p);
      assert (procs + [p])[1..] == procs[1..] + [p];
    }
  }

  lemma BlocksBelow(pieces: seq<Piece>, rule: Rule, cfg: GridConfig, parts: seq<Particle>, i: nat)
    requires PoolOk(pieces, rule, cfg) && multiset(parts) == multiset(Blocks(pieces)) && i < |parts|
    ensures parts[i].order < IDX_SPAN
  {
    SameMembers(parts, Blocks(pieces), parts[i]);
    var k :| 0 <= k < |Blocks(pieces)| && Blocks(pieces)[k] == parts[i];
  }

  /** Phase 1 on processes 0..n-1. */
  ghost predicate Built(pools: seq<seq<Piece>>, rule: Rule, n: nat, procs: seq<Process>)
    requires n <= |pools|
  {
    && |procs| == n && multiset(AllParts(procs)) == multiset(AllBlocks(pools[..n]))
    && (forall p {:trigger procs[p]} :: 0 <= p < n ==> ExactTips(procs[p].parts, rule, procs[p].tips))
    && (forall p, i {:trigger procs[p].parts[i]} :: 0 <= p < n && 0 <= i < |procs[p].parts| ==>
          procs[p].parts[i].order < IDX_SPAN)
  }

  method NextProcess(pools: seq<seq<Piece>>, rule: Rule, ch: Choices, races: seq<Race>, n: nat, procs: seq<Process>)
    returns (more: seq<Process>)
    requires PoolsOk(pools, rule, ch, races) && n < |pools| && Built(pools, rule, n, procs)
    ensures Built(pools, rule, n + 1, more)
  {
    assert PoolOk(pools[n], rule, ch.cfg) && RaceOk(races[n], pools[n]);
    var parts, labels := Phase1Claimed(pools[n], rule, ch, races[n].pes, races[n].schedule, races[n].drainer);
    PartsSnoc(procs, Process(parts, labels));
    AllBlocksPart(pools, n);
    forall i: nat | i < |parts| ensures parts[i].order < IDX_SPAN { BlocksBelow(pools[n], rule, ch.cfg, parts, i); }
    more := procs + [Process(parts, labels)];
  }

  /** Every process runs phase 1 with its own race; the result is a world with exact process tips. */
  method Phase1Everywhere(pools: seq<seq<Piece>>, rule: Rule, ch: Choices, races: seq<Race>) returns (w: World)
    requires PoolsOk(pools, rule, ch, races)
    ensures w.Ok() && w.rule == rule && |w.procs| == |pools| && multiset(w.Parts()) == multiset(AllBlocks(pools))
  {
    var procs := [];
    assert pools[..0] == [];
    for n := 0 to |pools|
      invariant Built(pools, rule, n, procs)
    {
      procs := NextProcess(pools, rule, ch, races, n, procs);
    }
    assert pools[..|pools|] == pools;
    DistinctPermutes(AllBlocks(pools), AllParts(procs));
    w := World(procs, rule);
  }
}
