/** Phase 1 of one process, from its pieces to exact labels: claims, phase A per PE, the freeze, the
    work pool and phase B. */
module ProcessRun {
  import opened Geometry
  import opened Graph
  import opened Forest
  import opened Trees
  import opened Linking
  import opened PhaseA
  import opened PhaseAWalk
  import opened PhaseARun
  import opened Annotation
  import opened PhaseB
  import opened Pool
  import opened PoolBuild
  import opened PhaseBRun
  import opened Rounds
  import opened Labels
  import opened Representatives

  // ---- One PE's pieces in the process's flat index space.

  function Place(pieces: seq<Piece>, at: nat): seq<Tree> {
    if pieces == [] then [] else [Shift(pieces[0].root, at)] + Place(pieces[1..], at + |pieces[0].parts|)
  }

  lemma PlacedHead(p: Piece, pre: seq<Particle>, more: seq<Particle>)
    requires PieceOk(p)
    ensures Count(Shift(p.root, |pre|)) == |p.parts| && (|p.parts| > 0 ==> First(Shift(p.root, |pre|)) == |pre|)
    ensures Good(Shift(p.root, |pre|), pre + p.parts + more)
  {
    ShiftCounts(p.root, |pre|);
    ShiftGood(p.root, pre, p.parts);
    GoodExtends(Shift(p.root, |pre|), pre + p.parts, more);
  }

  lemma {:induction false} PlaceTiles(pieces: seq<Piece>, pre: seq<Particle>)
    requires forall k {:trigger pieces[k]} :: 0 <= k < |pieces| ==> PieceOk(pieces[k])
    ensures Adjoin(Place(pieces, |pre|), |pre|) && CountAll(Place(pieces, |pre|)) == |Blocks(pieces)|
    ensures forall t {:trigger t in Place(pieces, |pre|)} :: t in Place(pieces, |pre|) ==> Good(t, pre + Blocks(pieces))
  {
    if pieces != [] {
      var p := pieces[0];
      assert PieceOk(p);
      assert forall k {:trigger pieces[1..][k]} :: 0 <= k < |pieces| - 1 ==> pieces[1..][k] == pieces[k + 1];
      PlaceTiles(pieces[1..], pre + p.parts);
      assert pre + Blocks(pieces) == pre + p.parts + Blocks(pieces[1..]);
      PlacedHead(p, pre, Blocks(pieces[1..]));
      forall t | t in Place(pieces, |pre|)
        ensures Good(t, pre + Blocks(pieces))
      {
        assert t == Shift(p.root, |pre|) || t in Place(pieces[1..], |pre + p.parts|);
      }
    }
  }

  lemma {:induction false} FlatSnoc(pes: seq<seq<Tree>>, ts: seq<Tree>)
    ensures Flat(pes + [ts]) == Flat(pes) + ts
  {
    if pes == [] {
      assert pes + [ts] == [ts] && Flat([ts]) == ts + Flat([ts][1..]);
    } else {
      FlatSnoc(pes[1..], ts);
      assert (pes + [ts])[1..] == pes[1..] + [ts];
    }
  }

  lemma {:induction false} HomeSnoc(pes: seq<seq<Tree>>, ts: seq<Tree>, i: nat)
    ensures HoldsSum(Flat(pes), i) > 0 ==> Home(pes + [ts], i) == Home(pes, i) < |pes|
    ensures HoldsSum(Flat(pes), i) == 0 ==> Home(pes + [ts], i) >= |pes|
  {
    if pes != [] {
      HomeSnoc(pes[1..], ts, i);
      HoldsSumConcat(pes[0], Flat(pes[1..]), i);
      assert (pes + [ts])[1..] == pes[1..] + [ts];
    }
  }

  lemma {:induction false} AdjoinConcat(x: seq<Tree>, y: seq<Tree>, at: nat)
    requires Adjoin(x, at) && Adjoin(y, at + CountAll(x))
    ensures Adjoin(x + y, at) && CountAll(x + y) == CountAll(x) + CountAll(y)
  {
    if x == [] {
      assert x + y == y;
    } else {
      AdjoinConcat(x[1..], y, at + Count(x[0]));
      assert (x + y)[1..] == x[1..] + y;
    }
  }

  lemma PlacedGood(pes: seq<seq<Tree>>, parts: seq<Particle>, pieces: seq<Piece>, t: Tree)
    requires Registered(pes, parts) && forall k {:trigger pieces[k]} :: 0 <= k < |pieces| ==> PieceOk(pieces[k])
    requires t in Flat(pes) || t in Place(pieces, |parts|)
    ensures Good(t, parts + Blocks(pieces))
  {
    PlaceTiles(pieces, parts);
    if t in Flat(pes) { GoodExtends(t, parts, Blocks(pieces)); }
  }

  lemma PlacedTiles(before: seq<Tree>, ts: seq<Tree>, n: nat)
    requires Adjoin(before, 0) && CountAll(before) == n && Adjoin(ts, n)
    ensures Adjoin(before + ts, 0) && CountAll(before + ts) == n + CountAll(ts)
  {
    AdjoinConcat(before, ts, 0);
  }

  lemma RegisterNext(pes: seq<seq<Tree>>, parts: seq<Particle>, pieces: seq<Piece>)
    requires Registered(pes, parts) && forall k {:trigger pieces[k]} :: 0 <= k < |pieces| ==> PieceOk(pieces[k])
    ensures Registered(pes + [Place(pieces, |parts|)], parts + Blocks(pieces))
  {
    var all := Flat(pes + [Place(pieces, |parts|)]);
    FlatSnoc(pes, Place(pieces, |parts|));
    PlaceTiles(pieces, parts);
    PlacedTiles(Flat(pes), Place(pieces, |parts|), |parts|);
    forall t {:trigger t in all} | t in all
      ensures Good(t, parts + Blocks(pieces))
    {
      PlacedGood(pes, parts, pieces, t);
    }
  }

  // ---- Lifting phase-A results to the process.

  /** A PE's tips: exact for its own particles. */
  lemma ExactPeTips(parts: seq<Particle>, rule: Rule, parent: seq<nat>, order: seq<nat>, tips: seq<nat>)
    requires Ranked(parent, order) && |parts| == |parent| == |tips| && Exact(parts, rule, parent, order)
    requires forall i :: 0 <= i < |parts| ==> order[i] == parts[i].order
    requires forall i: nat {:trigger tips[i]} :: i < |tips| ==> tips[i] == order[Root(parent, order, i)]
    ensures ExactTips(parts, rule, tips)
  {
    forall i | 0 <= i < |parts|
      ensures IsComponentMin(LinkGraph(parts, rule), parts[i].order, tips[i])
    {
      var r := Root(parent, order, i);
    }
  }

  lemma SoundIn(parts: seq<Particle>, rule: Rule, tips: seq<nat>, more: seq<Particle>, i: nat)
    requires TipsSound(parts, rule, tips) && i < |parts| && forall p :: p in parts ==> p in more
    ensures Conn(LinkGraph(more, rule), parts[i].order, tips[i])
  {
    LinkGraphGrows(parts, more, rule);
    ConnMono(LinkGraph(parts, rule), LinkGraph(more, rule), parts[i].order, tips[i]);
  }

  lemma ConcatSound(parts: seq<Particle>, rule: Rule, tips: seq<nat>, more: seq<Particle>, moreTips: seq<nat>)
    requires TipsSound(parts, rule, tips) && TipsSound(more, rule, moreTips)
    ensures TipsSound(parts + more, rule, tips + moreTips)
  {
    forall i | 0 <= i < |parts + more|
      ensures Conn(LinkGraph(parts + more, rule), (parts + more)[i].order, (tips + moreTips)[i])
      ensures (tips + moreTips)[i] <= (parts + more)[i].order
    {
      if i < |parts| { SoundIn(parts, rule, tips, parts + more, i); }
            else { SoundIn(more, rule, moreTips, parts + more, i - |parts|); }
    }
  }

  lemma ExactAgrees(parts: seq<Particle>, rule: Rule, tips: seq<nat>, i: nat, j: nat)
    requires ExactTips(parts, rule, tips) && i < |parts| && j < |parts| && Linked(parts[i], parts[j], rule)
    ensures tips[i] == tips[j]
  {
    LinkedConn(parts, rule, i, j);
    ComponentMinUnique(LinkGraph(parts, rule), parts[i].order, parts[j].order, tips[i], tips[j]);
  }

  lemma SolveNext(parts: seq<Particle>, rule: Rule, pes: seq<seq<Tree>>, tips: seq<nat>, pieces: seq<Piece>,
                  moreTips: seq<nat>)
    requires Registered(pes, parts) && PesSolved(parts, rule, pes, tips)
    requires ExactTips(Blocks(pieces), rule, moreTips)
    ensures PesSolved(parts + Blocks(pieces), rule, pes + [Place(pieces, |parts|)], tips + moreTips)
  {
    var more := Blocks(pieces);
    var ts := Place(pieces, |parts|);
    ExactIsSound(more, rule, moreTips);
    ConcatSound(parts, rule, tips, more, moreTips);
    forall i: nat, j: nat | i < |parts + more| && j < |parts + more| &&
          Linked((parts + more)[i], (parts + more)[j], rule)
                         && Home(pes + [ts], i) == Home(pes + [ts], j)
      ensures (tips + moreTips)[i] == (tips + moreTips)[j]
    {
      HomeSnoc(pes, ts, i);
      HomeSnoc(pes, ts, j);
      TiledHolds(Flat(pes), 0, i);
      TiledHolds(Flat(pes), 0, j);
      if i < |parts| {
        assert Linked(parts[i], parts[j], rule);
      } else {
        ExactAgrees(more, rule, moreTips, i - |parts|, j - |parts|);
      }
    }
  }

  // ---- Phase A on every PE.

  function AllBlocks(claims: seq<seq<Piece>>): seq<Particle> {
    if claims == [] then [] else Blocks(claims[0]) + AllBlocks(claims[1..])
  }

  lemma {:induction false} AllBlocksPart(claims: seq<seq<Piece>>, k: nat)
    requires k < |claims|
    ensures AllBlocks(claims[..k + 1]) == AllBlocks(claims[..k]) + Blocks(claims[k])
    ensures exists rest :: AllBlocks(claims) == AllBlocks(claims[..k]) + Blocks(claims[k]) + rest
    decreases k
  {
    if k == 0 {
      assert claims[..1] == [claims[0]] && [claims[0]][1..] == [];
      assert AllBlocks(claims[..1]) == Blocks(claims[0]) + AllBlocks([]);
      assert AllBlocks(claims) == AllBlocks(claims[..0]) + Blocks(claims[0]) + AllBlocks(claims[1..]);
    } else {
      AllBlocksPart(claims[1..], k - 1);
      assert claims[..k + 1][1..] == claims[1..][..k];
      assert claims[..k][1..] == claims[1..][..k - 1];
      var rest :| AllBlocks(claims[1..]) == AllBlocks(claims[1..][..k - 1]) + Blocks(claims[1..][k - 1]) + rest;
      assert AllBlocks(claims) == AllBlocks(claims[..k]) + Blocks(claims[k]) + rest;
    }
  }

  /** What phase 1 demands of a process: well-built pieces, distinct encodable orders, coordinates in
      reach of the periodic bound. */
  ghost predicate ProcessOk(claims: seq<seq<Piece>>, rule: Rule, cfg: GridConfig) {
    && (forall k, l {:trigger claims[k][l]} :: 0 <= k < |claims| && 0 <= l < |claims[k]| ==> PieceOk(claims[k][l]))
    && DistinctOrders(AllBlocks(claims)) && AllReached(AllBlocks(claims), rule) && GridSound(cfg, rule)
    && (forall i {:trigger AllBlocks(claims)[i]} :: 0 <= i < |AllBlocks(claims)| ==>
          AllBlocks(claims)[i].order < IDX_SPAN)
  }

  lemma MiddleFacts(pre: seq<Particle>, mid: seq<Particle>, post: seq<Particle>, rule: Rule)
    requires DistinctOrders(pre + mid + post) && AllReached(pre + mid + post, rule)
    ensures DistinctOrders(mid) && AllReached(mid, rule)
  {
    var all := pre + mid + post;
    forall i, j | 0 <= i < |mid| && 0 <= j < |mid|
      ensures Reached(mid[i].pos, mid[j].pos, rule.period) && (i < j ==> mid[i].order != mid[j].order)
    {
      assert mid[i] == all[|pre| + i] && mid[j] == all[|pre| + j];
      assert Reached(all[|pre| + i].pos, all[|pre| + j].pos, rule.period);
    }
  }

  /** Phase A and the freeze on one PE. */
  method PePhaseA(pieces: seq<Piece>, rule: Rule, cfg: GridConfig) returns (tips: seq<nat>)
    requires Runnable(pieces, rule, cfg)
    ensures ExactTips(Blocks(pieces), rule, tips)
  {
    var e := RunClaims(pieces, rule, cfg);
    ghost var before := e.parent;
    var labels := new PeLabels();
    labels.Freeze(e);
    assert forall i: nat {:trigger labels.groupNumber[i]} :: i < |labels.groupNumber| ==> labels.groupNumber[i] >= 0;
    tips := Naturals(labels.groupNumber);
    ExactPeTips(e.parts, rule, before, e.order, tips);
  }

  function Naturals(s: seq<int>): (r: seq<nat>)
    requires forall i {:trigger s[i]} :: 0 <= i < |s| ==> s[i] >= 0
    ensures |r| == |s| && forall i {:trigger r[i]} :: 0 <= i < |s| ==> r[i] == s[i]
  {
    seq(|s|, i requires 0 <= i < |s| => s[i])
  }

  /** The free choices of a run: schedules, split policy, grid gate, one round or two. */
  datatype Choices = Choices(cfg: GridConfig, plan: BuildPlan, ranks: nat, workers: nat, who: nat -> nat,
        twoRounds: bool)

  /** Phase A on PEs 0..n-1 of the process. */
  ghost predicate PesDone(claims: seq<seq<Piece>>, rule: Rule, n: nat, parts: seq<Particle>, pes: seq<seq<Tree>>,
                          tips: seq<nat>)
    requires n <= |claims|
  {
    parts == AllBlocks(claims[..n]) && Registered(pes, parts) && PesSolved(parts, rule, pes, tips)
  }

  method NextPe(claims: seq<seq<Piece>>, rule: Rule, cfg: GridConfig, n: nat, parts: seq<Particle>,
                pes: seq<seq<Tree>>, tips: seq<nat>)
    returns (moreParts: seq<Particle>, morePes: seq<seq<Tree>>, moreTips: seq<nat>)
    requires ProcessOk(claims, rule, cfg) && n < |claims| && PesDone(claims, rule, n, parts, pes, tips)
    ensures PesDone(claims, rule, n + 1, moreParts, morePes, moreTips)
  {
    AllBlocksPart(claims, n);
    ghost var rest :| AllBlocks(claims) == AllBlocks(claims[..n]) + Blocks(claims[n]) + rest;
    MiddleFacts(AllBlocks(claims[..n]), Blocks(claims[n]), rest, rule);
    assert forall l {:trigger claims[n][l]} :: 0 <= l < |claims[n]| ==> PieceOk(claims[n][l]);
    var own := PePhaseA(claims[n], rule, cfg);
    RegisterNext(pes, parts, claims[n]);
    SolveNext(parts, rule, pes, tips, claims[n], own);
    moreParts, morePes, moreTips := parts + Blocks(claims[n]), pes + [Place(claims[n], |parts|)], tips + own;
  }

  /** Phase 1 of a process: every particle ends with the least order of its component, whatever
      pieces each PE won and whatever the heuristics chose. */
  method Phase1(claims: seq<seq<Piece>>, rule: Rule, ch: Choices) returns (parts: seq<Particle>, labels: seq<nat>)
    requires ProcessOk(claims, rule, ch.cfg) && ch.ranks > 0 && ch.workers > 0
    ensures parts == AllBlocks(claims) && ExactTips(parts, rule, labels)
  {
    var pes, tips;
    parts, pes, tips := [], [], [];
    for n := 0 to |claims|
      invariant PesDone(claims, rule, n, parts, pes, tips)
    {
      parts, pes, tips := NextPe(claims, rule, ch.cfg, n, parts, pes, tips);
    }
    assert claims[..|claims|] == claims;
    assert Representable(tips) by { BoundedTips(parts, rule, tips); }
    var pool, cut := BuildPool(parts, rule, ch.plan, pes, ch.ranks);
    if ch.twoRounds {
      labels := TwoRounds(parts, rule, pes, pool, cut, tips, ch.workers, ch.who);
    } else {
      labels := OneRound(parts, rule, pes, pool, tips, ch.workers, ch.who);
    }
  }

  lemma BoundedTips(parts: seq<Particle>, rule: Rule, tips: seq<nat>)
    requires TipsSound(parts, rule, tips) && forall i {:trigger parts[i]} :: 0 <= i < |parts| ==>
          parts[i].order < IDX_SPAN
    ensures forall i {:trigger tips[i]} :: 0 <= i < |tips| ==> tips[i] < IDX_SPAN
    ensures Representable(tips)
  {
    forall i | 0 <= i < |tips|
      ensures tips[i] < IDX_SPAN
    {
      assert parts[i].order < IDX_SPAN;
    }
  }
}
