/** Phase B of one process, from PE tips to process tips: in one round, or in two with a merge and a
    relabel between them while the first round's edges are kept for the final merge. */
module Rounds {
  import opened Geometry
  import opened Graph
  import opened Trees
  import opened Linking
  import opened Annotation
  import opened PhaseB
  import opened Pool
  import opened PoolBuild
  import opened PhaseBRun
  import Sorting

  /** What phase A leaves behind: sound tips that already agree on every linked pair of one PE. */
  ghost predicate PesSolved(parts: seq<Particle>, rule: Rule, pes: seq<seq<Tree>>, tips: seq<nat>) {
    && TipsSound(parts, rule, tips)
    && forall i: nat, j: nat {:trigger Linked(parts[i], parts[j], rule)} ::
         i < |parts| && j < |parts| && Linked(parts[i], parts[j], rule) && Home(pes, i) == Home(pes, j) ==>
               tips[i] == tips[j]
  }

  ghost predicate AllJoined(parts: seq<Particle>, rule: Rule, tips: seq<nat>, edges: seq<(nat, nat)>)
    requires |tips| == |parts|
  {
    forall i: nat, j: nat {:trigger Linked(parts[i], parts[j], rule)} ::
      i < |parts| && j < |parts| && Linked(parts[i], parts[j], rule) ==> Conn(EdgeSet(edges), tips[i], tips[j])
  }

  lemma {:induction false} UnitOf(pool: seq<Unit>, i: nat, j: nat) returns (k: nat)
    requires Times(pool, i, j) > 0
    ensures k < |pool| && ((In(pool[k].a, i) && In(pool[k].b, j)) || (In(pool[k].a, j) && In(pool[k].b, i)))
  {
    if Weight(pool[0].a, pool[0].b, i, j) > 0 {
      k := 0;
    } else {
      k := UnitOf(pool[1..], i, j);
      k := k + 1;
    }
  }

  /** The unit that covers a linked pair joins its tips. */
  lemma UnitJoins(parts: seq<Particle>, rule: Rule, tips: seq<nat>, edges: seq<(nat, nat)>, u: Unit, i: nat, j: nat)
    requires |tips| == |parts| && i < |parts| && j < |parts| && Linked(parts[i], parts[j], rule)
    requires (In(u.a, i) && In(u.b, j)) || (In(u.a, j) && In(u.b, i))
    requires Emitted(parts, rule, tips, edges, u.a, u.b)
    ensures Conn(EdgeSet(edges), tips[i], tips[j])
  {
    LinkedSymmetric(parts[i], parts[j], rule);
    ConnSym(EdgeSet(edges), tips[i], tips[j]);
    assert Linked(parts[j], parts[i], rule);
  }

  /** annotateFrozenTips over every piece. */
  method AnnotateFrozen(pes: seq<seq<Tree>>, tips: seq<nat>, ghost parts: seq<Particle>) returns (notes: Notes)
    requires Registered(pes, parts) && |tips| == |parts| && Representable(tips)
    ensures NotesHold(notes, tips)
  {
    var roots := Flat(pes);
    notes := map[];
    for k := 0 to |roots|
      invariant NotesHold(notes, tips)
    {
      assert roots[k] in Flat(pes);
      var f;
      f, notes := Annotate(roots[k], tips, parts, notes);
    }
  }

  method OneRound(parts: seq<Particle>, rule: Rule, pes: seq<seq<Tree>>, pool: seq<Unit>, tips: seq<nat>,
                  workers: nat, who: nat -> nat)
    returns (labels: seq<nat>)
    requires DistinctOrders(parts) && AllReached(parts, rule) && Registered(pes, parts) && Representable(tips)
    requires workers > 0
    requires PesSolved(parts, rule, pes, tips) && UnitsOk(parts, pool) && CoversOnce(parts, rule, pes, pool)
    ensures ExactTips(parts, rule, labels)
  {
    var notes := AnnotateFrozen(pes, tips, parts);
    var edges := DrainStage(parts, rule, tips, notes, pool, workers, who);
    forall i: nat, j: nat | i < |parts| && j < |parts| && Linked(parts[i], parts[j], rule)
      ensures Conn(EdgeSet(edges), tips[i], tips[j])
    {
      if Home(pes, i) == Home(pes, j) {
        ConnRefl(EdgeSet(edges), tips[i]);
      } else {
        assert Interacts(parts, rule, i, j);
        var k := UnitOf(pool, i, j);
        assert pool[k] in pool;
        UnitJoins(parts, rule, tips, edges, pool[k], i, j);
      }
    }
    var tipMap := MergeBody(edges);
    labels := Relabelled(tips, tipMap);
    RelabelExact(parts, rule, tips, edges, labels);
  }

  // ---- Two rounds.

  ghost predicate RelabelledBy(edges: seq<(nat, nat)>, before: seq<nat>, after: seq<nat>) {
    |after| == |before| && forall i {:trigger after[i]} :: 0 <= i < |before| ==>
          IsComponentMin(EdgeSet(edges), before[i], after[i])
  }

  /** Relabelling by sound edges keeps tips sound. */
  lemma RelabelSound(parts: seq<Particle>, rule: Rule, before: seq<nat>, edges: seq<(nat, nat)>, after: seq<nat>)
    requires TipsSound(parts, rule, before) && EdgesSound(parts, rule, edges) && RelabelledBy(edges, before, after)
    ensures TipsSound(parts, rule, after) && forall i {:trigger after[i]} :: 0 <= i < |parts| ==> after[i] <= before[i]
  {
    var G := LinkGraph(parts, rule);
    forall u, v | (u, v) in EdgeSet(edges)
      ensures Conn(G, u, v)
    {
      var e: (nat, nat) := (u, v);
      assert e in edges;
    }
    forall i | 0 <= i < |parts|
      ensures Conn(G, parts[i].order, after[i]) && after[i] <= before[i]
    {
      ConnSubst(EdgeSet(edges), G, before[i], after[i]);
      ConnTrans(G, parts[i].order, before[i], after[i]);
      ConnRefl(EdgeSet(edges), before[i]);
    }
  }

  /** Old tips joined by old edges stay joined under their new names, given all edges. */
  lemma RenamedJoined(x: seq<(nat, nat)>, y: seq<(nat, nat)>, before: seq<nat>, after: seq<nat>, i: nat, j: nat)
    requires RelabelledBy(x, before, after) && i < |before| && j < |before|
    requires Conn(EdgeSet(x), before[i], before[j])
    ensures Conn(EdgeSet(x + y), after[i], after[j])
  {
    var E := EdgeSet(x);
    ConnSym(E, before[i], after[i]);
    ConnTrans(E, after[i], before[i], before[j]);
    ConnTrans(E, after[i], before[j], after[j]);
    SubsetConn(x, x + y, after[i], after[j]);
  }

  lemma RoundsJoin(parts: seq<Particle>, rule: Rule, pes: seq<seq<Tree>>, pool: seq<Unit>, cut: nat,
                   tips: seq<nat>, first: seq<(nat, nat)>, mid: seq<nat>, second: seq<(nat, nat)>)
    requires AllReached(parts, rule) && PesSolved(parts, rule, pes, tips) && CoversOnce(parts, rule, pes, pool)
    requires cut <= |pool|
    requires AllEmitted(parts, rule, tips, first, pool[..cut]) && RelabelledBy(first, tips, mid)
    requires AllEmitted(parts, rule, mid, second, pool[cut..])
    ensures AllJoined(parts, rule, mid, first + second)
  {
    forall i: nat, j: nat | i < |parts| && j < |parts| && Linked(parts[i], parts[j], rule)
      ensures Conn(EdgeSet(first + second), mid[i], mid[j])
    {
      if Home(pes, i) == Home(pes, j) {
        ConnRefl(EdgeSet(first), tips[i]);
        RenamedJoined(first, second, tips, mid, i, j);
      } else {
        assert Interacts(parts, rule, i, j);
        var k := UnitOf(pool, i, j);
        if k < cut {
          assert pool[..cut][k] in pool[..cut];
          UnitJoins(parts, rule, tips, first, pool[k], i, j);
          RenamedJoined(first, second, tips, mid, i, j);
        } else {
          assert pool[cut..][k - cut] in pool[cut..];
          UnitJoins(parts, rule, mid, second, pool[k], i, j);
          SubsetConn(second, first + second, mid[i], mid[j]);
        }
      }
    }
  }

  /** B1 drains pool[..cut] over the phase-A tips; the mid-phase stage relabels, re-annotates and
      clears the tip-keyed state; B2 drains the rest; the last merge runs over both edge sets. */
  method TwoRounds(parts: seq<Particle>, rule: Rule, pes: seq<seq<Tree>>, pool: seq<Unit>, cut: nat, tips: seq<nat>,
                   workers: nat, who: nat -> nat)
    returns (labels: seq<nat>)
    requires DistinctOrders(parts) && AllReached(parts, rule) && Registered(pes, parts) && Representable(tips)
    requires workers > 0
    requires PesSolved(parts, rule, pes, tips) && UnitsOk(parts, pool) && CoversOnce(parts, rule, pes, pool)
    requires cut <= |pool|
    ensures ExactTips(parts, rule, labels)
  {
    var notes := AnnotateFrozen(pes, tips, parts);
    assert pool == pool[..cut] + pool[cut..];
    assert forall u :: u in pool[..cut] || u in pool[cut..] ==> u in pool;
    var first := DrainStage(parts, rule, tips, notes, pool[..cut], workers, who);
    var tipMap := MergeBody(first);
    var mid := Relabelled(tips, tipMap);
    assert RelabelledBy(first, tips, mid);
    RelabelSound(parts, rule, tips, first, mid);
    notes := AnnotateFrozen(pes, mid, parts);
    var second := DrainStage(parts, rule, mid, notes, pool[cut..], workers, who);
    RoundsJoin(parts, rule, pes, pool, cut, tips, first, mid, second);
    tipMap := MergeBody(first + second);
    labels := Relabelled(mid, tipMap);
    RelabelExact(parts, rule, mid, first + second, labels);
  }

  /** Exact labels depend on the particle set alone: two labellings of the same particles, in any
      block order, from one round or two, agree particle by particle. */
  lemma ExactTipsAgree(p: seq<Particle>, tp: seq<nat>, q: seq<Particle>, tq: seq<nat>, rule: Rule, i: nat, j: nat)
    requires ExactTips(p, rule, tp) && ExactTips(q, rule, tq) && multiset(p) == multiset(q)
    requires i < |p| && j < |q| && p[i] == q[j]
    ensures tp[i] == tq[j]
  {
    forall x ensures x in p <==> x in q { Sorting.SameMembers(p, q, x); }
    LinkGraphGrows(p, q, rule);
    LinkGraphGrows(q, p, rule);
    assert LinkGraph(p, rule) == LinkGraph(q, rule);
    ConnRefl(LinkGraph(p, rule), p[i].order);
    ComponentMinUnique(LinkGraph(p, rule), p[i].order, q[j].order, tp[i], tq[j]);
  }
}
