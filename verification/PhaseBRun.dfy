/** Draining the pool by claims, merging the edges, relabelling: from PE tips to process tips, in
    one round or in two with a relabel between them. */
module PhaseBRun {
  import opened Geometry
  import opened Graph
  import opened Forest
  import opened Trees
  import opened Linking
  import opened Annotation
  import opened PhaseB
  import opened Pool
  import opened PoolBuild

  ghost predicate AllEmitted(parts: seq<Particle>, rule: Rule, tips: seq<nat>, edges: seq<(nat, nat)>, units: seq<Unit>)
    requires |tips| == |parts|
  {
    forall u {:trigger u in units} :: u in units ==> Emitted(parts, rule, tips, edges, u.a, u.b)
  }

  ghost predicate Subset(x: seq<(nat, nat)>, y: seq<(nat, nat)>) {
    forall e {:trigger e in x} :: e in x ==> e in y
  }

  lemma SubsetConn(x: seq<(nat, nat)>, y: seq<(nat, nat)>, u: int, v: int)
    requires Subset(x, y) && Conn(EdgeSet(x), u, v)
    ensures Conn(EdgeSet(y), u, v)
  {
    forall e | e in EdgeSet(x) ensures e in EdgeSet(y) { var f: (nat, nat) := e; assert f in x; }
    ConnMono(EdgeSet(x), EdgeSet(y), u, v);
  }

  lemma SubsetEmitted(parts: seq<Particle>, rule: Rule, tips: seq<nat>, x: seq<(nat, nat)>, y: seq<(nat, nat)>,
                      a: Tree, b: Tree)
    requires |tips| == |parts| && Subset(x, y) && Emitted(parts, rule, tips, x, a, b)
    ensures Emitted(parts, rule, tips, y, a, b)
  {
    forall i: nat, j: nat | In(a, i) && In(b, j) && i < |parts| && j < |parts| && Linked(parts[i], parts[j], rule)
      ensures Conn(EdgeSet(y), tips[i], tips[j])
    {
      SubsetConn(x, y, tips[i], tips[j]);
    }
  }

  // ---- Draining.

  ghost predicate Crew(es: seq<Emitter>, parts: seq<Particle>, rule: Rule, tips: seq<nat>)
    reads es
  {
    && (forall x, y :: 0 <= x < y < |es| ==> es[x] != es[y])
    && (forall x {:trigger es[x]} :: 0 <= x < |es| ==>
          es[x].Valid() && es[x].parts == parts && es[x].rule == rule && es[x].tips == tips)
  }

  /** One claim: fetch_add hands unit `start` to PE `pe`, which walks it into its own buffer. */
  method WalkUnit(es: seq<Emitter>, ghost parts: seq<Particle>, ghost rule: Rule, ghost tips: seq<nat>, u: Unit,
                  pe: nat)
    requires Crew(es, parts, rule, tips) && pe < |es| && Good(u.a, parts) && Good(u.b, parts)
    modifies es
    ensures Crew(es, parts, rule, tips)
    ensures forall x {:trigger es[x]} :: 0 <= x < |es| ==> old(es[x].edges) <= es[x].edges
    ensures Emitted(parts, rule, tips, es[pe].edges, u.a, u.b)
  {
    es[pe].Walk(u.a, u.b);
    assert forall x {:trigger es[x]} :: 0 <= x < |es| && x != pe ==> es[x] != es[pe];
  }

  type Buffers = seq<seq<(nat, nat)>>

  ghost function BuffersOf(es: seq<Emitter>): (r: Buffers)
    reads es
    ensures |r| == |es| && forall x {:trigger r[x]} :: 0 <= x < |es| ==> r[x] == es[x].edges
  {
    seq(|es|, x requires 0 <= x < |es| reads es => es[x].edges)
  }

  ghost predicate SomewhereEmitted(parts: seq<Particle>, rule: Rule, tips: seq<nat>, bufs: Buffers, u: Unit)
    requires |tips| == |parts|
  {
    exists x {:trigger bufs[x]} :: 0 <= x < |bufs| && Emitted(parts, rule, tips, bufs[x], u.a, u.b)
  }

  /** Units 0..k-1 are walked: each one's edges are in some PE's buffer. */
  ghost predicate Drained(parts: seq<Particle>, rule: Rule, tips: seq<nat>, bufs: Buffers, units: seq<Unit>, k: nat)
    requires |tips| == |parts|
  {
    forall m {:trigger units[m]} :: 0 <= m < k && m < |units| ==> SomewhereEmitted(parts, rule, tips, bufs, units[m])
  }

  lemma DrainedGrows(parts: seq<Particle>, rule: Rule, tips: seq<nat>, before: Buffers, after: Buffers,
                     units: seq<Unit>, k: nat)
    requires |tips| == |parts| && |before| == |after| && forall x {:trigger after[x]} :: 0 <= x < |after| ==>
          before[x] <= after[x]
    requires Drained(parts, rule, tips, before, units, k)
    requires k < |units| && SomewhereEmitted(parts, rule, tips, after, units[k])
    ensures Drained(parts, rule, tips, after, units, k + 1)
  {
    forall m | 0 <= m < k
      ensures SomewhereEmitted(parts, rule, tips, after, units[m])
    {
      var u := units[m];
      var x :| 0 <= x < |before| && Emitted(parts, rule, tips, before[x], u.a, u.b);
      EmittedGrows(parts, rule, tips, before[x], after[x], u.a, u.b);
    }
  }

  method DrainNext(es: seq<Emitter>, ghost parts: seq<Particle>, ghost rule: Rule, ghost tips: seq<nat>,
                   units: seq<Unit>, start: nat, pe: nat)
    requires Crew(es, parts, rule, tips) && pe < |es| && start < |units| && |tips| == |parts|
    requires Good(units[start].a, parts) && Good(units[start].b, parts)
    requires Drained(parts, rule, tips, BuffersOf(es), units, start)
    modifies es
    ensures Crew(es, parts, rule, tips) && Drained(parts, rule, tips, BuffersOf(es), units, start + 1)
  {
    ghost var before := BuffersOf(es);
    WalkUnit(es, parts, rule, tips, units[start], pe);
    ghost var after := BuffersOf(es);
    assert after[pe] == es[pe].edges;
    DrainedGrows(parts, rule, tips, before, after, units, start);
  }

  /** A stage: the shared cursor hands out units one by one; `who` is the schedule, naming the PE
      whose fetch_add draws each unit. */
  method DrainStage(parts: seq<Particle>, rule: Rule, tips: seq<nat>, notes: Notes, units: seq<Unit>, pes: nat,
                    who: nat -> nat) returns (edges: seq<(nat, nat)>)
    requires pes > 0 && TipsSound(parts, rule, tips) && NotesHold(notes, tips) && AllReached(parts, rule)
    requires UnitsOk(parts, units)
    ensures EdgesSound(parts, rule, edges) && AllEmitted(parts, rule, tips, edges, units)
  {
    var es := HireCrew(parts, rule, tips, notes, pes);
    var cursor := 0;
    while cursor < |units|
      invariant fresh(es) && Crew(es, parts, rule, tips) && |es| == pes && 0 <= cursor <= |units|
      invariant Drained(parts, rule, tips, BuffersOf(es), units, cursor)
    {
      var start := cursor;
      cursor := cursor + 1;
      assert units[start] in units;
      DrainNext(es, parts, rule, tips, units, start, who(start) % pes);
    }
    edges := Submit(es, parts, rule, tips);
    forall u | u in units
      ensures Emitted(parts, rule, tips, edges, u.a, u.b)
    {
      var m :| 0 <= m < |units| && units[m] == u;
      ghost var bufs := BuffersOf(es);
      var x :| 0 <= x < |bufs| && Emitted(parts, rule, tips, bufs[x], units[m].a, units[m].b);
      assert bufs[x] == es[x].edges;
      SubsetEmitted(parts, rule, tips, es[x].edges, edges, u.a, u.b);
    }
  }

  method HireCrew(parts: seq<Particle>, rule: Rule, tips: seq<nat>, notes: Notes, pes: nat) returns (es: seq<Emitter>)
    requires TipsSound(parts, rule, tips) && NotesHold(notes, tips) && AllReached(parts, rule)
    ensures fresh(es) && |es| == pes && Crew(es, parts, rule, tips)
  {
    es := [];
    for k := 0 to pes
      invariant fresh(es) && |es| == k && Crew(es, parts, rule, tips)
    {
      var e := new Emitter(parts, rule, tips, notes);
      es := es + [e];
    }
  }

  /** submitEdges, PE after PE. */
  method Submit(es: seq<Emitter>, ghost parts: seq<Particle>, ghost rule: Rule, ghost tips: seq<nat>)
    returns (edges: seq<(nat, nat)>)
    requires Crew(es, parts, rule, tips)
    ensures EdgesSound(parts, rule, edges)
    ensures forall x {:trigger es[x]} :: 0 <= x < |es| ==> Subset(es[x].edges, edges)
  {
    edges := [];
    for k := 0 to |es|
      invariant EdgesSound(parts, rule, edges)
      invariant forall x {:trigger es[x]} :: 0 <= x < k ==> Subset(es[x].edges, edges)
    {
      ghost var before := edges;
      edges := edges + es[k].edges;
      forall x | 0 <= x < k
        ensures Subset(es[x].edges, edges)
      {
        assert Subset(es[x].edges, before);
      }
    }
  }

  // ---- Merge and relabel.

  function Lookup(m: map<nat, nat>, t: nat): nat {
    if t in m then m[t] else t
  }

  /** mergeBody: the map from PE tip to process tip, holding only the tips that change. */
  method MergeBody(edges: seq<(nat, nat)>) returns (tipMap: map<nat, nat>)
    ensures forall t: nat {:trigger Lookup(tipMap, t)} :: IsComponentMin(EdgeSet(edges), t, Lookup(tipMap, t))
    ensures forall t {:trigger tipMap[t]} :: t in tipMap ==> tipMap[t] < t
  {
    var f := new TipForest();
    f.UnionAll(edges);
    tipMap := map[];
    var todo := f.parent.Keys;
    while todo != {}
      invariant fresh(f) && f.Valid() && Solves(f.parent, EdgeSet(edges))
      invariant todo <= f.parent.Keys
      invariant forall t: nat {:trigger Lookup(tipMap, t)} :: t !in todo ==> Lookup(tipMap, t) == Boss(f.parent, t)
      invariant forall t: nat {:trigger Lookup(tipMap, t)} :: t in todo ==> t !in tipMap
      invariant forall t {:trigger tipMap[t]} :: t in tipMap ==> tipMap[t] < t
      decreases todo
    {
      var k :| k in todo;
      ghost var before := f.parent;
      var root := f.Find(k);
      assert f.parent.Keys == before.Keys;
      ghost var had := tipMap;
      if root != k { tipMap := tipMap[k := root]; }
      todo := todo - {k};
      forall t: nat
        ensures t !in todo ==> Lookup(tipMap, t) == Boss(f.parent, t)
        ensures t in todo ==> t !in tipMap
      {
        assert Boss(before, t) == Boss(f.parent, t);
        var l := Lookup(had, t);
      }
    }
  }

  /** relabel: identity where the map is silent. */
  function Relabelled(tips: seq<nat>, m: map<nat, nat>): (r: seq<nat>)
    ensures |r| == |tips| && forall i {:trigger r[i]} :: 0 <= i < |r| ==> r[i] == Lookup(m, tips[i])
  {
    seq(|tips|, i requires 0 <= i < |tips| => Lookup(m, tips[i]))
  }

  // ---- The labelling of a particle set by tips, as a function on vertices.

  ghost function TipOf(parts: seq<Particle>, tips: seq<nat>): int -> int
    requires |tips| == |parts|
  {
    (v: int) =>
      if exists i :: 0 <= i < |parts| && parts[i].order == v
      then (var i :| 0 <= i < |parts| && parts[i].order == v; tips[i] as int)
      else v
  }

  lemma TipOfAt(parts: seq<Particle>, tips: seq<nat>, i: nat)
    requires |tips| == |parts| && DistinctOrders(parts) && i < |parts|
    ensures TipOf(parts, tips)(parts[i].order) == tips[i]
  {
    var v := parts[i].order;
    var k :| 0 <= k < |parts| && parts[k].order == v && TipOf(parts, tips)(v) == tips[k];
    assert k == i;
  }

  /** Sound edges that connect the tips of every linked pair contract the linking graph. */
  lemma TipsContract(parts: seq<Particle>, rule: Rule, tips: seq<nat>, edges: seq<(nat, nat)>)
    requires DistinctOrders(parts) && TipsSound(parts, rule, tips) && EdgesSound(parts, rule, edges)
    requires forall i: nat, j: nat {:trigger Linked(parts[i], parts[j], rule)} ::
               i < |parts| && j < |parts| && Linked(parts[i], parts[j], rule) ==> Conn(EdgeSet(edges), tips[i], tips[j])
    ensures Contracts(LinkGraph(parts, rule), EdgeSet(edges), TipOf(parts, tips))
  {
    var G := LinkGraph(parts, rule);
    var tip := TipOf(parts, tips);
    forall v
      ensures Conn(G, v, tip(v)) && tip(v) <= v
    {
      if exists i :: 0 <= i < |parts| && parts[i].order == v {
        var i :| 0 <= i < |parts| && parts[i].order == v;
        TipOfAt(parts, tips, i);
      } else {
        ConnRefl(G, v);
      }
    }
    forall u, v | (u, v) in G
      ensures Conn(EdgeSet(edges), tip(u), tip(v))
    {
      var i: nat, j: nat :| i < |parts| && j < |parts| && Linked(parts[i], parts[j], rule) && u == parts[i].order &&
            v == parts[j].order;
      TipOfAt(parts, tips, i);
      TipOfAt(parts, tips, j);
    }
    forall g, f | (g, f) in EdgeSet(edges)
      ensures Conn(G, g, f)
    {
      var e: (nat, nat) := (g, f);
      assert e in edges;
    }
  }

  /** Exact labels: each particle carries the least order of its component. */
  ghost predicate ExactTips(parts: seq<Particle>, rule: Rule, tips: seq<nat>) {
    |tips| == |parts| && forall i {:trigger tips[i]} :: 0 <= i < |parts| ==>
          IsComponentMin(LinkGraph(parts, rule), parts[i].order, tips[i])
  }

  lemma ExactIsSound(parts: seq<Particle>, rule: Rule, tips: seq<nat>)
    requires ExactTips(parts, rule, tips)
    ensures TipsSound(parts, rule, tips)
  {
    forall i | 0 <= i < |parts|
      ensures tips[i] <= parts[i].order
    {
      ConnRefl(LinkGraph(parts, rule), parts[i].order);
    }
  }

  /** Relabelling a contraction's tips by its component minima makes them exact. */
  lemma RelabelExact(parts: seq<Particle>, rule: Rule, tips: seq<nat>, edges: seq<(nat, nat)>, after: seq<nat>)
    requires DistinctOrders(parts) && TipsSound(parts, rule, tips) && EdgesSound(parts, rule, edges)
    requires forall i: nat, j: nat {:trigger Linked(parts[i], parts[j], rule)} ::
               i < |parts| && j < |parts| && Linked(parts[i], parts[j], rule) ==> Conn(EdgeSet(edges), tips[i], tips[j])
    requires |after| == |parts| && forall i {:trigger after[i]} :: 0 <= i < |parts| ==>
          IsComponentMin(EdgeSet(edges), tips[i], after[i])
    ensures ExactTips(parts, rule, after)
  {
    TipsContract(parts, rule, tips, edges);
    forall i | 0 <= i < |parts|
      ensures IsComponentMin(LinkGraph(parts, rule), parts[i].order, after[i])
    {
      TipOfAt(parts, tips, i);
      ContractionExact(LinkGraph(parts, rule), EdgeSet(edges), TipOf(parts, tips), parts[i].order, parts[i].order);
    }
  }
}
