/** Phase B: one PE walks its units over frozen tips and emits deduplicated (tip, tip) edges.  The
    edges are a contraction of the linking graph: certificates emit spanning stars instead of pairs,
    single-fragment leaves at most one edge. */
module PhaseB {
  import opened Geometry
  import opened Graph
  import opened Trees
  import opened Linking
  import opened Annotation
  import opened PhaseAWalk
  import opened PhaseA

  /** Tips name components: each particle is connected to its tip, which is no later than it. */
  ghost predicate TipsSound(parts: seq<Particle>, rule: Rule, tips: seq<nat>) {
    && |tips| == |parts|
    && forall i {:trigger tips[i]} :: 0 <= i < |parts| ==>
         Conn(LinkGraph(parts, rule), parts[i].order, tips[i]) && tips[i] <= parts[i].order
  }

  ghost predicate EdgesSound(parts: seq<Particle>, rule: Rule, edges: seq<(nat, nat)>) {
    forall e {:trigger e in edges} :: e in edges ==> Conn(LinkGraph(parts, rule), e.0, e.1)
  }

  /** Every particle below t has a tip the edges connect to rep. */
  ghost predicate Gathered(edges: seq<(nat, nat)>, tips: seq<nat>, t: Tree, rep: nat) {
    forall i: nat {:trigger In(t, i)} :: In(t, i) && i < |tips| ==> Conn(EdgeSet(edges), tips[i], rep)
  }

  /** Every linked pair across a and b has tips the edges connect. */
  ghost predicate Emitted(parts: seq<Particle>, rule: Rule, tips: seq<nat>, edges: seq<(nat, nat)>, a: Tree, b: Tree)
    requires |tips| == |parts|
  {
    forall i: nat, j: nat {:trigger Linked(parts[i], parts[j], rule)} ::
      In(a, i) && In(b, j) && i < |parts| && j < |parts| && Linked(parts[i], parts[j], rule)
      ==> Conn(EdgeSet(edges), tips[i], tips[j])
  }

  lemma EdgesGrow(before: seq<(nat, nat)>, after: seq<(nat, nat)>, x: nat, y: nat)
    requires before <= after && Conn(EdgeSet(before), x, y)
    ensures Conn(EdgeSet(after), x, y)
  {
    ConnMono(EdgeSet(before), EdgeSet(after), x, y);
  }

  lemma GatheredGrows(before: seq<(nat, nat)>, after: seq<(nat, nat)>, tips: seq<nat>, t: Tree, rep: nat)
    requires before <= after && Gathered(before, tips, t, rep)
    ensures Gathered(after, tips, t, rep)
  {
    forall i: nat | In(t, i) && i < |tips|
      ensures Conn(EdgeSet(after), tips[i], rep)
    {
      EdgesGrow(before, after, tips[i], rep);
    }
  }

  lemma EmittedGrows(parts: seq<Particle>, rule: Rule, tips: seq<nat>, before: seq<(nat, nat)>,
                     after: seq<(nat, nat)>, a: Tree, b: Tree)
    requires |tips| == |parts| && before <= after && Emitted(parts, rule, tips, before, a, b)
    ensures Emitted(parts, rule, tips, after, a, b)
  {
    forall i: nat, j: nat | In(a, i) && In(b, j) && i < |parts| && j < |parts| && Linked(parts[i], parts[j], rule)
      ensures Conn(EdgeSet(after), tips[i], tips[j])
    {
      EdgesGrow(before, after, tips[i], tips[j]);
    }
  }

  /** Connected particles have connected tips. */
  lemma TipsConnected(parts: seq<Particle>, rule: Rule, tips: seq<nat>, i: nat, j: nat)
    requires TipsSound(parts, rule, tips) && i < |parts| && j < |parts|
    requires Conn(LinkGraph(parts, rule), parts[i].order, parts[j].order)
    ensures Conn(LinkGraph(parts, rule), tips[i], tips[j])
  {
    var G := LinkGraph(parts, rule);
    ConnSym(G, parts[i].order, tips[i]);
    ConnTrans(G, tips[i], parts[i].order, parts[j].order);
    ConnTrans(G, tips[i], parts[j].order, tips[j]);
  }

  class Emitter {
    const rule: Rule
    const parts: seq<Particle>
    const tips: seq<nat>           // group_number, frozen for the stage
    const notes: Notes             // node annotations; a node without one is treated as not uniform
    var edges: seq<(nat, nat)>     // edge_buf
    var seen: set<(nat, nat)>
    var memo: map<Tree, nat>       // cert_tip

    ghost predicate Valid()
      reads this
    {
      && TipsSound(parts, rule, tips) && NotesHold(notes, tips) && AllReached(parts, rule)
      && EdgesSound(parts, rule, edges)
      && (forall e {:trigger e in seen} :: e in seen <==> e in edges)
      && (forall t {:trigger memo[t]} :: t in memo ==> Gathered(edges, tips, t, memo[t]))
    }

    constructor (parts: seq<Particle>, rule: Rule, tips: seq<nat>, notes: Notes)
      requires TipsSound(parts, rule, tips) && NotesHold(notes, tips) && AllReached(parts, rule)
      ensures Valid() && this.parts == parts && this.rule == rule && this.tips == tips && this.notes == notes
      ensures edges == []
    {
      this.parts, this.rule, this.tips, this.notes := parts, rule, tips, notes;
      edges, seen, memo := [], {}, map[];
    }

    predicate Uniform(t: Tree) {
      t in notes && notes[t].Uniform()
    }

    /** Record an edge once, smaller tip first. */
    method Emit(x: nat, y: nat)
      requires Valid() && Conn(LinkGraph(parts, rule), x, y)
      modifies this`edges, this`seen
      ensures Valid() && old(edges) <= edges && Conn(EdgeSet(edges), x, y)
    {
      if x == y { ConnRefl(EdgeSet(edges), x); return; }
      var lo, hi := if x < y then x else y, if x < y then y else x;
      ConnSym(LinkGraph(parts, rule), x, y);
      if (lo, hi) !in seen {
        forall t | t in memo
          ensures Gathered(edges + [(lo, hi)], tips, t, memo[t])
        {
          GatheredGrows(edges, edges + [(lo, hi)], tips, t, memo[t]);
        }
        seen := seen + {(lo, hi)};
        edges := edges + [(lo, hi)];
      }
      assert (lo, hi) in edges;
      assert Adjacent(EdgeSet(edges), lo, hi);
      ConnEdge(EdgeSet(edges), lo, hi);
      ConnSym(EdgeSet(edges), lo, hi);
    }

    /** firstTip: the tip of the first particle below n. */
    method FirstTip(n: Tree) returns (tip: nat)
      requires Good(n, parts) && !n.Empty() && |tips| == |parts|
      ensures In(n, First(n)) && First(n) < |tips| && tip == tips[First(n)]
    {
      FirstIn(n, parts);
      GoodMember(n, parts, First(n));
      tip := tips[First(n)];
    }

    /** emitSubtreeTips: a star of every tip below n through rep. */
    method EmitSubtree(n: Tree, rep: nat)
      requires Valid() && Good(n, parts)
      requires TipsInComponent(parts, rule, tips, n, rep)
      modifies this`edges, this`seen
      ensures Valid() && old(edges) <= edges && Gathered(edges, tips, n, rep)
      decreases n
    {
      if n.Empty() { return; }
      match n {
        case Leaf(_, begin, c) =>
          for i := begin to begin + c
            invariant Valid() && old(edges) <= edges
            invariant forall j: nat {:trigger tips[j]} :: begin <= j < i ==> Conn(EdgeSet(edges), tips[j], rep)
          {
            ghost var before := edges;
            assert In(n, i);
            Emit(tips[i], rep);
            forall j: nat | begin <= j < i
              ensures Conn(EdgeSet(edges), tips[j], rep)
            {
              EdgesGrow(before, edges, tips[j], rep);
            }
          }
        case Inner(_, cs) =>
          for k := 0 to |cs|
            invariant Valid() && old(edges) <= edges
            invariant forall q {:trigger cs[q]} :: 0 <= q < k ==> Gathered(edges, tips, cs[q], rep)
          {
            ghost var before := edges;
            assert cs[k] in cs;
            forall i: nat | In(cs[k], i) && i < |tips|
              ensures Conn(LinkGraph(parts, rule), tips[i], rep)
            {
              ChildBelow(n, parts, k, i);
            }
            EmitSubtree(cs[k], rep);
            forall q | 0 <= q < k
              ensures Gathered(edges, tips, cs[q], rep)
            {
              GatheredGrows(before, edges, tips, cs[q], rep);
            }
          }
          forall i: nat | In(n, i) && i < |tips|
            ensures Conn(EdgeSet(edges), tips[i], rep)
          {
            var k := FindChild(n, parts, i);
            assert Gathered(edges, tips, cs[k], rep);
          }
      }
    }

    /** certTipRep: nothing to emit under a single-fragment node; else star it once. */
    method CertTipRep(n: Tree) returns (rep: nat)
      requires Valid() && Good(n, parts) && !n.Empty()
      requires First(n) < |parts| && OneComponent(parts, rule, n, First(n))
      modifies this`edges, this`seen, this`memo
      ensures Valid() && old(edges) <= edges && Gathered(edges, tips, n, rep)
    {
      if Uniform(n) {
        rep := UniformTip(notes, tips, n);
        forall i: nat | In(n, i) && i < |tips| { ConnRefl(EdgeSet(edges), rep); }
        return;
      }
      if n in memo { return memo[n]; }
      rep := FirstTip(n);
      forall i: nat | In(n, i) && i < |tips|
        ensures Conn(LinkGraph(parts, rule), tips[i], rep)
      {
        TipsConnected(parts, rule, tips, First(n), i);
        ConnSym(LinkGraph(parts, rule), rep, tips[i]);
      }
      EmitSubtree(n, rep);
      memo := memo[n := rep];
    }

    /** The certificate action: both nodes become stars, and one edge joins their centres. */
    method Certify(a: Tree, b: Tree)
      requires Valid() && Good(a, parts) && Good(b, parts) && !a.Empty() && !b.Empty()
      requires AllLinked(parts, rule, a, b)
      modifies this`edges, this`seen, this`memo
      ensures Valid() && old(edges) <= edges && Emitted(parts, rule, tips, edges, a, b)
    {
      CertifiedNode(parts, rule, a, b);
      CertifiedNode(parts, rule, b, a);
      var ta := CertTipRep(a);
      ghost var e1 := edges;
      var tb := CertTipRep(b);
      GatheredGrows(e1, edges, tips, a, ta);
      CentresConnected(parts, rule, tips, edges, a, ta, b, tb);
      ghost var e2 := edges;
      Emit(ta, tb);
      GatheredGrows(e2, edges, tips, a, ta);
      GatheredGrows(e2, edges, tips, b, tb);
      StarsEmit(parts, rule, tips, edges, a, ta, b, tb);
    }

    /** leafLeafEmit. */
    method LeafEmit(a: Tree, b: Tree)
      requires Valid() && Good(a, parts) && Good(b, parts) && a.Leaf? && b.Leaf? && !a.Empty() && !b.Empty()
      modifies this`edges, this`seen
      ensures Valid() && old(edges) <= edges && Emitted(parts, rule, tips, edges, a, b)
    {
      var both := Uniform(a) && Uniform(b);
      if both && notes[a].min == notes[b].min {
        OneFragment(parts, rule, tips, notes, edges, a, b);
        return;
      }
      for i := a.begin to a.begin + a.n
        invariant Valid() && old(edges) <= edges
        invariant RowsEmitted(parts, rule, tips, edges, a.begin, i, b.begin, b.begin + b.n)
      {
        ghost var before := edges;
        var hit, q := EmitRow(i, b.begin, b.begin + b.n, both);
        if hit {
          UniformPairEmits(parts, rule, tips, notes, edges, a, b, i, q);
          return;
        }
        RowsGrow(parts, rule, tips, before, edges, a.begin, i, b.begin, b.begin + b.n);
      }
    }

    /** One particle against a leaf; with oneEdge the first edge ends the row. */
    method EmitRow(p: nat, lo: nat, hi: nat, oneEdge: bool) returns (hit: bool, q: nat)
      requires Valid() && p < |parts| && hi <= |parts|
      modifies this`edges, this`seen
      ensures Valid() && old(edges) <= edges
      ensures hit ==> oneEdge && lo <= q < hi && Conn(EdgeSet(edges), tips[p], tips[q])
      ensures !hit ==> RowsEmitted(parts, rule, tips, edges, p, p + 1, lo, hi)
    {
      q := lo;
      while q < hi
        invariant Valid() && old(edges) <= edges
        invariant RowsEmitted(parts, rule, tips, edges, p, p + 1, lo, q)
      {
        if Linked(parts[p], parts[q], rule) {
          if tips[p] != tips[q] {
            ghost var before := edges;
            LinkedConn(parts, rule, p, q);
            TipsConnected(parts, rule, tips, p, q);
            Emit(tips[p], tips[q]);
            if oneEdge { return true, q; }
            RowsMono(parts, rule, tips, before, edges, p, p + 1, lo, q);
          } else {
            ConnRefl(EdgeSet(edges), tips[p]);
          }
        }
        q := q + 1;
      }
      hit := false;
    }

    /** The walk of one unit.  Its two sides come from different PEs, so they never share a node. */
    method Walk(a: Tree, b: Tree)
      requires Valid() && Good(a, parts) && Good(b, parts)
      modifies this`edges, this`seen, this`memo
      ensures Valid() && old(edges) <= edges && Emitted(parts, rule, tips, edges, a, b)
      decreases Size(a) + Size(b), 1
    {
      if a.Empty() || b.Empty() { return; }
      if MinDist2(a.box, b.box, rule.period) > rule.b2 {
        FarApart(parts, rule, a, b);
        return;
      }
      if Certified(a, b, rule) {
        AllNear(parts, rule, a, b);
        Certify(a, b);
      } else if a.Leaf? && b.Leaf? {
        LeafEmit(a, b);
      } else if OpensFirst(a, b) {
        WalkLeft(a, b);
      } else {
        WalkRight(a, b);
      }
    }

    method WalkLeft(a: Tree, b: Tree)
      requires Valid() && Good(a, parts) && Good(b, parts) && a.Inner?
      modifies this`edges, this`seen, this`memo
      ensures Valid() && old(edges) <= edges && Emitted(parts, rule, tips, edges, a, b)
      decreases Size(a) + Size(b), 0
    {
      for i := 0 to |a.children|
        invariant Valid() && old(edges) <= edges
        invariant forall k {:trigger a.children[k]} :: 0 <= k < i ==>
              Emitted(parts, rule, tips, edges, a.children[k], b)
      {
        ghost var before := edges;
        ChildFacts(a, parts, i);
        Walk(a.children[i], b);
        forall k | 0 <= k < i
          ensures Emitted(parts, rule, tips, edges, a.children[k], b)
        {
          EmittedGrows(parts, rule, tips, before, edges, a.children[k], b);
        }
      }
      ChildrenEmitLeft(parts, rule, tips, edges, a, b);
    }

    method WalkRight(a: Tree, b: Tree)
      requires Valid() && Good(a, parts) && Good(b, parts) && b.Inner?
      modifies this`edges, this`seen, this`memo
      ensures Valid() && old(edges) <= edges && Emitted(parts, rule, tips, edges, a, b)
      decreases Size(a) + Size(b), 0
    {
      for i := 0 to |b.children|
        invariant Valid() && old(edges) <= edges
        invariant forall k {:trigger b.children[k]} :: 0 <= k < i ==>
              Emitted(parts, rule, tips, edges, a, b.children[k])
      {
        ghost var before := edges;
        ChildFacts(b, parts, i);
        Walk(a, b.children[i]);
        forall k | 0 <= k < i
          ensures Emitted(parts, rule, tips, edges, a, b.children[k])
        {
          EmittedGrows(parts, rule, tips, before, edges, a, b.children[k]);
        }
      }
      ChildrenEmitRight(parts, rule, tips, edges, a, b);
    }
  }

  ghost predicate RowsEmitted(parts: seq<Particle>, rule: Rule, tips: seq<nat>, edges: seq<(nat, nat)>, plo: nat,
                              phi: nat, lo: nat, hi: nat)
    requires |tips| == |parts|
  {
    forall p: nat, q: nat {:trigger Linked(parts[p], parts[q], rule)} ::
      plo <= p < phi && lo <= q < hi && p < |parts| && q < |parts| && Linked(parts[p], parts[q], rule)
      ==> Conn(EdgeSet(edges), tips[p], tips[q])
  }

  lemma RowsMono(parts: seq<Particle>, rule: Rule, tips: seq<nat>, before: seq<(nat, nat)>, after: seq<(nat, nat)>,
                 plo: nat, phi: nat, lo: nat, hi: nat)
    requires |tips| == |parts| && before <= after && RowsEmitted(parts, rule, tips, before, plo, phi, lo, hi)
    ensures RowsEmitted(parts, rule, tips, after, plo, phi, lo, hi)
  {
    forall p: nat, q: nat | plo <= p < phi && lo <= q < hi && p < |parts| && q < |parts| &&
          Linked(parts[p], parts[q], rule)
      ensures Conn(EdgeSet(after), tips[p], tips[q])
    {
      EdgesGrow(before, after, tips[p], tips[q]);
    }
  }

  lemma RowsGrow(parts: seq<Particle>, rule: Rule, tips: seq<nat>, before: seq<(nat, nat)>, after: seq<(nat, nat)>,
                 plo: nat, phi: nat, lo: nat, hi: nat)
    requires |tips| == |parts| && before <= after
    requires RowsEmitted(parts, rule, tips, before, plo, phi, lo, hi)
    requires RowsEmitted(parts, rule, tips, after, phi, phi + 1, lo, hi)
    ensures RowsEmitted(parts, rule, tips, after, plo, phi + 1, lo, hi)
  {
    RowsMono(parts, rule, tips, before, after, plo, phi, lo, hi);
  }

  /** Two leaves of one and the same fragment: their tips are already equal. */
  lemma OneFragment(parts: seq<Particle>, rule: Rule, tips: seq<nat>, notes: Notes, edges: seq<(nat, nat)>, a: Tree,
                    b: Tree)
    requires |tips| == |parts| && NotesHold(notes, tips) && a in notes && b in notes && Count(a) > 0 && Count(b) > 0
    requires notes[a].Uniform() && notes[b].Uniform() && notes[a].min == notes[b].min
    ensures Emitted(parts, rule, tips, edges, a, b)
  {
    var t := UniformTip(notes, tips, a);
    var u := UniformTip(notes, tips, b);
    ConnRefl(EdgeSet(edges), t);
    forall i: nat, j: nat | In(a, i) && In(b, j) && i < |parts| && j < |parts|
      ensures tips[i] == t && tips[j] == t
    {
    }
  }

  /** Between two single-fragment leaves one edge is all there is. */
  lemma UniformPairEmits(parts: seq<Particle>, rule: Rule, tips: seq<nat>, notes: Notes, edges: seq<(nat, nat)>,
                         a: Tree, b: Tree, p: nat, q: nat)
    requires |tips| == |parts| && NotesHold(notes, tips) && a in notes && b in notes && Count(a) > 0 && Count(b) > 0
    requires notes[a].Uniform() && notes[b].Uniform()
    requires In(a, p) && In(b, q) && p < |tips| && q < |tips| && Conn(EdgeSet(edges), tips[p], tips[q])
    ensures Emitted(parts, rule, tips, edges, a, b)
  {
    var t := UniformTip(notes, tips, a);
    var u := UniformTip(notes, tips, b);
    forall i: nat, j: nat | In(a, i) && In(b, j) && i < |parts| && j < |parts|
      ensures tips[i] == tips[p] && tips[j] == tips[q]
    {
      assert tips[p] == t && tips[q] == u;
    }
  }

  lemma CentresConnected(parts: seq<Particle>, rule: Rule, tips: seq<nat>, edges: seq<(nat, nat)>, a: Tree, ta: nat,
                         b: Tree, tb: nat)
    requires TipsSound(parts, rule, tips) && EdgesSound(parts, rule, edges)
    requires Good(a, parts) && Good(b, parts) && !a.Empty() && !b.Empty() && AllLinked(parts, rule, a, b)
    requires Gathered(edges, tips, a, ta) && Gathered(edges, tips, b, tb)
    ensures Conn(LinkGraph(parts, rule), ta, tb)
  {
    var G := LinkGraph(parts, rule);
    var i, j := First(a), First(b);
    FirstIn(a, parts);
    FirstIn(b, parts);
    GoodMember(a, parts, i);
    GoodMember(b, parts, j);
    assert Linked(parts[i], parts[j], rule);
    LinkedConn(parts, rule, i, j);
    TipsConnected(parts, rule, tips, i, j);
    EdgesLieInGraph(parts, rule, edges, tips[i], ta);
    EdgesLieInGraph(parts, rule, edges, tips[j], tb);
    ConnSym(G, tips[i], ta);
    ConnTrans(G, ta, tips[i], tips[j]);
    ConnTrans(G, ta, tips[j], tb);
  }

  lemma EdgesLieInGraph(parts: seq<Particle>, rule: Rule, edges: seq<(nat, nat)>, x: nat, y: nat)
    requires EdgesSound(parts, rule, edges) && Conn(EdgeSet(edges), x, y)
    ensures Conn(LinkGraph(parts, rule), x, y)
  {
    forall u, v | (u, v) in EdgeSet(edges)
      ensures Conn(LinkGraph(parts, rule), u, v)
    {
      var e: (nat, nat) := (u, v);
      assert e in edges;
    }
    ConnSubst(EdgeSet(edges), LinkGraph(parts, rule), x, y);
  }

  lemma StarsEmit(parts: seq<Particle>, rule: Rule, tips: seq<nat>, edges: seq<(nat, nat)>, a: Tree, ta: nat, b: Tree,
                  tb: nat)
    requires |tips| == |parts| && Gathered(edges, tips, a, ta) && Gathered(edges, tips, b, tb)
    requires Conn(EdgeSet(edges), ta, tb)
    ensures Emitted(parts, rule, tips, edges, a, b)
  {
    var F := EdgeSet(edges);
    forall i: nat, j: nat | In(a, i) && In(b, j) && i < |parts| && j < |parts|
      ensures Conn(F, tips[i], tips[j])
    {
      ConnTrans(F, tips[i], ta, tb);
      ConnSym(F, tips[j], tb);
      ConnTrans(F, tips[i], tb, tips[j]);
    }
  }

  lemma ChildrenEmitLeft(parts: seq<Particle>, rule: Rule, tips: seq<nat>, edges: seq<(nat, nat)>, a: Tree, b: Tree)
    requires |tips| == |parts| && Good(a, parts) && a.Inner?
    requires forall k {:trigger a.children[k]} :: 0 <= k < |a.children| ==>
          Emitted(parts, rule, tips, edges, a.children[k], b)
    ensures Emitted(parts, rule, tips, edges, a, b)
  {
    forall i: nat, j: nat | In(a, i) && In(b, j) && i < |parts| && j < |parts| && Linked(parts[i], parts[j], rule)
      ensures Conn(EdgeSet(edges), tips[i], tips[j])
    {
      var k := FindChild(a, parts, i);
      assert Emitted(parts, rule, tips, edges, a.children[k], b);
    }
  }

  lemma ChildrenEmitRight(parts: seq<Particle>, rule: Rule, tips: seq<nat>, edges: seq<(nat, nat)>, a: Tree, b: Tree)
    requires |tips| == |parts| && Good(b, parts) && b.Inner?
    requires forall k {:trigger b.children[k]} :: 0 <= k < |b.children| ==>
          Emitted(parts, rule, tips, edges, a, b.children[k])
    ensures Emitted(parts, rule, tips, edges, a, b)
  {
    forall i: nat, j: nat | In(a, i) && In(b, j) && i < |parts| && j < |parts| && Linked(parts[i], parts[j], rule)
      ensures Conn(EdgeSet(edges), tips[i], tips[j])
    {
      var k := FindChild(b, parts, j);
      assert Emitted(parts, rule, tips, edges, a, b.children[k]);
    }
  }

  ghost predicate TipsInComponent(parts: seq<Particle>, rule: Rule, tips: seq<nat>, t: Tree, rep: nat) {
    forall i: nat {:trigger In(t, i)} :: In(t, i) && i < |tips| ==> Conn(LinkGraph(parts, rule), tips[i], rep)
  }

  /** The one tip of a uniform node is its min_frag. */
  function UniformTip(notes: Notes, tips: seq<nat>, n: Tree): (tip: nat)
    requires NotesHold(notes, tips) && n in notes && notes[n].Uniform() && Count(n) > 0
    ensures tip == notes[n].min && forall i: nat {:trigger In(n, i)} :: In(n, i) && i < |tips| ==> tips[i] == tip
  {
    UniformMeansOneTip(notes[n], tips, First(n), First(n) + Count(n));
    assert tips[First(n)] == notes[n].min;
    notes[n].min
  }
}
