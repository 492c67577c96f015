/** The finisher of phase 3: the flat serial union-find over all emitted edges, and the nodes of the
    staged gather that contracts edges per process before it. */
module Phase3 {
  import opened Graph
  import opened Forest
  import opened Labels

  type Edge = (nat, nat)

  // ---- The flat finisher.

  /** Labels for exactly the tips some edge touches: each -(m + 2), m the least tip of its component. */
  ghost predicate FinalLabels(edges: seq<Edge>, labels: map<nat, int>) {
    && labels.Keys == Endpoints(edges)
    && forall t {:trigger labels[t]} :: t in labels ==>
          labels[t] <= -2 && IsComponentMin(EdgeSet(edges), t, -labels[t] - 2)
  }

  /** The de-duplication in front of the union-find: one copy of each pair. */
  method Dedup(edges: seq<Edge>) returns (unique: seq<Edge>)
    ensures forall e {:trigger e in unique} {:trigger e in edges} :: e in unique <==> e in edges
    ensures forall a, b :: 0 <= a < b < |unique| ==> unique[a] != unique[b]
  {
    unique := [];
    var seen: set<Edge> := {};
    for i := 0 to |edges|
      invariant forall e {:trigger e in seen} {:trigger e in unique} :: e in unique <==> e in seen
      invariant forall e {:trigger e in seen} {:trigger e in edges[..i]} :: e in seen <==> e in edges[..i]
      invariant forall a, b :: 0 <= a < b < |unique| ==> unique[a] != unique[b]
    {
      assert edges[..i + 1] == edges[..i] + [edges[i]];
      if edges[i] !in seen {
        seen := seen + {edges[i]};
        unique := unique + [edges[i]];
      }
    }
    assert edges[..|edges|] == edges;
  }

  lemma SameEdges(x: seq<Edge>, y: seq<Edge>)
    requires forall e {:trigger e in x} {:trigger e in y} :: e in x <==> e in y
    ensures EdgeSet(x) == EdgeSet(y) && Endpoints(x) == Endpoints(y)
  {
    forall u: int, v: int
      ensures (u, v) in EdgeSet(x) <==> (u, v) in EdgeSet(y)
    {
      if u >= 0 && v >= 0 { var e: Edge := (u, v); assert e in x <==> e in y; }
    }
  }

  /** tip -> final label, for every registered tip; the order of the map walk is free. */
  method LabelForest(f: TipForest, ghost E: Edges) returns (labels: map<nat, int>)
    requires f.Valid() && Solves(f.parent, E)
    modifies f
    ensures labels.Keys == old(f.parent.Keys)
    ensures forall t {:trigger labels[t]} :: t in labels ==> labels[t] <= -2 && IsComponentMin(E, t, -labels[t] - 2)
  {
    labels := map[];
    var todo := f.parent.Keys;
    while todo != {}
      invariant f.Valid() && Solves(f.parent, E) && f.parent.Keys == old(f.parent.Keys)
      invariant todo <= f.parent.Keys && labels.Keys == f.parent.Keys - todo
      invariant forall t {:trigger labels[t]} :: t in labels ==> labels[t] <= -2 && IsComponentMin(E, t, -labels[t] - 2)
      decreases todo
    {
      var k :| k in todo;
      ghost var before := f.parent;
      var root := f.Find(k);
      assert f.parent.Keys == before.Keys;
      assert IsComponentMin(E, k, Boss(before, k));
      forall t: nat ensures IsComponentMin(E, t, Boss(f.parent, t)) { assert Boss(before, t) == Boss(f.parent, t); }
      labels := labels[k := Touched(root)];
      todo := todo - {k};
    }
  }

  method FlatLabels(edges: seq<Edge>) returns (labels: map<nat, int>)
    ensures FinalLabels(edges, labels)
  {
    var unique := Dedup(edges);
    SameEdges(unique, edges);
    var f := new TipForest();
    f.UnionAll(unique);
    labels := LabelForest(f, EdgeSet(edges));
  }

  /** Final labels are a function of the edge set. */
  lemma FinalLabelsUnique(edges: seq<Edge>, x: map<nat, int>, y: map<nat, int>)
    requires FinalLabels(edges, x) && FinalLabels(edges, y)
    ensures x == y
  {
    forall t | t in x
      ensures x[t] == y[t]
    {
      ConnRefl(EdgeSet(edges), t);
      ComponentMinUnique(EdgeSet(edges), t, t, -x[t] - 2, -y[t] - 2);
    }
  }

  // ---- One process of the staged gather.

  /** Replace this process's endpoint of a cross edge by its local root. */
  ghost function Half(parent: map<nat, nat>, me: nat, e: Edge): Edge
    requires Descending(parent)
  {
    if Owner(e.0) == me then (Boss(parent, e.0), e.1) else (e.0, Boss(parent, e.1))
  }

  /** The owner of the other endpoint. */
  function Far(me: nat, e: Edge): nat {
    if Owner(e.0) == me then Owner(e.1) else Owner(e.0)
  }

  function Sorted(e: Edge): Edge {
    if e.0 < e.1 then e else (e.1, e.0)
  }

  /** What contractRemote records: owned endpoints replaced by their roots, smaller tip first. */
  ghost function Full(parent: map<nat, nat>, me: nat, e: Edge): Edge
    requires Descending(parent)
  {
    Sorted((if Owner(e.0) == me then Boss(parent, e.0) else e.0, if Owner(e.1) == me then Boss(parent, e.1) else e.1))
  }

  function OwnedOf(me: nat, es: seq<Edge>): set<nat> {
    (set e | e in es && Owner(e.0) == me :: e.0) + (set e | e in es && Owner(e.1) == me :: e.1)
  }

  ghost function FullSet(parent: map<nat, nat>, me: nat, es: seq<Edge>): set<Edge>
    requires Descending(parent)
  {
    set e | e in es :: Full(parent, me, e)
  }

  ghost predicate Halves(parent: map<nat, nat>, me: nat, cross: seq<Edge>, out: seq<seq<Edge>>)
    requires Descending(parent)
  {
    && (forall e {:trigger e in cross} :: e in cross ==> Far(me, e) < |out| && Half(parent, me, e) in out[Far(me, e)])
    && (forall q, x {:trigger x in out[q]} :: 0 <= q < |out| && x in out[q] ==>
          exists e :: e in cross && Far(me, e) == q && Half(parent, me, e) == x)
  }

  class StageNode {
    const me: nat
    const forest: TipForest     // stage_parent
    var local: seq<Edge>        // stage_local
    var cross: seq<Edge>        // stage_cross
    var tips: set<nat>          // stage_tips
    var seen: set<Edge>         // stage_seen
    var toRoot: seq<Edge>       // stage_to_root

    ghost predicate Valid()
      reads this, forest
    {
      forest.Valid() && forall e {:trigger e in seen} {:trigger e in toRoot} :: e in seen <==> e in toRoot
    }

    constructor (me: nat, local: seq<Edge>, cross: seq<Edge>)
      ensures Valid() && fresh(forest) && this.me == me && this.local == local && this.cross == cross
      ensures forest.parent == map[] && tips == {} && toRoot == []
    {
      var f := new TipForest();
      this.me, forest := me, f;
      this.local, this.cross := local, cross;
      tips, seen, toRoot := {}, {}, [];
    }

    /** contractLocalEdges: the process-local forest, and the owned tips seen so far. */
    method ContractLocal()
      requires Valid() && forest.parent == map[] && tips == {}
      modifies this`tips, forest
      ensures Valid() && Solves(forest.parent, EdgeSet(local))
      ensures tips == Endpoints(local) + OwnedOf(me, cross)
    {
      NoteLocal();
      forest.UnionAll(local);
      NoteCross();
    }

    /** Both ends of the process's own edges are touched. */
    method NoteLocal()
      requires tips == {}
      modifies this`tips
      ensures tips == Endpoints(local)
    {
      for i := 0 to |local|
        invariant tips == Endpoints(local[..i])
      {
        assert local[..i + 1] == local[..i] + [local[i]];
        tips := tips + {local[i].0, local[i].1};
      }
      assert local[..|local|] == local;
    }

    /** So is our end of every cross edge. */
    method NoteCross()
      modifies this`tips
      ensures tips == old(tips) + OwnedOf(me, cross)
    {
      for i := 0 to |cross|
        invariant tips == old(tips) + OwnedOf(me, cross[..i])
      {
        assert cross[..i + 1] == cross[..i] + [cross[i]];
        if Owner(cross[i].0) == me { tips := tips + {cross[i].0}; }
        if Owner(cross[i].1) == me { tips := tips + {cross[i].1}; }
      }
      assert cross[..|cross|] == cross;
    }

    /** routeCrossEdges: contract our endpoint, hand the edge to the other endpoint's owner. */
    method RouteCross(n: nat) returns (out: seq<seq<Edge>>)
      requires Valid()
      requires forall e {:trigger e in cross} :: e in cross ==>
            (Owner(e.0) == me || Owner(e.1) == me) && Owner(e.0) < n && Owner(e.1) < n
      modifies forest
      ensures Valid() && SameBosses(old(forest.parent), forest.parent)
      ensures |out| == n && Halves(old(forest.parent), me, cross, out)
    {
      ghost var parent := forest.parent;
      out := seq(n, q => []);
      assert cross[..0] == [];
      for i := 0 to |cross|
        invariant Valid() && SameBosses(parent, forest.parent) && |out| == n && Halves(parent, me, cross[..i], out)
      {
        var e := cross[i];
        assert e in cross && cross[..i + 1] == cross[..i] + [e];
        ghost var now := forest.parent;
        var a, b, dest := e.0, e.1, 0;
        if Owner(a) == me {
          dest := Owner(b);
          a := forest.Find(a);
        } else {
          dest := Owner(a);
          b := forest.Find(b);
        }
        assert Boss(parent, e.0) == Boss(now, e.0) && Boss(parent, e.1) == Boss(now, e.1);
        HalvesSnoc(parent, me, cross[..i], out, e);
        out := out[dest := out[dest] + [(a, b)]];
      }
      assert cross[..|cross|] == cross;
    }

    /** contractRemote: contract our endpoints of a received batch, record each pair once. */
    method ContractRemote(batch: seq<Edge>)
      requires Valid()
      modifies this`tips, this`seen, this`toRoot, forest
      ensures Valid() && SameBosses(old(forest.parent), forest.parent)
      ensures tips == old(tips) + OwnedOf(me, batch)
      ensures forall x {:trigger x in toRoot} :: x in toRoot <==>
            x in old(toRoot) || x in FullSet(old(forest.parent), me, batch)
    {
      ghost var parent := forest.parent;
      for i := 0 to |batch|
        invariant Valid() && SameBosses(parent, forest.parent)
        invariant tips == old(tips) + OwnedOf(me, batch[..i])
        invariant forall x {:trigger x in toRoot} :: x in toRoot <==>
              x in old(toRoot) || x in FullSet(parent, me, batch[..i])
      {
        var e := batch[i];
        ContractOne(parent, e);
        assert batch[..i + 1] == batch[..i] + [e];
        assert FullSet(parent, me, batch[..i + 1]) == FullSet(parent, me, batch[..i]) + {Full(parent, me, e)};
      }
      assert batch[..|batch|] == batch;
    }

    /** Our end of an edge is touched and contracted; another process's is left alone. */
    method ContractEnd(ghost parent: map<nat, nat>, x: nat) returns (r: nat)
      requires Valid() && Descending(parent) && SameBosses(parent, forest.parent)
      modifies this`tips, forest
      ensures Valid() && SameBosses(parent, forest.parent)
      ensures tips == old(tips) + (if Owner(x) == me then {x} else {})
      ensures r == if Owner(x) == me then Boss(parent, x) else x
    {
      r := x;
      if Owner(x) == me {
        tips := tips + {x};
        r := forest.Find(x);
      }
    }

    method ContractOne(ghost parent: map<nat, nat>, e: Edge)
      requires Valid() && Descending(parent) && SameBosses(parent, forest.parent)
      modifies this`tips, this`seen, this`toRoot, forest
      ensures Valid() && SameBosses(parent, forest.parent)
      ensures tips == old(tips) + OwnedOf(me, [e])
      ensures forall x {:trigger x in toRoot} :: x in toRoot <==> x in old(toRoot) || x == Full(parent, me, e)
    {
      var a := ContractEnd(parent, e.0);
      var b := ContractEnd(parent, e.1);
      var lo, hi := if a < b then a else b, if a < b then b else a;
      if (lo, hi) !in seen {
        seen := seen + {(lo, hi)};
        toRoot := toRoot + [(lo, hi)];
      }
    }

    /** expandAndApplySlice: every owned touched tip takes its local root's label, or the root's own
        touched label when no cross edge reached it. */
    method Expand(slice: map<nat, int>) returns (labels: map<nat, int>)
      requires Valid()
      modifies forest
      ensures Valid() && SameBosses(old(forest.parent), forest.parent)
      ensures labels.Keys == tips
      ensures forall t {:trigger labels[t]} :: t in labels ==>
            labels[t] == RootLabel(slice, old(Boss(forest.parent, t)))
    {
      ghost var parent := forest.parent;
      labels := map[];
      var todo := tips;
      while todo != {}
        invariant Valid() && SameBosses(parent, forest.parent)
        invariant todo <= tips && labels.Keys == tips - todo
        invariant forall t {:trigger labels[t]} :: t in labels ==> labels[t] == RootLabel(slice, Boss(parent, t))
        decreases todo
      {
        var t :| t in todo;
        ghost var now := forest.parent;
        var r := forest.Find(t);
        assert Boss(parent, t) == Boss(now, t);
        labels := labels[t := RootLabel(slice, r)];
        todo := todo - {t};
      }
    }
  }

  function RootLabel(slice: map<nat, int>, r: nat): int {
    if r in slice then slice[r] else Touched(r)
  }

  lemma HalvesSnoc(parent: map<nat, nat>, me: nat, cross: seq<Edge>, out: seq<seq<Edge>>, e: Edge)
    requires Descending(parent) && Halves(parent, me, cross, out) && Far(me, e) < |out|
    ensures var d := Far(me, e);
            Halves(parent, me, cross + [e], out[d := out[d] + [Half(parent, me, e)]])
  {
    var d := Far(me, e);
    var more := out[d := out[d] + [Half(parent, me, e)]];
    forall q, x | 0 <= q < |more| && x in more[q]
      ensures exists f :: f in cross + [e] && Far(me, f) == q && Half(parent, me, f) == x
    {
      if x in out[q] {
        var f :| f in cross && Far(me, f) == q && Half(parent, me, f) == x;
        assert f in cross + [e];
      } else {
        assert e in cross + [e];
      }
    }
  }
}
