/** The two union-by-minimum forests of the code, as values: phase A's `uf_parent` over flat
    particle indices ranked by `flat_order`, and the lazily grown tip -> tip maps of the merge,
    the staged contraction and the cross-process finisher. */
module Forest {
  import opened Graph

  // ---- Index forest: parents over 0..n-1, ranked by a global order per index.

  predicate Differ(order: seq<nat>, i: nat, j: nat) {
    i < |order| && j < |order| && i != j ==> order[i] != order[j]
  }

  ghost predicate Distinct(order: seq<nat>) {
    forall i, j {:trigger Differ(order, i, j)} :: Differ(order, i, j)
  }

  ghost predicate Ranked(parent: seq<nat>, order: seq<nat>) {
    && |parent| == |order|
    && Distinct(order)
    && (forall i {:trigger parent[i]} :: 0 <= i < |parent| ==> parent[i] < |parent|)
    && (forall i {:trigger parent[i]} :: 0 <= i < |parent| && parent[i] != i ==> order[parent[i]] < order[i])
  }

  ghost function Ascend(parent: seq<nat>, order: seq<nat>, i: nat): (r: nat)
    requires Ranked(parent, order) && i < |parent|
    ensures r < |parent| && parent[r] == r && order[r] <= order[i]
    decreases order[i]
  {
    if parent[i] == i then i else Ascend(parent, order, parent[i])
  }

  /** The root of i's tree (a name of its own, so that quantified facts about roots are not
      unrolled along parent chains). */
  ghost function Root(parent: seq<nat>, order: seq<nat>, i: nat): (r: nat)
    requires Ranked(parent, order) && i < |parent|
    ensures r < |parent| && parent[r] == r && order[r] <= order[i]
  {
    Ascend(parent, order, i)
  }

  /** Pointing i straight at its root moves no root: one step of path compression. */
  lemma {:induction false} CompressKeepsRoots(parent: seq<nat>, order: seq<nat>, i: nat, r: nat, k: nat)
    requires Ranked(parent, order) && i < |parent| && k < |parent|
    requires r == Root(parent, order, i)
    ensures Ranked(parent[i := r], order)
    ensures Root(parent[i := r], order, k) == Root(parent, order, k)
    decreases order[k]
  {
    var after := parent[i := r];
    assert parent[i] != i ==> order[r] <= order[parent[i]] < order[i];
    assert Ranked(after, order);
    if k == i {
      assert after[r] == r;
      assert Ascend(after, order, k) == if after[k] == k then k else Ascend(after, order, r);
    } else if parent[k] != k {
      CompressKeepsRoots(parent, order, i, r, parent[k]);
      assert Ascend(after, order, k) == Ascend(after, order, parent[k]);
    }
  }

  /** Hanging root `child` under the smaller-ranked root `top` moves exactly child's tree. */
  lemma {:induction false} LinkMovesTree(parent: seq<nat>, order: seq<nat>, child: nat, top: nat, k: nat)
    requires Ranked(parent, order) && child < |parent| && top < |parent| && k < |parent|
    requires parent[child] == child && parent[top] == top && order[top] < order[child]
    ensures Ranked(parent[child := top], order)
    ensures Root(parent[child := top], order, k)
         == if Root(parent, order, k) == child then top else Root(parent, order, k)
    decreases order[k]
  {
    var after := parent[child := top];
    assert Ranked(after, order);
    assert Ascend(after, order, top) == top;
    if k == child {
      assert Ascend(after, order, k) == Ascend(after, order, top);
    } else if parent[k] != k {
      LinkMovesTree(parent, order, child, top, parent[k]);
      assert Ascend(after, order, k) == Ascend(after, order, parent[k]);
    }
  }

  // ---- Map forest: parents over the tips seen so far; a tip not yet seen is its own root.

  ghost predicate Downward(parent: map<nat, nat>, k: nat) {
    k in parent ==> parent[k] in parent && parent[k] <= k
  }

  /** Every link leads to a registered, smaller tip (stated through Downward, so that the solver
      follows a parent chain only where a proof asks for it). */
  ghost predicate Descending(parent: map<nat, nat>) {
    forall k: nat {:trigger Downward(parent, k)} :: Downward(parent, k)
  }

  ghost function Climb(parent: map<nat, nat>, k: nat): (r: nat)
    requires Descending(parent)
    ensures r <= k && (k in parent ==> r in parent && parent[r] == r) && (k !in parent ==> r == k)
  {
    assert Downward(parent, k);
    if k !in parent || parent[k] == k then k else Climb(parent, parent[k])
  }

  /** The root of tip k's tree. */
  ghost function Boss(parent: map<nat, nat>, k: nat): (r: nat)
    requires Descending(parent)
    ensures r <= k && (k in parent ==> r in parent && parent[r] == r) && (k !in parent ==> r == k)
  {
    Climb(parent, k)
  }

  lemma {:induction false} CompressKeepsBosses(parent: map<nat, nat>, i: nat, r: nat, k: nat)
    requires Descending(parent) && i in parent && r == Boss(parent, i)
    ensures Descending(parent[i := r])
    ensures Boss(parent[i := r], k) == Boss(parent, k)
  {
    var after := parent[i := r];
    forall j: nat ensures Downward(after, j) { assert Downward(parent, j); }
    assert Downward(parent, k);
    if k == i {
      assert after[r] == r;
      assert Climb(after, k) == if after[k] == k then k else Climb(after, r);
    } else if k in parent && parent[k] != k {
      CompressKeepsBosses(parent, i, r, parent[k]);
      assert Climb(after, k) == Climb(after, parent[k]);
    }
  }

  lemma {:induction false} AddKeepsBosses(parent: map<nat, nat>, x: nat, k: nat)
    requires Descending(parent) && x !in parent
    ensures Descending(parent[x := x])
    ensures Boss(parent[x := x], k) == Boss(parent, k)
  {
    var after := parent[x := x];
    forall j: nat ensures Downward(after, j) { assert Downward(parent, j); }
    assert Downward(parent, k);
    if k in parent && parent[k] != k {
      AddKeepsBosses(parent, x, parent[k]);
      assert Climb(after, k) == Climb(after, parent[k]);
    }
  }

  lemma {:induction false} LinkMovesBosses(parent: map<nat, nat>, child: nat, top: nat, k: nat)
    requires Descending(parent) && child in parent && top in parent
    requires parent[child] == child && parent[top] == top && top < child
    ensures Descending(parent[child := top])
    ensures Boss(parent[child := top], k)
         == if Boss(parent, k) == child then top else Boss(parent, k)
  {
    var after := parent[child := top];
    forall j: nat ensures Downward(after, j) { assert Downward(parent, j); }
    assert Downward(parent, k);
    assert Climb(after, top) == top;
    if k == child {
      assert Climb(after, k) == Climb(after, top);
    } else if k in parent && parent[k] != k {
      LinkMovesBosses(parent, child, top, parent[k]);
      assert Climb(after, k) == Climb(after, parent[k]);
    }
  }

  ghost predicate SameBosses(p: map<nat, nat>, q: map<nat, nat>)
    requires Descending(p) && Descending(q)
  {
    forall k: nat {:trigger Boss(p, k)} {:trigger Boss(q, k)} :: Boss(p, k) == Boss(q, k)
  }

  /** Tips that were there keep their parent, or point at r. */
  ghost predicate Shortens(before: map<nat, nat>, after: map<nat, nat>, r: nat) {
    forall k: nat {:trigger k in before} {:trigger after[k]} :: k in before ==>
      k in after && (after[k] == before[k] || after[k] == r)
  }

  function Lesser(x: nat, y: nat): nat {
    if x < y then x else y
  }

  /** `after` is `before` with the trees of a and b merged under the smaller of their bosses. */
  ghost predicate Merges(before: map<nat, nat>, after: map<nat, nat>, a: nat, b: nat)
    requires Descending(before) && Descending(after)
  {
    forall k: nat {:trigger Boss(after, k)} ::
      Boss(after, k) == if Boss(before, k) == Boss(before, a) || Boss(before, k) == Boss(before, b)
                        then Lesser(Boss(before, a), Boss(before, b)) else Boss(before, k)
  }

  /** The map forest solves edge set E: every tip's boss is the least tip of its E-component. */
  ghost predicate Solves(parent: map<nat, nat>, E: Edges) {
    Descending(parent) && forall k: nat {:trigger Boss(parent, k)} :: IsComponentMin(E, k, Boss(parent, k))
  }

  ghost predicate OverTips(E: Edges) {
    forall e :: e in E ==> e.0 >= 0 && e.1 >= 0
  }

  /** One more edge: merging the trees of its endpoints solves one more edge. */
  lemma UnionSolves(before: map<nat, nat>, after: map<nat, nat>, E: Edges, a: nat, b: nat)
    requires Solves(before, E) && Descending(after) && OverTips(E)
    requires Merges(before, after, a, b)
    ensures Solves(after, E + iset{(a, b)}) && OverTips(E + iset{(a, b)})
  {
    forall k: nat
      ensures IsComponentMin(E + iset{(a, b)}, k, Boss(after, k))
    {
      UnionReaches(before, after, E, a, b, k);
      forall z | Conn(E + iset{(a, b)}, k, z)
        ensures Boss(after, k) <= z
      {
        UnionBounds(before, after, E, a, b, k, z);
      }
    }
  }

  lemma UnionReaches(before: map<nat, nat>, after: map<nat, nat>, E: Edges, a: nat, b: nat, k: nat)
    requires Solves(before, E) && Descending(after) && OverTips(E)
    requires Merges(before, after, a, b)
    ensures Conn(E + iset{(a, b)}, k, Boss(after, k))
  {
    var F := E + iset{(a, b)};
    var ra, rb, o := Boss(before, a), Boss(before, b), Boss(before, k);
    ConnMono(E, F, k, o);
    if o == ra || o == rb {
      ConnMono(E, F, a, ra);
      ConnMono(E, F, b, rb);
      ConnEdge(F, a, b);
      ConnTrans(F, a, b, rb);
      ConnSym(F, a, ra);
      ConnTrans(F, ra, a, rb);
      ConnSym(F, ra, rb);
      if Boss(after, k) != o { ConnTrans(F, k, o, Boss(after, k)); }
    }
  }

  lemma BossAlongEdge(parent: map<nat, nat>, E: Edges, u: nat, v: nat)
    requires Solves(parent, E) && (u, v) in E
    ensures Boss(parent, u) == Boss(parent, v)
  {
    ConnEdge(E, u, v);
    ComponentMinUnique(E, u, v, Boss(parent, u), Boss(parent, v));
  }

  /** Bosses after the union never vary along an edge, so they are constant on components. */
  lemma UnionBounds(before: map<nat, nat>, after: map<nat, nat>, E: Edges, a: nat, b: nat, k: nat, z: int)
    requires Solves(before, E) && Descending(after) && OverTips(E)
    requires Merges(before, after, a, b)
    requires Conn(E + iset{(a, b)}, k, z)
    ensures Boss(after, k) <= z
  {
    var m := Boss(after, k);
    var S := iset x: int | x >= 0 && Boss(after, x) == m;
    forall u, v | (u, v) in E + iset{(a, b)}
      ensures u in S <==> v in S
    {
      if (u, v) in E {
        BossAlongEdge(before, E, u, v);
        assert Boss(after, u) == Boss(after, v);
      } else {
        assert Boss(after, a) == Boss(after, b);
      }
    }
    ConnClosed(E + iset{(a, b)}, S, k, z);
  }

  lemma EmptySolved()
    ensures Solves(map[], iset{})
  {
    forall k: nat
      ensures IsComponentMin(iset{}, k, Boss(map[], k))
    {
      ConnRefl(iset{}, k);
      forall y | Conn(iset{}, k, y)
        ensures k <= y
      {
        ConnClosed(iset{}, iset{k}, k, y);
      }
    }
  }

  // ---- The forest as the mutable object the code updates.

  /** The lazily grown parent map: `findRoot` with path compression, union by minimum tip. */
  class TipForest {
    var parent: map<nat, nat>

    ghost predicate Valid()
      reads this
    {
      Descending(parent)
    }

    constructor ()
      ensures Valid() && parent == map[]
    {
      parent := map[];
    }

    /** findRoot: register a new tip, else walk to the root and compress the path behind. */
    method Find(x: nat) returns (root: nat)
      requires Valid()
      modifies this
      ensures Valid() && root == old(Boss(parent, x)) && root in parent && parent[root] == root
      ensures parent.Keys == old(parent.Keys) + {x} && parent[x] == root
      ensures Shortens(old(parent), parent, root) && SameBosses(old(parent), parent)
    {
      if x !in parent {
        AddKeepsBosses(parent, x, x);
        forall k: nat { AddKeepsBosses(parent, x, k); }
        parent := parent[x := x];
        return x;
      }
      root := x;
      while parent[root] != root
        invariant root in parent && Boss(parent, root) == Boss(parent, x) && parent == old(parent)
        decreases root
      {
        assert Downward(parent, root);
        root := parent[root];
      }
      Compress(x, root);
    }

    method Compress(x: nat, root: nat)
      requires Valid() && x in parent && Boss(parent, x) == root
      modifies this
      ensures Valid() && parent.Keys == old(parent.Keys) && SameBosses(old(parent), parent)
      ensures parent[x] == root && Shortens(old(parent), parent, root)
    {
      var y := x;
      while parent[y] != root
        invariant Valid() && y in parent && parent.Keys == old(parent.Keys)
        invariant SameBosses(old(parent), parent) && Boss(parent, y) == root
        invariant Shortens(old(parent), parent, root) && (y != x ==> parent[x] == root)
        decreases y
      {
        assert Downward(parent, y);
        var next := parent[y];
        CompressKeepsBosses(parent, y, root, y);
        forall k: nat { CompressKeepsBosses(parent, y, root, k); }
        parent := parent[y := root];
        y := next;
      }
    }

    /** One turn of the edge loop: skip an edge inside one tree, else the smaller root wins. */
    method Union(a: nat, b: nat)
      requires Valid()
      modifies this
      ensures Valid() && parent.Keys == old(parent.Keys) + {a, b}
      ensures Merges(old(parent), parent, a, b)
    {
      var ra := Find(a);
      var rb := Find(b);
      if ra == rb { return; }
      if ra < rb {
        LinkMovesBosses(parent, rb, ra, rb);
        forall k: nat { LinkMovesBosses(parent, rb, ra, k); }
        parent := parent[rb := ra];
      } else {
        LinkMovesBosses(parent, ra, rb, ra);
        forall k: nat { LinkMovesBosses(parent, ra, rb, k); }
        parent := parent[ra := rb];
      }
    }

    /** The serial union-find loop shared by merge, contraction and finisher. */
    method UnionAll(es: seq<(nat, nat)>)
      requires parent == map[]
      modifies this
      ensures Valid() && Solves(parent, EdgeSet(es)) && parent.Keys == Endpoints(es)
    {
      EmptySolved();
      assert EdgeSet(es[..0]) == iset{};
      for i := 0 to |es|
        invariant Valid() && Solves(parent, EdgeSet(es[..i])) && OverTips(EdgeSet(es[..i]))
        invariant parent.Keys == Endpoints(es[..i])
      {
        ghost var before := parent;
        Union(es[i].0, es[i].1);
        UnionSolves(before, parent, EdgeSet(es[..i]), es[i].0, es[i].1);
        assert es[..i + 1] == es[..i] + [es[i]];
        assert EdgeSet(es[..i + 1]) == EdgeSet(es[..i]) + iset{(es[i].0 as int, es[i].1 as int)};
      }
      assert es[..|es|] == es;
    }
  }

  function Endpoints(es: seq<(nat, nat)>): set<nat> {
    (set e | e in es :: e.0) + (set e | e in es :: e.1)
  }
}
