/** Connectivity of undirected graphs, and the contraction argument every stage of the
    clustering pipeline rests on.  A vertex is an integer: a particle's global order, or the
    tip (a particle order, possibly owner-encoded) that names a fragment. */
module Graph {

  type Edges = iset<(int, int)>

  ghost predicate Adjacent(E: Edges, x: int, y: int) {
    (x, y) in E || (y, x) in E
  }

  ghost predicate Hop(E: Edges, p: seq<int>, i: nat)
    requires i + 1 < |p|
  {
    Adjacent(E, p[i], p[i + 1])
  }

  ghost predicate IsPath(E: Edges, p: seq<int>) {
    |p| > 0 && forall i: nat {:trigger Hop(E, p, i)} :: i + 1 < |p| ==> Hop(E, p, i)
  }

  /** x and y lie in one connected component of E. */
  ghost predicate Conn(E: Edges, x: int, y: int) {
    exists p: seq<int> :: IsPath(E, p) && p[0] == x && p[|p| - 1] == y
  }

  /** m is the least vertex of x's component. */
  ghost predicate IsComponentMin(E: Edges, x: int, m: int) {
    Conn(E, x, m) && forall y :: Conn(E, x, y) ==> m <= y
  }

  function EdgeSet(es: seq<(int, int)>): Edges {
    iset e | e in es
  }

  lemma ConnRefl(E: Edges, x: int)
    ensures Conn(E, x, x)
  {
    assert IsPath(E, [x]);
  }

  lemma ConnEdge(E: Edges, x: int, y: int)
    requires Adjacent(E, x, y)
    ensures Conn(E, x, y)
  {
    var p := [x, y];
    assert Hop(E, p, 0);
    assert IsPath(E, p) && p[0] == x && p[|p| - 1] == y;
  }

  lemma ConnTrans(E: Edges, x: int, y: int, z: int)
    requires Conn(E, x, y) && Conn(E, y, z)
    ensures Conn(E, x, z)
  {
    var p :| IsPath(E, p) && p[0] == x && p[|p| - 1] == y;
    var q :| IsPath(E, q) && q[0] == y && q[|q| - 1] == z;
    var r := p + q[1..];
    forall i: nat | i + 1 < |r|
      ensures Hop(E, r, i)
    {
      if i < |p| - 1 {
        assert Hop(E, p, i);
      } else {
        assert Hop(E, q, i - (|p| - 1));
      }
    }
    assert IsPath(E, r) && r[0] == x && r[|r| - 1] == z;
  }

  lemma ConnSym(E: Edges, x: int, y: int)
    ensures Conn(E, x, y) <==> Conn(E, y, x)
  {
    if Conn(E, x, y) { ConnFlip(E, x, y); }
    if Conn(E, y, x) { ConnFlip(E, y, x); }
  }

  lemma ConnFlip(E: Edges, x: int, y: int)
    requires Conn(E, x, y)
    ensures Conn(E, y, x)
  {
    var p :| IsPath(E, p) && p[0] == x && p[|p| - 1] == y;
    var r := seq(|p|, i requires 0 <= i < |p| => p[|p| - 1 - i]);
    forall i: nat | i + 1 < |r|
      ensures Hop(E, r, i)
    {
      assert Hop(E, p, |p| - 2 - i);
    }
    assert IsPath(E, r) && r[0] == y && r[|r| - 1] == x;
  }

  /** The induction principle of connectivity: a vertex set no edge leaves holds whole
      components. */
  lemma ConnClosed(E: Edges, S: iset<int>, x: int, y: int)
    requires forall u, v :: (u, v) in E ==> (u in S <==> v in S)
    requires Conn(E, x, y)
    ensures x in S <==> y in S
  {
    var p :| IsPath(E, p) && p[0] == x && p[|p| - 1] == y;
    var i := 0;
    while i < |p| - 1
      invariant 0 <= i < |p|
      invariant x in S <==> p[i] in S
    {
      assert Hop(E, p, i);
      i := i + 1;
    }
  }

  /** A map that sends every edge of E to F-connected vertices sends E-components into
      F-components. */
  lemma ConnImage(E: Edges, F: Edges, f: int -> int, x: int, y: int)
    requires forall u, v :: (u, v) in E ==> Conn(F, f(u), f(v))
    requires Conn(E, x, y)
    ensures Conn(F, f(x), f(y))
  {
    var S := iset v | Conn(F, f(x), f(v));
    forall u, v | (u, v) in E
      ensures u in S <==> v in S
    {
      ConnSym(F, f(u), f(v));
      if u in S { ConnTrans(F, f(x), f(u), f(v)); }
      if v in S { ConnTrans(F, f(x), f(v), f(u)); }
    }
    ConnRefl(F, f(x));
    ConnClosed(E, S, x, y);
  }

  lemma ConnSubst(E: Edges, F: Edges, x: int, y: int)
    requires forall u, v :: (u, v) in E ==> Conn(F, u, v)
    requires Conn(E, x, y)
    ensures Conn(F, x, y)
  {
    ConnImage(E, F, v => v, x, y);
  }

  lemma ConnMono(E: Edges, F: Edges, x: int, y: int)
    requires E <= F
    requires Conn(E, x, y)
    ensures Conn(F, x, y)
  {
    forall u, v | (u, v) in E
      ensures Conn(F, u, v)
    {
      ConnEdge(F, u, v);
    }
    ConnSubst(E, F, x, y);
  }

  lemma ComponentMinUnique(E: Edges, x: int, y: int, m: int, n: int)
    requires IsComponentMin(E, x, m) && IsComponentMin(E, y, n)
    ensures m == n <==> Conn(E, x, y)
  {
    ConnSym(E, x, m);
    ConnSym(E, y, n);
    ConnSym(E, x, y);
    if m == n {
      ConnTrans(E, x, m, y);
    }
    if Conn(E, x, y) {
      ConnTrans(E, x, y, n);
      ConnTrans(E, y, x, m);
    }
  }

  /** F is a contraction of G's cross edges along `tip`, the labelling of a first stage that
      already solved the inner edges: nothing in F joins more than G does, and the tips of any
      two vertices G joins directly are joined in F. */
  ghost predicate Contracts(G: Edges, F: Edges, tip: int -> int) {
    && (forall v :: Conn(G, v, tip(v)) && tip(v) <= v)
    && (forall g, f :: (g, f) in F ==> Conn(G, g, f))
    && (forall u, v :: (u, v) in G ==> Conn(F, tip(u), tip(v)))
  }

  /** The contraction theorem: solving the contracted graph solves the whole graph, component
      for component and minimum for minimum.  The merge of cross-PE edges, the cross-process
      union-find and the staged gather are three uses of it. */
  lemma ContractionExact(G: Edges, F: Edges, tip: int -> int, x: int, y: int)
    requires Contracts(G, F, tip)
    ensures Conn(F, tip(x), tip(y)) <==> Conn(G, x, y)
    ensures forall m :: IsComponentMin(F, tip(x), m) ==> IsComponentMin(G, x, m)
  {
    if Conn(G, x, y) {
      ConnImage(G, F, tip, x, y);
    }
    if Conn(F, tip(x), tip(y)) {
      ConnSubst(F, G, tip(x), tip(y));
      ConnTrans(G, x, tip(x), tip(y));
      ConnSym(G, tip(y), y);
      ConnTrans(G, x, tip(y), y);
    }
    forall m | IsComponentMin(F, tip(x), m)
      ensures IsComponentMin(G, x, m)
    {
      ConnSubst(F, G, tip(x), m);
      ConnTrans(G, x, tip(x), m);
      forall z | Conn(G, x, z)
        ensures m <= z
      {
        ConnImage(G, F, tip, x, z);
      }
    }
  }
}
