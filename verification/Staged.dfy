/** The staged gather: contract per process, route cross edges to the other endpoint's owner, finish
    on one process, expand.  Under every order of routing and delivery it labels every touched tip as
    the flat finisher does. */
module Staged {
  import opened Graph
  import opened Forest
  import opened Labels
  import opened Phase3

  /** stagePhase3Edges: split a PE's edges by ownership. */
  method StagePhase3Edges(me: nat, buf: seq<Edge>) returns (loc: seq<Edge>, cross: seq<Edge>)
    ensures forall e {:trigger e in loc} :: e in loc <==> e in buf && Owner(e.0) == me && Owner(e.1) == me
    ensures forall e {:trigger e in cross} :: e in cross <==> e in buf && !(Owner(e.0) == me && Owner(e.1) == me)
  {
    loc, cross := [], [];
    for i := 0 to |buf|
      invariant forall e {:trigger e in loc} :: e in loc <==> e in buf[..i] && Owner(e.0) == me && Owner(e.1) == me
      invariant forall e {:trigger e in cross} :: e in cross <==>
            e in buf[..i] && !(Owner(e.0) == me && Owner(e.1) == me)
    {
      assert buf[..i + 1] == buf[..i] + [buf[i]];
      if Owner(buf[i].0) == me && Owner(buf[i].1) == me {
        loc := loc + [buf[i]];
      } else {
        cross := cross + [buf[i]];
      }
    }
    assert buf[..|buf|] == buf;
  }

  /** The staged edges of all processes: local ones have both endpoints at home, cross ones exactly
      one, the other at another process of the run. */
  datatype Staging = Staging(locals: seq<seq<Edge>>, crosses: seq<seq<Edge>>) {
    function N(): nat { |locals| }

    ghost predicate Ok() {
      && |crosses| == |locals|
      && (forall p, e {:trigger e in locals[p]} :: 0 <= p < N() && e in locals[p] ==>
            Owner(e.0) == p && Owner(e.1) == p)
      && (forall p, e {:trigger e in crosses[p]} :: 0 <= p < N() && e in crosses[p] ==>
            (Owner(e.0) == p || Owner(e.1) == p) && Owner(e.0) != Owner(e.1) && Owner(e.0) < N() && Owner(e.1) < N())
    }

    /** The raw edge set: what the flat finisher would get. */
    ghost predicate Raw(e: Edge)
      requires Ok()
    {
      exists p :: 0 <= p < N() && (e in locals[p] || e in crosses[p])
    }

    ghost predicate RawIs(raw: seq<Edge>)
      requires Ok()
    {
      forall e {:trigger e in raw} {:trigger Raw(e)} :: e in raw <==> Raw(e)
    }
  }

  // ---- Local roots.

  ghost predicate Forests(s: Staging, Ps: seq<map<nat, nat>>) {
    && s.Ok() && |Ps| == s.N()
    && forall p {:trigger Ps[p]} :: 0 <= p < s.N() ==> Solves(Ps[p], EdgeSet(s.locals[p]))
  }

  ghost function LocalRoot(s: Staging, Ps: seq<map<nat, nat>>, t: nat): nat
    requires Forests(s, Ps)
  {
    if Owner(t) < s.N() then Boss(Ps[Owner(t)], t) else t
  }

  lemma RootAtHome(s: Staging, Ps: seq<map<nat, nat>>, t: nat)
    requires Forests(s, Ps)
    ensures Owner(LocalRoot(s, Ps, t)) == Owner(t) && LocalRoot(s, Ps, t) <= t
    ensures LocalRoot(s, Ps, LocalRoot(s, Ps, t)) == LocalRoot(s, Ps, t)
  {
    var p := Owner(t);
    if p < s.N() {
      var E, r := EdgeSet(s.locals[p]), Boss(Ps[p], t);
      assert IsComponentMin(E, t, r);
      var S := iset v: int | v >= 0 && Owner(v) == p;
      forall u, v | (u, v) in E
        ensures u in S <==> v in S
      {
        var e: Edge := (u, v);
        assert e in s.locals[p];
      }
      ConnClosed(E, S, t, r);
    }
  }

  /** The contracted form of a cross edge. */
  ghost function Norm(s: Staging, Ps: seq<map<nat, nat>>, e: Edge): Edge
    requires Forests(s, Ps)
  {
    Sorted((LocalRoot(s, Ps, e.0), LocalRoot(s, Ps, e.1)))
  }

  function FarTip(me: nat, e: Edge): nat {
    if Owner(e.0) == me then e.1 else e.0
  }

  /** Both owners together contract a cross edge completely, and the receiver learns its own tip. */
  lemma BothHalves(s: Staging, Ps: seq<map<nat, nat>>, p: nat, e: Edge)
    requires Forests(s, Ps) && p < s.N() && e in s.crosses[p]
    ensures Far(p, e) < s.N() && Far(p, e) != p
    ensures Full(Ps[Far(p, e)], Far(p, e), Half(Ps[p], p, e)) == Norm(s, Ps, e)
    ensures OwnedOf(Far(p, e), [Half(Ps[p], p, e)]) == {FarTip(p, e)}
  {
    RootAtHome(s, Ps, e.0);
    RootAtHome(s, Ps, e.1);
    var x := Half(Ps[p], p, e);
    assert x in [x];
  }

  // ---- The contraction.

  ghost function TipMap(s: Staging, Ps: seq<map<nat, nat>>): int -> int
    requires Forests(s, Ps)
  {
    (v: int) => if v >= 0 then LocalRoot(s, Ps, v) else v
  }

  /** The gathered edges are the contracted cross edges. */
  ghost predicate Gathered(s: Staging, Ps: seq<map<nat, nat>>, gathered: seq<Edge>)
    requires Forests(s, Ps)
  {
    && (forall p, e {:trigger e in s.crosses[p]} :: 0 <= p < s.N() && e in s.crosses[p] ==> Norm(s, Ps, e) in gathered)
    && (forall x {:trigger x in gathered} :: x in gathered ==>
          exists p, e :: 0 <= p < s.N() && e in s.crosses[p] && x == Norm(s, Ps, e))
  }

  lemma RootConn(s: Staging, Ps: seq<map<nat, nat>>, raw: seq<Edge>, t: nat)
    requires Forests(s, Ps) && s.RawIs(raw)
    ensures Conn(EdgeSet(raw), t, LocalRoot(s, Ps, t)) && Conn(EdgeSet(raw), LocalRoot(s, Ps, t), t)
  {
    var p := Owner(t);
    if p < s.N() {
      var E := EdgeSet(s.locals[p]);
      assert IsComponentMin(E, t, Boss(Ps[p], t));
      forall e | e in E
        ensures e in EdgeSet(raw)
      {
        var f: Edge := e;
        assert f in s.locals[p] && s.Raw(f) && f in raw;
      }
      ConnMono(E, EdgeSet(raw), t, Boss(Ps[p], t));
    } else {
      ConnRefl(EdgeSet(raw), t);
    }
    ConnSym(EdgeSet(raw), t, LocalRoot(s, Ps, t));
  }

  lemma NormConn(s: Staging, Ps: seq<map<nat, nat>>, raw: seq<Edge>, e: Edge)
    requires Forests(s, Ps) && s.RawIs(raw) && e in raw
    ensures Conn(EdgeSet(raw), Norm(s, Ps, e).0, Norm(s, Ps, e).1)
  {
    var G := EdgeSet(raw);
    var a, b := LocalRoot(s, Ps, e.0), LocalRoot(s, Ps, e.1);
    RootConn(s, Ps, raw, e.0);
    RootConn(s, Ps, raw, e.1);
    assert Adjacent(G, e.0, e.1);
    ConnEdge(G, e.0, e.1);
    ConnTrans(G, a, e.0, e.1);
    ConnTrans(G, a, e.1, b);
    ConnSym(G, a, b);
  }

  /** Staging contracts the raw edge graph. */
  lemma StagingContracts(s: Staging, Ps: seq<map<nat, nat>>, raw: seq<Edge>, gathered: seq<Edge>)
    requires Forests(s, Ps) && s.RawIs(raw) && Gathered(s, Ps, gathered)
    ensures Contracts(EdgeSet(raw), EdgeSet(gathered), TipMap(s, Ps))
  {
    var G, F, tip := EdgeSet(raw), EdgeSet(gathered), TipMap(s, Ps);
    forall v
      ensures Conn(G, v, tip(v)) && tip(v) <= v
    {
      if v >= 0 { RootConn(s, Ps, raw, v); } else { ConnRefl(G, v); }
    }
    forall g, f | (g, f) in F
      ensures Conn(G, g, f)
    {
      var x: Edge := (g, f);
      assert x in gathered;
      var p, e :| 0 <= p < s.N() && e in s.crosses[p] && x == Norm(s, Ps, e);
      assert s.Raw(e) && e in raw;
      NormConn(s, Ps, raw, e);
    }
    forall u, v | (u, v) in G
      ensures Conn(F, tip(u), tip(v))
    {
      var e: Edge := (u, v);
      assert e in raw && s.Raw(e);
      var p :| 0 <= p < s.N() && (e in s.locals[p] || e in s.crosses[p]);
      if e in s.locals[p] {
        BossAlongEdge(Ps[p], EdgeSet(s.locals[p]), u, v);
        ConnRefl(F, tip(u));
      } else {
        assert Norm(s, Ps, e) in gathered;
        assert Adjacent(F, tip(u), tip(v));
        ConnEdge(F, tip(u), tip(v));
      }
    }
  }

  /** An expanded label is the flat label: the least tip of the raw component, in the touched form. */
  lemma ExpandedLabel(s: Staging, Ps: seq<map<nat, nat>>, raw: seq<Edge>, gathered: seq<Edge>, rootMap: map<nat, int>,
                      slice: map<nat, int>, t: nat)
    requires Forests(s, Ps) && s.RawIs(raw) && Gathered(s, Ps, gathered) && FinalLabels(gathered, rootMap)
    requires Owner(t) < s.N()
    requires slice == SliceOf(rootMap, Owner(t))
    ensures var l := RootLabel(slice, LocalRoot(s, Ps, t)); l <= -2 && IsComponentMin(EdgeSet(raw), t, -l - 2)
  {
    var r := LocalRoot(s, Ps, t);
    var l := RootLabel(slice, r);
    RootAtHome(s, Ps, t);
    assert r in slice <==> r in rootMap;
    if r !in rootMap { UntouchedMin(gathered, r); }
    assert IsComponentMin(EdgeSet(gathered), r, -l - 2);
    StagingContracts(s, Ps, raw, gathered);
    ContractionExact(EdgeSet(raw), EdgeSet(gathered), TipMap(s, Ps), t, t);
    assert TipMap(s, Ps)(t) == r;
  }

  lemma UntouchedMin(edges: seq<Edge>, t: nat)
    requires t !in Endpoints(edges)
    ensures IsComponentMin(EdgeSet(edges), t, t)
  {
    var E := EdgeSet(edges);
    ConnRefl(E, t);
    forall y | Conn(E, t, y)
      ensures t <= y
    {
      forall u, v | (u, v) in E
        ensures u in iset{t as int} <==> v in iset{t as int}
      {
        var e: Edge := (u, v);
        assert e in edges;
      }
      ConnClosed(E, iset{t as int}, t, y);
    }
  }

  // ---- Slices.

  function SliceOf(m: map<nat, int>, p: nat): map<nat, int> {
    map k | k in m && Owner(k) == p :: m[k]
  }

  /** The sliced delivery: every entry goes to the process that owns its key. */
  method Slices(m: map<nat, int>, n: nat) returns (slices: seq<map<nat, int>>)
    requires forall k {:trigger k in m} :: k in m ==> Owner(k) < n
    ensures |slices| == n && forall p {:trigger slices[p]} :: 0 <= p < n ==> slices[p] == SliceOf(m, p)
  {
    slices := seq(n, p => map[]);
    var todo := m.Keys;
    while todo != {}
      invariant todo <= m.Keys && |slices| == n
      invariant forall p {:trigger slices[p]} :: 0 <= p < n ==>
            slices[p] == map k | k in m && k !in todo && Owner(k) == p :: m[k]
      decreases todo
    {
      var k :| k in todo;
      var p := Owner(k);
      slices := slices[p := slices[p][k := m[k]]];
      todo := todo - {k};
    }
  }
}
