/** Running the staged gather: routing tasks and batch deliveries interleave in any order. */
module StagedRun {
  import opened Graph
  import opened Forest
  import opened Labels
  import opened Phase3
  import opened Staged

  ghost function ForestsOf(nodes: seq<StageNode>): set<object> {
    set k | 0 <= k < |nodes| :: nodes[k].forest
  }

  ghost function Objects(nodes: seq<StageNode>): set<object> {
    ForestsOf(nodes) + set k | 0 <= k < |nodes| :: nodes[k]
  }

  /** One node per process, no sharing. */
  ghost predicate Net(nodes: seq<StageNode>)
    reads Objects(nodes)
  {
    && (forall k {:trigger nodes[k]} :: 0 <= k < |nodes| ==> nodes[k].Valid() && nodes[k].me == k)
    && (forall j, k {:trigger nodes[j], nodes[k]} :: 0 <= j < k < |nodes| ==>
          nodes[j] != nodes[k] && nodes[j].forest != nodes[k].forest)
  }

  /** Every forest still has the bosses it had after the local contraction. */
  ghost predicate Bossed(nodes: seq<StageNode>, s: Staging, Ps: seq<map<nat, nat>>)
    reads Objects(nodes)
  {
    && Forests(s, Ps) && |nodes| == s.N()
    && forall k {:trigger nodes[k]} :: 0 <= k < |nodes| ==>
         Descending(nodes[k].forest.parent) && SameBosses(Ps[k], nodes[k].forest.parent) &&
               nodes[k].cross == s.crosses[k]
  }

  function UpTo(n: nat): (r: set<nat>)
    ensures forall p: nat {:trigger p in r} :: p in r <==> p < n
  {
    if n == 0 then {} else UpTo(n - 1) + {n - 1}
  }

  datatype Msg = Msg(dest: nat, batch: seq<Edge>)

  // ---- What the nodes know, as values.

  datatype Known = Known(toRoot: seq<seq<Edge>>, tips: seq<set<nat>>)

  ghost function KnownOf(nodes: seq<StageNode>): (k: Known)
    reads nodes
    ensures |k.toRoot| == |nodes| == |k.tips|
    ensures forall p {:trigger k.toRoot[p]} {:trigger k.tips[p]} :: 0 <= p < |nodes| ==>
          k.toRoot[p] == nodes[p].toRoot && k.tips[p] == nodes[p].tips
  {
    Known(seq(|nodes|, p requires 0 <= p < |nodes| reads nodes => nodes[p].toRoot),
          seq(|nodes|, p requires 0 <= p < |nodes| reads nodes => nodes[p].tips))
  }

  /** Cross edge e of process p, contracted on its side, is in a message to its other owner. */
  ghost predicate Flying(s: Staging, Ps: seq<map<nat, nat>>, msgs: seq<Msg>, p: nat, e: Edge)
    requires Forests(s, Ps) && p < s.N()
  {
    exists m {:trigger m in msgs} :: m in msgs && m.dest == Far(p, e) && Half(Ps[p], p, e) in m.batch
  }

  ghost predicate Landed(s: Staging, Ps: seq<map<nat, nat>>, k: Known, p: nat, e: Edge)
    requires Forests(s, Ps) && |k.toRoot| == |k.tips| == s.N()
  {
    Far(p, e) < s.N() && Norm(s, Ps, e) in k.toRoot[Far(p, e)] && FarTip(p, e) in k.tips[Far(p, e)]
  }

  /** x, for process q, is some process's cross edge contracted on the sender's side. */
  ghost predicate Sent(s: Staging, Ps: seq<map<nat, nat>>, q: nat, x: Edge)
    requires Forests(s, Ps)
  {
    exists p, e {:trigger e in s.crosses[p]} ::
          0 <= p < s.N() && e in s.crosses[p] && Far(p, e) == q && Half(Ps[p], p, e) == x
  }

  ghost predicate Contracted(s: Staging, Ps: seq<map<nat, nat>>, x: Edge)
    requires Forests(s, Ps)
  {
    exists p, e {:trigger e in s.crosses[p]} :: 0 <= p < s.N() && e in s.crosses[p] && x == Norm(s, Ps, e)
  }

  /** t is a touched tip of process q. */
  ghost predicate OwnTip(s: Staging, q: nat, t: nat)
    requires s.Ok()
  {
    Owner(t) == q && exists e {:trigger s.Raw(e)} :: s.Raw(e) && (e.0 == t || e.1 == t)
  }

  /** Nothing routed is lost, nothing appears from nowhere, and each process knows the tips of its
      own staged edges from the start. */
  ghost predicate Conserved(s: Staging, Ps: seq<map<nat, nat>>, k: Known, msgs: seq<Msg>, todo: set<nat>)
    requires Forests(s, Ps) && |k.toRoot| == |k.tips| == s.N()
  {
    && (forall p, e {:trigger e in s.crosses[p]} :: 0 <= p < s.N() && p !in todo && e in s.crosses[p] ==>
          Flying(s, Ps, msgs, p, e) || Landed(s, Ps, k, p, e))
    && (forall m, x {:trigger m in msgs, x in m.batch} :: m in msgs && x in m.batch ==> Sent(s, Ps, m.dest, x))
    && (forall m {:trigger m in msgs} :: m in msgs ==> m.dest < s.N())
    && (forall q, x {:trigger x in k.toRoot[q]} :: 0 <= q < s.N() && x in k.toRoot[q] ==> Contracted(s, Ps, x))
    && (forall q, t {:trigger t in k.tips[q]} :: 0 <= q < s.N() && t in k.tips[q] ==> OwnTip(s, q, t))
    && (forall q {:trigger k.tips[q]} :: 0 <= q < s.N() ==>
          Endpoints(s.locals[q]) <= k.tips[q] && OwnedOf(q, s.crosses[q]) <= k.tips[q])
  }

  // ---- Routing.

  function MsgsOf(out: seq<seq<Edge>>, from: nat): seq<Msg>
    requires from <= |out|
    decreases |out| - from
  {
    if from == |out| then [] else
    if out[from] == [] then MsgsOf(out, from + 1) else [Msg(from, out[from])] + MsgsOf(out, from + 1)
  }

  lemma InCons(first: Msg, rest: seq<Msg>, m: Msg)
    ensures m in [first] + rest <==> m == first || m in rest
  {
    if m in rest {
      var i :| 0 <= i < |rest| && rest[i] == m;
      assert ([first] + rest)[i + 1] == m;
    }
  }

  lemma {:induction false} MsgsOfHas(out: seq<seq<Edge>>, from: nat, m: Msg)
    requires from <= |out|
    ensures m in MsgsOf(out, from) <==> from <= m.dest < |out| && out[m.dest] != [] && m.batch == out[m.dest]
    decreases |out| - from
  {
    if from < |out| {
      MsgsOfHas(out, from + 1, m);
      if out[from] != [] { InCons(Msg(from, out[from]), MsgsOf(out, from + 1), m); }
    }
  }

  lemma RoutedConserved(s: Staging, Ps: seq<map<nat, nat>>, k: Known, msgs: seq<Msg>, todo: set<nat>, p: nat,
                        out: seq<seq<Edge>>)
    requires Forests(s, Ps) && |k.toRoot| == |k.tips| == s.N() && p < s.N()
    requires Conserved(s, Ps, k, msgs, todo)
    requires |out| == s.N() && Halves(Ps[p], p, s.crosses[p], out)
    ensures Conserved(s, Ps, k, msgs + MsgsOf(out, 0), todo - {p})
  {
    var more := msgs + MsgsOf(out, 0);
    forall r, e | 0 <= r < s.N() && r !in todo - {p} && e in s.crosses[r]
      ensures Flying(s, Ps, more, r, e) || Landed(s, Ps, k, r, e)
    {
      if r == p {
        var m := Msg(Far(p, e), out[Far(p, e)]);
        MsgsOfHas(out, 0, m);
        assert m in more;
      } else if Flying(s, Ps, msgs, r, e) {
        var m :| m in msgs && m.dest == Far(r, e) && Half(Ps[r], r, e) in m.batch;
        assert m in more;
      }
    }
    forall m | m in more
      ensures m.dest < s.N()
    {
      if m !in msgs { MsgsOfHas(out, 0, m); }
    }
    forall m, x | m in more && x in m.batch
      ensures Sent(s, Ps, m.dest, x)
    {
      if m !in msgs {
        MsgsOfHas(out, 0, m);
        assert x in out[m.dest];
        var e :| e in s.crosses[p] && Far(p, e) == m.dest && Half(Ps[p], p, e) == x;
      }
    }
  }

  lemma HalvesSame(P: map<nat, nat>, Q: map<nat, nat>, me: nat, cross: seq<Edge>, out: seq<seq<Edge>>)
    requires Descending(P) && Descending(Q) && SameBosses(P, Q) && Halves(Q, me, cross, out)
    ensures Halves(P, me, cross, out)
  {
    forall e: Edge
      ensures Half(P, me, e) == Half(Q, me, e)
    {
      assert Boss(P, e.0) == Boss(Q, e.0) && Boss(P, e.1) == Boss(Q, e.1);
    }
  }

  method RouteNode(nodes: seq<StageNode>, ghost s: Staging, ghost Ps: seq<map<nat, nat>>, ghost k: Known,
                   msgs: seq<Msg>, ghost todo: set<nat>, p: nat)
    returns (more: seq<Msg>)
    requires Net(nodes) && Bossed(nodes, s, Ps) && p < |nodes| && KnownOf(nodes) == k && Conserved(s, Ps, k, msgs, todo)
    modifies ForestsOf(nodes)
    ensures Net(nodes) && Bossed(nodes, s, Ps) && KnownOf(nodes) == k && Conserved(s, Ps, k, more, todo - {p})
  {
    ghost var now := nodes[p].forest.parent;
    var out := nodes[p].RouteCross(|nodes|);
    forall j | 0 <= j < |nodes| && j != p
      ensures nodes[j].forest != nodes[p].forest
    {
    }
    HalvesSame(Ps[p], now, p, s.crosses[p], out);
    assert SameBosses(Ps[p], nodes[p].forest.parent) by {
      forall t: nat ensures Boss(Ps[p], t) == Boss(nodes[p].forest.parent, t) { assert Boss(now, t) == Boss(Ps[p], t); }
    }
    RoutedConserved(s, Ps, k, msgs, todo, p, out);
    more := msgs + MsgsOf(out, 0);
  }

  // ---- Delivery.

  ghost predicate Received(P: map<nat, nat>, q: nat, k: Known, after: Known, batch: seq<Edge>)
    requires Descending(P) && |k.toRoot| == |k.tips| == |after.toRoot| == |after.tips| && q < |k.tips|
  {
    && (forall r {:trigger after.toRoot[r]} {:trigger after.tips[r]} :: 0 <= r < |k.tips| && r != q ==>
          after.toRoot[r] == k.toRoot[r] && after.tips[r] == k.tips[r])
    && after.tips[q] == k.tips[q] + OwnedOf(q, batch)
    && forall x {:trigger x in after.toRoot[q]} :: x in after.toRoot[q] <==>
          x in k.toRoot[q] || x in FullSet(P, q, batch)
  }

  lemma SentFacts(s: Staging, Ps: seq<map<nat, nat>>, q: nat, x: Edge)
    requires Forests(s, Ps) && q < s.N() && Sent(s, Ps, q, x)
    ensures Contracted(s, Ps, Full(Ps[q], q, x))
    ensures forall t {:trigger t in OwnedOf(q, [x])} :: t in OwnedOf(q, [x]) ==> OwnTip(s, q, t)
  {
    var p, e :| 0 <= p < s.N() && e in s.crosses[p] && Far(p, e) == q && Half(Ps[p], p, e) == x;
    BothHalves(s, Ps, p, e);
    assert s.Raw(e);
  }

  lemma OwnedOne(q: nat, batch: seq<Edge>, t: nat) returns (x: Edge)
    requires t in OwnedOf(q, batch)
    ensures x in batch && t in OwnedOf(q, [x])
  {
    if t in set e | e in batch && Owner(e.0) == q :: e.0 {
      x :| x in batch && Owner(x.0) == q && x.0 == t;
    } else {
      x :| x in batch && Owner(x.1) == q && x.1 == t;
    }
    assert x in [x];
  }

  lemma OwnedMember(q: nat, batch: seq<Edge>, x: Edge)
    requires x in batch
    ensures OwnedOf(q, [x]) <= OwnedOf(q, batch)
  {
  }

  lemma DeliveredConserved(s: Staging, Ps: seq<map<nat, nat>>, k: Known, after: Known, msgs: seq<Msg>, todo: set<nat>,
                           i: nat)
    requires Forests(s, Ps) && |k.toRoot| == |k.tips| == |after.toRoot| == |after.tips| == s.N()
    requires Conserved(s, Ps, k, msgs, todo) && i < |msgs| && msgs[i].dest < s.N()
    requires Received(Ps[msgs[i].dest], msgs[i].dest, k, after, msgs[i].batch)
    ensures Conserved(s, Ps, after, msgs[..i] + msgs[i + 1..], todo)
  {
    var q, batch := msgs[i].dest, msgs[i].batch;
    var rest := msgs[..i] + msgs[i + 1..];
    assert msgs[i] in msgs;
    assert forall m :: m in rest ==> m in msgs;
    forall p, e | 0 <= p < s.N() && p !in todo && e in s.crosses[p]
      ensures Flying(s, Ps, rest, p, e) || Landed(s, Ps, after, p, e)
    {
      if !Landed(s, Ps, k, p, e) {
        var m :| m in msgs && m.dest == Far(p, e) && Half(Ps[p], p, e) in m.batch;
        if m == msgs[i] {
          BothHalves(s, Ps, p, e);
          OwnedMember(q, batch, Half(Ps[p], p, e));
          assert Norm(s, Ps, e) in FullSet(Ps[q], q, batch);
        } else {
          assert m in rest;
        }
      }
    }
    forall r, x | 0 <= r < s.N() && x in after.toRoot[r]
      ensures Contracted(s, Ps, x)
    {
      if x !in k.toRoot[r] {
        var y :| y in batch && Full(Ps[q], q, y) == x;
        SentFacts(s, Ps, q, y);
      }
    }
    forall r, t | 0 <= r < s.N() && t in after.tips[r]
      ensures OwnTip(s, r, t)
    {
      if t !in k.tips[r] {
        var y := OwnedOne(q, batch, t);
        SentFacts(s, Ps, q, y);
      }
    }
  }

  lemma FullSame(P: map<nat, nat>, Q: map<nat, nat>, q: nat, batch: seq<Edge>)
    requires Descending(P) && Descending(Q) && SameBosses(P, Q)
    ensures FullSet(P, q, batch) == FullSet(Q, q, batch)
  {
    forall e: Edge
      ensures Full(P, q, e) == Full(Q, q, e)
    {
      assert Boss(P, e.0) == Boss(Q, e.0) && Boss(P, e.1) == Boss(Q, e.1);
    }
  }

  method DeliverOne(nodes: seq<StageNode>, ghost s: Staging, ghost Ps: seq<map<nat, nat>>, msgs: seq<Msg>,
                    ghost todo: set<nat>, i: nat)
    requires Net(nodes) && Bossed(nodes, s, Ps) && Conserved(s, Ps, KnownOf(nodes), msgs, todo) && i < |msgs|
    requires msgs[i].dest < |nodes|
    modifies Objects(nodes)
    ensures Net(nodes) && Bossed(nodes, s, Ps) && Conserved(s, Ps, KnownOf(nodes), msgs[..i] + msgs[i + 1..], todo)
  {
    ghost var k := KnownOf(nodes);
    var q := msgs[i].dest;
    ghost var now := nodes[q].forest.parent;
    nodes[q].ContractRemote(msgs[i].batch);
    forall j | 0 <= j < |nodes| && j != q
      ensures nodes[j] != nodes[q] && nodes[j].forest != nodes[q].forest
    {
    }
    assert SameBosses(Ps[q], nodes[q].forest.parent) by {
      forall t: nat ensures Boss(Ps[q], t) == Boss(nodes[q].forest.parent, t) { assert Boss(now, t) == Boss(Ps[q], t); }
    }
    FullSame(Ps[q], now, q, msgs[i].batch);
    ghost var after := KnownOf(nodes);
    assert after.toRoot[q] == nodes[q].toRoot && after.tips[q] == nodes[q].tips && k.toRoot[q] == old(nodes[q].toRoot);
    DeliveredConserved(s, Ps, k, after, msgs, todo, i);
  }

  // ---- The whole run.

  method Hire(s: Staging) returns (nodes: seq<StageNode>)
    requires s.Ok()
    ensures fresh(Objects(nodes)) && Net(nodes) && |nodes| == s.N()
    ensures forall k {:trigger nodes[k]} :: 0 <= k < |nodes| ==>
              nodes[k].local == s.locals[k] && nodes[k].cross == s.crosses[k] && nodes[k].forest.parent == map[] &&
                    nodes[k].tips == {} && nodes[k].toRoot == []
  {
    nodes := [];
    for k := 0 to s.N()
      invariant |nodes| == k && fresh(Objects(nodes)) && Net(nodes)
      invariant forall j {:trigger nodes[j]} :: 0 <= j < k ==>
                  nodes[j].local == s.locals[j] && nodes[j].cross == s.crosses[j] && nodes[j].forest.parent == map[] &&
                        nodes[j].tips == {} && nodes[j].toRoot == []
    {
      var node := new StageNode(k, s.locals[k], s.crosses[k]);
      assert forall j {:trigger nodes[j]} :: 0 <= j < k ==>
            nodes[j] in Objects(nodes) && nodes[j].forest in Objects(nodes);
      nodes := nodes + [node];
    }
  }

  ghost predicate LocallyDone(nodes: seq<StageNode>, s: Staging, Ps: seq<map<nat, nat>>, n: nat)
    requires s.Ok() && n <= |nodes| == s.N() && |Ps| == n
    reads Objects(nodes)
  {
    && (forall k {:trigger nodes[k]} :: 0 <= k < |nodes| ==>
          nodes[k].local == s.locals[k] && nodes[k].cross == s.crosses[k] && nodes[k].toRoot == [])
    && (forall k {:trigger nodes[k]} :: n <= k < |nodes| ==> nodes[k].forest.parent == map[] && nodes[k].tips == {})
    && (forall k {:trigger nodes[k]} {:trigger Ps[k]} :: 0 <= k < n ==>
          nodes[k].forest.parent == Ps[k] && Solves(Ps[k], EdgeSet(s.locals[k])) &&
                nodes[k].tips == Endpoints(s.locals[k]) + OwnedOf(k, s.crosses[k]))
  }

  method ContractNode(nodes: seq<StageNode>, ghost s: Staging, ghost Ps: seq<map<nat, nat>>, n: nat)
    returns (ghost more: seq<map<nat, nat>>)
    requires s.Ok() && n < |nodes| == s.N() && |Ps| == n && Net(nodes) && LocallyDone(nodes, s, Ps, n)
    modifies Objects(nodes)
    ensures |more| == n + 1 && Net(nodes) && LocallyDone(nodes, s, more, n + 1)
  {
    forall j | 0 <= j < |nodes| && j != n
      ensures nodes[j] != nodes[n] && nodes[j].forest != nodes[n].forest
    {
    }
    nodes[n].ContractLocal();
    more := Ps + [nodes[n].forest.parent];
  }

  lemma StartConserved(s: Staging, Ps: seq<map<nat, nat>>, k: Known)
    requires Forests(s, Ps) && |k.toRoot| == |k.tips| == s.N()
    requires forall p {:trigger k.toRoot[p]} {:trigger k.tips[p]} :: 0 <= p < s.N() ==>
               k.toRoot[p] == [] && k.tips[p] == Endpoints(s.locals[p]) + OwnedOf(p, s.crosses[p])
    ensures Conserved(s, Ps, k, [], UpTo(s.N()))
  {
    forall q, t | 0 <= q < s.N() && t in k.tips[q]
      ensures OwnTip(s, q, t)
    {
      if t in Endpoints(s.locals[q]) {
        var e :| e in s.locals[q] && (e.0 == t || e.1 == t);
        assert s.Raw(e);
      } else {
        var x := OwnedOne(q, s.crosses[q], t);
        assert s.Raw(x);
      }
    }
  }

  /** Routing and delivery in the order `pick` dictates: step by step either some process not yet
      routed routes, or some message in flight arrives. */
  method Interleave(nodes: seq<StageNode>, ghost s: Staging, ghost Ps: seq<map<nat, nat>>, pick: nat -> nat)
    requires Net(nodes) && Bossed(nodes, s, Ps) && Conserved(s, Ps, KnownOf(nodes), [], UpTo(s.N()))
    modifies Objects(nodes)
    ensures Net(nodes) && Bossed(nodes, s, Ps) && Conserved(s, Ps, KnownOf(nodes), [], {})
  {
    var todo := UpTo(|nodes|);
    var msgs := [];
    var step := 0;
    while todo != {} || msgs != []
      invariant Net(nodes) && Bossed(nodes, s, Ps) && Conserved(s, Ps, KnownOf(nodes), msgs, todo)
      invariant todo <= UpTo(|nodes|)
      decreases |todo|, |msgs|
    {
      if todo != {} && (msgs == [] || pick(step) % 2 == 0) {
        var p :| p in todo;
        msgs := RouteNode(nodes, s, Ps, KnownOf(nodes), msgs, todo, p);
        todo := todo - {p};
      } else {
        var i := pick(step) % |msgs|;
        assert msgs[i].dest < |nodes| by { InFlightOk(s, Ps, KnownOf(nodes), msgs, todo, i); }
        DeliverOne(nodes, s, Ps, msgs, todo, i);
        msgs := msgs[..i] + msgs[i + 1..];
      }
      step := step + 1;
    }
  }

  lemma InFlightOk(s: Staging, Ps: seq<map<nat, nat>>, k: Known, msgs: seq<Msg>, todo: set<nat>, i: nat)
    requires Forests(s, Ps) && |k.toRoot| == |k.tips| == s.N() && i < |msgs| && Conserved(s, Ps, k, msgs, todo)
    ensures msgs[i].dest < s.N()
  {
    assert msgs[i] in msgs;
  }

  /** forwardContracted: the concat reduction. */
  method Forward(nodes: seq<StageNode>) returns (gathered: seq<Edge>)
    ensures forall x {:trigger x in gathered} :: x in gathered <==> exists q {:trigger nodes[q]} ::
          0 <= q < |nodes| && x in nodes[q].toRoot
  {
    gathered := [];
    for k := 0 to |nodes|
      invariant forall x {:trigger x in gathered} :: x in gathered <==> exists q {:trigger nodes[q]} ::
            0 <= q < k && x in nodes[q].toRoot
    {
      gathered := gathered + nodes[k].toRoot;
    }
  }

  /** Once nothing is left to route or deliver, the gathered edges are the contracted cross edges and
      every process knows exactly its touched tips. */
  lemma Settled(s: Staging, Ps: seq<map<nat, nat>>, k: Known, gathered: seq<Edge>)
    requires Forests(s, Ps) && |k.toRoot| == |k.tips| == s.N() && Conserved(s, Ps, k, [], {})
    requires forall x {:trigger x in gathered} :: x in gathered <==> exists q {:trigger k.toRoot[q]} ::
          0 <= q < s.N() && x in k.toRoot[q]
    ensures Gathered(s, Ps, gathered)
    ensures forall q, t: nat {:trigger t in k.tips[q]} :: 0 <= q < s.N() ==> (t in k.tips[q] <==> OwnTip(s, q, t))
  {
    forall p, e | 0 <= p < s.N() && e in s.crosses[p]
      ensures Norm(s, Ps, e) in gathered
    {
      assert Landed(s, Ps, k, p, e);
      assert Norm(s, Ps, e) in k.toRoot[Far(p, e)];
    }
    forall x | x in gathered
      ensures exists p, e :: 0 <= p < s.N() && e in s.crosses[p] && x == Norm(s, Ps, e)
    {
      var q :| 0 <= q < s.N() && x in k.toRoot[q];
      assert Contracted(s, Ps, x);
    }
    forall q, t: nat | 0 <= q < s.N() && OwnTip(s, q, t)
      ensures t in k.tips[q]
    {
      var e :| s.Raw(e) && (e.0 == t || e.1 == t);
      var p :| 0 <= p < s.N() && (e in s.locals[p] || e in s.crosses[p]);
      if e in s.locals[p] {
        assert t in Endpoints(s.locals[p]);
      } else if p == q {
        assert t in OwnedOf(q, s.crosses[q]);
      } else {
        assert Landed(s, Ps, k, p, e);
      }
    }
  }

  /** What the staged gather delivers: each process labels exactly its touched tips, each by the least
      tip of its component in the raw edge graph. */
  ghost predicate Delivered(s: Staging, raw: seq<Edge>, labels: seq<map<nat, int>>)
    requires s.Ok()
  {
    && |labels| == s.N()
    && (forall q, t: nat {:trigger t in labels[q]} :: 0 <= q < s.N() ==> (t in labels[q] <==> OwnTip(s, q, t)))
    && (forall q, t {:trigger labels[q][t]} :: 0 <= q < s.N() && t in labels[q] ==>
          labels[q][t] <= -2 && IsComponentMin(EdgeSet(raw), t, -labels[q][t] - 2))
  }

  lemma EndpointEdge(es: seq<Edge>, k: nat) returns (x: Edge)
    requires k in Endpoints(es)
    ensures x in es && (x.0 == k || x.1 == k)
  {
    x :| x in es && (x.0 == k || x.1 == k);
  }

  lemma KeysOwned(s: Staging, Ps: seq<map<nat, nat>>, gathered: seq<Edge>, k: nat)
    requires Forests(s, Ps) && Gathered(s, Ps, gathered) && k in Endpoints(gathered)
    ensures Owner(k) < s.N()
  {
    var x := EndpointEdge(gathered, k);
    var p, e :| 0 <= p < s.N() && e in s.crosses[p] && x == Norm(s, Ps, e);
    RootAtHome(s, Ps, e.0);
    RootAtHome(s, Ps, e.1);
  }

  method ExpandAll(nodes: seq<StageNode>, ghost s: Staging, ghost Ps: seq<map<nat, nat>>, ghost raw: seq<Edge>,
                   ghost gathered: seq<Edge>, ghost rootMap: map<nat, int>, slices: seq<map<nat, int>>)
    returns (labels: seq<map<nat, int>>)
    requires Net(nodes) && Bossed(nodes, s, Ps) && s.RawIs(raw) && Gathered(s, Ps, gathered)
    requires FinalLabels(gathered, rootMap)
    requires |slices| == s.N() && forall p {:trigger slices[p]} :: 0 <= p < s.N() ==> slices[p] == SliceOf(rootMap, p)
    requires forall q, t: nat {:trigger t in nodes[q].tips} :: 0 <= q < s.N() ==>
          (t in nodes[q].tips <==> OwnTip(s, q, t))
    modifies ForestsOf(nodes)
    ensures Delivered(s, raw, labels)
  {
    labels := [];
    for p := 0 to |nodes|
      invariant |labels| == p && Net(nodes) && Bossed(nodes, s, Ps)
      invariant forall q, t: nat {:trigger t in nodes[q].tips} :: 0 <= q < s.N() ==>
            (t in nodes[q].tips <==> OwnTip(s, q, t))
      invariant forall q, t: nat {:trigger t in labels[q]} :: 0 <= q < p ==> (t in labels[q] <==> OwnTip(s, q, t))
      invariant forall q, t {:trigger labels[q][t]} :: 0 <= q < p && t in labels[q] ==>
            labels[q][t] <= -2 && IsComponentMin(EdgeSet(raw), t, -labels[q][t] - 2)
    {
      var own := ExpandOne(nodes, s, Ps, raw, gathered, rootMap, slices[p], p);
      labels := labels + [own];
    }
  }

  method ExpandOne(nodes: seq<StageNode>, ghost s: Staging, ghost Ps: seq<map<nat, nat>>, ghost raw: seq<Edge>,
                   ghost gathered: seq<Edge>, ghost rootMap: map<nat, int>, slice: map<nat, int>, p: nat)
    returns (own: map<nat, int>)
    requires Net(nodes) && Bossed(nodes, s, Ps) && s.RawIs(raw) && Gathered(s, Ps, gathered)
    requires FinalLabels(gathered, rootMap)
    requires p < |nodes| && slice == SliceOf(rootMap, p)
    requires forall q, t: nat {:trigger t in nodes[q].tips} :: 0 <= q < s.N() ==>
          (t in nodes[q].tips <==> OwnTip(s, q, t))
    modifies ForestsOf(nodes)
    ensures Net(nodes) && Bossed(nodes, s, Ps)
    ensures forall q {:trigger nodes[q]} :: 0 <= q < |nodes| ==> nodes[q].tips == old(nodes[q].tips)
    ensures own.Keys == nodes[p].tips
    ensures forall t {:trigger own[t]} :: t in own ==> own[t] <= -2 && IsComponentMin(EdgeSet(raw), t, -own[t] - 2)
  {
    ghost var now := nodes[p].forest.parent;
    own := nodes[p].Expand(slice);
    forall j | 0 <= j < |nodes| && j != p
      ensures nodes[j].forest != nodes[p].forest
    {
    }
    assert SameBosses(Ps[p], nodes[p].forest.parent) by {
      forall t: nat ensures Boss(Ps[p], t) == Boss(nodes[p].forest.parent, t) { assert Boss(now, t) == Boss(Ps[p], t); }
    }
    forall t | t in own
      ensures own[t] <= -2 && IsComponentMin(EdgeSet(raw), t, -own[t] - 2)
    {
      assert t in nodes[p].tips && OwnTip(s, p, t);
      assert Boss(now, t) == Boss(Ps[p], t) == LocalRoot(s, Ps, t);
      ExpandedLabel(s, Ps, raw, gathered, rootMap, slice, t);
    }
  }

  /** Hire the nodes and contract every process's own edges; the barrier after it keeps any batch from
      meeting an unfinished forest. */
  method Prepare(s: Staging) returns (nodes: seq<StageNode>, ghost Ps: seq<map<nat, nat>>)
    requires s.Ok()
    ensures fresh(Objects(nodes)) && Net(nodes) && Bossed(nodes, s, Ps)
    ensures Conserved(s, Ps, KnownOf(nodes), [], UpTo(s.N()))
  {
    nodes := Hire(s);
    Ps := [];
    for n := 0 to |nodes|
      invariant |nodes| == s.N() && |Ps| == n && fresh(Objects(nodes)) && Net(nodes) && LocallyDone(nodes, s, Ps, n)
    {
      Ps := ContractNode(nodes, s, Ps, n);
    }
    assert Forests(s, Ps);
    StartConserved(s, Ps, KnownOf(nodes));
  }

  /** Process 0 gathers every process's forwarded edges. */
  method Gather(nodes: seq<StageNode>, ghost s: Staging, ghost Ps: seq<map<nat, nat>>) returns (gathered: seq<Edge>)
    requires Forests(s, Ps) && |nodes| == s.N() && Conserved(s, Ps, KnownOf(nodes), [], {})
    ensures Gathered(s, Ps, gathered)
    ensures forall q, t: nat {:trigger t in nodes[q].tips} :: 0 <= q < s.N() ==>
          (t in nodes[q].tips <==> OwnTip(s, q, t))
  {
    gathered := Forward(nodes);
    ghost var k := KnownOf(nodes);
    ForwardKnown(nodes, k, gathered);
    Settled(s, Ps, k, gathered);
    forall q, t: nat | 0 <= q < s.N()
      ensures t in nodes[q].tips <==> OwnTip(s, q, t)
    {
      assert nodes[q].tips == k.tips[q];
    }
  }

  /** Gather, finish on process 0, send every process its slice, expand. */
  method Finish(nodes: seq<StageNode>, ghost s: Staging, ghost Ps: seq<map<nat, nat>>, ghost raw: seq<Edge>)
    returns (labels: seq<map<nat, int>>)
    requires Net(nodes) && Bossed(nodes, s, Ps) && s.RawIs(raw) && Conserved(s, Ps, KnownOf(nodes), [], {})
    modifies ForestsOf(nodes)
    ensures Delivered(s, raw, labels)
  {
    var gathered := Gather(nodes, s, Ps);
    var rootMap := FlatLabels(gathered);
    forall r | r in rootMap ensures Owner(r) < s.N() { KeysOwned(s, Ps, gathered, r); }
    var slices := Slices(rootMap, |nodes|);
    labels := ExpandAll(nodes, s, Ps, raw, gathered, rootMap, slices);
  }

  /** The staged gather, whatever order its messages take. */
  method StagedLabels(s: Staging, ghost raw: seq<Edge>, pick: nat -> nat) returns (labels: seq<map<nat, int>>)
    requires s.Ok() && s.RawIs(raw)
    ensures Delivered(s, raw, labels)
  {
    var nodes; ghost var Ps;
    nodes, Ps := Prepare(s);
    Interleave(nodes, s, Ps, pick);
    labels := Finish(nodes, s, Ps, raw);
  }

  lemma ForwardKnown(nodes: seq<StageNode>, k: Known, gathered: seq<Edge>)
    requires k == KnownOf(nodes)
    requires forall x {:trigger x in gathered} :: x in gathered <==> exists q {:trigger nodes[q]} ::
          0 <= q < |nodes| && x in nodes[q].toRoot
    ensures forall x {:trigger x in gathered} :: x in gathered <==> exists q {:trigger k.toRoot[q]} ::
          0 <= q < |nodes| && x in k.toRoot[q]
  {
    forall x
      ensures x in gathered <==> exists q {:trigger k.toRoot[q]} :: 0 <= q < |nodes| && x in k.toRoot[q]
    {
      if x in gathered {
        var q :| 0 <= q < |nodes| && x in nodes[q].toRoot;
        assert x in k.toRoot[q];
      }
      if exists q {:trigger k.toRoot[q]} :: 0 <= q < |nodes| && x in k.toRoot[q] {
        var q :| 0 <= q < |nodes| && x in k.toRoot[q];
        assert x in nodes[q].toRoot;
      }
    }
  }

  /** Staged equals flat, tip for tip: each process holds exactly its slice of the flat label map. */
  lemma StagedIsFlat(s: Staging, raw: seq<Edge>, labels: seq<map<nat, int>>, flat: map<nat, int>, p: nat)
    requires s.Ok() && s.RawIs(raw) && Delivered(s, raw, labels) && FinalLabels(raw, flat) && p < s.N()
    ensures labels[p] == SliceOf(flat, p)
  {
    forall t: nat
      ensures t in labels[p] <==> t in flat && Owner(t) == p
    {
      if OwnTip(s, p, t) {
        var e :| s.Raw(e) && (e.0 == t || e.1 == t);
        assert e in raw;
      }
      if t in flat && Owner(t) == p {
        var e :| e in raw && (e.0 == t || e.1 == t);
        assert s.Raw(e);
      }
    }
    forall t | t in labels[p]
      ensures labels[p][t] == flat[t]
    {
      ConnRefl(EdgeSet(raw), t);
      ComponentMinUnique(EdgeSet(raw), t, t, -labels[p][t] - 2, -flat[t] - 2);
    }
  }
}
