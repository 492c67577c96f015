/** The whole pipeline: process tips, owner encoding, the cross-process edges, the finisher and the
    relabel leave every particle with a label that decodes to the least order of its group. */
module EndToEnd {
  import opened Geometry
  import opened Graph
  import opened Forest
  import opened Linking
  import opened PhaseBRun
  import opened Labels
  import opened Phase3
  import opened Staged
  import opened StagedRun
  import R = Representatives
  import Sorting

  /** One process after phase 1. */
  datatype Process = Process(parts: seq<Particle>, tips: seq<nat>)

  datatype World = World(procs: seq<Process>, rule: Rule) {
    function Parts(): seq<Particle> {
      AllParts(procs)
    }

    ghost function Links(): Edges {
      LinkGraph(Parts(), rule)
    }

    /** Phase 1 was exact in every process, and process numbers and orders fit the encoding. */
    ghost predicate Ok() {
      && |procs| <= PROC_SPAN && DistinctOrders(Parts())
      && (forall p {:trigger procs[p]} :: 0 <= p < |procs| ==> ExactTips(procs[p].parts, rule, procs[p].tips))
      && (forall p, i {:trigger procs[p].parts[i]} :: 0 <= p < |procs| && 0 <= i < |procs[p].parts| ==>
            procs[p].parts[i].order < IDX_SPAN)
    }

    predicate At(p: nat, i: nat) {
      p < |procs| && i < |procs[p].parts| && i < |procs[p].tips|
    }

    function Order(p: nat, i: nat): nat
      requires At(p, i)
    {
      procs[p].parts[i].order
    }

    /** The encoded tip particle i of process p carries into phase 3. */
    function Enc(p: nat, i: nat): nat
      requires At(p, i)
    {
      EncodeTip(p, procs[p].tips[i])
    }

    /** What the cross-process walk must hand over: edges between different tips of connected particles,
        joining the tips of every linked pair on two processes. */
    ghost predicate Bridged(edges: seq<Edge>)
    {
      && (forall e {:trigger e in edges} :: e in edges ==> e.0 != e.1)
      && (forall e {:trigger e in edges} :: e in edges ==> exists p: nat, i: nat, q: nat, j: nat ::
            At(p, i) && At(q, j) && e == (Enc(p, i), Enc(q, j)) && Conn(Links(), Order(p, i), Order(q, j)))
      && (forall p: nat, i: nat, q: nat, j: nat {:trigger Enc(p, i), Enc(q, j)} ::
            At(p, i) && At(q, j) && p != q && Linked(procs[p].parts[i], procs[q].parts[j], rule) ==>
            Conn(EdgeSet(edges), Enc(p, i), Enc(q, j)))
    }
  }

  function AllParts(procs: seq<Process>): seq<Particle> {
    if procs == [] then [] else procs[0].parts + AllParts(procs[1..])
  }

  lemma {:induction false} PartOf(procs: seq<Process>, p: nat, i: nat) returns (k: nat)
    requires p < |procs| && i < |procs[p].parts|
    ensures k < |AllParts(procs)| && AllParts(procs)[k] == procs[p].parts[i]
    ensures forall q: nat, j: nat, l: nat {:trigger PlacedAt(procs, q, j, l)} :: PlacedAt(procs, q, j, l) && l == k ==>
          q == p && j == i
    ensures PlacedAt(procs, p, i, k)
  {
    if p == 0 {
      k := i;
    } else {
      k := PartOf(procs[1..], p - 1, i);
      k := k + |procs[0].parts|;
    }
    forall q: nat, j: nat, l: nat | PlacedAt(procs, q, j, l) && l == k
      ensures q == p && j == i
    {
      if q > 0 && p > 0 { assert PlacedAt(procs[1..], q - 1, j, l - |procs[0].parts|); }
    }
  }

  /** Particle j of process q sits at index l of the whole. */
  predicate PlacedAt(procs: seq<Process>, q: nat, j: nat, l: nat) {
    q < |procs| && j < |procs[q].parts| &&
          (if q == 0 then l == j else l >= |procs[0].parts| && PlacedAt(procs[1..], q - 1, j, l - |procs[0].parts|))
  }

  lemma {:induction false} WherePlaced(procs: seq<Process>, k: nat) returns (p: nat, i: nat)
    requires k < |AllParts(procs)|
    ensures p < |procs| && i < |procs[p].parts| && procs[p].parts[i] == AllParts(procs)[k]
  {
    if k < |procs[0].parts| {
      p, i := 0, k;
    } else {
      p, i := WherePlaced(procs[1..], k - |procs[0].parts|);
      p := p + 1;
    }
  }

  /** An order belongs to one process and one particle. */
  lemma OrderPlace(w: World, p: nat, i: nat, q: nat, j: nat)
    requires w.Ok() && w.At(p, i) && w.At(q, j) && w.Order(p, i) == w.Order(q, j)
    ensures p == q && i == j
  {
    var k := PartOf(w.procs, p, i);
    var l := PartOf(w.procs, q, j);
    assert k == l;
  }

  // ---- The encoding as a renaming of vertices.

  ghost predicate OrderAt(w: World, p: nat, v: int) {
    p < |w.procs| && exists i {:trigger w.procs[p].parts[i]} ::
          0 <= i < |w.procs[p].parts| && w.procs[p].parts[i].order == v
  }

  ghost predicate SomeOrder(w: World, v: int) {
    exists q: nat {:trigger OrderAt(w, q, v)} :: OrderAt(w, q, v)
  }

  ghost function OwnerOfOrder(w: World, v: int): (p: nat)
    requires w.Ok()
    ensures p < PROC_SPAN
    ensures (exists q: nat {:trigger OrderAt(w, q, v)} :: OrderAt(w, q, v)) ==> OrderAt(w, p, v)
  {
    if exists q: nat {:trigger OrderAt(w, q, v)} :: OrderAt(w, q, v) then
      var q: nat :| OrderAt(w, q, v); q
    else 0
  }

  ghost function Encoding(w: World): int -> int
    requires w.Ok()
  {
    (v: int) => v * PROC_SPAN + OwnerOfOrder(w, v)
  }

  lemma EncodingRises(w: World)
    requires w.Ok()
    ensures Rising(Encoding(w))
  {
    var f := Encoding(w);
    forall x, y | x < y
      ensures f(x) < f(y)
    {
      assert x * PROC_SPAN + PROC_SPAN <= y * PROC_SPAN;
    }
  }

  lemma EncodingAt(w: World, p: nat, v: int)
    requires w.Ok() && OrderAt(w, p, v)
    ensures Encoding(w)(v) == EncodeTip(p, v) && Tip(EncodeTip(p, v)) == v && Owner(EncodeTip(p, v)) == p
  {
    var q := OwnerOfOrder(w, v);
    assert OrderAt(w, q, v);
    var i :| 0 <= i < |w.procs[p].parts| && w.procs[p].parts[i].order == v;
    var j :| 0 <= j < |w.procs[q].parts| && w.procs[q].parts[j].order == v;
    assert ExactTips(w.procs[p].parts, w.rule, w.procs[p].tips) && ExactTips(w.procs[q].parts, w.rule, w.procs[q].tips);
    OrderPlace(w, p, i, q, j);
    EncodeRoundTrip(p, v);
  }

  /** A process tip is itself the order of a particle of the process. */
  lemma TipIsOrder(w: World, p: nat, i: nat)
    requires w.Ok() && w.At(p, i)
    ensures OrderAt(w, p, w.procs[p].tips[i]) && Encoding(w)(w.procs[p].tips[i]) == w.Enc(p, i)
    ensures OrderAt(w, p, w.Order(p, i)) && w.procs[p].tips[i] <= w.Order(p, i)
    ensures Conn(w.Links(), w.Order(p, i), w.procs[p].tips[i])
  {
    var parts, tip := w.procs[p].parts, w.procs[p].tips[i];
    var E := LinkGraph(parts, w.rule);
    assert ExactTips(parts, w.rule, w.procs[p].tips);
    assert IsComponentMin(E, parts[i].order, tip);
    var S := iset v: int | OrderAt(w, p, v);
    forall u, v | (u, v) in E
      ensures u in S <==> v in S
    {
    }
    assert parts[i].order as int in S;
    ConnClosed(E, S, parts[i].order, tip);
    EncodingAt(w, p, tip);
    ConnRefl(E, parts[i].order);
    ProcessLinks(w, p);
    ConnMono(E, w.Links(), parts[i].order, tip);
  }

  lemma ProcessLinks(w: World, p: nat)
    requires w.Ok() && p < |w.procs|
    ensures LinkGraph(w.procs[p].parts, w.rule) <= w.Links()
  {
    forall x | x in w.procs[p].parts
      ensures x in w.Parts()
    {
      var i :| 0 <= i < |w.procs[p].parts| && w.procs[p].parts[i] == x;
      var k := PartOf(w.procs, p, i);
    }
    LinkGraphGrows(w.procs[p].parts, w.Parts(), w.rule);
  }

  // ---- The edges contract the encoded linking graph.

  /** The vertex of particle (p, i), and the encoded tip it carries. */
  ghost function EncTip(w: World): int -> int
    requires w.Ok()
  {
    (v: int) => if exists p: nat, i: nat :: w.At(p, i) && v == Encoding(w)(w.Order(p, i)) then
                  (var p: nat, i: nat :| w.At(p, i) && v == Encoding(w)(w.Order(p, i)); w.Enc(p, i))
                else v
  }

  lemma EncTipAt(w: World, p: nat, i: nat)
    requires w.Ok() && w.At(p, i)
    ensures EncTip(w)(Encoding(w)(w.Order(p, i))) == w.Enc(p, i)
  {
    var v := Encoding(w)(w.Order(p, i));
    var q: nat, j: nat :| w.At(q, j) && v == Encoding(w)(w.Order(q, j)) && EncTip(w)(v) == w.Enc(q, j);
    EncodingRises(w);
    assert !(w.Order(p, i) < w.Order(q, j)) && !(w.Order(q, j) < w.Order(p, i));
    OrderPlace(w, p, i, q, j);
  }

  lemma VertexToTip(w: World, p: nat, i: nat)
    requires w.Ok() && w.At(p, i)
    ensures Conn(Image(w.Links(), Encoding(w)), Encoding(w)(w.Order(p, i)), w.Enc(p, i))
    ensures w.Enc(p, i) <= Encoding(w)(w.Order(p, i))
  {
    TipIsOrder(w, p, i);
    EncodingRises(w);
    ImageConn(w.Links(), Encoding(w), w.Order(p, i), w.procs[p].tips[i]);
  }

  lemma EdgeTrue(w: World, p: nat, i: nat, q: nat, j: nat)
    requires w.Ok() && w.At(p, i) && w.At(q, j) && Conn(w.Links(), w.Order(p, i), w.Order(q, j))
    ensures Conn(Image(w.Links(), Encoding(w)), w.Enc(p, i), w.Enc(q, j))
  {
    var H, f := Image(w.Links(), Encoding(w)), Encoding(w);
    VertexToTip(w, p, i);
    VertexToTip(w, q, j);
    ImageConn(w.Links(), f, w.Order(p, i), w.Order(q, j));
    ConnSym(H, f(w.Order(p, i)), w.Enc(p, i));
    ConnTrans(H, w.Enc(p, i), f(w.Order(p, i)), f(w.Order(q, j)));
    ConnTrans(H, w.Enc(p, i), f(w.Order(q, j)), w.Enc(q, j));
  }

  lemma LinkBridged(w: World, edges: seq<Edge>, p: nat, i: nat, q: nat, j: nat)
    requires w.Ok() && w.Bridged(edges) && w.At(p, i) && w.At(q, j)
    requires Linked(w.procs[p].parts[i], w.procs[q].parts[j], w.rule)
    ensures Conn(EdgeSet(edges), w.Enc(p, i), w.Enc(q, j))
  {
    if p == q {
      var parts, tips := w.procs[p].parts, w.procs[p].tips;
      LinkedConn(parts, w.rule, i, j);
      assert ExactTips(parts, w.rule, tips);
      ComponentMinUnique(LinkGraph(parts, w.rule), parts[i].order, parts[j].order, tips[i], tips[j]);
      ConnRefl(EdgeSet(edges), w.Enc(p, i));
    }
  }

  lemma BridgesContract(w: World, edges: seq<Edge>)
    requires w.Ok() && w.Bridged(edges)
    ensures Contracts(Image(w.Links(), Encoding(w)), EdgeSet(edges), EncTip(w))
  {
    var f := Encoding(w);
    var H, F, tip := Image(w.Links(), f), EdgeSet(edges), EncTip(w);
    forall v
      ensures Conn(H, v, tip(v)) && tip(v) <= v
    {
      if exists p: nat, i: nat :: w.At(p, i) && v == f(w.Order(p, i)) {
        var p: nat, i: nat :| w.At(p, i) && v == f(w.Order(p, i));
        EncTipAt(w, p, i);
        VertexToTip(w, p, i);
      } else {
        ConnRefl(H, v);
      }
    }
    forall g, h | (g, h) in F
      ensures Conn(H, g, h)
    {
      var e: Edge := (g, h);
      assert e in edges;
      var p: nat, i: nat, q: nat, j: nat :| w.At(p, i) && w.At(q, j) && e == (w.Enc(p, i), w.Enc(q, j)) &&
            Conn(w.Links(), w.Order(p, i), w.Order(q, j));
      EdgeTrue(w, p, i, q, j);
    }
    forall u, v | (u, v) in H
      ensures Conn(F, tip(u), tip(v))
    {
      var e :| e in w.Links() && (u, v) == (f(e.0), f(e.1));
      var p, i, q, j := LinkPlaces(w, e);
      EncTipAt(w, p, i);
      EncTipAt(w, q, j);
      LinkBridged(w, edges, p, i, q, j);
    }
  }

  lemma LinkPlaces(w: World, e: (int, int)) returns (p: nat, i: nat, q: nat, j: nat)
    requires w.Ok() && e in w.Links()
    ensures w.At(p, i) && w.At(q, j) && e == (w.Order(p, i), w.Order(q, j))
    ensures Linked(w.procs[p].parts[i], w.procs[q].parts[j], w.rule)
  {
    var all := w.Parts();
    var k, l :| 0 <= k < |all| && 0 <= l < |all| && Linked(all[k], all[l], w.rule) &&
          e == (all[k].order as int, all[l].order as int);
    p, i := WherePlaced(w.procs, k);
    q, j := WherePlaced(w.procs, l);
    assert ExactTips(w.procs[p].parts, w.rule, w.procs[p].tips) && ExactTips(w.procs[q].parts, w.rule, w.procs[q].tips);
  }

  // ---- The final labels.

  /** A particle's final label through the flat label map: touched tips change, others stay. */
  function FinalLabel(flat: map<nat, int>, enc: nat): int {
    if enc in flat then flat[enc] else enc
  }

  lemma EncodedMinimum(w: World, edges: seq<Edge>, flat: map<nat, int>, p: nat, i: nat)
    requires w.Ok() && w.Bridged(edges) && FinalLabels(edges, flat) && w.At(p, i)
    ensures var l := FinalLabel(flat, w.Enc(p, i)); IsComponentMin(EdgeSet(edges), w.Enc(p, i), if l >= 0 then l
          else -l - 2)
  {
    if w.Enc(p, i) !in flat { UntouchedMin(edges, w.Enc(p, i)); }
  }

  /** The encoded minimum of a group is the encoding of its least order. */
  lemma DecodedMinimum(w: World, edges: seq<Edge>, p: nat, i: nat, m: int) returns (k: int)
    requires w.Ok() && w.Bridged(edges) && w.At(p, i) && IsComponentMin(EdgeSet(edges), w.Enc(p, i), m)
    ensures IsComponentMin(w.Links(), w.Order(p, i), k) && m == Encoding(w)(k)
  {
    var f := Encoding(w);
    BridgesContract(w, edges);
    EncTipAt(w, p, i);
    ContractionExact(Image(w.Links(), f), EdgeSet(edges), EncTip(w), f(w.Order(p, i)), f(w.Order(p, i)));
    assert IsComponentMin(Image(w.Links(), f), f(w.Order(p, i)), m);
    EncodingRises(w);
    ImageMin(w.Links(), f, w.Order(p, i), m);
    k :| m == f(k);
    ImageMin(w.Links(), f, w.Order(p, i), k);
  }

  /** End to end: the final label of every particle decodes to the least order of its component in the
      linking graph of the whole world. */
  lemma LabelsExact(w: World, edges: seq<Edge>, flat: map<nat, int>, p: nat, i: nat)
    requires w.Ok() && w.Bridged(edges) && FinalLabels(edges, flat) && w.At(p, i)
    ensures IsComponentMin(w.Links(), w.Order(p, i), MinOrderLabel(FinalLabel(flat, w.Enc(p, i))))
  {
    var l := FinalLabel(flat, w.Enc(p, i));
    var m := if l >= 0 then l else -l - 2;
    EncodedMinimum(w, edges, flat, p, i);
    var k := DecodedMinimum(w, edges, p, i, m);
    EncodingDecodes(w, p, i, k);
    LabelCarries(l, m, k);
  }

  lemma EncodingDecodes(w: World, p: nat, i: nat, k: int)
    requires w.Ok() && w.At(p, i) && Conn(w.Links(), w.Order(p, i), k)
    ensures Encoding(w)(k) >= 0 && Tip(Encoding(w)(k)) == k
  {
    ComponentVertex(w, p, i, k);
    var q: nat :| OrderAt(w, q, k);
    EncodingAt(w, q, k);
  }

  // ---- The sign.

  /** The group of particle (p, i) has members with other tips: phase 1 did not see all of it. */
  ghost predicate Spans(w: World, p: nat, i: nat)
    requires w.At(p, i)
  {
    exists q: nat, j: nat {:trigger w.Enc(q, j)} ::
      w.At(q, j) && w.Enc(q, j) != w.Enc(p, i) && Conn(w.Links(), w.Order(p, i), w.Order(q, j))
  }

  /** Particles with one tip are connected. */
  lemma SameTip(w: World, p: nat, i: nat, q: nat, j: nat)
    requires w.Ok() && w.At(p, i) && w.At(q, j) && w.Enc(p, i) == w.Enc(q, j)
    ensures p == q && w.procs[p].tips[i] == w.procs[q].tips[j] && Conn(w.Links(), w.Order(p, i), w.Order(q, j))
  {
    TipIsOrder(w, p, i);
    TipIsOrder(w, q, j);
    EncodingAt(w, p, w.procs[p].tips[i]);
    EncodingAt(w, q, w.procs[q].tips[j]);
    ConnSym(w.Links(), w.Order(q, j), w.procs[q].tips[j]);
    ConnTrans(w.Links(), w.Order(p, i), w.procs[p].tips[i], w.Order(q, j));
  }

  lemma EndpointSpans(w: World, edges: seq<Edge>, p: nat, i: nat)
    requires w.Ok() && w.Bridged(edges) && w.At(p, i) && w.Enc(p, i) in Endpoints(edges)
    ensures Spans(w, p, i)
  {
    var e :| e in edges && (e.0 == w.Enc(p, i) || e.1 == w.Enc(p, i));
    var a: nat, k: nat, b: nat, l: nat :| w.At(a, k) && w.At(b, l) && e == (w.Enc(a, k), w.Enc(b, l)) &&
          Conn(w.Links(), w.Order(a, k), w.Order(b, l));
    if e.0 == w.Enc(p, i) {
      SameTip(w, p, i, a, k);
      ConnTrans(w.Links(), w.Order(p, i), w.Order(a, k), w.Order(b, l));
      assert w.Enc(b, l) != w.Enc(p, i);
    } else {
      SameTip(w, p, i, b, l);
      ConnSym(w.Links(), w.Order(a, k), w.Order(b, l));
      ConnTrans(w.Links(), w.Order(p, i), w.Order(b, l), w.Order(a, k));
      assert w.Enc(a, k) != w.Enc(p, i);
    }
  }

  lemma UntouchedAlone(edges: seq<Edge>, t: nat, y: int)
    requires t !in Endpoints(edges) && Conn(EdgeSet(edges), t, y)
    ensures y == t
  {
    forall u, v | (u, v) in EdgeSet(edges)
      ensures u in iset{t as int} <==> v in iset{t as int}
    {
      var e: Edge := (u, v);
      assert e in edges;
    }
    ConnClosed(EdgeSet(edges), iset{t as int}, t, y);
  }

  /** Connected particles have connected tips. */
  lemma TipsConnect(w: World, edges: seq<Edge>, p: nat, i: nat, q: nat, j: nat)
    requires w.Ok() && w.Bridged(edges) && w.At(p, i) && w.At(q, j) && Conn(w.Links(), w.Order(p, i), w.Order(q, j))
    ensures Conn(EdgeSet(edges), w.Enc(p, i), w.Enc(q, j))
  {
    var f := Encoding(w);
    BridgesContract(w, edges);
    ImageConn(w.Links(), f, w.Order(p, i), w.Order(q, j));
    EncTipAt(w, p, i);
    EncTipAt(w, q, j);
    ContractionExact(Image(w.Links(), f), EdgeSet(edges), EncTip(w), f(w.Order(p, i)), f(w.Order(q, j)));
  }

  /** A group is touched by an edge exactly when it has several tips. */
  lemma TouchedSpans(w: World, edges: seq<Edge>, p: nat, i: nat)
    requires w.Ok() && w.Bridged(edges) && w.At(p, i)
    ensures w.Enc(p, i) in Endpoints(edges) <==> Spans(w, p, i)
  {
    if w.Enc(p, i) in Endpoints(edges) {
      EndpointSpans(w, edges, p, i);
    } else if Spans(w, p, i) {
      var q: nat, j: nat :| w.At(q, j) && w.Enc(q, j) != w.Enc(p, i) && Conn(w.Links(), w.Order(p, i), w.Order(q, j));
      TipsConnect(w, edges, p, i, q, j);
      UntouchedAlone(edges, w.Enc(p, i), w.Enc(q, j));
      assert false;
    }
  }

  /** What particle (p, i) must be called: the encoding of its group's least order k under the process r that
      holds it, in the touched form if the group has several tips. */
  ghost predicate Named(w: World, p: nat, i: nat, l: int)
    requires w.At(p, i)
  {
    exists r: nat, k: nat {:trigger EncodeTip(r, k)} :: OrderAt(w, r, k) && IsComponentMin(w.Links(), w.Order(p, i), k)
      && l == if Spans(w, p, i) then Touched(EncodeTip(r, k)) else EncodeTip(r, k)
  }

  /** The final label is that name, sign and owner included. */
  lemma LabelNames(w: World, edges: seq<Edge>, flat: map<nat, int>, p: nat, i: nat)
    requires w.Ok() && w.Bridged(edges) && FinalLabels(edges, flat) && w.At(p, i)
    ensures Named(w, p, i, FinalLabel(flat, w.Enc(p, i)))
  {
    var l := FinalLabel(flat, w.Enc(p, i));
    var m := if l >= 0 then l else -l - 2;
    EncodedMinimum(w, edges, flat, p, i);
    var k := DecodedMinimum(w, edges, p, i, m);
    ComponentVertex(w, p, i, k);
    var r: nat :| OrderAt(w, r, k);
    EncodingAt(w, r, k);
    TouchedSpans(w, edges, p, i);
    assert EncodeTip(r, k) == m && k >= 0;
  }

  lemma NameDecodes(w: World, p: nat, i: nat, l: int)
    requires w.Ok() && w.At(p, i) && Named(w, p, i, l)
    ensures IsComponentMin(w.Links(), w.Order(p, i), MinOrderLabel(l)) && (l < 0 <==> Spans(w, p, i)) && l != -1
  {
    var r: nat, k: nat :| OrderAt(w, r, k) && IsComponentMin(w.Links(), w.Order(p, i), k)
                          && l == if Spans(w, p, i) then Touched(EncodeTip(r, k)) else EncodeTip(r, k);
    EncodingAt(w, r, k);
    LabelsDecode(EncodeTip(r, k));
  }

  lemma SpanShared(w: World, p: nat, i: nat, q: nat, j: nat)
    requires w.Ok() && w.At(p, i) && w.At(q, j) && Conn(w.Links(), w.Order(p, i), w.Order(q, j)) && Spans(w, p, i)
    ensures Spans(w, q, j)
  {
    var E := w.Links();
    ConnSym(E, w.Order(p, i), w.Order(q, j));
    if w.Enc(p, i) == w.Enc(q, j) {
      var a: nat, k: nat :| w.At(a, k) && w.Enc(a, k) != w.Enc(p, i) && Conn(E, w.Order(p, i), w.Order(a, k));
      ConnTrans(E, w.Order(q, j), w.Order(p, i), w.Order(a, k));
    }
  }

  /** Two particles have one name exactly when they are in one group, and an untouched name stays within one
      process: the two facts the histogram counts on. */
  lemma NamesTellGroups(w: World, p: nat, i: nat, l: int, q: nat, j: nat, m: int)
    requires w.Ok() && w.At(p, i) && w.At(q, j) && Named(w, p, i, l) && Named(w, q, j, m)
    ensures l == m <==> Conn(w.Links(), w.Order(p, i), w.Order(q, j))
    ensures l == m && l >= 0 ==> p == q
  {
    var E := w.Links();
    var r: nat, k: nat :| OrderAt(w, r, k) && IsComponentMin(E, w.Order(p, i), k)
                          && l == if Spans(w, p, i) then Touched(EncodeTip(r, k)) else EncodeTip(r, k);
    var t: nat, n: nat :| OrderAt(w, t, n) && IsComponentMin(E, w.Order(q, j), n)
                          && m == if Spans(w, q, j) then Touched(EncodeTip(t, n)) else EncodeTip(t, n);
    EncodingAt(w, r, k);
    EncodingAt(w, t, n);
    if Conn(E, w.Order(p, i), w.Order(q, j)) {
      ComponentMinUnique(E, w.Order(p, i), w.Order(q, j), k, n);
      OwnerUnique(w, r, t, k);
      if Spans(w, p, i) { SpanShared(w, p, i, q, j); }
      ConnSym(E, w.Order(p, i), w.Order(q, j));
      if Spans(w, q, j) { SpanShared(w, q, j, p, i); }
    }
    if l == m {
      LabelsDecode(EncodeTip(r, k));
      LabelsDecode(EncodeTip(t, n));
      assert k == n;
      ConnSym(E, w.Order(q, j), k);
      ConnTrans(E, w.Order(p, i), k, w.Order(q, j));
      if l >= 0 && w.Enc(p, i) == w.Enc(q, j) { SameTip(w, p, i, q, j); }
    }
  }

  lemma OwnerUnique(w: World, r: nat, t: nat, k: nat)
    requires w.Ok() && OrderAt(w, r, k) && OrderAt(w, t, k)
    ensures r == t
  {
    EncodingAt(w, r, k);
    EncodingAt(w, t, k);
  }

  lemma LabelCarries(l: int, m: nat, k: int)
    requires (l >= 0 && m == l) || (l <= -2 && m == -l - 2)
    requires Tip(m) == k
    ensures MinOrderLabel(l) == k
  {
  }

  /** What a particle is connected to is the order of some particle. */
  lemma ComponentVertex(w: World, p: nat, i: nat, k: int)
    requires w.Ok() && w.At(p, i) && Conn(w.Links(), w.Order(p, i), k)
    ensures SomeOrder(w, k)
  {
    var S := iset v: int | SomeOrder(w, v);
    forall u, v | (u, v) in w.Links()
      ensures u in S <==> v in S
    {
      var a, b, c, d := LinkPlaces(w, (u, v));
      assert OrderAt(w, a, u) && OrderAt(w, c, v);
    }
    assert OrderAt(w, p, w.Order(p, i));
    ConnClosed(w.Links(), S, w.Order(p, i), k);
  }

  /** The result does not depend on the decomposition: two worlds over the same particles give every
      particle the same group name. */
  lemma DecompositionFree(v: World, ev: seq<Edge>, fv: map<nat, int>, p: nat, i: nat, w: World, ew: seq<Edge>,
                          fw: map<nat, int>, q: nat, j: nat)
    requires v.Ok() && v.Bridged(ev) && FinalLabels(ev, fv) && v.At(p, i)
    requires w.Ok() && w.Bridged(ew) && FinalLabels(ew, fw) && w.At(q, j)
    requires v.rule == w.rule && multiset(v.Parts()) == multiset(w.Parts())
    requires v.procs[p].parts[i] == w.procs[q].parts[j]
    ensures MinOrderLabel(FinalLabel(fv, v.Enc(p, i))) == MinOrderLabel(FinalLabel(fw, w.Enc(q, j)))
  {
    LabelsExact(v, ev, fv, p, i);
    LabelsExact(w, ew, fw, q, j);
    forall x ensures x in v.Parts() <==> x in w.Parts() { Sorting.SameMembers(v.Parts(), w.Parts(), x); }
    LinkGraphGrows(v.Parts(), w.Parts(), v.rule);
    LinkGraphGrows(w.Parts(), v.Parts(), v.rule);
    assert v.Links() == w.Links();
    ConnRefl(v.Links(), v.Order(p, i));
    ComponentMinUnique(v.Links(), v.Order(p, i), w.Order(q, j),
                       MinOrderLabel(FinalLabel(fv, v.Enc(p, i))), MinOrderLabel(FinalLabel(fw, w.Enc(q, j))));
  }

  // ---- Delivering the labels.

  function EncodedTips(w: World, p: nat): (r: seq<int>)
    requires p < |w.procs| && |w.procs[p].tips| == |w.procs[p].parts|
    ensures |r| == |w.procs[p].parts| && forall i {:trigger r[i]} :: 0 <= i < |r| ==> r[i] == w.Enc(p, i)
  {
    seq(|w.procs[p].parts|, i requires 0 <= i < |w.procs[p].parts| => w.Enc(p, i))
  }

  /** A process's slice rewrites its own tips as the whole map does. */
  lemma SliceSuffices(w: World, flat: map<nat, int>, p: nat, i: nat)
    requires w.Ok() && w.At(p, i)
    ensures R.Rewrite(SliceOf(flat, p), w.Enc(p, i)) == R.Rewrite(flat, w.Enc(p, i)) == FinalLabel(flat, w.Enc(p, i))
  {
    TipIsOrder(w, p, i);
    EncodingAt(w, p, w.procs[p].tips[i]);
  }

  /** Every particle of process p has its group's name: it decodes to the group's least order, and its sign tells
      whether the group has several tips. */
  ghost predicate ExactRow(w: World, p: nat, own: seq<int>)
    requires w.Ok() && p < |w.procs|
  {
    && |own| == |w.procs[p].parts|
    && forall i: nat {:trigger own[i]} :: w.At(p, i) ==>
         Named(w, p, i, own[i]) && IsComponentMin(w.Links(), w.Order(p, i), MinOrderLabel(own[i]))
  }

  ghost predicate AllExact(w: World, labels: seq<seq<int>>)
    requires w.Ok()
  {
    |labels| == |w.procs| && forall p: nat {:trigger labels[p]} :: p < |w.procs| ==> ExactRow(w, p, labels[p])
  }

  /** The three ways a label map travels: whole to everyone, sliced by owner, or through the staged
      gather.  Every particle ends with a label that decodes to its group's least order. */
  datatype Transport = Broadcast | Sliced | Gathered

  method FinishRun(w: World, s: Staging, edges: seq<Edge>, transport: Transport, pick: nat -> nat)
    returns (labels: seq<seq<int>>)
    requires w.Ok() && w.Bridged(edges)
    requires transport.Gathered? ==> s.Ok() && s.N() == |w.procs| && s.RawIs(edges)
    ensures AllExact(w, labels)
  {
    var flat := FlatLabels(edges);
    var maps: seq<map<nat, int>> := [];
    if transport.Gathered? {
      maps := StagedLabels(s, edges, pick);
      forall p | 0 <= p < |maps| ensures maps[p] == SliceOf(flat, p) { StagedIsFlat(s, edges, maps, flat, p); }
    } else {
      maps := seq(|w.procs|, (p: nat) => if transport.Broadcast? then flat else SliceOf(flat, p));
    }
    labels := [];
    for p := 0 to |w.procs|
      invariant |labels| == p && forall q: nat {:trigger labels[q]} :: q < p ==> ExactRow(w, q, labels[q])
    {
      assert ExactTips(w.procs[p].parts, w.rule, w.procs[p].tips);
      var own := R.RewriteEach(maps[p], EncodedTips(w, p));
      forall i: nat | w.At(p, i)
        ensures Named(w, p, i, own[i]) && IsComponentMin(w.Links(), w.Order(p, i), MinOrderLabel(own[i]))
      {
        SliceSuffices(w, flat, p, i);
        assert EncodedTips(w, p)[i] == w.Enc(p, i);
        LabelNames(w, edges, flat, p, i);
        LabelsExact(w, edges, flat, p, i);
      }
      labels := labels + [own];
    }
  }
}
