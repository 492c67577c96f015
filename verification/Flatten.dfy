/** The flat form of a local tree: breadth first, children contiguous, empties dropped, particle ranges
    filled by a reverse scan - and the check that walks it against the live tree. */
module Flatten {
  import opened Geometry
  import opened Trees

  datatype DNode = DNode(box: Box, partBegin: int, nBelow: int, childBegin: int, nChildren: nat)

  /** The children that are emitted: null slots and empty leaves are dropped. */
  function Kids(ts: seq<Tree>): seq<Tree> {
    if ts == [] then [] else (if ts[0].Empty() then [] else [ts[0]]) + Kids(ts[1..])
  }

  function KidsOf(t: Tree): seq<Tree> {
    if t.Leaf? then [] else Kids(t.children)
  }

  /** How many nodes of t are emitted. */
  function Nodes(t: Tree): (r: nat)
    ensures r > 0
  {
    match t
    case Leaf(_, _, _) => 1
    case Inner(_, cs) => 1 + NodesIn(cs)
  }

  function NodesIn(ts: seq<Tree>): nat {
    if ts == [] then 0 else (if ts[0].Empty() then 0 else Nodes(ts[0])) + NodesIn(ts[1..])
  }

  /** No inner node whose children are all empty. */
  predicate NoHollow(t: Tree) {
    match t
    case Leaf(_, _, _) => true
    case Inner(_, cs) => Kids(cs) != [] && NoHollowIn(cs)
  }

  predicate NoHollowIn(ts: seq<Tree>) {
    ts == [] || (NoHollow(ts[0]) && NoHollowIn(ts[1..]))
  }

  function NodesOf(ts: seq<Tree>): nat {
    if ts == [] then 0 else Nodes(ts[0]) + NodesOf(ts[1..])
  }

  predicate AllSound(ts: seq<Tree>) {
    ts == [] || (NoHollow(ts[0]) && AllSound(ts[1..]))
  }

  /** Dropping empties loses no node, no particle, no hollow, and no first particle. */
  lemma {:induction false} KidsFacts(ts: seq<Tree>)
    ensures NodesOf(Kids(ts)) == NodesIn(ts) && CountAll(Kids(ts)) == CountAll(ts)
    ensures (AllSound(Kids(ts)) <==> NoHollowIn(ts))
    ensures SizeAll(Kids(ts)) <= SizeAll(ts)
    ensures forall c {:trigger Kids(ts)[c]} :: 0 <= c < |Kids(ts)| ==> !Kids(ts)[c].Empty() && Kids(ts)[c] in ts
  {
    if ts != [] {
      KidsFacts(ts[1..]);
      var ks := Kids(ts);
      if !ts[0].Empty() {
        assert ks[1..] == Kids(ts[1..]);
        forall c | 0 <= c < |ks|
          ensures !ks[c].Empty() && ks[c] in ts
        {
          if c > 0 { assert ks[c] == Kids(ts[1..])[c - 1]; }
        }
      } else {
        assert ks == Kids(ts[1..]);
        assert forall c :: 0 <= c < |ks| ==> ks[c] in ts[1..] ==> ks[c] in ts;
      }
    }
  }

  lemma {:induction false} SumsConcat(x: seq<Tree>, y: seq<Tree>)
    ensures NodesOf(x + y) == NodesOf(x) + NodesOf(y) && CountAll(x + y) == CountAll(x) + CountAll(y)
    ensures SizeAll(x + y) == SizeAll(x) + SizeAll(y)
    ensures AllSound(x + y) <==> AllSound(x) && AllSound(y)
  {
    if x == [] {
      assert x + y == y;
    } else {
      SumsConcat(x[1..], y);
      assert (x + y)[1..] == x[1..] + y;
    }
  }

  // ---- The layout.

  ghost predicate LiesAt(src: seq<Tree>, begin: int, ks: seq<Tree>) {
    0 <= begin && begin + |ks| <= |src| && forall c {:trigger ks[c]} :: 0 <= c < |ks| ==> src[begin + c] == ks[c]
  }

  /** Entry f describes node t, of which the children (if any) start at childBegin. */
  ghost predicate Describes(out: seq<DNode>, src: seq<Tree>, f: nat)
    requires f < |out| <= |src|
  {
    var t, ks := src[f], KidsOf(src[f]);
    && out[f].box == t.box && out[f].nChildren == |ks|
    && (if ks == [] then out[f].childBegin == -1
        else f < out[f].childBegin && LiesAt(src, out[f].childBegin, ks))
  }

  /** An emitted entry before its children are known. */
  predicate Bare(d: DNode, t: Tree) {
    && d.box == t.box && d.childBegin == -1 && d.nChildren == 0
    && (if t.Leaf? then d.partBegin == t.begin && d.nBelow == t.n else d.partBegin == -1 && d.nBelow == 0)
  }

  function Emit(t: Tree): (d: DNode)
    ensures Bare(d, t)
  {
    if t.Leaf? then DNode(t.box, t.begin, t.n, -1, 0) else DNode(t.box, -1, 0, -1, 0)
  }

  /** Entry g's node is an emitted child of an earlier entry's node. */
  ghost predicate HasParent(src: seq<Tree>, g: nat) {
    exists p: nat {:trigger KidsOf(src[p])} :: p < g < |src| && src[g] in KidsOf(src[p])
  }

  ghost predicate Placed(out: seq<DNode>, src: seq<Tree>, f: nat)
    requires f < |out| <= |src|
  {
    Describes(out, src, f) && out[f].partBegin == Emit(src[f]).partBegin && out[f].nBelow == Emit(src[f]).nBelow
  }

  /** Breadth-first pass up to entry i: earlier entries have their children, later ones are bare. */
  ghost predicate Laid(root: Tree, out: seq<DNode>, src: seq<Tree>, i: nat) {
    && |out| == |src| && i <= |out| && |src| > 0 && src[0] == root
    && (forall f: nat {:trigger src[f]} :: f < |src| ==> !src[f].Empty())
    && (forall f: nat {:trigger out[f]} {:trigger Placed(out, src, f)} :: f < i ==> Placed(out, src, f))
    && (forall f: nat {:trigger out[f]} :: i <= f < |out| ==> Bare(out[f], src[f]))
    && i + NodesOf(src[i..]) == Nodes(root)
    && (forall g: nat {:trigger HasParent(src, g)} :: 0 < g < |src| ==> HasParent(src, g))
  }

  method BreadthFirst(root: Tree) returns (out: seq<DNode>, ghost src: seq<Tree>)
    requires !root.Empty()
    ensures Laid(root, out, src, |out|) && |out| == Nodes(root)
  {
    var nodes := [root];
    out := [Emit(root)];
    var i := 0;
    assert nodes[1..] == [];
    while i < |out|
      invariant Laid(root, out, nodes, i)
      decreases SizeAll(nodes[i..])
    {
      if nodes[i].Inner? {
        out, nodes := EmitKids(root, out, nodes, i);
      } else {
        LaidLeaf(root, out, nodes, i);
      }
      i := i + 1;
    }
    assert nodes[|out|..] == [];
    src := nodes;
  }

  /** One turn of the loop on an inner node: its non-empty children join the end of both vectors. */
  method EmitKids(ghost root: Tree, out: seq<DNode>, nodes: seq<Tree>, i: nat)
    returns (out': seq<DNode>, nodes': seq<Tree>)
    requires Laid(root, out, nodes, i) && i < |out| && nodes[i].Inner?
    ensures Laid(root, out', nodes', i + 1) && SizeAll(nodes'[i + 1..]) < SizeAll(nodes[i..])
  {
    var cs := nodes[i].children;
    var begin, k := |out|, 0;
    out', nodes' := out, nodes;
    for c := 0 to |cs|
      invariant out' == out + Emits(Kids(cs[..c])) && nodes' == nodes + Kids(cs[..c]) && k == |Kids(cs[..c])|
    {
      KidsSnoc(cs[..c], cs[c]);
      assert cs[..c + 1] == cs[..c] + [cs[c]];
      EmitsSnoc(Kids(cs[..c]), cs[c]);
      if !cs[c].Empty() {
        out', nodes' := out' + [Emit(cs[c])], nodes' + [cs[c]];
        k := k + 1;
      }
    }
    assert cs[..|cs|] == cs;
    if k > 0 { out' := out'[i := out'[i].(childBegin := begin, nChildren := k)]; }
    LaidNext(root, out, nodes, out', nodes', i);
  }

  function Emits(ts: seq<Tree>): (r: seq<DNode>)
    ensures |r| == |ts| && forall c {:trigger r[c]} :: 0 <= c < |ts| ==> r[c] == Emit(ts[c])
  {
    seq(|ts|, c requires 0 <= c < |ts| => Emit(ts[c]))
  }

  lemma {:induction false} KidsSnoc(ts: seq<Tree>, t: Tree)
    ensures Kids(ts + [t]) == Kids(ts) + if t.Empty() then [] else [t]
  {
    if ts == [] {
      var none: seq<Tree> := [t][1..];
      assert none == [] && ts + [t] == [t];
    } else {
      KidsSnoc(ts[1..], t);
      assert (ts + [t])[1..] == ts[1..] + [t];
    }
  }

  lemma EmitsSnoc(ts: seq<Tree>, t: Tree)
    ensures Emits(ts + [t]) == Emits(ts) + [Emit(t)]
  {
  }

  lemma LaidLeaf(root: Tree, out: seq<DNode>, src: seq<Tree>, i: nat)
    requires Laid(root, out, src, i) && i < |out| && src[i].Leaf?
    ensures Laid(root, out, src, i + 1) && SizeAll(src[i + 1..]) < SizeAll(src[i..])
  {
    assert src[i..][0] == src[i] && src[i..][1..] == src[i + 1..];
    assert NodesOf(src[i..]) == Nodes(src[i]) + NodesOf(src[i + 1..]);
    assert Bare(out[i], src[i]);
    assert Placed(out, src, i);
    forall f: nat | f < i + 1
      ensures Placed(out, src, f)
    {
      if f < i { var d := out[f]; }
    }
  }

  /** What entry i's children add to the pending counts. */
  lemma PendingNext(before: seq<Tree>, src: seq<Tree>, i: nat)
    requires i < |before| && before[i].Inner? && src == before + Kids(before[i].children)
    ensures NodesOf(before[i..]) == 1 + NodesOf(src[i + 1..]) && SizeAll(src[i + 1..]) < SizeAll(before[i..])
  {
    var t := before[i];
    KidsFacts(t.children);
    assert before[i..][0] == t && before[i..][1..] == before[i + 1..];
    assert src[i + 1..] == before[i + 1..] + Kids(t.children);
    SumsConcat(before[i + 1..], Kids(t.children));
  }

  /** What the loop has done at an inner node. */
  ghost predicate Extended(was: seq<DNode>, before: seq<Tree>, out: seq<DNode>, src: seq<Tree>, i: nat) {
    && i < |was| == |before| && before[i].Inner?
    && var ks := Kids(before[i].children);
       && src == before + ks && |out| == |src|
       && out == (was + Emits(ks))[i := if ks == [] then was[i] else was[i].(childBegin := |was|, nChildren := |ks|)]
  }

  lemma PlacedNext(root: Tree, was: seq<DNode>, before: seq<Tree>, out: seq<DNode>, src: seq<Tree>, i: nat)
    requires Laid(root, was, before, i) && Extended(was, before, out, src, i)
    ensures forall f: nat {:trigger Placed(out, src, f)} :: f < i + 1 ==> Placed(out, src, f)
  {
    assert Bare(was[i], before[i]);
    forall f: nat | f < i + 1
      ensures Placed(out, src, f)
    {
      if f < i {
        assert out[f] == was[f] && src[f] == before[f];
        assert Placed(was, before, f);
      }
    }
  }

  lemma BareNext(root: Tree, was: seq<DNode>, before: seq<Tree>, out: seq<DNode>, src: seq<Tree>, i: nat)
    requires Laid(root, was, before, i) && Extended(was, before, out, src, i)
    ensures forall f: nat {:trigger src[f]} :: f < |src| ==> !src[f].Empty()
    ensures forall f: nat {:trigger out[f]} :: i + 1 <= f < |out| ==> Bare(out[f], src[f])
  {
    var ks := Kids(before[i].children);
    KidsFacts(before[i].children);
    forall f: nat | f < |src|
      ensures !src[f].Empty() && (i + 1 <= f ==> Bare(out[f], src[f]))
    {
      if f < |was| {
        assert f > i ==> out[f] == was[f];
      } else {
        assert out[f] == Emits(ks)[f - |was|];
      }
    }
  }

  lemma LaidNext(root: Tree, was: seq<DNode>, before: seq<Tree>, out: seq<DNode>, src: seq<Tree>, i: nat)
    requires Laid(root, was, before, i) && Extended(was, before, out, src, i)
    ensures Laid(root, out, src, i + 1) && SizeAll(src[i + 1..]) < SizeAll(before[i..])
  {
    KidsFacts(before[i].children);
    PendingNext(before, src, i);
    PlacedNext(root, was, before, out, src, i);
    BareNext(root, was, before, out, src, i);
    forall g: nat | 0 < g < |src| ensures HasParent(src, g) { ParentKept(before, src, i, g); }
  }

  lemma ParentKept(before: seq<Tree>, src: seq<Tree>, i: nat, g: nat)
    requires i < |before| && src == before + KidsOf(before[i]) && 0 < g < |src|
    requires (g < |before| ==> HasParent(before, g))
    ensures HasParent(src, g)
  {
    if g < |before| {
      var p: nat :| p < g && before[g] in KidsOf(before[p]);
      assert src[p] == before[p] && src[g] in KidsOf(src[p]);
    } else {
      assert src[i] == before[i] && src[g] in KidsOf(src[i]);
    }
  }

  // ---- The reverse scan.

  /** Where a node's particles start, by way of its first emitted child. */
  function PartOf(t: Tree): int {
    match t
    case Leaf(_, begin, _) => begin
    case Inner(_, cs) => PartOfAny(cs)
  }

  function PartOfAny(ts: seq<Tree>): int {
    if ts == [] then -1 else if ts[0].Empty() then PartOfAny(ts[1..]) else PartOf(ts[0])
  }

  lemma {:induction false} PartOfKids(ts: seq<Tree>)
    ensures PartOfAny(ts) == if Kids(ts) == [] then -1 else PartOf(Kids(ts)[0])
  {
    if ts != [] { PartOfKids(ts[1..]); }
  }

  /** Entry f is final: its count and its start are those of its node. */
  ghost predicate Final(out: seq<DNode>, src: seq<Tree>, f: nat)
    requires f < |out| <= |src|
  {
    Describes(out, src, f) && out[f].nBelow == Count(src[f]) && out[f].partBegin == PartOf(src[f])
  }

  ghost predicate Scanned(out: seq<DNode>, src: seq<Tree>, i: nat) {
    && |out| == |src| && i <= |out|
    && (forall f: nat {:trigger out[f]} {:trigger Placed(out, src, f)} :: f < i ==> Placed(out, src, f))
    && (forall f: nat {:trigger out[f]} {:trigger Final(out, src, f)} :: i <= f < |out| ==> Final(out, src, f))
  }

  lemma {:induction false} CountPart(ts: seq<Tree>, k: nat)
    requires k < |ts|
    ensures CountAll(ts[..k + 1]) == CountAll(ts[..k]) + Count(ts[k])
  {
    if k == 0 {
      var none: seq<Tree> := ts[..1][1..];
      assert none == [] && ts[..1] == [ts[0]];
      assert CountAll(ts[..1]) == Count(ts[0]) + CountAll(none);
    } else {
      CountPart(ts[1..], k - 1);
      assert ts[1..][..k] == ts[..k + 1][1..] && ts[1..][..k - 1] == ts[..k][1..];
    }
  }

  method Total(out: seq<DNode>, ghost src: seq<Tree>, i: nat) returns (total: int)
    requires Scanned(out, src, i + 1) && out[i].childBegin >= 0
    ensures total == Count(src[i])
  {
    ghost var ks := KidsOf(src[i]);
    assert Placed(out, src, i);
    total := 0;
    for c := 0 to out[i].nChildren
      invariant total == CountAll(ks[..c])
    {
      assert src[out[i].childBegin + c] == ks[c];
      assert Final(out, src, out[i].childBegin + c) by { var d := out[out[i].childBegin + c]; }
      CountPart(ks, c);
      total := total + out[out[i].childBegin + c].nBelow;
    }
    assert ks[..|ks|] == ks;
    KidsFacts(src[i].children);
  }

  method ReverseScan(laid: seq<DNode>, ghost src: seq<Tree>) returns (out: seq<DNode>)
    requires |laid| == |src| && forall f: nat {:trigger laid[f]} {:trigger Placed(laid, src, f)} :: f < |laid| ==>
          Placed(laid, src, f)
    ensures Scanned(out, src, 0)
  {
    out := laid;
    for i := |laid| downto 0
      invariant Scanned(out, src, i)
    {
      ghost var was := out;
      assert Placed(out, src, i);
      if out[i].childBegin >= 0 {
        var total := Total(out, src, i);
        out := out[i := out[i].(nBelow := total)];
        out := out[i := out[i].(partBegin := out[out[i].childBegin].partBegin)];
        ScanFinal(was, out, src, i);
      } else {
        ScanBare(was, src, i);
      }
      ScanKeeps(was, out, src, i);
    }
  }

  lemma ScanFinal(was: seq<DNode>, out: seq<DNode>, src: seq<Tree>, i: nat)
    requires Scanned(was, src, i + 1) && Placed(was, src, i) && was[i].childBegin >= 0 && was[i].childBegin < |was|
    requires out == was[i := was[i].(nBelow := Count(src[i]), partBegin := was[was[i].childBegin].partBegin)]
    ensures Final(out, src, i)
  {
    var ks := KidsOf(src[i]);
    PartOfKids(src[i].children);
    assert src[was[i].childBegin + 0] == ks[0];
    assert Final(was, src, was[i].childBegin) by { var d := was[was[i].childBegin]; }
  }

  lemma ScanBare(out: seq<DNode>, src: seq<Tree>, i: nat)
    requires i < |out| == |src| && Placed(out, src, i) && out[i].childBegin < 0
    ensures Final(out, src, i)
  {
    if src[i].Inner? {
      KidsFacts(src[i].children);
      PartOfKids(src[i].children);
    }
  }

  lemma ScanKeeps(was: seq<DNode>, out: seq<DNode>, src: seq<Tree>, i: nat)
    requires Scanned(was, src, i + 1) && |out| == |was| && Final(out, src, i) && forall f: nat {:trigger out[f]} ::
          f < |out| && f != i ==> out[f] == was[f]
    ensures Scanned(out, src, i)
  {
    forall f: nat | f < i
      ensures Placed(out, src, f)
    {
      assert Placed(was, src, f);
      SameEntry(was, out, src, f);
    }
    forall f: nat | i <= f < |out|
      ensures Final(out, src, f)
    {
      if f != i {
        assert Final(was, src, f);
        SameEntry(was, out, src, f);
      }
    }
  }

  lemma SameEntry(was: seq<DNode>, out: seq<DNode>, src: seq<Tree>, f: nat)
    requires f < |out| == |was| <= |src| && out[f] == was[f]
    ensures Placed(out, src, f) <==> Placed(was, src, f)
    ensures Final(out, src, f) <==> Final(was, src, f)
  {
  }

  // ---- flattenTree.

  /** The flat tree of a live one: as many entries as emitted nodes, each describing its node. */
  ghost predicate FlatOf(root: Tree, flat: seq<DNode>, src: seq<Tree>) {
    && |flat| == |src| && (root.Empty() ==> flat == [])
    && (!root.Empty() ==> |flat| == Nodes(root) && src[0] == root)
    && (forall f: nat {:trigger src[f]} :: f < |src| ==> !src[f].Empty())
    && (forall g: nat {:trigger HasParent(src, g)} :: 0 < g < |src| ==> HasParent(src, g))
    && forall f: nat {:trigger flat[f]} {:trigger Final(flat, src, f)} :: f < |flat| ==> Final(flat, src, f)
  }

  method FlattenTree(root: Tree) returns (flat: seq<DNode>, ghost src: seq<Tree>)
    ensures FlatOf(root, flat, src)
  {
    if root.Empty() { return [], []; }
    var laid;
    laid, src := BreadthFirst(root);
    flat := ReverseScan(laid, src);
  }

  lemma {:induction false} GoodKids(ts: seq<Tree>, parts: seq<Particle>, at: nat)
    requires Adjoin(ts, at) && CountAll(ts) > 0 && forall c :: c in ts ==> Good(c, parts)
    ensures Kids(ts) != [] && Count(Kids(ts)[0]) > 0 && First(Kids(ts)[0]) == FirstOf(ts) && Kids(ts)[0] in ts
  {
    if ts[0].Empty() {
      GoodKids(ts[1..], parts, at + Count(ts[0]));
    } else {
      assert Good(ts[0], parts);
    }
  }

  lemma {:induction false} PartIsFirst(t: Tree, parts: seq<Particle>)
    requires Good(t, parts) && !t.Empty()
    ensures PartOf(t) == First(t) && Count(t) > 0
  {
    match t
    case Leaf(_, _, _) =>
    case Inner(_, cs) =>
      GoodKids(cs, parts, First(t));
      PartOfKids(cs);
      PartIsFirst(Kids(cs)[0], parts);
  }

  lemma {:induction false} GoodBelow(flat: seq<DNode>, src: seq<Tree>, root: Tree, parts: seq<Particle>, f: nat)
    requires FlatOf(root, flat, src) && !root.Empty() && Good(root, parts) && f < |src|
    ensures Good(src[f], parts)
  {
    if f > 0 {
      assert HasParent(src, f);
      var p: nat :| p < f && src[f] in KidsOf(src[p]);
      GoodBelow(flat, src, root, parts, p);
      KidsFacts(src[p].children);
      var c :| 0 <= c < |KidsOf(src[p])| && KidsOf(src[p])[c] == src[f];
    }
  }

  /** The layout contract, children: contiguous, all above their parent, and exactly the non-empty
      children of the live node in their order. */
  lemma ChildrenContiguous(flat: seq<DNode>, src: seq<Tree>, root: Tree, f: nat)
    requires FlatOf(root, flat, src) && f < |flat|
    ensures flat[f].nChildren == |KidsOf(src[f])|
    ensures flat[f].nChildren > 0 ==> f < flat[f].childBegin && LiesAt(src, flat[f].childBegin, KidsOf(src[f]))
  {
    assert Final(flat, src, f);
  }

  /** The layout contract, particles, on a tree the build leaves behind: no entry is empty, and an entry's
      particles are exactly [partBegin, partBegin + nBelow). */
  lemma RangesExact(flat: seq<DNode>, src: seq<Tree>, root: Tree, parts: seq<Particle>, f: nat)
    requires FlatOf(root, flat, src) && Good(root, parts) && f < |flat|
    ensures flat[f].nBelow > 0 && flat[f].partBegin == First(src[f]) && flat[f].nBelow == Count(src[f])
    ensures forall i: nat :: In(src[f], i) <==> flat[f].partBegin <= i < flat[f].partBegin + flat[f].nBelow
  {
    GoodBelow(flat, src, root, parts, f);
    PartIsFirst(src[f], parts);
    assert Final(flat, src, f);
  }
}
