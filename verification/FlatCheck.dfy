/** verifyFlatTree: what a pass means for any array, and when a tree's own flat form passes. */
module FlatCheck {
  import opened Geometry
  import opened Trees
  import opened Flatten

  /** The entry at `at` agrees with live node t, and so do the entries of its non-empty children, in order
      from its childBegin on. */
  predicate Agrees(flat: seq<DNode>, t: Tree, at: int)
    decreases t, 0
  {
    && 0 <= at < |flat| && flat[at].nBelow > 0
    && flat[at].box.lo.x == t.box.lo.x && flat[at].box.hi.z == t.box.hi.z
    && match t
       case Leaf(_, begin, n) => flat[at].childBegin == -1 && flat[at].nBelow == n && flat[at].partBegin == begin
       case Inner(_, cs) => flat[at].nChildren == |Kids(cs)| && AgreeIn(flat, cs, flat[at].childBegin)
  }

  predicate AgreeIn(flat: seq<DNode>, ts: seq<Tree>, at: int)
    decreases ts, 0
  {
    if ts == [] then true
    else if ts[0].Empty() then AgreeIn(flat, ts[1..], at)
    else Agrees(flat, ts[0], at) && AgreeIn(flat, ts[1..], at + 1)
  }

  /** What a pass says of an array: it agrees with the tree node by node, has no other entry, and its root
      counts the particles of the leaves. */
  predicate Passes(root: Tree, flat: seq<DNode>) {
    if root.Empty() then flat == []
    else Agrees(flat, root, 0) && |flat| == Nodes(root) && flat[0].nBelow == Count(root)
  }

  datatype Entry = Entry(t: Tree, at: int)

  function Live(stack: seq<Entry>): (r: seq<Tree>)
    ensures |r| == |stack| && forall k {:trigger r[k]} :: 0 <= k < |stack| ==> r[k] == stack[k].t
  {
    seq(|stack|, k requires 0 <= k < |stack| => stack[k].t)
  }

  function KidEntries(ks: seq<Tree>, begin: int): (r: seq<Entry>)
    ensures |r| == |ks| && forall c {:trigger r[c]} :: 0 <= c < |ks| ==> r[c] == Entry(ks[c], begin + c)
  {
    seq(|ks|, c requires 0 <= c < |ks| => Entry(ks[c], begin + c))
  }

  predicate AllAgree(flat: seq<DNode>, stack: seq<Entry>) {
    forall k {:trigger stack[k]} :: 0 <= k < |stack| ==> Agrees(flat, stack[k].t, stack[k].at)
  }

  lemma {:induction false} AgreeKids(flat: seq<DNode>, ts: seq<Tree>, at: int)
    ensures AgreeIn(flat, ts, at) <==> AllAgree(flat, KidEntries(Kids(ts), at))
  {
    if ts != [] {
      var ks := Kids(ts);
      var es := KidEntries(ks, at);
      if ts[0].Empty() {
        assert ks == Kids(ts[1..]);
        AgreeKids(flat, ts[1..], at);
      } else {
        assert ks == [ts[0]] + Kids(ts[1..]);
        AgreeKids(flat, ts[1..], at + 1);
        assert es == [Entry(ts[0], at)] + KidEntries(Kids(ts[1..]), at + 1);
        FirstAgrees(flat, Entry(ts[0], at), KidEntries(Kids(ts[1..]), at + 1));
      }
    }
  }

  lemma FirstAgrees(flat: seq<DNode>, e: Entry, es: seq<Entry>)
    ensures AllAgree(flat, [e] + es) <==> Agrees(flat, e.t, e.at) && AllAgree(flat, es)
  {
    var all := [e] + es;
    assert all[0] == e;
    forall k | 0 <= k < |es| ensures es[k] == all[k + 1] { }
    if AllAgree(flat, all) {
      forall k | 0 <= k < |es| ensures Agrees(flat, es[k].t, es[k].at) { assert all[k + 1] == es[k]; }
    }
  }

  lemma AgreeConcat(flat: seq<DNode>, x: seq<Entry>, y: seq<Entry>)
    ensures AllAgree(flat, x + y) <==> AllAgree(flat, x) && AllAgree(flat, y)
  {
    var all := x + y;
    if AllAgree(flat, all) {
      forall k | 0 <= k < |x| ensures Agrees(flat, x[k].t, x[k].at) { assert all[k] == x[k]; }
      forall k | 0 <= k < |y| ensures Agrees(flat, y[k].t, y[k].at) { assert all[|x| + k] == y[k]; }
    }
  }

  lemma {:induction false} SplitSums(ts: seq<Tree>, k: nat)
    requires k < |ts|
    ensures NodesOf(ts) == NodesOf(ts[..k]) + Nodes(ts[k]) + NodesOf(ts[k + 1..])
    ensures CountAll(ts) == CountAll(ts[..k]) + Count(ts[k]) + CountAll(ts[k + 1..])
    ensures SizeAll(ts) == SizeAll(ts[..k]) + Size(ts[k]) + SizeAll(ts[k + 1..])
  {
    if k > 0 {
      SplitSums(ts[1..], k - 1);
      assert ts[1..][..k - 1] == ts[..k][1..] && ts[1..][k..] == ts[k + 1..];
    } else {
      assert ts[..0] == [];
    }
  }

  /** The walk so far: visited and still on the stack make up the tree, and the array agrees with the tree
      if and only if it agrees with all that is on the stack. */
  ghost predicate Walking(root: Tree, flat: seq<DNode>, stack: seq<Entry>, visited: nat, leafParticles: int) {
    && visited + NodesOf(Live(stack)) == Nodes(root) && leafParticles + CountAll(Live(stack)) == Count(root)
    && (Agrees(flat, root, 0) <==> AllAgree(flat, stack))
  }

  lemma Pop(flat: seq<DNode>, was: seq<Entry>)
    requires was != []
    ensures var stack, t, at := was[..|was| - 1], was[|was| - 1].t, was[|was| - 1].at;
            && NodesOf(Live(was)) == NodesOf(Live(stack)) + Nodes(t)
            && CountAll(Live(was)) == CountAll(Live(stack)) + Count(t)
            && SizeAll(Live(was)) == SizeAll(Live(stack)) + Size(t)
            && (AllAgree(flat, was) <==> AllAgree(flat, stack) && Agrees(flat, t, at))
  {
    var k := |was| - 1;
    SplitSums(Live(was), k);
    assert Live(was)[..k] == Live(was[..k]) && Live(was)[k + 1..] == [];
    assert was == was[..k] + [was[k]];
    AgreeConcat(flat, was[..k], [was[k]]);
  }

  lemma Push(flat: seq<DNode>, stack: seq<Entry>, t: Tree, begin: int)
    requires t.Inner?
    ensures var more := stack + KidEntries(Kids(t.children), begin);
            && NodesOf(Live(more)) == NodesOf(Live(stack)) + Nodes(t) - 1
            && CountAll(Live(more)) == CountAll(Live(stack)) + Count(t)
            && SizeAll(Live(more)) < SizeAll(Live(stack)) + Size(t)
            && (AllAgree(flat, more) <==> AllAgree(flat, stack) && AgreeIn(flat, t.children, begin))
  {
    var ks := Kids(t.children);
    KidsFacts(t.children);
    SumsConcat(Live(stack), ks);
    assert Live(stack + KidEntries(ks, begin)) == Live(stack) + ks;
    AgreeConcat(flat, stack, KidEntries(ks, begin));
    AgreeKids(flat, t.children, begin);
  }

  /** The check, with its explicit stack, on any array. */
  method VerifyFlatTree(root: Tree, flat: seq<DNode>) returns (ok: bool)
    ensures ok <==> Passes(root, flat)
  {
    if root.Empty() { return flat == []; }
    if flat == [] { return false; }
    var stack := [Entry(root, 0)];
    var visited: nat, leafParticles := 0, 0;
    assert Live(stack) == [root] && [root][1..] == [];
    while stack != []
      invariant Walking(root, flat, stack, visited, leafParticles)
      decreases SizeAll(Live(stack))
    {
      var t, at := stack[|stack| - 1].t, stack[|stack| - 1].at;
      Pop(flat, stack);
      var passed, rest := VisitEntry(t, at, flat, stack[..|stack| - 1]);
      if !passed { return false; }
      stack := rest;
      visited := visited + 1;
      if t.Leaf? { leafParticles := leafParticles + flat[at].nBelow; }
    }
    if visited != |flat| { return false; }
    if leafParticles != flat[0].nBelow { return false; }
    ok := true;
  }

  /** One entry: the tests on the node itself, and its children onto the stack. */
  method VisitEntry(t: Tree, at: int, flat: seq<DNode>, stack: seq<Entry>) returns (passed: bool, more: seq<Entry>)
    ensures !passed ==> !Agrees(flat, t, at)
    ensures passed ==> 0 <= at < |flat| && (t.Leaf? ==> Agrees(flat, t, at) && more == stack && flat[at].nBelow == t.n)
    ensures passed && t.Inner? ==>
              && NodesOf(Live(more)) == NodesOf(Live(stack)) + Nodes(t) - 1
              && CountAll(Live(more)) == CountAll(Live(stack)) + Count(t)
              && SizeAll(Live(more)) < SizeAll(Live(stack)) + Size(t)
              && (AllAgree(flat, more) <==> AllAgree(flat, stack) && Agrees(flat, t, at))
  {
    more := stack;
    if at < 0 || at >= |flat| { return false, more; }
    var d := flat[at];
    if d.nBelow <= 0 { return false, more; }
    if d.box.lo.x != t.box.lo.x || d.box.hi.z != t.box.hi.z { return false, more; }
    if t.Leaf? {
      passed := d.childBegin == -1 && d.nBelow == t.n && d.partBegin == t.begin;
    } else {
      passed, more := PushKids(t, d, stack);
      if passed { Push(flat, stack, t, d.childBegin); }
    }
  }

  /** Push the live non-empty children against the flat ones. */
  method PushKids(t: Tree, d: DNode, stack: seq<Entry>) returns (passed: bool, more: seq<Entry>)
    requires t.Inner?
    ensures passed <==> d.nChildren == |Kids(t.children)|
    ensures passed ==> more == stack + KidEntries(Kids(t.children), d.childBegin)
  {
    var cs := t.children;
    var k := 0;
    more := stack;
    for c := 0 to |cs|
      invariant k == |Kids(cs[..c])| && more == stack + KidEntries(Kids(cs[..c]), d.childBegin)
    {
      KidsSnoc(cs[..c], cs[c]);
      assert cs[..c + 1] == cs[..c] + [cs[c]];
      if !cs[c].Empty() {
        KidsPart(cs, c + 1);
        if k >= d.nChildren { return false, more; }
        assert KidEntries(Kids(cs[..c + 1]), d.childBegin) == KidEntries(Kids(cs[..c]), d.childBegin)
              + [Entry(cs[c], d.childBegin + k)];
        more := more + [Entry(cs[c], d.childBegin + k)];
        k := k + 1;
      }
    }
    assert cs[..|cs|] == cs;
    passed := k == d.nChildren;
  }

  lemma KidsPart(cs: seq<Tree>, c: nat)
    requires c <= |cs|
    ensures |Kids(cs[..c])| <= |Kids(cs)|
    decreases |cs| - c
  {
    if c == |cs| {
      assert cs[..c] == cs;
    } else {
      KidsPart(cs, c + 1);
      KidsSnoc(cs[..c], cs[c]);
      assert cs[..c + 1] == cs[..c] + [cs[c]];
    }
  }

  // ---- What a pass says, told by paths instead of by recursion over the array.

  /** A path names a child at each level, counting the non-empty ones only. */
  predicate Leads(t: Tree, path: seq<nat>)
    decreases |path|
  {
    path == [] || (t.Inner? && path[0] < |Kids(t.children)| && Leads(Kids(t.children)[path[0]], path[1..]))
  }

  function NodeAt(t: Tree, path: seq<nat>): Tree
    requires Leads(t, path)
    decreases |path|
  {
    if path == [] then t else NodeAt(Kids(t.children)[path[0]], path[1..])
  }

  /** The entry reached through the childBegin fields, or -1. */
  function EntryAt(flat: seq<DNode>, at: int, path: seq<nat>): int
    decreases |path|
  {
    if path == [] then at
    else if at < 0 || at >= |flat| then -1
    else EntryAt(flat, flat[at].childBegin + path[0], path[1..])
  }

  /** A leaf's entry has no children and names its range; an inner node's has the count of its non-empty children;
      both are non-empty and share two box coordinates with the node. */
  ghost predicate Describes(flat: seq<DNode>, at: int, t: Tree) {
    && 0 <= at < |flat| && flat[at].nBelow > 0
    && flat[at].box.lo.x == t.box.lo.x && flat[at].box.hi.z == t.box.hi.z
    && (t.Leaf? ==> flat[at].childBegin == -1 && flat[at].partBegin == t.begin && flat[at].nBelow == t.n)
    && (t.Inner? ==> flat[at].nChildren == |Kids(t.children)|)
  }

  /** Wherever a path leads in t, the entry it leads to from `at` describes the node. */
  ghost predicate DescribesAll(flat: seq<DNode>, at: int, t: Tree) {
    forall path {:trigger Leads(t, path)} :: Leads(t, path) ==>
          Describes(flat, EntryAt(flat, at, path), NodeAt(t, path))
  }

  lemma {:induction false} AgreesAlong(flat: seq<DNode>, t: Tree, at: int, path: seq<nat>)
    requires Agrees(flat, t, at) && Leads(t, path)
    ensures Describes(flat, EntryAt(flat, at, path), NodeAt(t, path))
    decreases |path|
  {
    if path != [] {
      var begin, c := flat[at].childBegin, path[0];
      AgreeKids(flat, t.children, begin);
      assert KidEntries(Kids(t.children), begin)[c] == Entry(Kids(t.children)[c], begin + c);
      AgreesAlong(flat, Kids(t.children)[c], begin + c, path[1..]);
    }
  }

  lemma {:induction false} AlongAgrees(flat: seq<DNode>, t: Tree, at: int)
    requires DescribesAll(flat, at, t)
    ensures Agrees(flat, t, at)
    decreases Size(t)
  {
    assert Leads(t, []) && Describes(flat, EntryAt(flat, at, []), NodeAt(t, []));
    if t.Inner? {
      var ks, begin := Kids(t.children), flat[at].childBegin;
      forall c | 0 <= c < |ks|
        ensures Agrees(flat, ks[c], begin + c)
      {
        forall path | Leads(ks[c], path)
          ensures Describes(flat, EntryAt(flat, begin + c, path), NodeAt(ks[c], path))
        {
          assert ([c] + path)[1..] == path;
          assert Leads(t, [c] + path);
        }
        KidSmaller(t, ks[c]);
        AlongAgrees(flat, ks[c], begin + c);
      }
      AgreeKids(flat, t.children, begin);
    }
  }

  /** What a pass guarantees: wherever a path leads in the tree, the childBegin fields lead to an entry that
      describes the node there - for a leaf with exactly its range - and nothing less passes. */
  lemma PassesByPath(root: Tree, flat: seq<DNode>)
    requires !root.Empty()
    ensures Passes(root, flat)
       <==> flat != [] && DescribesAll(flat, 0, root) && |flat| == Nodes(root) && flat[0].nBelow == Count(root)
  {
    if Agrees(flat, root, 0) {
      forall path | Leads(root, path)
        ensures Describes(flat, EntryAt(flat, 0, path), NodeAt(root, path))
      {
        AgreesAlong(flat, root, 0, path);
      }
    }
    if DescribesAll(flat, 0, root) {
      AlongAgrees(flat, root, 0);
    }
  }

  // ---- A tree's own flat form.

  /** A node with no particle below is hollow, or has a hollow node below it. */
  lemma {:induction false} HollowCount(t: Tree)
    requires Count(t) == 0 && !t.Empty()
    ensures !NoHollow(t)
  {
    KidsFacts(t.children);
    var ks := Kids(t.children);
    if ks != [] {
      assert CountAll(ks) == Count(ks[0]) + CountAll(ks[1..]);
      HollowCount(ks[0]);
    }
  }

  /** If each emitted child agrees exactly when it is sound, so do all together. */
  lemma {:induction false} SameVerdict(flat: seq<DNode>, ts: seq<Tree>, at: int)
    requires forall c {:trigger Kids(ts)[c]} :: 0 <= c < |Kids(ts)| ==>
          (Agrees(flat, Kids(ts)[c], at + c) <==> NoHollow(Kids(ts)[c]))
    ensures AgreeIn(flat, ts, at) <==> NoHollowIn(ts)
  {
    if ts != [] {
      var ks, rest := Kids(ts), Kids(ts[1..]);
      if ts[0].Empty() {
        assert ks == rest && NoHollow(ts[0]);
        SameVerdict(flat, ts[1..], at);
      } else {
        assert ks == [ts[0]] + rest;
        assert Agrees(flat, ks[0], at + 0) <==> NoHollow(ks[0]);
        forall c | 0 <= c < |rest|
          ensures Agrees(flat, rest[c], at + 1 + c) <==> NoHollow(rest[c])
        {
          assert rest[c] == ks[c + 1];
        }
        SameVerdict(flat, ts[1..], at + 1);
      }
    }
  }

  lemma EntryFacts(root: Tree, flat: seq<DNode>, src: seq<Tree>, f: nat)
    requires FlatOf(root, flat, src) && f < |flat|
    ensures f < |flat| == |src| && Final(flat, src, f) && !src[f].Empty()
  {
  }

  lemma KidEntry(flat: seq<DNode>, src: seq<Tree>, f: nat, c: nat)
    requires f < |flat| == |src| && Final(flat, src, f) && c < |KidsOf(src[f])|
    ensures 0 <= flat[f].childBegin && flat[f].childBegin + c < |src|
    ensures src[flat[f].childBegin + c] == KidsOf(src[f])[c]
  {
    assert LiesAt(src, flat[f].childBegin, KidsOf(src[f]));
  }

  lemma EntryVerdict(flat: seq<DNode>, src: seq<Tree>, f: nat)
    requires f < |flat| == |src| && Final(flat, src, f) && !src[f].Empty() && src[f].Inner?
    requires AgreeIn(flat, src[f].children, flat[f].childBegin) <==> NoHollowIn(src[f].children)
    ensures Agrees(flat, src[f], f) <==> NoHollow(src[f])
  {
    var t := src[f];
    if Count(t) == 0 { HollowCount(t); }
    if Kids(t.children) == [] { NoKidsNoCount(t); }
  }

  /** An entry of the tree's own form agrees with its node exactly when nothing below the node is hollow. */
  lemma {:induction false} OwnEntry(root: Tree, flat: seq<DNode>, src: seq<Tree>, f: nat)
    requires FlatOf(root, flat, src) && f < |flat|
    ensures Agrees(flat, src[f], f) <==> NoHollow(src[f])
    decreases Size(src[f]), 1
  {
    EntryFacts(root, flat, src, f);
    if src[f].Inner? {
      OwnKids(root, flat, src, f);
      EntryVerdict(flat, src, f);
    }
  }

  lemma {:induction false} OwnKids(root: Tree, flat: seq<DNode>, src: seq<Tree>, f: nat)
    requires FlatOf(root, flat, src) && f < |flat| == |src| && Final(flat, src, f) && src[f].Inner?
    ensures AgreeIn(flat, src[f].children, flat[f].childBegin) <==> NoHollowIn(src[f].children)
    decreases Size(src[f]), 0
  {
    var ks, begin := Kids(src[f].children), flat[f].childBegin;
    forall c | 0 <= c < |ks|
      ensures Agrees(flat, ks[c], begin + c) <==> NoHollow(ks[c])
    {
      KidEntry(flat, src, f, c);
      KidSmaller(src[f], ks[c]);
      OwnEntry(root, flat, src, begin + c);
    }
    SameVerdict(flat, src[f].children, begin);
  }

  lemma NoKidsNoCount(t: Tree)
    requires t.Inner? && Kids(t.children) == []
    ensures Count(t) == 0
  {
    KidsFacts(t.children);
  }

  lemma {:induction false} SizeIn(ts: seq<Tree>, t: Tree)
    requires t in ts
    ensures Size(t) <= SizeAll(ts)
  {
    if ts[0] != t { SizeIn(ts[1..], t); }
  }

  lemma KidSmaller(t: Tree, k: Tree)
    requires t.Inner? && k in Kids(t.children)
    ensures Size(k) < Size(t)
  {
    KidsFacts(t.children);
    SizeIn(Kids(t.children), k);
  }

  /** A tree's own flat form passes if and only if no inner node is empty all the way down. */
  lemma OwnFormPasses(root: Tree, flat: seq<DNode>, src: seq<Tree>)
    requires FlatOf(root, flat, src)
    ensures Passes(root, flat) <==> NoHollow(root)
  {
    if !root.Empty() {
      OwnEntry(root, flat, src, 0);
      assert Final(flat, src, 0);
    }
  }
}
