/** Phase A: one PE's serial union-find, driven by a dual tree walk over all pairs of its pieces.
    Four shortcuts keep the walk from testing every particle pair: the negative and the positive
    certificate, the memo of internally connected nodes, and one-witness leaf merging. */
module PhaseA {
  import opened Geometry
  import opened Graph
  import opened Forest
  import opened Trees
  import opened Linking

  ghost predicate Joined(parent: seq<nat>, order: seq<nat>, i: nat, j: nat)
    requires Ranked(parent, order)
  {
    i < |parent| && j < |parent| && Root(parent, order, i) == Root(parent, order, j)
  }

  /** Unions so far never joined unconnected particles. */
  ghost predicate Sound(parts: seq<Particle>, rule: Rule, parent: seq<nat>, order: seq<nat>)
    requires Ranked(parent, order) && |parts| == |parent|
  {
    forall i {:trigger Root(parent, order, i)} :: 0 <= i < |parent| ==>
      Conn(LinkGraph(parts, rule), order[i], order[Root(parent, order, i)])
  }

  ghost predicate Coarser(before: seq<nat>, after: seq<nat>, order: seq<nat>)
    requires Ranked(before, order) && Ranked(after, order)
  {
    forall i, j {:trigger Joined(after, order, i, j)} {:trigger Joined(before, order, i, j)} ::
      Joined(before, order, i, j) ==> Joined(after, order, i, j)
  }

  ghost predicate JoinedUpTo(parent: seq<nat>, order: seq<nat>, lo: nat, hi: nat, rep: nat)
    requires Ranked(parent, order)
  {
    forall j: nat {:trigger Joined(parent, order, j, rep)} :: lo <= j < hi ==> Joined(parent, order, j, rep)
  }

  lemma JoinedNext(before: seq<nat>, after: seq<nat>, order: seq<nat>, lo: nat, hi: nat, rep: nat)
    requires Ranked(before, order) && Ranked(after, order) && Coarser(before, after, order)
    requires JoinedUpTo(before, order, lo, hi, rep) && Joined(after, order, rep, hi)
    ensures JoinedUpTo(after, order, lo, hi + 1, rep)
  {
    forall j: nat | lo <= j < hi
      ensures Joined(after, order, j, rep)
    {
      assert Joined(before, order, j, rep);
    }
  }

  /** Every particle below t shares rep's root. */
  ghost predicate OneTree(parent: seq<nat>, order: seq<nat>, t: Tree, rep: nat)
    requires Ranked(parent, order)
  {
    forall i: nat {:trigger In(t, i)} :: In(t, i) ==> Joined(parent, order, i, rep)
  }

  /** Everything below t shares one root. */
  ghost predicate Whole(parent: seq<nat>, order: seq<nat>, t: Tree)
    requires Ranked(parent, order)
  {
    forall i: nat, j: nat {:trigger In(t, i), In(t, j)} :: In(t, i) && In(t, j) ==> Joined(parent, order, i, j)
  }

  lemma OneTreeWhole(parent: seq<nat>, order: seq<nat>, t: Tree, rep: nat)
    requires Ranked(parent, order) && OneTree(parent, order, t, rep)
    ensures Whole(parent, order, t)
  {
    forall i: nat, j: nat | In(t, i) && In(t, j)
      ensures Joined(parent, order, i, j)
    {
      assert Joined(parent, order, i, rep) && Joined(parent, order, j, rep);
    }
  }

  /** A leaf can always be asked; an inner node once all its non-empty children are known. */
  ghost predicate Askable(memo: map<Tree, nat>, t: Tree) {
    t.Inner? ==> forall k {:trigger t.children[k]} :: 0 <= k < |t.children| && !t.children[k].Empty() ==>
      t.children[k] in memo
  }

  /** The memo: an entry says its node is internally connected, and names a representative. */
  ghost predicate MemoHolds(memo: map<Tree, nat>, parts: seq<Particle>, parent: seq<nat>, order: seq<nat>)
    requires Ranked(parent, order)
  {
    forall t {:trigger memo[t]} {:trigger t in memo} :: t in memo ==>
      Good(t, parts) && !t.Empty() && memo[t] < |parent| && OneTree(parent, order, t, memo[t])
  }

  /** Every linked pair across a and b has been joined. */
  ghost predicate Solved(parts: seq<Particle>, rule: Rule, parent: seq<nat>, order: seq<nat>, a: Tree, b: Tree)
    requires Ranked(parent, order) && |parts| == |parent|
  {
    forall i: nat, j: nat {:trigger Linked(parts[i], parts[j], rule)} ::
      In(a, i) && In(b, j) && i < |parts| && j < |parts| && Linked(parts[i], parts[j], rule)
      ==> Joined(parent, order, i, j)
  }

  lemma NothingYet(rule: Rule)
    ensures Ranked([], []) && AllReached([], rule) && Sound([], rule, [], []) && MemoHolds(map[], [], [], [])
  {
  }

  class Engine {
    const rule: Rule
    var parts: seq<Particle>
    var order: seq<nat>       // flat_order
    var parent: seq<nat>      // uf_parent
    var memo: map<Tree, nat>  // cert_rep

    ghost predicate Valid()
      reads this
    {
      && Ranked(parent, order) && |parts| == |parent|
      && (forall i :: 0 <= i < |parts| ==> order[i] == parts[i].order)
      && AllReached(parts, rule)
      && Sound(parts, rule, parent, order)
      && MemoHolds(memo, parts, parent, order)
    }

    constructor (rule: Rule)
      ensures Valid() && this.rule == rule && parts == []
    {
      this.rule := rule;
      parts, order, parent, memo := [], [], [], map[];
      new;
      NothingYet(rule);
    }

    /** find: walk to the root, then compress the path behind. */
    method Find(x: nat) returns (root: nat)
      requires Valid() && x < |parent|
      modifies this`parent
      ensures Valid() && root == Root(parent, order, x) && parent[root] == root && parent[x] == root
      ensures forall i: nat {:trigger parent[i]} :: i < |parent| ==>
            parent[i] == old(parent[i]) || parent[i] == Root(parent, order, i)
      ensures forall i: nat :: i < |parent| ==> Root(parent, order, i) == old(Root(parent, order, i))
      ensures Coarser(old(parent), parent, order) && Coarser(parent, old(parent), order)
    {
      root := x;
      while parent[root] != root
        invariant root < |parent| && Root(parent, order, root) == Root(parent, order, x)
        decreases order[root]
      {
        root := parent[root];
      }
      var y: nat := x;
      while parent[y] != root
        invariant |parent| == old(|parent|) && Ranked(parent, order) && y < |parent|
        invariant Root(parent, order, y) == root && (parent[x] == root || (y == x && parent == old(parent)))
        invariant forall i: nat {:trigger parent[i]} :: i < |parent| ==>
              parent[i] == old(parent[i]) || parent[i] == Root(parent, order, i)
        invariant forall i: nat :: i < |parent| ==> Root(parent, order, i) == old(Root(parent, order, i))
        decreases order[y]
      {
        var next := parent[y];
        CompressKeepsRoots(parent, order, y, root, y);
        forall i: nat | i < |parent| { CompressKeepsRoots(parent, order, y, root, i); }
        parent := parent[y := root];
        y := next;
      }
      SameRoots(parts, rule, old(parent), parent, order, memo);
    }

    /** unite: the root with the smaller global order wins. */
    method Unite(x: nat, y: nat)
      requires Valid() && x < |parent| && y < |parent|
      requires Conn(LinkGraph(parts, rule), order[x], order[y])
      modifies this`parent
      ensures Valid() && Coarser(old(parent), parent, order) && Joined(parent, order, x, y)
    {
      var rx := Find(x);
      var ry := Find(y);
      if rx == ry { return; }
      ghost var before := parent;
      assert Differ(order, rx, ry);
      if order[rx] < order[ry] {
        UniteRoots(parts, rule, parent, order, memo, y, x);
        parent := parent[ry := rx];
      } else {
        ConnSym(LinkGraph(parts, rule), order[x], order[y]);
        UniteRoots(parts, rule, parent, order, memo, x, y);
        parent := parent[rx := ry];
      }
      CoarserTrans(old(parent), before, parent, order);
    }

    // ---- The memo of internally connected nodes.

    /** firstFlat: descend through non-empty children to the first particle below n. */
    method FirstFlat(n: Tree) returns (f: nat)
      requires Good(n, parts) && !n.Empty()
      ensures f == First(n) && In(n, f)
    {
      FirstIn(n, parts);
      var t := n;
      while t.Inner?
        invariant Good(t, parts) && !t.Empty() && First(t) == First(n)
        decreases t
      {
        ghost var cs := t.children;
        var i := 0;
        assert cs[0..] == cs && |cs| > 0;
        while t.children[i].Empty()
          invariant 0 <= i < |t.children| && cs == t.children
          invariant CountAll(cs[i..]) > 0 && FirstOf(cs[i..]) == First(t)
          decreases |t.children| - i
        {
          assert cs[i..][0] == cs[i] && cs[i..][1..] == cs[i + 1..];
          i := i + 1;
        }
        assert cs[i..][0] == cs[i];
        t := t.children[i];
      }
      f := t.begin;
    }

    /** uniteSubtree: star every particle below n onto rep. */
    method UniteSubtree(n: Tree, rep: nat)
      requires Valid() && Good(n, parts) && rep < |parent|
      requires OneComponent(parts, rule, n, rep)
      modifies this`parent
      ensures Valid() && Coarser(old(parent), parent, order) && OneTree(parent, order, n, rep)
      decreases n
    {
      if n.Empty() { return; }
      match n {
        case Leaf(_, begin, c) =>
          UniteLeaf(n, rep);
        case Inner(_, cs) =>
          for k := 0 to |cs|
            invariant Valid() && Coarser(old(parent), parent, order)
            invariant forall q :: 0 <= q < k ==> OneTree(parent, order, cs[q], rep)
          {
            ghost var before := parent;
            OneComponentChild(parts, rule, n, k, rep);
            UniteSubtree(cs[k], rep);
            CoarserTrans(old(parent), before, parent, order);
            forall q | 0 <= q < k
              ensures OneTree(parent, order, cs[q], rep)
            {
              CoarserOneTree(before, parent, order, cs[q], rep);
            }
          }
          OneTreeFromChildren(parts, parent, order, n, rep);
      }
    }

    method UniteLeaf(n: Tree, rep: nat)
      requires Valid() && Good(n, parts) && rep < |parent| && n.Leaf?
      requires OneComponent(parts, rule, n, rep)
      modifies this`parent
      ensures Valid() && Coarser(old(parent), parent, order) && OneTree(parent, order, n, rep)
    {
      for i := 0 to n.n
        invariant Valid() && Coarser(old(parent), parent, order)
        invariant JoinedUpTo(parent, order, n.begin, n.begin + i, rep)
      {
        ghost var before := parent;
        LeafMember(parts, rule, n, rep, i);
        Unite(rep, n.begin + i);
        CoarserTrans(old(parent), before, parent, order);
        JoinedNext(before, parent, order, n.begin, n.begin + i, rep);
      }
    }

    /** certRep: the first certificate touching n stars its particles once; later ones are a lookup. */
    method CertRep(n: Tree) returns (rep: nat)
      requires Valid() && Good(n, parts) && !n.Empty()
      requires First(n) < |parts| && OneComponent(parts, rule, n, First(n))
      modifies this`parent, this`memo
      ensures Valid() && Coarser(old(parent), parent, order)
      ensures rep < |parent| && OneTree(parent, order, n, rep)
      ensures memo == old(memo)[n := rep] && (n in old(memo) ==> parent == old(parent))
    {
      if n in memo { return memo[n]; }
      rep := FirstFlat(n);
      GoodMember(n, parts, rep);
      UniteSubtree(n, rep);
      memo := memo[n := rep];
    }

    /** connectedRep: is n internally connected right now?  Leaves ask the forest, inner nodes only
        their children's memo entries; a positive answer is memoised. */
    method ConnectedRep(n: Tree) returns (connected: bool, rep: nat)
      requires Valid() && Good(n, parts) && !n.Empty()
      modifies this`parent, this`memo
      ensures Valid() && Coarser(old(parent), parent, order) && Coarser(parent, old(parent), order)
      ensures connected ==> rep < |parent| && OneTree(parent, order, n, rep)
      ensures connected <==> n in old(memo) || (Askable(old(memo), n) && Whole(parent, order, n))
      ensures memo == if connected then old(memo)[n := rep] else old(memo)
    {
      if n in memo { return true, memo[n]; }
      if n.Leaf? {
        connected, rep := LeafRep(n);
      } else {
        connected, rep := InnerRep(n);
      }
      if connected { memo := memo[n := rep]; }
    }

    method LeafRep(n: Tree) returns (connected: bool, rep: nat)
      requires Valid() && Good(n, parts) && n.Leaf? && !n.Empty()
      modifies this`parent
      ensures Valid() && Coarser(old(parent), parent, order) && Coarser(parent, old(parent), order)
      ensures connected ==> rep < |parent| && OneTree(parent, order, n, rep)
      ensures connected <==> Whole(parent, order, n)
    {
      FirstIn(n, parts);
      rep := Find(n.begin);
      for i := 1 to n.n
        invariant Valid() && Coarser(old(parent), parent, order) && Coarser(parent, old(parent), order)
        invariant rep < |parent| && Root(parent, order, rep) == rep
        invariant JoinedUpTo(parent, order, n.begin, n.begin + i, rep)
      {
        ghost var before := parent;
        var same := LeafNext(n, i, rep);
        CoarserTrans(old(parent), before, parent, order);
        CoarserTrans(parent, before, old(parent), order);
        if !same { return false, 0; }
      }
      connected := true;
      OneTreeWhole(parent, order, n, rep);
    }

    method LeafNext(n: Tree, i: nat, rep: nat) returns (same: bool)
      requires Valid() && Good(n, parts) && n.Leaf? && 0 < i < n.n
      requires rep < |parent| && Root(parent, order, rep) == rep && JoinedUpTo(parent, order, n.begin, n.begin + i, rep)
      modifies this`parent
      ensures Valid() && Coarser(old(parent), parent, order) && Coarser(parent, old(parent), order)
      ensures Root(parent, order, rep) == rep
      ensures if same then JoinedUpTo(parent, order, n.begin, n.begin + i + 1, rep) else !Whole(parent, order, n)
    {
      var r := Find(n.begin + i);
      same := r == rep;
      if same {
        JoinedNext(old(parent), parent, order, n.begin, n.begin + i, rep);
      } else {
        LeafSplit(old(parent), parent, order, n, n.begin + i, rep);
      }
    }

    /** The non-empty ones of the first k children are known and, if there is one, all in rep's tree. */
    ghost predicate Agreed(n: Tree, k: nat, connected: bool, rep: nat)
      requires Ranked(parent, order) && n.Inner? && k <= |n.children|
      reads this`parent, this`order, this`memo
    {
      && (connected ==> rep < |parent| && Root(parent, order, rep) == rep)
      && (connected <==> exists q {:trigger n.children[q]} :: 0 <= q < k && !n.children[q].Empty())
      && (forall q {:trigger n.children[q]} :: 0 <= q < k && !n.children[q].Empty() ==>
            n.children[q] in memo && OneTree(parent, order, n.children[q], rep))
    }

    method InnerRep(n: Tree) returns (connected: bool, rep: nat)
      requires Valid() && Good(n, parts) && n.Inner?
      modifies this`parent
      ensures Valid() && Coarser(old(parent), parent, order) && Coarser(parent, old(parent), order)
      ensures connected ==> rep < |parent| && OneTree(parent, order, n, rep)
      ensures connected <==> Askable(memo, n) && Whole(parent, order, n)
    {
      connected, rep := false, 0;
      for k := 0 to |n.children|
        invariant Valid() && Coarser(old(parent), parent, order) && Coarser(parent, old(parent), order)
        invariant Agreed(n, k, connected, rep)
      {
        if !n.children[k].Empty() {
          ghost var before := parent;
          var ok;
          ok, connected, rep := ChildRep(n, k, connected, rep);
          CoarserTrans(old(parent), before, parent, order);
          CoarserTrans(parent, before, old(parent), order);
          if !ok { return false, 0; }
        }
      }
      AllAgreed(n, connected, rep);
    }

    lemma AllAgreed(n: Tree, connected: bool, rep: nat)
      requires Ranked(parent, order) && Good(n, parts) && n.Inner? && Agreed(n, |n.children|, connected, rep)
      ensures connected && rep < |parent| && OneTree(parent, order, n, rep)
      ensures Askable(memo, n) && Whole(parent, order, n)
    {
      var q := FindChild(n, parts, First(n));
      OneTreeFromChildren(parts, parent, order, n, rep);
      OneTreeWhole(parent, order, n, rep);
    }

    /** One more child: unknown, or in another tree than those before, ends the query. */
    method ChildRep(n: Tree, k: nat, connected: bool, rep: nat) returns (ok: bool, connected': bool, rep': nat)
      requires Valid() && Good(n, parts) && n.Inner? && k < |n.children| && !n.children[k].Empty()
      requires Agreed(n, k, connected, rep)
      modifies this`parent
      ensures Valid() && Coarser(old(parent), parent, order) && Coarser(parent, old(parent), order)
      ensures ok ==> Agreed(n, k + 1, connected', rep')
      ensures !ok ==> !(Askable(memo, n) && Whole(parent, order, n))
    {
      var c := n.children[k];
      ok, connected', rep' := false, connected, rep;
      if c !in memo { return; }
      var r := Find(memo[c]);
      forall q | 0 <= q < k && !n.children[q].Empty()
        ensures OneTree(parent, order, n.children[q], rep)
      {
        CoarserOneTree(old(parent), parent, order, n.children[q], rep);
      }
      if connected && r != rep {
        var q :| 0 <= q < k && !n.children[q].Empty();
        TwoTrees(parts, parent, order, n, q, rep, k, memo[c]);
        return;
      }
      ok, connected', rep' := true, true, r;
      OneTreeVia(parent, order, c, memo[c], r);
    }

    // ---- The dual walk.

    method SameRoot(x: nat, y: nat) returns (same: bool)
      requires Valid() && x < |parent| && y < |parent|
      modifies this`parent
      ensures Valid() && Coarser(old(parent), parent, order) && (same <==> Joined(parent, order, x, y))
    {
      var rx := Find(x);
      ghost var before := parent;
      var ry := Find(y);
      CoarserTrans(old(parent), before, parent, order);
      same := rx == ry;
    }

    /** prune_fn: both sides internally connected and already one component means nothing is left. */
    method Prune(a: Tree, b: Tree) returns (done: bool)
      requires Valid() && Good(a, parts) && Good(b, parts) && !a.Empty() && !b.Empty()
      modifies this`parent, this`memo
      ensures Valid() && Coarser(old(parent), parent, order)
      ensures done ==> Solved(parts, rule, parent, order, a, b)
      ensures done <==> a in memo && b in memo && Joined(parent, order, memo[a], memo[b])
    {
      var ca, ra := ConnectedRep(a);
      if !ca { return false; }
      if a == b {
        OneTreeSolves(parts, rule, parent, order, a, ra, b, ra);
        return true;
      }
      ghost var p1 := parent;
      var cb, rb := ConnectedRep(b);
      CoarserTrans(old(parent), p1, parent, order);
      CoarserOneTree(p1, parent, order, a, ra);
      if !cb { return false; }
      ghost var p2 := parent;
      done := SameRoot(ra, rb);
      CoarserTrans(old(parent), p2, parent, order);
      CoarserOneTree(p2, parent, order, a, ra);
      CoarserOneTree(p2, parent, order, b, rb);
      if done { OneTreeSolves(parts, rule, parent, order, a, ra, b, rb); }
    }

    /** cert_fn: every cross pair is a link, so both nodes collapse into one tree. */
    method Certify(a: Tree, b: Tree)
      requires Valid() && Good(a, parts) && Good(b, parts) && !a.Empty() && !b.Empty()
      requires AllLinked(parts, rule, a, b)
      modifies this`parent, this`memo
      ensures Valid() && Coarser(old(parent), parent, order)
      ensures Solved(parts, rule, parent, order, a, b)
    {
      CertifiedNode(parts, rule, a, b);
      CertifiedNode(parts, rule, b, a);
      var ra := CertRep(a);
      if a == b {
        OneTreeSolves(parts, rule, parent, order, a, ra, b, ra);
      } else {
        ghost var p1 := parent;
        var rb := CertRep(b);
        CoarserTrans(old(parent), p1, parent, order);
        CoarserOneTree(p1, parent, order, a, ra);
        RepsConnected(parts, rule, parent, order, a, ra, b, rb);
        ghost var p2 := parent;
        Unite(ra, rb);
        CoarserTrans(old(parent), p2, parent, order);
        CoarserOneTree(p2, parent, order, a, ra);
        CoarserOneTree(p2, parent, order, b, rb);
        OneTreeSolves(parts, rule, parent, order, a, ra, b, rb);
      }
    }

    method LinkPair(p: nat, j: nat) returns (linked: bool)
      requires Valid() && p < |parts| && j < |parts|
      modifies this`parent
      ensures Valid() && Coarser(old(parent), parent, order)
      ensures linked == Linked(parts[p], parts[j], rule) && (linked ==> Joined(parent, order, p, j))
    {
      linked := Linked(parts[p], parts[j], rule);
      if linked {
        LinkedConn(parts, rule, p, j);
        Unite(p, j);
      }
    }

    /** One row of a leaf action: test particle p against [lo, hi).  With oneWitness the first link
        found ends the row. */
    method LinkRow(p: nat, lo: nat, hi: nat, oneWitness: bool) returns (hit: bool, q: nat)
      requires Valid() && p < |parts| && hi <= |parts|
      modifies this`parent
      ensures Valid() && Coarser(old(parent), parent, order)
      ensures hit ==> oneWitness && lo <= q < hi && Joined(parent, order, p, q)
      ensures !hit ==> BlockSolved(parts, rule, parent, order, p, p + 1, lo, hi)
    {
      var j := lo;
      while j < hi
        invariant Valid() && Coarser(old(parent), parent, order)
        invariant BlockSolved(parts, rule, parent, order, p, p + 1, lo, j)
      {
        ghost var before := parent;
        var linked := LinkPair(p, j);
        CoarserTrans(old(parent), before, parent, order);
        if linked && oneWitness { return true, j; }
        CoarserBlock(parts, rule, before, parent, order, p, p + 1, lo, j);
        BlockNext(parts, rule, parent, order, p, lo, j);
        j := j + 1;
      }
      hit, q := false, 0;
    }

    /** leafLeafUnion on one leaf: test every unordered pair once. */
    method LeafSelfUnion(a: Tree)
      requires Valid() && Good(a, parts) && a.Leaf?
      modifies this`parent
      ensures Valid() && Coarser(old(parent), parent, order)
      ensures Solved(parts, rule, parent, order, a, a)
    {
      var end := a.begin + a.n;
      for i := a.begin to end
        invariant Valid() && Coarser(old(parent), parent, order)
        invariant HalfSolved(parts, rule, parent, order, a.begin, i, end)
      {
        ghost var before := parent;
        var hit, q := LinkRow(i, i + 1, end, false);
        CoarserTrans(old(parent), before, parent, order);
        HalfGrows(parts, rule, before, parent, order, a.begin, i, end);
      }
      HalfSolvesLeaf(parts, rule, parent, order, a);
    }

    /** leafLeafUnion on two leaves: when both are internally connected, one witness settles all. */
    method LeafPairUnion(a: Tree, b: Tree)
      requires Valid() && Good(a, parts) && Good(b, parts) && a.Leaf? && b.Leaf? && !a.Empty() && !b.Empty()
      modifies this`parent, this`memo
      ensures Valid() && Coarser(old(parent), parent, order)
      ensures Solved(parts, rule, parent, order, a, b)
    {
      var both, ra, rb := BothConnected(a, b);
      ghost var p2 := parent;
      for i := a.begin to a.begin + a.n
        invariant Valid() && Coarser(p2, parent, order)
        invariant BlockSolved(parts, rule, parent, order, a.begin, i, b.begin, b.begin + b.n)
      {
        ghost var before := parent;
        var hit, q := LinkRow(i, b.begin, b.begin + b.n, both);
        CoarserTrans(p2, before, parent, order);
        if hit {
          CoarserTrans(old(parent), p2, parent, order);
          CoarserOneTree(p2, parent, order, a, ra);
          CoarserOneTree(p2, parent, order, b, rb);
          WitnessJoins(parts, rule, parent, order, a, ra, b, rb, i, q);
          return;
        }
        BlockGrows(parts, rule, before, parent, order, a.begin, i, b.begin, b.begin + b.n);
      }
      CoarserTrans(old(parent), p2, parent, order);
    }

    method BothConnected(a: Tree, b: Tree) returns (both: bool, ra: nat, rb: nat)
      requires Valid() && Good(a, parts) && Good(b, parts) && !a.Empty() && !b.Empty()
      modifies this`parent, this`memo
      ensures Valid() && Coarser(old(parent), parent, order)
      ensures both ==> OneTree(parent, order, a, ra) && OneTree(parent, order, b, rb)
    {
      var ca;
      ca, ra := ConnectedRep(a);
      if !ca { return false, 0, 0; }
      ghost var p1 := parent;
      both, rb := ConnectedRep(b);
      CoarserTrans(old(parent), p1, parent, order);
      CoarserOneTree(p1, parent, order, a, ra);
    }
  }

  /** Every link between [plo, phi) and [lo, hi) has been joined. */
  ghost predicate BlockSolved(parts: seq<Particle>, rule: Rule, parent: seq<nat>, order: seq<nat>, plo: nat, phi: nat,
                              lo: nat, hi: nat)
    requires Ranked(parent, order) && |parts| == |parent|
  {
    forall p: nat, q: nat {:trigger Linked(parts[p], parts[q], rule)} ::
      plo <= p < phi && lo <= q < hi && p < |parts| && q < |parts| && Linked(parts[p], parts[q], rule) ==>
            Joined(parent, order, p, q)
  }

  lemma BlockNext(parts: seq<Particle>, rule: Rule, parent: seq<nat>, order: seq<nat>, p: nat, lo: nat, j: nat)
    requires Ranked(parent, order) && |parts| == |parent| && p < |parts| && j < |parts|
    requires BlockSolved(parts, rule, parent, order, p, p + 1, lo, j)
    requires (Linked(parts[p], parts[j], rule) ==> Joined(parent, order, p, j))
    ensures BlockSolved(parts, rule, parent, order, p, p + 1, lo, j + 1)
  {
  }

  /** Every link from [plo, phi) to a later index below hi has been joined. */
  ghost predicate HalfSolved(parts: seq<Particle>, rule: Rule, parent: seq<nat>, order: seq<nat>, plo: nat, phi: nat,
                             hi: nat)
    requires Ranked(parent, order) && |parts| == |parent|
  {
    forall p: nat, q: nat {:trigger Linked(parts[p], parts[q], rule)} ::
      plo <= p < phi && p < q < hi && q < |parts| && Linked(parts[p], parts[q], rule) ==> Joined(parent, order, p, q)
  }

  lemma CoarserBlock(parts: seq<Particle>, rule: Rule, before: seq<nat>, after: seq<nat>, order: seq<nat>, plo: nat,
                     phi: nat, lo: nat, hi: nat)
    requires Ranked(before, order) && Ranked(after, order) && Coarser(before, after, order) && |parts| == |order|
    requires BlockSolved(parts, rule, before, order, plo, phi, lo, hi)
    ensures BlockSolved(parts, rule, after, order, plo, phi, lo, hi)
  {
    forall p: nat, q: nat | plo <= p < phi && lo <= q < hi && p < |parts| && q < |parts| &&
          Linked(parts[p], parts[q], rule)
      ensures Joined(after, order, p, q)
    {
      assert Joined(before, order, p, q);
    }
  }

  lemma BlockGrows(parts: seq<Particle>, rule: Rule, before: seq<nat>, after: seq<nat>, order: seq<nat>, plo: nat,
                   phi: nat, lo: nat, hi: nat)
    requires Ranked(before, order) && Ranked(after, order) && Coarser(before, after, order) && |parts| == |order|
    requires BlockSolved(parts, rule, before, order, plo, phi, lo, hi)
    requires BlockSolved(parts, rule, after, order, phi, phi + 1, lo, hi)
    ensures BlockSolved(parts, rule, after, order, plo, phi + 1, lo, hi)
  {
    CoarserBlock(parts, rule, before, after, order, plo, phi, lo, hi);
  }

  lemma HalfGrows(parts: seq<Particle>, rule: Rule, before: seq<nat>, after: seq<nat>, order: seq<nat>, plo: nat,
                  phi: nat, hi: nat)
    requires Ranked(before, order) && Ranked(after, order) && Coarser(before, after, order) && |parts| == |order|
    requires HalfSolved(parts, rule, before, order, plo, phi, hi)
    requires BlockSolved(parts, rule, after, order, phi, phi + 1, phi + 1, hi)
    ensures HalfSolved(parts, rule, after, order, plo, phi + 1, hi)
  {
    forall p: nat, q: nat | plo <= p < phi && p < q < hi && q < |parts| && Linked(parts[p], parts[q], rule)
      ensures Joined(after, order, p, q)
    {
      assert Joined(before, order, p, q);
    }
  }

  lemma HalfSolvesLeaf(parts: seq<Particle>, rule: Rule, parent: seq<nat>, order: seq<nat>, a: Tree)
    requires Ranked(parent, order) && |parts| == |parent| && Good(a, parts) && a.Leaf?
    requires HalfSolved(parts, rule, parent, order, a.begin, a.begin + a.n, a.begin + a.n)
    ensures Solved(parts, rule, parent, order, a, a)
  {
    forall p: nat, q: nat | In(a, p) && In(a, q) && Linked(parts[p], parts[q], rule)
      ensures Joined(parent, order, p, q)
    {
      LinkedSymmetric(parts[p], parts[q], rule);
      if q < p { assert Joined(parent, order, q, p); }
    }
  }

  lemma WitnessJoins(parts: seq<Particle>, rule: Rule, parent: seq<nat>, order: seq<nat>, a: Tree, ra: nat, b: Tree,
                     rb: nat, i: nat, q: nat)
    requires Ranked(parent, order) && |parts| == |parent|
    requires OneTree(parent, order, a, ra) && OneTree(parent, order, b, rb)
    requires In(a, i) && In(b, q) && Joined(parent, order, i, q)
    ensures Solved(parts, rule, parent, order, a, b)
  {
    assert Joined(parent, order, i, ra) && Joined(parent, order, q, rb);
    OneTreeSolves(parts, rule, parent, order, a, ra, b, rb);
  }

  /** Every particle below t is connected to particle rep. */
  ghost predicate OneComponent(parts: seq<Particle>, rule: Rule, t: Tree, rep: nat)
    requires rep < |parts|
  {
    forall i: nat {:trigger In(t, i)} :: In(t, i) && i < |parts| ==>
      Conn(LinkGraph(parts, rule), parts[rep].order, parts[i].order)
  }

  lemma LeafMember(parts: seq<Particle>, rule: Rule, t: Tree, rep: nat, i: nat)
    requires Good(t, parts) && t.Leaf? && i < t.n && rep < |parts| && OneComponent(parts, rule, t, rep)
    ensures In(t, t.begin + i) && t.begin + i < |parts|
    ensures Conn(LinkGraph(parts, rule), parts[rep].order, parts[t.begin + i].order)
  {
    assert In(t, t.begin + i);
  }

  lemma OneComponentChild(parts: seq<Particle>, rule: Rule, t: Tree, k: nat, rep: nat)
    requires rep < |parts| && Good(t, parts) && t.Inner? && k < |t.children| && OneComponent(parts, rule, t, rep)
    ensures OneComponent(parts, rule, t.children[k], rep)
  {
    forall i: nat | In(t.children[k], i) && i < |parts|
      ensures Conn(LinkGraph(parts, rule), parts[rep].order, parts[i].order)
    {
      ChildBelow(t, parts, k, i);
    }
  }

  lemma OneTreeFromChildren(parts: seq<Particle>, parent: seq<nat>, order: seq<nat>, t: Tree, rep: nat)
    requires Ranked(parent, order) && Good(t, parts) && t.Inner?
    requires forall k :: 0 <= k < |t.children| && !t.children[k].Empty() ==> OneTree(parent, order, t.children[k], rep)
    ensures OneTree(parent, order, t, rep)
  {
    forall i: nat | In(t, i)
      ensures Joined(parent, order, i, rep)
    {
      var k := FindChild(t, parts, i);
      assert OneTree(parent, order, t.children[k], rep);
    }
  }

  ghost predicate AllLinked(parts: seq<Particle>, rule: Rule, a: Tree, b: Tree) {
    forall i: nat, j: nat {:trigger In(a, i), In(b, j)} ::
      In(a, i) && In(b, j) && i < |parts| && j < |parts| ==> Linked(parts[i], parts[j], rule)
  }

  /** Two internally connected nodes whose representatives share a root have nothing left to join. */
  lemma OneTreeSolves(parts: seq<Particle>, rule: Rule, parent: seq<nat>, order: seq<nat>, a: Tree, ra: nat, b: Tree,
                      rb: nat)
    requires Ranked(parent, order) && |parts| == |parent|
    requires OneTree(parent, order, a, ra) && OneTree(parent, order, b, rb)
    requires Joined(parent, order, ra, rb)
    ensures Solved(parts, rule, parent, order, a, b)
  {
    forall i: nat, j: nat | In(a, i) && In(b, j)
      ensures Joined(parent, order, i, j)
    {
      assert Joined(parent, order, i, ra) && Joined(parent, order, j, rb);
    }
  }

  /** A node all of whose pairs with a partner are links is connected through that partner, even
      when it is no clique itself. */
  lemma CertifiedNode(parts: seq<Particle>, rule: Rule, a: Tree, b: Tree)
    requires Good(a, parts) && Good(b, parts) && !a.Empty() && !b.Empty()
    requires AllLinked(parts, rule, a, b)
    ensures AllLinked(parts, rule, b, a)
    ensures First(a) < |parts| && OneComponent(parts, rule, a, First(a))
  {
    forall j: nat, i: nat | In(b, j) && In(a, i) && j < |parts| && i < |parts|
      ensures Linked(parts[j], parts[i], rule)
    {
      LinkedSymmetric(parts[i], parts[j], rule);
    }
    FirstIn(a, parts);
    FirstIn(b, parts);
    GoodMember(a, parts, First(a));
    GoodMember(b, parts, First(b));
    var L := LinkGraph(parts, rule);
    forall i: nat | In(a, i) && i < |parts|
      ensures Conn(L, parts[First(a)].order, parts[i].order)
    {
      assert Linked(parts[i], parts[First(b)], rule);
      LinkedConn(parts, rule, First(a), First(b));
      LinkedConn(parts, rule, i, First(b));
      ConnTrans(L, parts[First(a)].order, parts[First(b)].order, parts[i].order);
    }
  }

  lemma RootConn(parts: seq<Particle>, rule: Rule, parent: seq<nat>, order: seq<nat>, i: nat, j: nat)
    requires Ranked(parent, order) && |parts| == |parent| && Sound(parts, rule, parent, order)
    requires Joined(parent, order, i, j)
    ensures Conn(LinkGraph(parts, rule), order[i], order[j])
  {
    var L := LinkGraph(parts, rule);
    ConnSym(L, order[j], order[Root(parent, order, j)]);
    ConnTrans(L, order[i], order[Root(parent, order, i)], order[j]);
  }

  /** The memoised representatives of a certified pair need not lie below the nodes, but they are
      connected to what does. */
  lemma RepsConnected(parts: seq<Particle>, rule: Rule, parent: seq<nat>, order: seq<nat>, a: Tree, ra: nat, b: Tree,
                      rb: nat)
    requires Ranked(parent, order) && |parts| == |parent| && Sound(parts, rule, parent, order)
    requires forall i :: 0 <= i < |parts| ==> order[i] == parts[i].order
    requires Good(a, parts) && Good(b, parts) && !a.Empty() && !b.Empty() && AllLinked(parts, rule, a, b)
    requires OneTree(parent, order, a, ra) && OneTree(parent, order, b, rb) && ra < |parent| && rb < |parent|
    ensures Conn(LinkGraph(parts, rule), order[ra], order[rb])
  {
    var L := LinkGraph(parts, rule);
    var i, j := First(a), First(b);
    FirstIn(a, parts);
    FirstIn(b, parts);
    GoodMember(a, parts, i);
    GoodMember(b, parts, j);
    assert Joined(parent, order, i, ra) && Joined(parent, order, j, rb);
    RootConn(parts, rule, parent, order, ra, i);
    RootConn(parts, rule, parent, order, j, rb);
    assert Linked(parts[i], parts[j], rule);
    LinkedConn(parts, rule, i, j);
    ConnTrans(L, order[ra], order[i], order[j]);
    ConnTrans(L, order[ra], order[j], order[rb]);
  }

  lemma CoarserSolved(parts: seq<Particle>, rule: Rule, before: seq<nat>, after: seq<nat>, order: seq<nat>, a: Tree,
                      b: Tree)
    requires Ranked(before, order) && Ranked(after, order) && Coarser(before, after, order) && |parts| == |order|
    requires Solved(parts, rule, before, order, a, b)
    ensures Solved(parts, rule, after, order, a, b)
  {
    forall i: nat, j: nat | In(a, i) && In(b, j) && i < |parts| && j < |parts| && Linked(parts[i], parts[j], rule)
      ensures Joined(after, order, i, j)
    {
      assert Joined(before, order, i, j);
    }
  }

  lemma CoarserOneTree(before: seq<nat>, after: seq<nat>, order: seq<nat>, t: Tree, rep: nat)
    requires Ranked(before, order) && Ranked(after, order) && Coarser(before, after, order)
    requires OneTree(before, order, t, rep)
    ensures OneTree(after, order, t, rep)
  {
    forall i: nat | In(t, i)
      ensures Joined(after, order, i, rep)
    {
      assert Joined(before, order, i, rep);
    }
  }

  lemma OneTreeVia(parent: seq<nat>, order: seq<nat>, t: Tree, rep: nat, other: nat)
    requires Ranked(parent, order) && OneTree(parent, order, t, rep) && Joined(parent, order, rep, other)
    ensures OneTree(parent, order, t, other)
  {
    forall i: nat | In(t, i)
      ensures Joined(parent, order, i, other)
    {
      assert Joined(parent, order, i, rep);
    }
  }

  /** A particle of a leaf outside the tree of those before it. */
  lemma LeafSplit(before: seq<nat>, after: seq<nat>, order: seq<nat>, t: Tree, i: nat, rep: nat)
    requires Ranked(before, order) && Ranked(after, order) && Coarser(before, after, order)
    requires t.Leaf? && t.begin < i && In(t, i) && JoinedUpTo(before, order, t.begin, i, rep)
    requires i < |after| && rep < |after| && Root(after, order, i) != Root(after, order, rep)
    ensures !Whole(after, order, t)
  {
    assert Joined(before, order, t.begin, rep) && Joined(after, order, t.begin, rep);
    assert In(t, t.begin) && In(t, i) && !Joined(after, order, t.begin, i);
  }

  /** Two children in different trees. */
  lemma TwoTrees(parts: seq<Particle>, parent: seq<nat>, order: seq<nat>, t: Tree, k: nat, r: nat, l: nat, q: nat)
    requires Ranked(parent, order) && Good(t, parts) && t.Inner? && k < |t.children| && l < |t.children|
    requires !t.children[k].Empty() && !t.children[l].Empty()
    requires OneTree(parent, order, t.children[k], r) && OneTree(parent, order, t.children[l], q)
    requires !Joined(parent, order, r, q)
    ensures !Whole(parent, order, t)
  {
    var i, j := First(t.children[k]), First(t.children[l]);
    FirstIn(t.children[k], parts);
    FirstIn(t.children[l], parts);
    ChildBelow(t, parts, k, i);
    ChildBelow(t, parts, l, j);
    assert Joined(parent, order, i, r) && Joined(parent, order, j, q);
    assert In(t, i) && In(t, j) && !Joined(parent, order, i, j);
  }

  lemma SameRoots(parts: seq<Particle>, rule: Rule, before: seq<nat>, after: seq<nat>, order: seq<nat>,
                  memo: map<Tree, nat>)
    requires Ranked(before, order) && Ranked(after, order) && |parts| == |order|
    requires forall i: nat :: i < |after| ==> Root(after, order, i) == Root(before, order, i)
    ensures Coarser(before, after, order) && Coarser(after, before, order)
    ensures Sound(parts, rule, before, order) ==> Sound(parts, rule, after, order)
    ensures MemoHolds(memo, parts, before, order) ==> MemoHolds(memo, parts, after, order)
  {
    CoarserMemo(parts, before, after, order, memo);
  }

  lemma CoarserTrans(a: seq<nat>, b: seq<nat>, c: seq<nat>, order: seq<nat>)
    requires Ranked(a, order) && Ranked(b, order) && Ranked(c, order)
    requires Coarser(a, b, order) && Coarser(b, c, order)
    ensures Coarser(a, c, order)
  {
    forall i: nat, j: nat | Joined(a, order, i, j)
      ensures Joined(c, order, i, j)
    {
      assert Joined(b, order, i, j);
    }
  }

  /** Memo entries never go stale: unions only grow trees. */
  lemma CoarserMemo(parts: seq<Particle>, before: seq<nat>, after: seq<nat>, order: seq<nat>, memo: map<Tree, nat>)
    requires Ranked(before, order) && Ranked(after, order) && Coarser(before, after, order)
    ensures MemoHolds(memo, parts, before, order) ==> MemoHolds(memo, parts, after, order)
  {
    if MemoHolds(memo, parts, before, order) {
      forall t | t in memo
        ensures OneTree(after, order, t, memo[t])
      {
        forall i: nat | In(t, i)
          ensures Joined(after, order, i, memo[t])
        {
          assert Joined(before, order, i, memo[t]);
        }
      }
    }
  }

  /** Hanging x's root under y's joins exactly their two trees, soundly. */
  lemma UniteRoots(parts: seq<Particle>, rule: Rule, parent: seq<nat>, order: seq<nat>, memo: map<Tree, nat>, x: nat,
                   y: nat)
    requires Ranked(parent, order) && |parts| == |parent| && x < |parent| && y < |parent|
    requires Sound(parts, rule, parent, order) && MemoHolds(memo, parts, parent, order)
    requires Conn(LinkGraph(parts, rule), order[y], order[x])
    requires var rx, ry := Root(parent, order, x), Root(parent, order, y); order[ry] < order[rx]
    ensures var after := parent[Root(parent, order, x) := Root(parent, order, y)];
            && Ranked(after, order) && Sound(parts, rule, after, order) && MemoHolds(memo, parts, after, order)
            && Coarser(parent, after, order) && Joined(after, order, x, y)
  {
    var L := LinkGraph(parts, rule);
    var rx, ry := Root(parent, order, x), Root(parent, order, y);
    var after := parent[rx := ry];
    LinkMovesTree(parent, order, rx, ry, x);
    LinkMovesTree(parent, order, rx, ry, y);
    ConnSym(L, order[y], order[x]);
    ConnSym(L, order[x], order[rx]);
    ConnTrans(L, order[rx], order[x], order[y]);
    ConnTrans(L, order[rx], order[y], order[ry]);
    forall i: nat | i < |parent|
      ensures Conn(L, order[i], order[Root(after, order, i)])
    {
      LinkMovesTree(parent, order, rx, ry, i);
      if Root(parent, order, i) == rx { ConnTrans(L, order[i], order[rx], order[ry]); }
    }
    forall i: nat, j: nat | Joined(parent, order, i, j)
      ensures Joined(after, order, i, j)
    {
      LinkMovesTree(parent, order, rx, ry, i);
      LinkMovesTree(parent, order, rx, ry, j);
    }
    CoarserMemo(parts, parent, after, order, memo);
  }
}
