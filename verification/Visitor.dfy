/** The cross-process edge visitor: open, cell and leaf over a process-wide SEEN table, and the dual
    walk's treatment of one stack entry at a time. */
module Visitor {
  import opened Geometry
  import opened Trees
  import opened Linking
  import opened Annotation
  import opened PhaseAWalk
  import opened PhaseA
  import Phase3

  type Key = nat
  type TipPair = (nat, nat)

  /** packTipPair: the unordered pair, smaller tip first. */
  function Pack(x: nat, y: nat): TipPair {
    Phase3.Sorted((x, y))
  }

  /** What the walkers of one process see.  The source is the whole tree by key (child c of key k has
      key 8k + c); `mine` marks this process's particles. */
  datatype View = View(
    source: Key -> Tree, parts: seq<Particle>, rule: Rule, tips: seq<nat>, notes: Notes,
    mine: nat -> bool, local: Key -> bool,        // particles and source nodes of this process
    pieceOf: nat -> int, piece: Key -> int,       // tree piece of a particle; of a node, or -1
    keep: (int, int) -> bool)                     // (target piece, source piece): does the target's side keep the pair?
  {
    ghost predicate Ok() {
      && |tips| == |parts| && AllReached(parts, rule) && NotesHold(notes, tips)
      && (forall k {:trigger source(k)} :: Good(source(k), parts))
      && (forall k: nat, c: nat {:trigger source(k).children[c]} :: source(k).Inner? && c < |source(k).children| ==>
            c < 8 && source(8 * k + c) == source(k).children[c])
      && (forall k, i: nat {:trigger In(source(k), i), local(k)} :: local(k) && In(source(k), i) ==> mine(i))
      && (forall k, i: nat {:trigger In(source(k), i), piece(k)} :: piece(k) >= 0 && In(source(k), i) ==>
            pieceOf(i) == piece(k))
    }

    predicate Uniform(t: Tree) {
      t in notes && notes[t].Uniform()
    }

    function TipOf(t: Tree): (tip: nat)
      requires Uniform(t)
    {
      var m := notes[t].min;
      if m < 0 then 0 else m
    }

    /** The witness pairs element e must find: linked, tips apart, source elsewhere, kept on e's side. */
    ghost predicate Owed(e: int, target: Tree, i: nat, j: nat)
    {
      && i < |parts| && j < |parts| && |tips| == |parts| && In(source(1), i) && In(target, j)
      && Linked(parts[i], parts[j], rule) && tips[i] != tips[j] && !mine(i) && (pieceOf(i) == e || keep(e, pieceOf(i)))
    }

    /** A piece's node of this process: what a walk may carry as a target. */
    ghost predicate Target(t: Tree) {
      Good(t, parts) && forall j: nat {:trigger In(t, j)} :: In(t, j) ==> mine(j)
    }

    /** Some linked pair has these tips, and its second particle is this process's. */
    ghost predicate Witnessed(p: TipPair) {
      && |tips| == |parts|
      && exists i: nat, j: nat {:trigger Linked(parts[i], parts[j], rule)} ::
           && i < |parts| && j < |parts| && Linked(parts[i], parts[j], rule)
           && Pack(tips[i], tips[j]) == p && tips[i] != tips[j] && mine(j)
    }
  }

  // ---- open and cell.

  datatype Verdict = Prune | Certificate(g: nat, f: nat) | Descend

  /** open(): prune on equal tips, on a SEEN pair, on the positive certificate (which emits) and on the
      negative one; else descend. */
  function Opened(v: View, seen: set<TipPair>, s: Tree, t: Tree): Verdict {
    if v.Uniform(s) && v.Uniform(t) && v.TipOf(s) == v.TipOf(t) then Prune
    else if v.Uniform(s) && v.Uniform(t) && Pack(v.TipOf(s), v.TipOf(t)) in seen then Prune
    else if v.Uniform(s) && v.Uniform(t) && !v.rule.Periodic() && !s.Empty() && !t.Empty() &&
          MaxDist2(s.box, t.box) <= v.rule.b2 then
      Certificate(v.TipOf(s), v.TipOf(t))
    else if MinDist2(s.box, t.box, v.rule.period) > v.rule.b2 then Prune
    else Descend
  }

  /** cell(): the same verdict as a pure predicate. */
  predicate Cell(v: View, seen: set<TipPair>, s: Tree, t: Tree) {
    if v.Uniform(s) && v.Uniform(t)
       && (v.TipOf(s) == v.TipOf(t) || Pack(v.TipOf(s), v.TipOf(t)) in seen
           || (!v.rule.Periodic() && !s.Empty() && !t.Empty() && MaxDist2(s.box, t.box) <= v.rule.b2))
    then false
    else MinDist2(s.box, t.box, v.rule.period) <= v.rule.b2
  }

  /** cell mirrors open, and what it rejects stays rejected: between the two calls other lanes can only
      add to SEEN. */
  lemma CellThenOpen(v: View, seen: set<TipPair>, later: set<TipPair>, s: Tree, t: Tree)
    requires seen <= later
    ensures Cell(v, seen, s, t) <==> Opened(v, seen, s, t).Descend?
    ensures !Cell(v, seen, s, t) ==> !Opened(v, later, s, t).Descend?
  {
  }

  // ---- Stack entries.

  /** Pair: doTrav's (source, target).  Inverted: runInvertedTraversal's target against a fixed source.
      Scan: the particle loops of leaf() from particles a, b on.  Emit: SEEN won, edge not yet added. */
  datatype Item = Pair(k: Key, t: Tree) | Inverted(k: Key, t: Tree) | Scan(k: Key, t: Tree, a: nat, b: nat,
        uni: bool) | Emit(p: TipPair)

  function SourceKids(k: Key, n: nat, t: Tree): seq<Item> {
    seq(n, (c: nat) => Pair(8 * k + c, t))
  }

  function TargetKids(k: Key, cs: seq<Tree>, inverted: bool): seq<Item> {
    seq(|cs|, c requires 0 <= c < |cs| => if inverted then Inverted(k, cs[c]) else Pair(k, cs[c]))
  }

  /** What handling the top entry pushes, and the SEEN table after it.  `splitSource` is the depth rule
      of the alternating split; the pushing order is immaterial. */
  function Expand(v: View, e: int, seen: set<TipPair>, x: Item, splitSource: bool): (seq<Item>, set<TipPair>) {
    match x
    case Pair(k, t) =>
      var s := v.source(k);
      if t.Empty() || v.local(k) || (v.piece(k) >= 0 && v.piece(k) != e && !v.keep(e, v.piece(k))) then ([], seen)
      else if s.Leaf? then (if t.Leaf? then LeafVisit(v, seen, k, t) else ([Inverted(k, t)], seen))
      else if t.Leaf? then OpenItem(v, seen, k, t, SourceKids(k, |s.children|, t))
      else if !Cell(v, seen, s, t) then ([Inverted(k, t)], seen)
      else (if splitSource then SourceKids(k, |s.children|, t) else TargetKids(k, t.children, false), seen)
    case Inverted(k, t) =>
      if t.Leaf? then LeafVisit(v, seen, k, t) else OpenItem(v, seen, k, t, TargetKids(k, t.children, true))
    case Scan(k, t, _, _, _) => ScanStep(v, seen, v.source(k), x)
    case Emit(_) => ([], seen)
  }

  function OpenItem(v: View, seen: set<TipPair>, k: Key, t: Tree, kids: seq<Item>): (seq<Item>, set<TipPair>) {
    match Opened(v, seen, v.source(k), t)
    case Prune => ([], seen)
    case Certificate(g, f) => ([Emit(Pack(g, f))], seen + {Pack(g, f)})
    case Descend => (kids, seen)
  }

  /** leaf(): the box gate, the uniform early exits, else the particle loop. */
  function LeafVisit(v: View, seen: set<TipPair>, k: Key, t: Tree): (seq<Item>, set<TipPair>) {
    var s := v.source(k);
    if MinDist2(s.box, t.box, v.rule.period) > v.rule.b2 then ([], seen)
    else if v.Uniform(s) && v.Uniform(t) then
      if v.TipOf(s) == v.TipOf(t) || Pack(v.TipOf(s), v.TipOf(t)) in seen then ([], seen)
            else ([Scan(k, t, 0, 0, true)], seen)
    else ([Scan(k, t, 0, 0, false)], seen)
  }

  /** One particle pair of the loop: trySeenInsert on a witness; a uniform pair stops at its first. */
  function ScanStep(v: View, seen: set<TipPair>, s: Tree, x: Item): (seq<Item>, set<TipPair>)
    requires x.Scan?
  {
    var t := x.t;
    if !s.Leaf? || !t.Leaf? || x.a >= s.n then ([], seen)
    else if x.b >= t.n then ([x.(a := x.a + 1, b := 0)], seen)
    else
      var i, j := s.begin + x.a, t.begin + x.b;
      var next := x.(b := x.b + 1);
      if i >= |v.parts| || j >= |v.parts| || |v.tips| != |v.parts| ||
            !Linked(v.parts[i], v.parts[j], v.rule) then ([next], seen)
      else
        var p := Pack(v.tips[i], v.tips[j]);
        if x.uni then (if p in seen then ([], seen) else ([Emit(p)], seen + {p}))
        else if v.tips[i] == v.tips[j] || p in seen then ([next], seen)
        else ([next, Emit(p)], seen + {p})
  }

  // ---- What an entry still covers, and when it is well formed.

  ghost predicate Covers(v: View, x: Item, i: nat, j: nat) {
    match x
    case Pair(k, t) => In(v.source(k), i) && In(t, j)
    case Inverted(k, t) => In(v.source(k), i) && In(t, j)
    case Scan(k, t, a, b, _) =>
      && v.source(k).Leaf? && t.Leaf? && In(v.source(k), i) && In(t, j)
      && (i - v.source(k).begin > a || (i - v.source(k).begin == a && j - t.begin >= b))
    case Emit(_) => false
  }

  ghost predicate Fit(v: View, seen: set<TipPair>, x: Item) {
    match x
    case Pair(k, t) => v.Target(t)
    case Inverted(k, t) => v.Target(t) && (v.source(k).Inner? ==> t.Inner? && !Opened(v, seen, v.source(k), t).Descend?)
    case Scan(k, t, _, _, uni) =>
      && v.source(k).Leaf? && t.Leaf? && v.Target(t)
      && (uni ==> v.Uniform(v.source(k)) && v.Uniform(t) && v.TipOf(v.source(k)) != v.TipOf(t))
    case Emit(p) => p in seen
  }

  /** Entries stay well formed while SEEN grows. */
  lemma FitGrows(v: View, seen: set<TipPair>, later: set<TipPair>, x: Item)
    requires seen <= later && Fit(v, seen, x)
    ensures Fit(v, later, x)
  {
  }

  ghost predicate Handled(v: View, seen: set<TipPair>, push: seq<Item>, i: nat, j: nat)
    requires i < |v.tips| && j < |v.tips|
  {
    Pack(v.tips[i], v.tips[j]) in seen || exists q {:trigger push[q]} :: 0 <= q < |push| && Covers(v, push[q], i, j)
  }

  lemma UniformTips(v: View, t: Tree, i: nat)
    requires v.Ok() && v.Uniform(t) && Good(t, v.parts) && In(t, i)
    ensures i < |v.tips| && v.tips[i] == v.TipOf(t)
  {
    GoodMember(t, v.parts, i);
    assert NoteHolds(t, v.notes[t], v.tips);
    UniformMeansOneTip(v.notes[t], v.tips, First(t), First(t) + Count(t));
  }

  lemma UniformNonEmpty(v: View, t: Tree)
    requires v.Ok() && v.Uniform(t) && Good(t, v.parts)
    ensures In(t, First(t)) && Count(t) > 0
  {
    assert NoteHolds(t, v.notes[t], v.tips);
    if Count(t) > 0 { UniformMeansOneTip(v.notes[t], v.tips, First(t), First(t) + Count(t)); }
  }

  /** Where open prunes or certifies, no owed pair below is lost. */
  lemma OpenedCovers(v: View, seen: set<TipPair>, k: Key, t: Tree, kids: seq<Item>, i: nat, j: nat)
    requires v.Ok() && Good(t, v.parts) && In(v.source(k), i) && In(t, j)
    requires i < |v.parts| && j < |v.parts| && Linked(v.parts[i], v.parts[j], v.rule) && v.tips[i] != v.tips[j]
    ensures !Opened(v, seen, v.source(k), t).Descend? ==> Pack(v.tips[i], v.tips[j]) in OpenItem(v, seen, k, t, kids).1
  {
    var s := v.source(k);
    if v.Uniform(s) { UniformTips(v, s, i); }
    if v.Uniform(t) { UniformTips(v, t, j); }
    if MinDist2(s.box, t.box, v.rule.period) > v.rule.b2 { FarApart(v.parts, v.rule, s, t); }
  }

  lemma LeafCovers(v: View, seen: set<TipPair>, k: Key, t: Tree, i: nat, j: nat)
    requires v.Ok() && Good(t, v.parts) && v.source(k).Leaf? && t.Leaf? && In(v.source(k), i) && In(t, j)
    requires i < |v.parts| && j < |v.parts| && Linked(v.parts[i], v.parts[j], v.rule) && v.tips[i] != v.tips[j]
    ensures Handled(v, seen, LeafVisit(v, seen, k, t).0, i, j)
  {
    var s := v.source(k);
    var push := LeafVisit(v, seen, k, t).0;
    if v.Uniform(s) { UniformTips(v, s, i); }
    if v.Uniform(t) { UniformTips(v, t, j); }
    if MinDist2(s.box, t.box, v.rule.period) > v.rule.b2 { FarApart(v.parts, v.rule, s, t); }
    if push != [] {
      assert Covers(v, push[0], i, j);
    }
  }

  /** The scan's position passes (i, j) only when the pair is tested there. */
  lemma ScanPosition(v: View, x: Item, next: Item, i: nat, j: nat)
    requires x.Scan? && Covers(v, x, i, j)
    requires next == (if x.b >= x.t.n then x.(a := x.a + 1, b := 0) else x.(b := x.b + 1))
    requires !(i == v.source(x.k).begin + x.a && j == x.t.begin + x.b)
    ensures Covers(v, next, i, j)
  {
  }

  lemma ScanUniform(v: View, seen: set<TipPair>, x: Item, i: nat, j: nat)
    requires v.Ok() && x.Scan? && x.uni && Fit(v, seen, x) && x.a < v.source(x.k).n && x.b < x.t.n
    requires In(v.source(x.k), i) && In(x.t, j)
    ensures var p, q := v.source(x.k).begin + x.a, x.t.begin + x.b;
            i < |v.tips| && j < |v.tips| && p < |v.tips| && q < |v.tips| && v.tips[p] == v.tips[i] &&
                  v.tips[q] == v.tips[j]
  {
    var s, t := v.source(x.k), x.t;
    UniformTips(v, s, i);
    UniformTips(v, t, j);
    UniformTips(v, s, s.begin + x.a);
    UniformTips(v, t, t.begin + x.b);
  }

  lemma ScanCovers(v: View, seen: set<TipPair>, x: Item, i: nat, j: nat)
    requires v.Ok() && x.Scan? && Fit(v, seen, x) && Covers(v, x, i, j)
    requires i < |v.parts| && j < |v.parts| && Linked(v.parts[i], v.parts[j], v.rule) && v.tips[i] != v.tips[j]
    ensures var r := ScanStep(v, seen, v.source(x.k), x); Handled(v, r.1, r.0, i, j)
  {
    var s, t := v.source(x.k), x.t;
    var push := ScanStep(v, seen, s, x).0;
    if x.uni && x.b < t.n { ScanUniform(v, seen, x, i, j); }
    if push != [] && push[0].Scan? && !(i == s.begin + x.a && j == t.begin + x.b) {
      ScanPosition(v, x, push[0], i, j);
    }
  }

  // ---- One entry handled.

  lemma SourceKidsCover(v: View, k: Key, t: Tree, i: nat, j: nat)
    requires v.Ok() && v.source(k).Inner? && In(v.source(k), i) && In(t, j)
    ensures exists q {:trigger SourceKids(k, |v.source(k).children|, t)[q]} ::
              0 <= q < |v.source(k).children| && Covers(v, SourceKids(k, |v.source(k).children|, t)[q], i, j)
  {
    var c := FindChild(v.source(k), v.parts, i);
    assert v.source(8 * k + c) == v.source(k).children[c];
    assert SourceKids(k, |v.source(k).children|, t)[c] == Pair(8 * k + c, t);
  }

  lemma TargetKidsCover(v: View, k: Key, t: Tree, inverted: bool, i: nat, j: nat)
    requires v.Ok() && Good(t, v.parts) && t.Inner? && In(v.source(k), i) && In(t, j)
    ensures exists q {:trigger TargetKids(k, t.children, inverted)[q]} ::
              0 <= q < |t.children| && Covers(v, TargetKids(k, t.children, inverted)[q], i, j)
  {
    var c := FindChild(t, v.parts, j);
    assert Covers(v, TargetKids(k, t.children, inverted)[c], i, j);
  }

  /** Nothing owed is lost when an entry is handled: the pair's tips are SEEN or some pushed entry
      still covers the pair. */
  lemma ExpandCovers(v: View, e: int, target: Tree, seen: set<TipPair>, x: Item, splitSource: bool, i: nat, j: nat)
    requires v.Ok() && Fit(v, seen, x) && Covers(v, x, i, j) && v.Owed(e, target, i, j)
    ensures var r := Expand(v, e, seen, x, splitSource); Handled(v, r.1, r.0, i, j)
  {
    match x
    case Pair(k, t) =>
      var s := v.source(k);
      if t.Empty() || v.local(k) || (v.piece(k) >= 0 && v.piece(k) != e && !v.keep(e, v.piece(k))) {
      } else if s.Leaf? {
        if t.Leaf? {
          LeafCovers(v, seen, k, t, i, j);
        } else {
          assert Covers(v, Expand(v, e, seen, x, splitSource).0[0], i, j);
        }
      } else if t.Leaf? {
        OpenedCovers(v, seen, k, t, SourceKids(k, |s.children|, t), i, j);
        SourceKidsCover(v, k, t, i, j);
      } else if !Cell(v, seen, s, t) {
        assert Covers(v, Expand(v, e, seen, x, splitSource).0[0], i, j);
      } else if splitSource {
        SourceKidsCover(v, k, t, i, j);
      } else {
        TargetKidsCover(v, k, t, false, i, j);
      }
    case Inverted(k, t) =>
      if t.Leaf? {
        LeafCovers(v, seen, k, t, i, j);
      } else {
        OpenedCovers(v, seen, k, t, TargetKids(k, t.children, true), i, j);
        TargetKidsCover(v, k, t, true, i, j);
      }
    case Scan(k, t, _, _, _) =>
      ScanCovers(v, seen, x, i, j);
    case Emit(_) =>
  }

  ghost predicate AllFit(v: View, seen: set<TipPair>, xs: seq<Item>) {
    forall q {:trigger xs[q]} :: 0 <= q < |xs| ==> Fit(v, seen, xs[q])
  }

  lemma ChildTargets(v: View, t: Tree)
    requires v.Target(t)
    ensures t.Inner? ==> forall c {:trigger t.children[c]} :: 0 <= c < |t.children| ==> v.Target(t.children[c])
  {
    if t.Inner? {
      forall c, j: nat | 0 <= c < |t.children| && In(t.children[c], j)
        ensures v.mine(j)
      {
        ChildBelow(t, v.parts, c, j);
      }
    }
  }

  /** Pushed entries are well formed; in particular a pair cell rejected carries its rejection. */
  lemma ExpandFits(v: View, e: int, seen: set<TipPair>, x: Item, splitSource: bool)
    requires v.Ok() && Fit(v, seen, x)
    ensures var r := Expand(v, e, seen, x, splitSource); AllFit(v, r.1, r.0)
  {
    match x
    case Pair(k, t) =>
      CellThenOpen(v, seen, seen, v.source(k), t);
      ChildTargets(v, t);
    case Inverted(k, t) =>
      ChildTargets(v, t);
    case Scan(k, t, _, _, _) =>
    case Emit(_) =>
  }

  /** One insertion at most, new, witnessed by a linked pair, and with its edge pushed right away. */
  ghost predicate Inserts(v: View, seen: set<TipPair>, push: seq<Item>, after: set<TipPair>) {
    && (forall q {:trigger push[q]} :: 0 <= q < |push| && push[q].Emit? ==>
          push[q].p !in seen && after == seen + {push[q].p} && v.Witnessed(push[q].p))
    && (forall q, r {:trigger push[q], push[r]} :: 0 <= q < r < |push| ==> !(push[q].Emit? && push[r].Emit?))
    && (after != seen ==> exists q {:trigger push[q]} :: 0 <= q < |push| && push[q].Emit?)
  }

  lemma CertificateWitnessed(v: View, seen: set<TipPair>, k: Key, t: Tree)
    requires v.Ok() && v.Target(t) && Opened(v, seen, v.source(k), t).Certificate?
    ensures v.Witnessed(Pack(v.TipOf(v.source(k)), v.TipOf(t))) && v.TipOf(v.source(k)) != v.TipOf(t)
  {
    var s := v.source(k);
    AllNear(v.parts, v.rule, s, t);
    UniformNonEmpty(v, s);
    UniformNonEmpty(v, t);
    var i, j := First(s), First(t);
    UniformTips(v, s, i);
    UniformTips(v, t, j);
    assert Linked(v.parts[i], v.parts[j], v.rule);
  }

  lemma OpenInserts(v: View, seen: set<TipPair>, k: Key, t: Tree, kids: seq<Item>)
    requires v.Ok() && v.Target(t) && forall q {:trigger kids[q]} :: 0 <= q < |kids| ==> !kids[q].Emit?
    ensures var r := OpenItem(v, seen, k, t, kids); Inserts(v, seen, r.0, r.1)
  {
    if Opened(v, seen, v.source(k), t).Certificate? {
      CertificateWitnessed(v, seen, k, t);
      assert OpenItem(v, seen, k, t, kids).0[0].Emit?;
    }
  }

  lemma ScanWitness(v: View, seen: set<TipPair>, x: Item, i: nat, j: nat)
    requires v.Ok() && x.Scan? && Fit(v, seen, x) && x.a < v.source(x.k).n && x.b < x.t.n
    requires i == v.source(x.k).begin + x.a && j == x.t.begin + x.b && i < |v.parts| && j < |v.parts|
    requires Linked(v.parts[i], v.parts[j], v.rule) && (x.uni || v.tips[i] != v.tips[j])
    ensures v.Witnessed(Pack(v.tips[i], v.tips[j]))
  {
    assert In(x.t, j);
    if x.uni {
      UniformTips(v, v.source(x.k), i);
      UniformTips(v, x.t, j);
    }
  }

  lemma ScanInserts(v: View, seen: set<TipPair>, x: Item)
    requires v.Ok() && x.Scan? && Fit(v, seen, x)
    ensures var r := ScanStep(v, seen, v.source(x.k), x); Inserts(v, seen, r.0, r.1)
  {
    var r := ScanStep(v, seen, v.source(x.k), x);
    if r.1 == seen {
      forall q | 0 <= q < |r.0| ensures !r.0[q].Emit? { }
    } else {
      var i, j := v.source(x.k).begin + x.a, x.t.begin + x.b;
      ScanWitness(v, seen, x, i, j);
      var p := Pack(v.tips[i], v.tips[j]);
      if x.uni {
        InsertsOne(v, seen, [Emit(p)], 0, p);
      } else {
        InsertsOne(v, seen, [x.(b := x.b + 1), Emit(p)], 1, p);
      }
    }
  }

  lemma InsertsOne(v: View, seen: set<TipPair>, push: seq<Item>, at: nat, p: TipPair)
    requires at < |push| && push[at] == Emit(p) && p !in seen && v.Witnessed(p)
    requires forall q {:trigger push[q]} :: 0 <= q < |push| && q != at ==> !push[q].Emit?
    ensures Inserts(v, seen, push, seen + {p})
  {
  }

  lemma ExpandInserts(v: View, e: int, seen: set<TipPair>, x: Item, splitSource: bool)
    requires v.Ok() && Fit(v, seen, x)
    ensures var r := Expand(v, e, seen, x, splitSource); Inserts(v, seen, r.0, r.1)
  {
    match x
    case Pair(k, t) =>
      if v.source(k).Inner? { OpenInserts(v, seen, k, t, SourceKids(k, |v.source(k).children|, t)); }
    case Inverted(k, t) =>
      if t.Inner? { OpenInserts(v, seen, k, t, TargetKids(k, t.children, true)); }
    case Scan(k, t, _, _, _) =>
      ScanInserts(v, seen, x);
    case Emit(_) =>
  }

  // ---- What the prunes keep out.

  /** Element e may see node k: it is not the process's own, and if it lies in one piece, e keeps the pair. */
  predicate Kept(v: View, e: int, k: Key) {
    !v.local(k) && (v.piece(k) >= 0 && v.piece(k) != e ==> v.keep(e, v.piece(k)))
  }

  predicate Vetted(v: View, e: int, x: Item) {
    x.Inverted? || x.Scan? ==> Kept(v, e, x.k)
  }

  /** Past the two prunes: only a kept source is tested against particles or inserts anything, and an empty target or
      a source not kept is dropped. */
  lemma ExpandVets(v: View, e: int, seen: set<TipPair>, x: Item, splitSource: bool)
    requires Vetted(v, e, x)
    ensures var r := Expand(v, e, seen, x, splitSource);
            && (forall q {:trigger r.0[q]} :: 0 <= q < |r.0| ==> Vetted(v, e, r.0[q]))
            && (r.1 != seen ==> Kept(v, e, x.k))
            && (x.Pair? && (x.t.Empty() || !Kept(v, e, x.k)) ==> r == ([], seen))
  {
    match x
    case Pair(k, t) =>
    case Inverted(k, t) =>
    case Scan(k, t, _, _, _) =>
    case Emit(_) =>
  }
}
