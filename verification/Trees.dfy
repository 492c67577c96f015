/** A piece's local octree over its contiguous, key-sorted block of particles.  A child slot that
    is null or an empty leaf holds no particle; both are the empty leaf here.  `begin` counts in the
    flat index space of the PE that holds the piece. */
module Trees {
  import opened Geometry

  datatype Tree = Leaf(box: Box, begin: nat, n: nat) | Inner(box: Box, children: seq<Tree>) {
    /** The code's `n_particles == 0`: inner nodes carry -1 there, so only an empty leaf passes. */
    predicate Empty() {
      Leaf? && n == 0
    }
  }

  function Count(t: Tree): nat {
    match t
    case Leaf(_, _, n) => n
    case Inner(_, cs) => CountAll(cs)
  }

  function CountAll(ts: seq<Tree>): nat {
    if ts == [] then 0 else Count(ts[0]) + CountAll(ts[1..])
  }

  function Size(t: Tree): (r: nat)
    ensures r > 0
  {
    match t
    case Leaf(_, _, _) => 1
    case Inner(_, cs) => 1 + SizeAll(cs)
  }

  function SizeAll(ts: seq<Tree>): nat {
    if ts == [] then 0 else Size(ts[0]) + SizeAll(ts[1..])
  }

  /** Flat index of the first particle below t. */
  function First(t: Tree): nat {
    match t
    case Leaf(_, begin, _) => begin
    case Inner(_, cs) => FirstOf(cs)
  }

  function FirstOf(ts: seq<Tree>): nat {
    if ts == [] then 0 else if Count(ts[0]) > 0 then First(ts[0]) else FirstOf(ts[1..])
  }

  predicate In(t: Tree, i: int) {
    First(t) <= i < First(t) + Count(t)
  }

  /** The blocks of ts follow one another from `at` on. */
  predicate Adjoin(ts: seq<Tree>, at: nat) {
    ts == [] || ((Count(ts[0]) > 0 ==> First(ts[0]) == at) && Adjoin(ts[1..], at + Count(ts[0])))
  }

  /** What the tree build leaves behind: boxes enclose what is below, blocks are contiguous in
      child order, and an inner node is never all empty. */
  ghost predicate Good(t: Tree, parts: seq<Particle>) {
    match t
    case Leaf(box, begin, n) =>
      begin + n <= |parts| && forall i :: begin <= i < begin + n ==> Within(parts[i].pos, box)
    case Inner(box, cs) =>
      && Count(t) > 0
      && Adjoin(cs, First(t))
      && forall c :: c in cs ==> Good(c, parts) && (Count(c) > 0 ==> Inside(c.box, box))
  }

  lemma CountSplit(ts: seq<Tree>, k: nat)
    requires k <= |ts|
    ensures CountAll(ts) == CountAll(ts[..k]) + CountAll(ts[k..])
    decreases k
  {
    if k > 0 {
      CountSplit(ts[1..], k - 1);
      assert ts[1..][..k - 1] == ts[..k][1..];
      assert ts[1..][k - 1..] == ts[k..];
    } else {
      assert ts[..0] == [] && ts[0..] == ts;
    }
  }

  lemma {:induction false} AdjoinAt(ts: seq<Tree>, at: nat, k: nat)
    requires Adjoin(ts, at) && k < |ts|
    ensures Count(ts[k]) > 0 ==> First(ts[k]) == at + CountAll(ts[..k])
  {
    if k > 0 {
      AdjoinAt(ts[1..], at + Count(ts[0]), k - 1);
      assert ts[1..][..k - 1] == ts[..k][1..];
    }
  }

  lemma ChildBelow(t: Tree, parts: seq<Particle>, k: nat, i: int)
    requires Good(t, parts) && t.Inner? && k < |t.children| && In(t.children[k], i)
    ensures In(t, i)
  {
    AdjoinAt(t.children, First(t), k);
    CountSplit(t.children, k);
    assert t.children[k..][0] == t.children[k];
  }

  lemma {:induction false} LocateIn(ts: seq<Tree>, at: nat, i: nat) returns (k: nat)
    requires Adjoin(ts, at) && at <= i < at + CountAll(ts)
    ensures k < |ts| && Count(ts[k]) > 0 && In(ts[k], i)
  {
    if i < at + Count(ts[0]) {
      k := 0;
    } else {
      k := LocateIn(ts[1..], at + Count(ts[0]), i);
      k := k + 1;
    }
  }

  /** A particle below an inner node lies below exactly one of its non-empty children. */
  lemma FindChild(t: Tree, parts: seq<Particle>, i: nat) returns (k: nat)
    requires Good(t, parts) && t.Inner? && In(t, i)
    ensures k < |t.children| && Count(t.children[k]) > 0 && In(t.children[k], i)
  {
    k := LocateIn(t.children, First(t), i);
  }

  lemma {:induction false} GoodMember(t: Tree, parts: seq<Particle>, i: nat)
    requires Good(t, parts) && In(t, i)
    ensures i < |parts| && Within(parts[i].pos, t.box)
  {
    match t
    case Leaf(_, _, _) =>
    case Inner(_, cs) =>
      var k := FindChild(t, parts, i);
      GoodMember(cs[k], parts, i);
  }

  lemma {:induction false} FirstIn(t: Tree, parts: seq<Particle>)
    requires Good(t, parts) && !t.Empty()
    ensures In(t, First(t))
  {
  }

  lemma {:induction false} BoxProper(t: Tree, parts: seq<Particle>)
    requires Good(t, parts) && !t.Empty()
    ensures Within(t.box.lo, t.box) && Within(t.box.hi, t.box)
  {
    GoodMember(t, parts, First(t));
  }

  lemma SizeOfChild(ts: seq<Tree>, k: nat)
    requires k < |ts|
    ensures Size(ts[k]) <= SizeAll(ts)
  {
    if k > 0 { SizeOfChild(ts[1..], k - 1); }
  }
}
