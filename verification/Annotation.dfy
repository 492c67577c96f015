/** FragData: the min / max fragment id and the particle count under a node, built by the leaf
    constructor loop and folded upwards.  `Uniform` is what the edge walks prune on. */
module Annotation {
  import opened Geometry
  import opened Trees

  const LONG_MAX: int := 0x7FFF_FFFF_FFFF_FFFF
  const LONG_MIN: int := -0x8000_0000_0000_0000

  datatype Frag = Frag(min: int, max: int, below: nat) {
    predicate Uniform() {
      min == max
    }
  }

  const IDENTITY := Frag(LONG_MAX, LONG_MIN, 0)

  ghost predicate Representable(tips: seq<int>) {
    forall i {:trigger tips[i]} :: 0 <= i < |tips| ==> LONG_MIN <= tips[i] <= LONG_MAX
  }

  /** f is the exact range and count of tips[lo..hi); an empty range keeps the identity. */
  ghost predicate Describes(f: Frag, tips: seq<int>, lo: nat, hi: nat)
    requires lo <= hi <= |tips|
  {
    && f.below == hi - lo
    && (forall i {:trigger tips[i]} :: lo <= i < hi ==> f.min <= tips[i] <= f.max)
    && (lo < hi ==> (exists i :: lo <= i < hi && tips[i] == f.min) && (exists i :: lo <= i < hi && tips[i] == f.max))
    && (lo == hi ==> f == IDENTITY)
  }

  /** The leaf constructor. */
  method FragOfLeaf(tips: seq<int>, begin: nat, n: nat) returns (f: Frag)
    requires begin + n <= |tips| && Representable(tips)
    ensures Describes(f, tips, begin, begin + n)
  {
    f := IDENTITY.(below := n);
    for i := begin to begin + n
      invariant Describes(f.(below := i - begin), tips, begin, i) && f.below == n
    {
      var g := tips[i];
      if g < f.min { f := f.(min := g); }
      if g > f.max { f := f.(max := g); }
    }
  }

  /** operator+=. */
  function Plus(a: Frag, b: Frag): Frag {
    Frag(if b.min < a.min then b.min else a.min, if b.max > a.max then b.max else a.max, a.below + b.below)
  }

  lemma PlusDescribes(a: Frag, b: Frag, tips: seq<int>, lo: nat, mid: nat, hi: nat)
    requires lo <= mid <= hi <= |tips| && Representable(tips)
    requires Describes(a, tips, lo, mid) && Describes(b, tips, mid, hi)
    ensures Describes(Plus(a, b), tips, lo, hi)
  {
    var c := Plus(a, b);
    if lo < mid {
      var i :| lo <= i < mid && tips[i] == a.min;
      var j :| lo <= j < mid && tips[j] == a.max;
      if mid < hi {
        var k :| mid <= k < hi && tips[k] == b.min;
        var l :| mid <= l < hi && tips[l] == b.max;
        assert tips[if b.min < a.min then k else i] == c.min;
        assert tips[if b.max > a.max then l else j] == c.max;
      }
    }
  }

  /** The annotations the nodes carry. */
  type Notes = map<Tree, Frag>

  ghost predicate NoteHolds(t: Tree, f: Frag, tips: seq<int>) {
    && (Count(t) > 0 ==> First(t) + Count(t) <= |tips| && Describes(f, tips, First(t), First(t) + Count(t)))
    && (Count(t) == 0 ==> f == IDENTITY)
  }

  ghost predicate NotesHold(notes: Notes, tips: seq<int>) {
    forall t {:trigger notes[t]} :: t in notes ==> NoteHolds(t, notes[t], tips)
  }

  /** The upward pass: annotate every node from what is below it. */
  method Annotate(t: Tree, tips: seq<int>, ghost parts: seq<Particle>, notes: Notes) returns (f: Frag, all: Notes)
    requires Good(t, parts) && |tips| == |parts| && Representable(tips) && NotesHold(notes, tips)
    ensures NoteHolds(t, f, tips) && NotesHold(all, tips)
    ensures t in all && all[t] == f && notes.Keys <= all.Keys
  {
    match t {
      case Leaf(_, begin, n) =>
        f := FragOfLeaf(tips, begin, n);
        all := notes;
      case Inner(_, cs) =>
        Spans(t, parts);
        f, all := AnnotateAll(cs, First(t), tips, parts, notes);
    }
    all := all[t := f];
  }

  lemma Spans(t: Tree, parts: seq<Particle>)
    requires Good(t, parts) && Count(t) > 0
    ensures First(t) + Count(t) <= |parts|
  {
    GoodMember(t, parts, First(t) + Count(t) - 1);
  }

  method AnnotateAll(ts: seq<Tree>, at: nat, tips: seq<int>, ghost parts: seq<Particle>, notes: Notes)
    returns (f: Frag, all: Notes)
    requires Adjoin(ts, at) && at + CountAll(ts) <= |tips| && |tips| == |parts| && Representable(tips)
    requires NotesHold(notes, tips) && forall c :: c in ts ==> Good(c, parts)
    ensures Describes(f, tips, at, at + CountAll(ts)) && NotesHold(all, tips)
    ensures notes.Keys <= all.Keys
  {
    if ts == [] { return IDENTITY, notes; }
    var g, some := Annotate(ts[0], tips, parts, notes);
    var h;
    h, all := AnnotateAll(ts[1..], at + Count(ts[0]), tips, parts, some);
    PlusDescribes(g, h, tips, at, at + Count(ts[0]), at + CountAll(ts));
    f := Plus(g, h);
  }

  /** What uniformity means: one fragment under the node, never true of an empty one. */
  lemma UniformMeansOneTip(f: Frag, tips: seq<int>, lo: nat, hi: nat)
    requires lo <= hi <= |tips| && Describes(f, tips, lo, hi)
    ensures f.Uniform() <==> lo < hi && forall i :: lo <= i < hi ==> tips[i] == f.min
  {
    if lo < hi {
      var i :| lo <= i < hi && tips[i] == f.max;
    }
  }

  /** Uniformity is hereditary. */
  lemma UniformBelow(f: Frag, g: Frag, tips: seq<int>, lo: nat, hi: nat, clo: nat, chi: nat)
    requires lo <= clo < chi <= hi <= |tips|
    requires Describes(f, tips, lo, hi) && Describes(g, tips, clo, chi) && f.Uniform()
    ensures g.Uniform() && g.min == f.min
  {
    UniformMeansOneTip(f, tips, lo, hi);
    UniformMeansOneTip(g, tips, clo, chi);
    assert tips[clo] == f.min;
  }
}
