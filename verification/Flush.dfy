/** The flush: sort the particles, and hand each splitter the run of keys in its range by two binary
    searches that never look back. */
module Flush {
  import opened Sorting
  import opened HostCells
  import opened HostSplit

  datatype Body = Body(key: nat, id: nat)

  datatype Send = Send(leaf: nat, bodies: seq<Body>)

  function AllSent(sends: seq<Send>): seq<Body> {
    if sends == [] then [] else AllSent(sends[..|sends| - 1]) + sends[|sends| - 1].bodies
  }

  ghost predicate KeySorted(s: seq<Body>) {
    forall i, j {:trigger s[i], s[j]} :: 0 <= i < j < |s| ==> s[i].key <= s[j].key
  }

  /** binarySearchComp: the first position in [start, finish) whose key is at least `check`. */
  method LowerBound(check: nat, s: seq<Body>, start: nat, finish: nat) returns (r: nat)
    requires start <= finish <= |s| && KeySorted(s)
    ensures start <= r <= finish
    ensures forall i {:trigger s[i]} :: start <= i < r ==> s[i].key < check
    ensures forall i {:trigger s[i]} :: r <= i < finish ==> check <= s[i].key
  {
    var lo, hi := start, finish;
    while lo < hi
      invariant start <= lo <= hi <= finish
      invariant forall i {:trigger s[i]} :: start <= i < lo ==> s[i].key < check
      invariant forall i {:trigger s[i]} :: hi <= i < finish ==> check <= s[i].key
    {
      var mid := lo + (hi - lo) / 2;
      if s[mid].key >= check { hi := mid; } else { lo := mid + 1; }
    }
    r := lo;
  }

  /** Keys strictly below cut lie before position p, all others from p on. */
  ghost predicate Cuts(s: seq<Body>, p: nat, cut: nat) {
    && p <= |s|
    && (forall i {:trigger s[i]} :: 0 <= i < p ==> s[i].key < cut)
    && (forall i {:trigger s[i]} :: p <= i < |s| ==> cut <= s[i].key)
  }

  /** What the first n splitters were sent: every send lies in its leaf's range, and together they are
      the sorted run from the first key of the space. */
  ghost predicate SentUpTo(sp: seq<Splitter>, s: seq<Body>, sends: seq<Send>, first: nat, start: nat) {
    && first <= start <= |s| && AllSent(sends) == s[first..start]
    && (forall k {:trigger sends[k]} :: 0 <= k < |sends| ==> sends[k].leaf < |sp| && InLeaf(sp, sends[k]))
  }

  ghost predicate InLeaf(sp: seq<Splitter>, x: Send)
    requires x.leaf < |sp|
  {
    forall b {:trigger b in x.bodies} :: b in x.bodies ==> sp[x.leaf].from <= b.key < sp[x.leaf].to
  }

  lemma SendOne(sp: seq<Splitter>, s: seq<Body>, sends: seq<Send>, first: nat, begin: nat, i: nat, end: nat)
    requires SentUpTo(sp, s, sends, first, begin) && i < |sp| && begin <= end <= |s|
    requires forall k {:trigger s[k]} :: begin <= k < end ==> sp[i].from <= s[k].key < sp[i].to
    ensures SentUpTo(sp, s, if begin < end then sends + [Send(i, s[begin..end])] else sends, first, end)
  {
    if begin < end {
      SentSnoc(sends, Send(i, s[begin..end]));
      assert s[first..begin] + s[begin..end] == s[first..end];
      SliceIn(s, begin, end, sp[i].from, sp[i].to);
    }
  }

  lemma SentSnoc(sends: seq<Send>, x: Send)
    ensures AllSent(sends + [x]) == AllSent(sends) + x.bodies
  {
    assert (sends + [x])[..|sends|] == sends;
  }

  lemma SliceIn(s: seq<Body>, begin: nat, end: nat, from: nat, to: nat)
    requires begin <= end <= |s| && forall k {:trigger s[k]} :: begin <= k < end ==> from <= s[k].key < to
    ensures forall b {:trigger b in s[begin..end]} :: b in s[begin..end] ==> from <= b.key < to
  {
    forall b | b in s[begin..end]
      ensures from <= b.key < to
    {
      var k :| 0 <= k < end - begin && s[begin..end][k] == b;
      assert s[begin + k] == b;
    }
  }

  /** Where splitter i's predecessor ends: the start of the space for the first. */
  function Edge(sp: seq<Splitter>, i: nat): nat
    requires i <= |sp|
  {
    if i == 0 then BASE else sp[i - 1].to
  }

  /** The first i splitters have been served, up to position `at`. */
  ghost predicate Reached(sp: seq<Splitter>, s: seq<Body>, sends: seq<Send>, count: int, first: nat, at: nat, i: nat)
    requires i <= |sp|
  {
    SentUpTo(sp, s, sends, first, at) && count == at - first && Cuts(s, at, Edge(sp, i)) && Cuts(s, first, BASE)
  }

  lemma ReachNext(sp: seq<Splitter>, s: seq<Body>, sends: seq<Send>, count: int, first: nat, begin: nat, i: nat,
                  end: nat)
    requires i < |sp| && Reached(sp, s, sends, count, first, begin, i) && Edge(sp, i) == sp[i].from && KeySorted(s)
    requires begin <= end <= |s| && Cuts(s, begin, sp[i].from)
    requires (forall k {:trigger s[k]} :: begin <= k < end ==>
          s[k].key < sp[i].to) && forall k {:trigger s[k]} :: end <= k < |s| ==> sp[i].to <= s[k].key
    requires sp[i].from <= sp[i].to
    ensures Reached(sp, s, if begin < end then sends + [Send(i, s[begin..end])]
          else sends, count + (end - begin), first, end, i + 1)
  {
    SendOne(sp, s, sends, first, begin, i, end);
  }

  lemma WindowSent(sp: seq<Splitter>, s: seq<Body>, sends: seq<Send>, count: int, first: nat, at: nat)
    requires Tiling(sp) && Reached(sp, s, sends, count, first, at, |sp|)
    ensures Window(s, first, at) && AllSent(sends) == s[first..at] && count == |AllSent(sends)|
  {
    if sp != [] { assert Abuts(sp, |sp| - 1); }
  }

  method Flush(particles: seq<Body>, sp: seq<Splitter>) returns (sends: seq<Send>, count: nat)
    requires Tiling(sp)
    ensures forall k {:trigger sends[k]} :: 0 <= k < |sends| ==> sends[k].leaf < |sp| && InLeaf(sp, sends[k])
    ensures multiset(AllSent(sends)) <= multiset(particles) && count == |AllSent(sends)|
    ensures forall b {:trigger multiset(AllSent(sends))[b]} ::
          multiset(AllSent(sends))[b] == if InSpace(b) then multiset(particles)[b] else 0
    ensures count == |particles| <==> forall b {:trigger b in particles} :: b in particles ==> InSpace(b)
  {
    var s := SortBy(particles, (b: Body) => b.key);
    SortedKeys(s);
    sends, count := SendAll(s, sp);
    ghost var first: nat, at: nat :| Window(s, first, at) && AllSent(sends) == s[first..at];
    SentExactly(particles, s, first, at, AllSent(sends));
  }

  /** One splitter: the run of keys in its range, sent if there is any. */
  method ServeLeaf(s: seq<Body>, sp: seq<Splitter>, i: nat, start: nat, sends: seq<Send>, count: nat,
                   ghost first: nat, ghost at: nat)
    returns (more: seq<Send>, total: nat, end: nat)
    requires Tiling(sp) && KeySorted(s) && i < |sp| && start <= at && Reached(sp, s, sends, count, first, at, i)
    ensures at <= end && Reached(sp, s, more, total, first, end, i + 1)
  {
    assert Abuts(sp, i) && (i > 0 ==> Abuts(sp, i - 1));
    var begin := LowerBound(sp[i].from, s, start, |s|);
    SamePosition(s, begin, at, sp[i].from, start);
    end := LowerBound(sp[i].to, s, begin, |s|);
    ReachNext(sp, s, sends, count, first, begin, i, end);
    more, total := sends, count;
    if end - begin > 0 {
      more := sends + [Send(i, s[begin..end])];
      total := count + (end - begin);
    }
  }

  /** The loop over the splitters. */
  method SendAll(s: seq<Body>, sp: seq<Splitter>) returns (sends: seq<Send>, count: nat)
    requires Tiling(sp) && KeySorted(s)
    ensures forall k {:trigger sends[k]} :: 0 <= k < |sends| ==> sends[k].leaf < |sp| && InLeaf(sp, sends[k])
    ensures count == |AllSent(sends)| && exists first: nat, at: nat {:trigger Window(s, first, at)} ::
          Window(s, first, at) && AllSent(sends) == s[first..at]
  {
    var start := 0;
    sends, count := [], 0;
    ghost var first := LowerBound(BASE, s, 0, |s|);
    ghost var at := first;
    for i := 0 to |sp|
      invariant start == (if i == 0 then 0 else at) && start <= at
      invariant Reached(sp, s, sends, count, first, at, i)
    {
      var more, total, end := ServeLeaf(s, sp, i, start, sends, count, first, at);
      sends, count, start, at := more, total, end, end;
    }
    WindowSent(sp, s, sends, count, first, at);
  }

  lemma SortedKeys(s: seq<Body>)
    requires SortedBy(s, (b: Body) => b.key)
    ensures KeySorted(s)
  {
    var key := (b: Body) => b.key;
    forall i, j | 0 <= i < j < |s|
      ensures s[i].key <= s[j].key
    {
      assert key(s[i]) <= key(s[j]);
    }
  }

  /** Both searches stop at the same place. */
  lemma SamePosition(s: seq<Body>, begin: nat, at: nat, cut: nat, start: nat)
    requires start <= begin <= |s| && Cuts(s, at, cut) && start <= at
    requires forall i {:trigger s[i]} :: start <= i < begin ==> s[i].key < cut
    requires forall i {:trigger s[i]} :: begin <= i < |s| ==> cut <= s[i].key
    ensures begin == at
  {
    assert begin < |s| ==> cut <= s[begin].key;
    assert at < |s| ==> cut <= s[at].key;
  }

  ghost predicate InSpace(b: Body) {
    BASE <= b.key < TOP - 1
  }

  /** s[first..end] is what lies in the space. */
  ghost predicate Window(s: seq<Body>, first: nat, end: nat) {
    && first <= end <= |s|
    && (forall i {:trigger s[i]} :: first <= i < end ==> InSpace(s[i]))
    && (forall i {:trigger s[i]} :: 0 <= i < first || end <= i < |s| ==> !InSpace(s[i]))
  }

  lemma WindowCounts(s: seq<Body>, first: nat, end: nat, b: Body)
    requires Window(s, first, end)
    ensures multiset(s[first..end])[b] == if InSpace(b) then multiset(s)[b] else 0
  {
    var pre, mid, post := s[..first], s[first..end], s[end..];
    assert s == pre + mid + post;
    assert multiset(s)[b] == multiset(pre)[b] + multiset(mid)[b] + multiset(post)[b];
    if InSpace(b) {
      forall k | 0 <= k < |pre| ensures pre[k] != b { assert pre[k] == s[k]; }
      forall k | 0 <= k < |post| ensures post[k] != b { assert post[k] == s[end + k]; }
    } else {
      forall k | 0 <= k < |mid| ensures mid[k] != b { assert mid[k] == s[first + k]; }
    }
  }

  lemma WindowWhole(s: seq<Body>, first: nat, end: nat)
    requires Window(s, first, end)
    ensures end - first == |s| <==> forall b {:trigger b in s} :: b in s ==> InSpace(b)
  {
    if end - first == |s| {
      forall b | b in s ensures InSpace(b) { var k :| 0 <= k < |s| && s[k] == b; }
    } else if first > 0 {
      assert s[0] in s;
    } else {
      assert s[end] in s;
    }
  }

  lemma SentExactly(particles: seq<Body>, s: seq<Body>, first: nat, end: nat, sent: seq<Body>)
    requires multiset(s) == multiset(particles) && |s| == |particles| && Window(s, first, end) && sent == s[first..end]
    ensures multiset(sent) <= multiset(particles)
    ensures forall b {:trigger multiset(sent)[b]} ::
          multiset(sent)[b] == if InSpace(b) then multiset(particles)[b] else 0
    ensures |sent| == |particles| <==> forall b {:trigger b in particles} :: b in particles ==> InSpace(b)
  {
    forall b: Body { WindowCounts(s, first, end, b); }
    forall b ensures b in particles <==> b in s { SameMembers(particles, s, b); }
    WindowWhole(s, first, end);
  }

  /** The leaf is unique: the tiling puts a key in one range. */
  lemma OneLeaf(sp: seq<Splitter>, i: nat, j: nat, key: nat)
    requires Tiling(sp) && i < |sp| && j < |sp| && sp[i].from <= key < sp[i].to && sp[j].from <= key < sp[j].to
    ensures i == j
  {
    if i < j { EdgesRise(sp, i, j); }
    if j < i { EdgesRise(sp, j, i); }
  }

  lemma {:induction false} EdgesRise(sp: seq<Splitter>, i: nat, j: nat)
    requires Tiling(sp) && i < j < |sp|
    ensures sp[i].to <= sp[j].from
    decreases j
  {
    assert Abuts(sp, j - 1);
    if i < j - 1 { EdgesRise(sp, i, j - 1); }
  }

  /** The top key, 2^64 - 1, lies in no splitter's range: the clamp that keeps the last end from wrapping
      leaves it out. */
  lemma TopKeyLost(sp: seq<Splitter>, i: nat)
    requires Tiling(sp) && i < |sp|
    ensures !(sp[i].from <= TOP - 1 < sp[i].to)
  {
    if i + 1 < |sp| {
      assert Abuts(sp, i);
      LastStarts(sp, i + 1);
    }
  }

  lemma {:induction false} LastStarts(sp: seq<Splitter>, i: nat)
    requires Tiling(sp) && i < |sp|
    ensures sp[i].from <= TOP - 1
    decreases |sp| - i
  {
    assert Abuts(sp, i);
    if i + 1 < |sp| { LastStarts(sp, i + 1); }
  }
}
