/** The transposed walk with pauses: one descent for all buckets at once, deferring local work when the
    counters trip and remote work until the node arrives.  Whatever is deferred, and in whatever order
    it comes back, no (source, bucket) visit is lost or made twice. */
module Transposed {

  type Key = nat

  datatype Src = SLeaf(key: Key) | SEmpty(key: Key) | SInner(key: Key, children: seq<Src>)

  datatype Visit = LeafVisit(source: Key, bucket: nat) | NodeVisit(source: Key, bucket: nat)

  /** The visitor: a pure open test, the self-leaf rule, and the tree by key. */
  datatype Walk = Walk(opens: (Key, nat) -> bool, callSelf: bool, leafKey: nat -> Key, source: Key -> Src,
        local: Key -> bool) {
    function Opened(k: Key, bs: set<nat>): set<nat> {
      set b | b in bs && opens(k, b)
    }

    function LeafVisits(k: Key, bs: set<nat>): set<Visit> {
      set b | b in bs && (callSelf || leafKey(b) != k) :: LeafVisit(k, b)
    }

    function NodeVisits(k: Key, bs: set<nat>): set<Visit> {
      set b | b in bs && !opens(k, b) :: NodeVisit(k, b)
    }
  }

  /** The uninterrupted recursion's visits. */
  function Visits(w: Walk, t: Src, bs: set<nat>): multiset<Visit> {
    match t
    case SLeaf(k) => multiset(w.LeafVisits(k, bs))
    case SEmpty(_) => multiset{}
    case SInner(k, cs) => multiset(w.NodeVisits(k, bs)) + VisitsAll(w, cs, w.Opened(k, bs))
  }

  function VisitsAll(w: Walk, ts: seq<Src>, bs: set<nat>): multiset<Visit> {
    if ts == [] then multiset{} else Visits(w, ts[0], bs) + VisitsAll(w, ts[1..], bs)
  }

  lemma {:induction false} NoBuckets(w: Walk, t: Src)
    ensures Visits(w, t, {}) == multiset{}
    decreases t, 1
  {
    match t
    case SLeaf(k) => assert w.LeafVisits(k, {}) == {};
    case SEmpty(_) =>
    case SInner(k, cs) =>
      assert w.NodeVisits(k, {}) == {} && w.Opened(k, {}) == {};
      NoBucketsAll(w, cs);
  }

  lemma {:induction false} NoBucketsAll(w: Walk, ts: seq<Src>)
    ensures VisitsAll(w, ts, {}) == multiset{}
    decreases ts, 0
  {
    if ts != [] {
      NoBuckets(w, ts[0]);
      NoBucketsAll(w, ts[1..]);
    }
  }

  lemma {:induction false} VisitsSplit(w: Walk, ts: seq<Src>, k: nat, bs: set<nat>)
    requires k < |ts|
    ensures VisitsAll(w, ts[..k + 1], bs) == VisitsAll(w, ts[..k], bs) + Visits(w, ts[k], bs)
  {
    if k == 0 {
      var none: seq<Src> := ts[..1][1..];
      assert none == [] && ts[..1] == [ts[0]];
      assert VisitsAll(w, ts[..1], bs) == Visits(w, ts[0], bs) + VisitsAll(w, none, bs);
      assert ts[..0] == [];
    } else {
      VisitsSplit(w, ts[1..], k - 1, bs);
      assert ts[1..][..k] == ts[..k + 1][1..] && ts[1..][..k - 1] == ts[..k][1..];
    }
  }

  // ---- Regions of the tree.

  predicate Within(t: Src, k: Key) {
    match t
    case SLeaf(key) => k == key
    case SEmpty(key) => k == key
    case SInner(key, cs) => k == key || WithinAny(cs, k)
  }

  predicate WithinAny(ts: seq<Src>, k: Key) {
    ts != [] && (Within(ts[0], k) || WithinAny(ts[1..], k))
  }

  lemma {:induction false} WithinMember(ts: seq<Src>, c: nat, k: Key)
    requires c < |ts| && Within(ts[c], k)
    ensures WithinAny(ts, k)
  {
    if c > 0 { WithinMember(ts[1..], c - 1, k); }
  }

  ghost predicate Disjoint(s: Src, t: Src) {
    forall k {:trigger Within(s, k)} {:trigger Within(t, k)} :: !(Within(s, k) && Within(t, k))
  }

  /** Keys are unique, and looking a key up finds the node. */
  ghost predicate WellKeyed(w: Walk, t: Src) {
    && w.source(t.key) == t
    && (t.SInner? ==>
          && (forall c {:trigger t.children[c]} :: 0 <= c < |t.children| ==>
                WellKeyed(w, t.children[c]) && !Within(t.children[c], t.key))
          && (forall c, d {:trigger t.children[c], t.children[d]} :: 0 <= c < d < |t.children| ==>
                Disjoint(t.children[c], t.children[d])))
  }

  type Paused = (Src, set<nat>)

  function Nodes(w: Walk, ks: seq<Key>): (r: seq<Src>)
    ensures |r| == |ks| && forall i {:trigger r[i]} :: 0 <= i < |ks| ==> r[i] == w.source(ks[i])
  {
    seq(|ks|, i requires 0 <= i < |ks| => w.source(ks[i]))
  }

  function Heads(ps: seq<Paused>): (r: seq<Src>)
    ensures |r| == |ps| && forall i {:trigger r[i]} :: 0 <= i < |ps| ==> r[i] == ps[i].0
  {
    seq(|ps|, i requires 0 <= i < |ps| => ps[i].0)
  }

  /** The parts of the tree still owed: nodes waited for, and nodes whose children are paused. */
  function Regions(w: Walk, ks: seq<Key>, ps: seq<Paused>): seq<Src> {
    Nodes(w, ks) + Heads(ps)
  }

  ghost predicate Apart(w: Walk, ks: seq<Key>, ps: seq<Paused>) {
    forall i: int, j: int {:trigger PairApart(w, ks, ps, i, j)} :: PairApart(w, ks, ps, i, j)
  }

  ghost predicate PairApart(w: Walk, ks: seq<Key>, ps: seq<Paused>, i: int, j: int) {
    0 <= i < j < |Regions(w, ks, ps)| ==> Disjoint(Regions(w, ks, ps)[i], Regions(w, ks, ps)[j])
  }

  ghost predicate AllIn(w: Walk, ks: seq<Key>, ps: seq<Paused>, t: Src) {
    forall i: int {:trigger InsideAt(w, ks, ps, i, t)} :: InsideAt(w, ks, ps, i, t)
  }

  ghost predicate InsideAt(w: Walk, ks: seq<Key>, ps: seq<Paused>, i: int, t: Src) {
    0 <= i < |Regions(w, ks, ps)| ==> Inside(Regions(w, ks, ps)[i], t)
  }

  ghost predicate Inside(s: Src, t: Src) {
    forall k {:trigger Within(s, k)} :: Within(s, k) ==> Within(t, k)
  }

  /** Each owed region lies in one of the first c trees. */
  ghost predicate AllHeld(w: Walk, ks: seq<Key>, ps: seq<Paused>, ts: seq<Src>, c: nat)
    requires c <= |ts|
  {
    forall i: int {:trigger HeldAt(w, ks, ps, i, ts, c)} :: HeldAt(w, ks, ps, i, ts, c)
  }

  ghost predicate HeldAt(w: Walk, ks: seq<Key>, ps: seq<Paused>, i: int, ts: seq<Src>, c: nat)
    requires c <= |ts|
  {
    0 <= i < |Regions(w, ks, ps)| ==> Holder(ts, c, Regions(w, ks, ps)[i])
  }

  /** r lies in one of the first c trees. */
  ghost predicate Holder(ts: seq<Src>, c: nat, r: Src)
    requires c <= |ts|
  {
    exists d {:trigger ts[d]} :: 0 <= d < c && Inside(r, ts[d])
  }

  function Waiting(w: Walk, ks: seq<Key>, curr: map<Key, set<nat>>): multiset<Visit> {
    if ks == [] then multiset{} else
      (if ks[0] in curr then Visits(w, w.source(ks[0]), curr[ks[0]]) else multiset{}) + Waiting(w, ks[1..], curr)
  }

  function PausedVisits(w: Walk, ps: seq<Paused>): multiset<Visit> {
    if ps == [] then multiset{} else
      (if ps[0].0.SInner? then VisitsAll(w, ps[0].0.children, ps[0].1) else multiset{}) + PausedVisits(w, ps[1..])
  }

  lemma {:induction false} WaitingConcat(w: Walk, x: seq<Key>, y: seq<Key>, curr: map<Key, set<nat>>)
    ensures Waiting(w, x + y, curr) == Waiting(w, x, curr) + Waiting(w, y, curr)
  {
    if x == [] {
      assert x + y == y;
    } else {
      WaitingConcat(w, x[1..], y, curr);
      assert (x + y)[1..] == x[1..] + y;
    }
  }

  lemma {:induction false} PausedConcat(w: Walk, x: seq<Paused>, y: seq<Paused>)
    ensures PausedVisits(w, x + y) == PausedVisits(w, x) + PausedVisits(w, y)
  {
    if x == [] {
      assert x + y == y;
    } else {
      PausedConcat(w, x[1..], y);
      assert (x + y)[1..] == x[1..] + y;
    }
  }

  lemma {:induction false} WaitingSame(w: Walk, ks: seq<Key>, x: map<Key, set<nat>>, y: map<Key, set<nat>>)
    requires forall k {:trigger k in ks} :: k in ks ==> (k in x <==> k in y) && (k in x ==> x[k] == y[k])
    ensures Waiting(w, ks, x) == Waiting(w, ks, y)
  {
    if ks != [] {
      assert ks[0] in ks && forall k :: k in ks[1..] ==> k in ks;
      WaitingSame(w, ks[1..], x, y);
    }
  }

  ghost predicate Extends(x: map<Key, set<nat>>, y: map<Key, set<nat>>) {
    forall k {:trigger k in x} :: k in x ==> k in y && y[k] == x[k]
  }

  ghost predicate KeysOf(ks: seq<Key>, curr: map<Key, set<nat>>) {
    forall k {:trigger k in ks} {:trigger k in curr} :: k in ks <==> k in curr
  }

  /** None of t is set aside. */
  ghost predicate Clear(curr: map<Key, set<nat>>, t: Src) {
    forall k {:trigger k in curr} :: k in curr ==> !Within(t, k)
  }

  /** t may be walked: what is set aside is elsewhere, or is t itself, now here. */
  ghost predicate Ready(w: Walk, t: Src, remote: set<Key>, curr: map<Key, set<nat>>) {
    WellKeyed(w, t) && Room(t, remote, curr)
  }

  ghost predicate Room(t: Src, remote: set<Key>, curr: map<Key, set<nat>>) {
    (t.key in remote ==> t.key !in curr) && (t.SInner? ==> ClearBelow(curr, t.children))
  }

  ghost predicate ClearBelow(curr: map<Key, set<nat>>, ts: seq<Src>) {
    forall k {:trigger k in curr} :: k in curr ==> !WithinAny(ts, k)
  }

  ghost predicate AddsOnly(x: map<Key, set<nat>>, y: map<Key, set<nat>>, ks: seq<Key>) {
    forall k {:trigger k in y} :: k in y ==> k in x || k in ks
  }

  /** k is no longer waited for; other waits stand, and new ones are for nodes not here. */
  ghost predicate TookUp(k: Key, x: map<Key, set<nat>>, y: map<Key, set<nat>>, remote: set<Key>) {
    && k !in y && (forall j {:trigger j in y} :: j in y ==> j in remote || j in x)
    && (forall j {:trigger j in x} :: j in x && j != k ==> j in y && y[j] == x[j])
  }

  ghost predicate TookUpAll(ks: set<Key>, x: map<Key, set<nat>>, y: map<Key, set<nat>>, remote: set<Key>) {
    && (forall j {:trigger j in ks} :: j in ks ==> j !in remote)
    && (forall j {:trigger j in y} :: j in y ==> j !in ks && (j in remote || j in x))
    && (forall j {:trigger j in x} :: j in x && j !in ks ==> j in y && y[j] == x[j])
  }

  lemma TookUpNext(ks: set<Key>, x: map<Key, set<nat>>, y: map<Key, set<nat>>, z: map<Key, set<nat>>, k: Key,
                   remote: set<Key>)
    requires TookUpAll(ks, x, y, remote) && TookUp(k, y, z, remote) && k !in remote
    ensures TookUpAll(ks + {k}, x, z, remote)
  {
  }

  ghost predicate Longer(x: map<Key, set<nat>>, y: map<Key, set<nat>>, remote: set<Key>) {
    Extends(x, y) && forall j {:trigger j in y} :: j in y ==> j in x || j in remote
  }

  lemma TookUpLess(k: Key, x: map<Key, set<nat>>, y: map<Key, set<nat>>, remote: set<Key>)
    requires Longer(x, y, remote)
    ensures TookUp(k, x, y - {k}, remote)
  {
  }

  function SetOf(ks: seq<Key>): set<Key> {
    set k | k in ks
  }

  lemma SetNext(ks: seq<Key>, n: nat)
    requires n < |ks|
    ensures SetOf(ks[..n + 1]) == SetOf(ks[..n]) + {ks[n]}
  {
    assert ks[..n + 1] == ks[..n] + [ks[n]];
  }

  ghost predicate Kept(x: map<Key, set<nat>>, y: map<Key, set<nat>>, ks: seq<Key>) {
    Extends(x, y) && AddsOnly(x, y, ks)
  }

  lemma KeptNext(x: map<Key, set<nat>>, y: map<Key, set<nat>>, z: map<Key, set<nat>>, ks: seq<Key>, ks2: seq<Key>)
    requires Kept(x, y, ks) && Kept(y, z, ks2)
    ensures Kept(x, z, ks + ks2)
  {
  }

  // ---- What one descent leaves behind.

  ghost predicate Sound(w: Walk, ks: seq<Key>, curr: map<Key, set<nat>>, ps: seq<Paused>) {
    && (forall i {:trigger ks[i]} :: 0 <= i < |ks| ==>
          ks[i] in curr && WellKeyed(w, w.source(ks[i])) && w.source(ks[i]).key == ks[i])
    && (forall i {:trigger ps[i]} :: 0 <= i < |ps| ==> ps[i].0.SInner? && WellKeyed(w, ps[i].0))
  }

  /** Waits and pauses lie apart in t, and can be looked up. */
  ghost predicate Laid(w: Walk, t: Src, ks: seq<Key>, curr: map<Key, set<nat>>, ps: seq<Paused>) {
    Apart(w, ks, ps) && AllIn(w, ks, ps, t) && Sound(w, ks, curr, ps)
  }

  ghost predicate LaidIn(w: Walk, ts: seq<Src>, c: nat, ks: seq<Key>, curr: map<Key, set<nat>>, ps: seq<Paused>)
    requires c <= |ts|
  {
    Apart(w, ks, ps) && AllHeld(w, ks, ps, ts, c) && Sound(w, ks, curr, ps)
  }

  /** A descent below t did `made`, and left the waits ks and the pauses ps, all in t and apart. */
  ghost predicate Leaves(w: Walk, t: Src, bs: set<nat>, made: multiset<Visit>, ks: seq<Key>, curr: map<Key, set<nat>>,
                         ps: seq<Paused>) {
    && made + Waiting(w, ks, curr) + PausedVisits(w, ps) == Visits(w, t, bs)
    && Laid(w, t, ks, curr, ps)
  }

  /** The same for the children of an opened node, c of them done. */
  ghost predicate LeavesAll(w: Walk, ts: seq<Src>, c: nat, bs: set<nat>, made: multiset<Visit>, ks: seq<Key>,
                            curr: map<Key, set<nat>>, ps: seq<Paused>)
    requires c <= |ts|
  {
    && made + Waiting(w, ks, curr) + PausedVisits(w, ps) == VisitsAll(w, ts[..c], bs)
    && LaidIn(w, ts, c, ks, curr, ps)
  }

  ghost predicate SiblingsApart(ts: seq<Src>) {
    forall c, d {:trigger ts[c], ts[d]} :: 0 <= c < d < |ts| ==> Disjoint(ts[c], ts[d])
  }

  lemma KeyWithin(w: Walk, t: Src)
    requires WellKeyed(w, t)
    ensures Within(t, t.key)
  {
  }

  /** One more child's leavings. */
  lemma LeavesNext(w: Walk, ts: seq<Src>, c: nat, bs: set<nat>, made: multiset<Visit>, ks: seq<Key>, curr: map<Key,
                   set<nat>>, ps: seq<Paused>,
                   more: multiset<Visit>, ks2: seq<Key>, curr2: map<Key, set<nat>>, ps2: seq<Paused>)
    requires c < |ts| && SiblingsApart(ts) && LeavesAll(w, ts, c, bs, made, ks, curr, ps)
    requires Leaves(w, ts[c], bs, more, ks2, curr2, ps2)
    requires Extends(curr, curr2)
    ensures LeavesAll(w, ts, c + 1, bs, made + more, ks + ks2, curr2, ps + ps2)
  {
    VisitsSplit(w, ts, c, bs);
    OwedJoin(w, ks, curr, ps, ks2, curr2, ps2);
    RegionsNext(w, ts, c, ks, ps, ks2, ps2);
    SoundMore(w, ks, curr, ps, curr2);
    SoundJoin(w, ks, curr2, ps, ks2, ps2);
  }

  lemma OwedJoin(w: Walk, ks: seq<Key>, curr: map<Key, set<nat>>, ps: seq<Paused>, ks2: seq<Key>, curr2: map<Key,
                 set<nat>>, ps2: seq<Paused>)
    requires Extends(curr, curr2) && forall k {:trigger k in ks} :: k in ks ==> k in curr
    ensures Waiting(w, ks + ks2, curr2) == Waiting(w, ks, curr) + Waiting(w, ks2, curr2)
    ensures PausedVisits(w, ps + ps2) == PausedVisits(w, ps) + PausedVisits(w, ps2)
  {
    WaitingConcat(w, ks, ks2, curr2);
    WaitingSame(w, ks, curr, curr2);
    PausedConcat(w, ps, ps2);
  }

  lemma SoundMore(w: Walk, ks: seq<Key>, curr: map<Key, set<nat>>, ps: seq<Paused>, curr2: map<Key, set<nat>>)
    requires Sound(w, ks, curr, ps) && Extends(curr, curr2)
    ensures Sound(w, ks, curr2, ps)
  {
  }

  lemma RegionAt(w: Walk, ks: seq<Key>, ps: seq<Paused>, ks2: seq<Key>, ps2: seq<Paused>, i: nat)
    returns (j: nat, second: bool)
    requires i < |Regions(w, ks + ks2, ps + ps2)|
    ensures second ==> j < |Regions(w, ks2, ps2)| && Regions(w, ks2, ps2)[j] == Regions(w, ks + ks2, ps + ps2)[i]
    ensures !second ==> j < |Regions(w, ks, ps)| && Regions(w, ks, ps)[j] == Regions(w, ks + ks2, ps + ps2)[i]
    ensures i == (if second then (if j < |ks2| then |ks| + j else |ks| + |ps| + j)
          else (if j < |ks| then j else |ks2| + j))
  {
    if i < |ks| { j, second := i, false; }
    else if i < |ks| + |ks2| { j, second := i - |ks|, true; }
    else if i < |ks| + |ks2| + |ps| { j, second := i - |ks2|, false; }
    else { j, second := i - |ks| - |ps|, true; }
  }

  lemma RegionsNext(w: Walk, ts: seq<Src>, c: nat, ks: seq<Key>, ps: seq<Paused>, ks2: seq<Key>, ps2: seq<Paused>)
    requires c < |ts| && SiblingsApart(ts) && Apart(w, ks, ps) && Apart(w, ks2, ps2) && AllIn(w, ks2, ps2, ts[c])
    requires AllHeld(w, ks, ps, ts, c)
    ensures Apart(w, ks + ks2, ps + ps2) && AllHeld(w, ks + ks2, ps + ps2, ts, c + 1)
  {
    var all := Regions(w, ks + ks2, ps + ps2);
    forall i: int {:trigger HeldAt(w, ks + ks2, ps + ps2, i, ts, c + 1)}
      ensures HeldAt(w, ks + ks2, ps + ps2, i, ts, c + 1)
    {
      if 0 <= i < |all| {
        var j, second := RegionAt(w, ks, ps, ks2, ps2, i);
        if second {
          assert InsideAt(w, ks2, ps2, j, ts[c]);
        } else {
          assert HeldAt(w, ks, ps, j, ts, c);
        }
      }
    }
    forall i: int, h: int
      ensures PairApart(w, ks + ks2, ps + ps2, i, h)
    {
      if 0 <= i < h < |all| { PairNext(w, ts, c, ks, ps, ks2, ps2, i, h); }
    }
  }

  lemma PairNext(w: Walk, ts: seq<Src>, c: nat, ks: seq<Key>, ps: seq<Paused>, ks2: seq<Key>, ps2: seq<Paused>,
                 i: nat, h: nat)
    requires c < |ts| && SiblingsApart(ts) && Apart(w, ks, ps) && Apart(w, ks2, ps2) && AllIn(w, ks2, ps2, ts[c])
    requires AllHeld(w, ks, ps, ts, c)
    requires i < h < |Regions(w, ks + ks2, ps + ps2)|
    ensures PairApart(w, ks + ks2, ps + ps2, i, h)
  {
    var all := Regions(w, ks + ks2, ps + ps2);
    var j, sj := RegionAt(w, ks, ps, ks2, ps2, i);
    var g, sg := RegionAt(w, ks, ps, ks2, ps2, h);
    if sj && sg {
      assert PairApart(w, ks2, ps2, j, g);
    } else if !sj && !sg {
      assert PairApart(w, ks, ps, j, g);
    } else if sj {
      assert InsideAt(w, ks2, ps2, j, ts[c]) && HeldAt(w, ks, ps, g, ts, c);
      AcrossChildren(ts, c, all[h], all[i]);
    } else {
      assert InsideAt(w, ks2, ps2, g, ts[c]) && HeldAt(w, ks, ps, j, ts, c);
      AcrossChildren(ts, c, all[i], all[h]);
    }
  }

  lemma AcrossChildren(ts: seq<Src>, c: nat, r: Src, q: Src)
    requires c < |ts| && SiblingsApart(ts) && Holder(ts, c, r) && Inside(q, ts[c])
    ensures Disjoint(r, q) && Disjoint(q, r)
  {
    var d :| 0 <= d < c && Inside(r, ts[d]);
    assert Disjoint(ts[d], ts[c]);
  }

  // ---- From a node's children to the node.

  lemma FromChildren(w: Walk, t: Src, bs: set<nat>, made: multiset<Visit>, ks: seq<Key>, curr: map<Key, set<nat>>,
                     ps: seq<Paused>)
    requires WellKeyed(w, t) && t.SInner?
    requires LeavesAll(w, t.children, |t.children|, w.Opened(t.key, bs), made, ks, curr, ps)
    ensures Leaves(w, t, bs, multiset(w.NodeVisits(t.key, bs)) + made, ks, curr, ps)
  {
    assert t.children[..|t.children|] == t.children;
    HeldInside(w, t, ks, ps);
  }

  lemma HeldInside(w: Walk, t: Src, ks: seq<Key>, ps: seq<Paused>)
    requires t.SInner? && AllHeld(w, ks, ps, t.children, |t.children|)
    ensures AllIn(w, ks, ps, t)
  {
    forall i: int
      ensures InsideAt(w, ks, ps, i, t)
    {
      if 0 <= i < |Regions(w, ks, ps)| {
        var r := Regions(w, ks, ps)[i];
        assert HeldAt(w, ks, ps, i, t.children, |t.children|);
        var d :| 0 <= d < |t.children| && Inside(r, t.children[d]);
        forall k | Within(r, k) ensures Within(t, k) { WithinMember(t.children, d, k); }
      }
    }
  }

  lemma PausedWhole(w: Walk, t: Src, bs: set<nat>, curr: map<Key, set<nat>>)
    requires WellKeyed(w, t) && t.SInner?
    ensures Leaves(w, t, bs, multiset(w.NodeVisits(t.key, bs)), [], curr, [(t, w.Opened(t.key, bs))])
  {
    var ps: seq<Paused> := [(t, w.Opened(t.key, bs))];
    var none: seq<Paused> := ps[1..];
    assert none == [];
    assert Regions(w, [], ps) == [t];
  }

  lemma ClosedWhole(w: Walk, t: Src, bs: set<nat>, curr: map<Key, set<nat>>)
    requires t.SInner? && w.Opened(t.key, bs) == {}
    ensures Leaves(w, t, bs, multiset(w.NodeVisits(t.key, bs)), [], curr, [])
  {
    NoBucketsAll(w, t.children);
    assert Regions(w, [], []) == [];
  }

  lemma RemoteWhole(w: Walk, t: Src, bs: set<nat>, curr: map<Key, set<nat>>)
    requires WellKeyed(w, t) && t.key in curr && curr[t.key] == bs
    ensures Leaves(w, t, bs, multiset{}, [t.key], curr, [])
  {
    var none: seq<Key> := [t.key][1..];
    assert none == [];
    assert Regions(w, [t.key], []) == [t];
  }

  lemma LeafWhole(w: Walk, t: Src, bs: set<nat>, curr: map<Key, set<nat>>)
    requires t.SLeaf?
    ensures Leaves(w, t, bs, multiset(w.LeafVisits(t.key, bs)), [], curr, [])
  {
    assert Regions(w, [], []) == [];
  }

  /** An empty leaf is passed over without a visit. */
  lemma EmptyWhole(w: Walk, t: Src, bs: set<nat>, curr: map<Key, set<nat>>)
    requires t.SEmpty?
    ensures Leaves(w, t, bs, multiset{}, [], curr, [])
  {
    assert Regions(w, [], []) == [];
  }

  lemma NothingYet(w: Walk, ts: seq<Src>, bs: set<nat>, curr: map<Key, set<nat>>)
    ensures LeavesAll(w, ts, 0, bs, multiset{}, [], curr, [])
  {
    assert ts[..0] == [] && Regions(w, [], []) == [];
  }

  // ---- Replacing one owed region by what a descent into it left.

  /** The owed regions, one of them taken out. */
  ghost predicate Without(w: Walk, ks: seq<Key>, ps: seq<Paused>, fewer: seq<Key>, rest: seq<Paused>, d: nat) {
    && d < |Regions(w, ks, ps)| && Regions(w, fewer, rest) == Regions(w, ks, ps)[..d] + Regions(w, ks, ps)[d + 1..]
  }

  lemma TakeOut(w: Walk, ks: seq<Key>, ps: seq<Paused>, fewer: seq<Key>, rest: seq<Paused>, d: nat, root: Src)
    returns (ts: seq<Src>)
    requires Without(w, ks, ps, fewer, rest, d) && Apart(w, ks, ps) && AllIn(w, ks, ps, root)
    ensures ts == Regions(w, fewer, rest) + [Regions(w, ks, ps)[d]]
    ensures SiblingsApart(ts) && Apart(w, fewer, rest) && AllHeld(w, fewer, rest, ts, |ts| - 1)
    ensures forall i {:trigger ts[i]} :: 0 <= i < |ts| ==> Inside(ts[i], root)
  {
    var rs := Regions(w, ks, ps);
    var less := Regions(w, fewer, rest);
    ts := less + [rs[d]];
    forall i: int, j: int | 0 <= i < j < |ts|
      ensures Disjoint(ts[i], ts[j])
    {
      var x, y := Back(d, |rs|, i), Back(d, |rs|, j);
      assert PairApart(w, ks, ps, x, y) && PairApart(w, ks, ps, y, x);
      assert ts[i] == rs[x] && ts[j] == rs[y];
    }
    forall i: int, j: int
      ensures PairApart(w, fewer, rest, i, j)
    {
      if 0 <= i < j < |less| { assert ts[i] == less[i] && ts[j] == less[j]; }
    }
    forall i: int {:trigger HeldAt(w, fewer, rest, i, ts, |ts| - 1)}
      ensures HeldAt(w, fewer, rest, i, ts, |ts| - 1)
    {
      if 0 <= i < |less| { assert ts[i] == less[i] && Inside(less[i], ts[i]); }
    }
    forall i | 0 <= i < |ts|
      ensures Inside(ts[i], root)
    {
      assert InsideAt(w, ks, ps, Back(d, |rs|, i), root);
    }
  }

  /** Where the i-th remaining region came from; the last one is the one taken out. */
  function Back(d: nat, n: nat, i: int): (r: int)
    requires d < n && 0 <= i < n
    ensures 0 <= r < n
  {
    if i == n - 1 then d else if i < d then i else i + 1
  }

  /** Owed regions stay apart and in the tree when one is replaced by regions inside it. */
  lemma Refill(w: Walk, ks: seq<Key>, ps: seq<Paused>, fewer: seq<Key>, rest: seq<Paused>, d: nat, root: Src,
               more: seq<Key>, extra: seq<Paused>)
    requires Without(w, ks, ps, fewer, rest, d) && Apart(w, ks, ps) && AllIn(w, ks, ps, root)
    requires Apart(w, more, extra) && AllIn(w, more, extra, Regions(w, ks, ps)[d])
    ensures Apart(w, fewer + more, rest + extra) && AllIn(w, fewer + more, rest + extra, root)
  {
    var ts := TakeOut(w, ks, ps, fewer, rest, d, root);
    RegionsNext(w, ts, |ts| - 1, fewer, rest, more, extra);
    forall i: int
      ensures InsideAt(w, fewer + more, rest + extra, i, root)
    {
      assert HeldAt(w, fewer + more, rest + extra, i, ts, |ts|);
    }
  }

  /** No two waits are for the same node. */
  lemma WaitsDiffer(w: Walk, ks: seq<Key>, ps: seq<Paused>, curr: map<Key, set<nat>>, i: nat, j: nat)
    requires i < j < |ks| && Apart(w, ks, ps) && Sound(w, ks, curr, ps)
    ensures ks[i] != ks[j]
  {
    assert PairApart(w, ks, ps, i, j);
    KeyWithin(w, w.source(ks[i]));
    KeyWithin(w, w.source(ks[j]));
  }

  lemma {:induction false} WaitingDrop(w: Walk, ks: seq<Key>, i: nat, curr: map<Key, set<nat>>)
    requires i < |ks| && ks[i] in curr
    ensures Waiting(w, ks, curr) == Visits(w, w.source(ks[i]), curr[ks[i]]) + Waiting(w, ks[..i] + ks[i + 1..], curr)
  {
    if i == 0 {
      assert ks[..0] + ks[1..] == ks[1..];
    } else {
      WaitingDrop(w, ks[1..], i - 1, curr);
      var less := ks[..i] + ks[i + 1..];
      assert less[0] == ks[0] && less[1..] == ks[1..][..i - 1] + ks[1..][i..];
    }
  }

  /** A wait served: its node's visits are now partly made and partly owed further down. */
  lemma Served(w: Walk, root: Src, bs: set<nat>, made: multiset<Visit>, ks: seq<Key>, curr: map<Key, set<nat>>,
               ps: seq<Paused>, i: nat,
               more: multiset<Visit>, ks2: seq<Key>, curr2: map<Key, set<nat>>, ps2: seq<Paused>)
    requires Leaves(w, root, bs, made, ks, curr, ps) && i < |ks| && ks[i] in curr && Kept(curr, curr2, ks2)
    requires ks[i] !in ks2
    requires Leaves(w, w.source(ks[i]), curr[ks[i]], more, ks2, curr2, ps2)
    ensures Leaves(w, root, bs, made + more, ks[..i] + ks[i + 1..] + ks2, curr2 - {ks[i]}, ps + ps2)
  {
    var less := ks[..i] + ks[i + 1..];
    assert Regions(w, ks, ps)[i] == w.source(ks[i]);
    DropWait(w, ks, ps, i);
    Refill(w, ks, ps, less, ps, i, root, ks2, ps2);
    OthersDiffer(w, ks, ps, curr, i);
    ServedCounts(w, ks, curr, i, ks2, curr2);
    PausedConcat(w, ps, ps2);
    Rebalance(made, more, Waiting(w, ks, curr), PausedVisits(w, ps), Waiting(w, ks2, curr2), PausedVisits(w, ps2),
              Waiting(w, less + ks2, curr2 - {ks[i]}), PausedVisits(w, ps + ps2), Visits(w, root, bs));
    SoundLess(w, ks, curr, ps, i, curr2);
    SoundShrunk(w, ks2, curr2, ps2, ks[i]);
    SoundJoin(w, less, curr2 - {ks[i]}, ps, ks2, ps2);
  }

  /** What a descent made and left replaces what was owed for it. */
  lemma Rebalance(made: multiset<Visit>, more: multiset<Visit>, w1: multiset<Visit>, p1: multiset<Visit>,
                  w2: multiset<Visit>, p2: multiset<Visit>,
                  w3: multiset<Visit>, p3: multiset<Visit>, all: multiset<Visit>)
    requires made + w1 + p1 == all && w1 + p1 + w2 + p2 == (more + w2 + p2) + w3 + p3
    ensures made + more + w3 + p3 == all
  {
    forall v ensures (made + more + w3 + p3)[v] == all[v] {
      assert (made + w1 + p1)[v] == all[v];
      assert (w1 + p1 + w2 + p2)[v] == ((more + w2 + p2) + w3 + p3)[v];
    }
  }

  lemma ServedWhole(w: Walk, root: Src, all: set<nat>, made: multiset<Visit>, ks: seq<Key>, curr: map<Key, set<nat>>,
                    ps: seq<Paused>, i: nat, k: Key, bs: set<nat>,
                    more: multiset<Visit>, ks2: seq<Key>, curr2: map<Key, set<nat>>, ps2: seq<Paused>,
                          remote: set<Key>) returns (left: seq<Key>)
    requires Leaves(w, root, all, made, ks, curr, ps) && i < |ks| && ks[i] == k && k in curr && curr[k] == bs
    requires Leaves(w, w.source(k), bs, more, ks2, curr2, ps2) && Kept(curr, curr2, ks2) && KeysOf(ks + ks2, curr2)
    requires k !in remote && forall j {:trigger j in ks2} :: j in ks2 ==> j in remote
    ensures Leaves(w, root, all, made + more, left, curr2 - {k}, ps + ps2)
    ensures KeysOf(left, curr2 - {k}) && Longer(curr, curr2, remote)
  {
    left := ks[..i] + ks[i + 1..] + ks2;
    Served(w, root, all, made, ks, curr, ps, i, more, ks2, curr2, ps2);
    KeyedLess(w, ks, ps, curr, i, ks2, curr2);
  }

  lemma DropWait(w: Walk, ks: seq<Key>, ps: seq<Paused>, i: nat)
    requires i < |ks|
    ensures Without(w, ks, ps, ks[..i] + ks[i + 1..], ps, i)
  {
  }

  lemma DropPause(w: Walk, ks: seq<Key>, ps: seq<Paused>)
    requires ps != []
    ensures Without(w, ks, ps, ks, ps[1..], |ks|)
  {
  }

  lemma OthersDiffer(w: Walk, ks: seq<Key>, ps: seq<Paused>, curr: map<Key, set<nat>>, i: nat)
    requires i < |ks| && Apart(w, ks, ps) && Sound(w, ks, curr, ps)
    ensures ks[i] !in ks[..i] + ks[i + 1..]
  {
    var less := ks[..i] + ks[i + 1..];
    forall j: nat | j < |less|
      ensures less[j] != ks[i]
    {
      if j < i { WaitsDiffer(w, ks, ps, curr, j, i); } else { WaitsDiffer(w, ks, ps, curr, i, j + 1); }
    }
  }

  lemma ServedCounts(w: Walk, ks: seq<Key>, curr: map<Key, set<nat>>, i: nat, ks2: seq<Key>, curr2: map<Key, set<nat>>)
    requires i < |ks| && ks[i] in curr && (forall k {:trigger k in ks} :: k in ks ==> k in curr) && Extends(curr, curr2)
    requires ks[i] !in ks2 && ks[i] !in ks[..i] + ks[i + 1..]
    ensures Waiting(w, ks, curr) + Waiting(w, ks2, curr2)
         == Visits(w, w.source(ks[i]), curr[ks[i]]) + Waiting(w, ks[..i] + ks[i + 1..] + ks2, curr2 - {ks[i]})
  {
    var less := ks[..i] + ks[i + 1..];
    var left := curr2 - {ks[i]};
    assert forall k :: k in less ==> k in ks;
    WaitingDrop(w, ks, i, curr);
    WaitingConcat(w, less, ks2, left);
    WaitingSame(w, less, curr, left);
    WaitingSame(w, ks2, curr2, left);
  }

  lemma KeyedLess(w: Walk, ks: seq<Key>, ps: seq<Paused>, curr: map<Key, set<nat>>, i: nat, ks2: seq<Key>,
                  curr2: map<Key, set<nat>>)
    requires i < |ks| && Apart(w, ks, ps) && Sound(w, ks, curr, ps) && ks[i] !in ks2 && KeysOf(ks + ks2, curr2)
    ensures KeysOf(ks[..i] + ks[i + 1..] + ks2, curr2 - {ks[i]})
  {
    OthersDiffer(w, ks, ps, curr, i);
    var less := ks[..i] + ks[i + 1..];
    forall k
      ensures k in less + ks2 <==> k in curr2 - {ks[i]}
    {
      assert k in less + ks2 <==> k in less || k in ks2;
      assert k in less ==> k in ks;
      assert k in ks && k != ks[i] ==> k in less;
      assert k in curr2 <==> k in ks + ks2;
    }
  }

  lemma SoundLess(w: Walk, ks: seq<Key>, curr: map<Key, set<nat>>, ps: seq<Paused>, i: nat, curr2: map<Key, set<nat>>)
    requires Sound(w, ks, curr, ps) && i < |ks| && ks[i] !in ks[..i] + ks[i + 1..] && Extends(curr, curr2)
    ensures Sound(w, ks[..i] + ks[i + 1..], curr2 - {ks[i]}, ps)
  {
    var less := ks[..i] + ks[i + 1..];
    forall j: nat | j < |less|
      ensures less[j] in curr2 - {ks[i]} && WellKeyed(w, w.source(less[j])) && w.source(less[j]).key == less[j]
    {
      assert less[j] in less && less[j] == (if j < i then ks[j] else ks[j + 1]);
    }
  }

  lemma SoundShrunk(w: Walk, ks: seq<Key>, curr: map<Key, set<nat>>, ps: seq<Paused>, k: Key)
    requires Sound(w, ks, curr, ps) && k !in ks
    ensures Sound(w, ks, curr - {k}, ps)
  {
  }

  /** A paused node continued: likewise for its children. */
  lemma Continued(w: Walk, root: Src, bs: set<nat>, made: multiset<Visit>, ks: seq<Key>, curr: map<Key, set<nat>>,
                  ps: seq<Paused>,
                  more: multiset<Visit>, ks2: seq<Key>, curr2: map<Key, set<nat>>, ps2: seq<Paused>)
    requires Leaves(w, root, bs, made, ks, curr, ps) && ps != [] && Kept(curr, curr2, ks2) && ps[0].0.SInner?
    requires LeavesAll(w, ps[0].0.children, |ps[0].0.children|, ps[0].1, more, ks2, curr2, ps2)
    ensures Leaves(w, root, bs, made + more, ks + ks2, curr2, ps[1..] + ps2)
  {
    ContinuedCounts(w, ks, curr, ps, ks2, curr2, ps2);
    Rebalance(made, more, Waiting(w, ks, curr), PausedVisits(w, ps), Waiting(w, ks2, curr2), PausedVisits(w, ps2),
              Waiting(w, ks + ks2, curr2), PausedVisits(w, ps[1..] + ps2), Visits(w, root, bs));
    ContinuedRegions(w, root, ks, ps, ks2, ps2);
    SoundKept(w, ks, curr, ps, curr2);
    SoundJoin(w, ks, curr2, ps[1..], ks2, ps2);
  }

  lemma ContinuedCounts(w: Walk, ks: seq<Key>, curr: map<Key, set<nat>>, ps: seq<Paused>, ks2: seq<Key>,
                        curr2: map<Key, set<nat>>, ps2: seq<Paused>)
    requires ps != [] && ps[0].0.SInner? && Extends(curr, curr2) && forall k {:trigger k in ks} :: k in ks ==> k in curr
    ensures Waiting(w, ks, curr) + PausedVisits(w, ps) + Waiting(w, ks2, curr2) + PausedVisits(w, ps2)
         == VisitsAll(w, ps[0].0.children[..|ps[0].0.children|], ps[0].1) + Waiting(w, ks + ks2, curr2)
               + PausedVisits(w, ps[1..] + ps2)
  {
    assert ps[0].0.children[..|ps[0].0.children|] == ps[0].0.children;
    WaitingConcat(w, ks, ks2, curr2);
    WaitingSame(w, ks, curr, curr2);
    PausedConcat(w, ps[1..], ps2);
  }

  lemma ContinuedRegions(w: Walk, root: Src, ks: seq<Key>, ps: seq<Paused>, ks2: seq<Key>, ps2: seq<Paused>)
    requires ps != [] && ps[0].0.SInner? && Apart(w, ks, ps) && AllIn(w, ks, ps, root)
    requires Apart(w, ks2, ps2) && AllHeld(w, ks2, ps2, ps[0].0.children, |ps[0].0.children|)
    ensures Apart(w, ks + ks2, ps[1..] + ps2) && AllIn(w, ks + ks2, ps[1..] + ps2, root)
  {
    HeldInside(w, ps[0].0, ks2, ps2);
    assert Regions(w, ks, ps)[|ks|] == ps[0].0;
    DropPause(w, ks, ps);
    Refill(w, ks, ps, ks, ps[1..], |ks|, root, ks2, ps2);
  }

  lemma SoundKept(w: Walk, ks: seq<Key>, curr: map<Key, set<nat>>, ps: seq<Paused>, curr2: map<Key, set<nat>>)
    requires Sound(w, ks, curr, ps) && Extends(curr, curr2) && ps != []
    ensures Sound(w, ks, curr2, ps[1..])
  {
  }

  lemma SoundJoin(w: Walk, ks: seq<Key>, curr: map<Key, set<nat>>, ps: seq<Paused>, ks2: seq<Key>, ps2: seq<Paused>)
    requires Sound(w, ks, curr, ps) && Sound(w, ks2, curr, ps2)
    ensures Sound(w, ks + ks2, curr, ps + ps2)
  {
  }

  lemma NoKeys(ks: seq<Key>, curr: map<Key, set<nat>>)
    requires KeysOf(ks, curr)
    ensures ks == [] || curr != map[]
  {
    if ks != [] { assert ks[0] in ks; }
  }

  /** Nothing else is set aside in the subtree of a node waited for. */
  lemma OutOfTheWay(w: Walk, ks: seq<Key>, ps: seq<Paused>, curr: map<Key, set<nat>>, i: nat)
    requires i < |ks| && Apart(w, ks, ps) && Sound(w, ks, curr, ps) && KeysOf(ks, curr)
    ensures w.source(ks[i]).SInner? ==> ClearBelow(curr, w.source(ks[i]).children)
  {
    var t := w.source(ks[i]);
    if t.SInner? {
      forall k | k in curr
        ensures !WithinAny(t.children, k)
      {
        assert k in ks;
        var j :| 0 <= j < |ks| && ks[j] == k;
        KeyWithin(w, w.source(k));
        if j < i { assert PairApart(w, ks, ps, j, i); } else if i < j { assert PairApart(w, ks, ps, i, j); }
              else { NotBelowItself(w, t); }
      }
    }
  }

  lemma PausedClear(w: Walk, ks: seq<Key>, ps: seq<Paused>, curr: map<Key, set<nat>>)
    requires ps != [] && Apart(w, ks, ps) && Sound(w, ks, curr, ps) && KeysOf(ks, curr)
    ensures ps[0].0.SInner? && WellKeyed(w, ps[0].0) && ClearBelow(curr, ps[0].0.children)
  {
    var t := ps[0].0;
    assert Regions(w, ks, ps)[|ks|] == t;
    forall k | k in curr
      ensures !WithinAny(t.children, k)
    {
      assert k in ks;
      var j :| 0 <= j < |ks| && ks[j] == k;
      KeyWithin(w, w.source(k));
      assert PairApart(w, ks, ps, j, |ks|);
    }
  }

  lemma NotBelowItself(w: Walk, t: Src)
    requires WellKeyed(w, t) && t.SInner?
    ensures !WithinAny(t.children, t.key)
  {
    if WithinAny(t.children, t.key) {
      var c := Child(t.children, t.key);
    }
  }

  lemma {:induction false} Child(ts: seq<Src>, k: Key) returns (c: nat)
    requires WithinAny(ts, k)
    ensures c < |ts| && Within(ts[c], k)
  {
    if Within(ts[0], k) { c := 0; } else { c := Child(ts[1..], k); c := c + 1; }
  }

  lemma ChildDone(w: Walk, t: Src, c: nat, bs: set<nat>, made: multiset<Visit>, ks: seq<Key>, curr: map<Key,
                  set<nat>>, ps: seq<Paused>,
                  more: multiset<Visit>, ks2: seq<Key>, curr2: map<Key, set<nat>>, ps2: seq<Paused>, was: map<Key,
                        set<nat>>, k: seq<Key>, p: seq<Paused>)
    requires WellKeyed(w, t) && t.SInner? && c < |t.children|
    requires LeavesAll(w, t.children, c, bs, made, ks, curr, ps) && Leaves(w, t.children[c], bs, more, ks2, curr2, ps2)
    requires Kept(was, curr, ks) && Kept(curr, curr2, ks2)
    ensures LeavesAll(w, t.children, c + 1, bs, made + more, ks + ks2, curr2, ps + ps2)
    ensures Kept(was, curr2, ks + ks2) && k + ks + ks2 == k + (ks + ks2) && p + ps + ps2 == p + (ps + ps2)
  {
    LeavesNext(w, t.children, c, bs, made, ks, curr, ps, more, ks2, curr2, ps2);
    KeptNext(was, curr, curr2, ks, ks2);
    Regroup(k, ks, ks2);
    Regroup(p, ps, ps2);
  }

  lemma Regroup<T>(x: seq<T>, y: seq<T>, z: seq<T>)
    ensures x + y + z == x + (y + z)
  {
  }

  /** No key set aside so far lies below the next child. */
  lemma ChildClear(w: Walk, t: Src, c: nat, bs: set<nat>, made: multiset<Visit>, ks: seq<Key>, curr: map<Key,
                   set<nat>>, before: map<Key, set<nat>>, ps: seq<Paused>, remote: set<Key>)
    requires WellKeyed(w, t) && t.SInner? && c < |t.children| && LeavesAll(w, t.children, c, bs, made, ks, curr, ps)
    requires ClearBelow(before, t.children)
    requires Kept(before, curr, ks)
    ensures Ready(w, t.children[c], remote, curr)
  {
    KeyWithin(w, t.children[c]);
    forall k | k in curr
      ensures !Within(t.children[c], k)
    {
      if k in before {
        if Within(t.children[c], k) { WithinMember(t.children, c, k); }
      } else {
        var i :| 0 <= i < |ks| && ks[i] == k;
        var r := Regions(w, ks, ps)[i];
        assert r == w.source(k) && HeldAt(w, ks, ps, i, t.children, c);
        KeyWithin(w, r);
        var d :| 0 <= d < c && Inside(r, t.children[d]);
        assert Within(t.children[d], k);
        assert Disjoint(t.children[d], t.children[c]);
      }
    }
  }
}
