/** What the uninterrupted walk visits, told without its recursion. */
module VisitLaws {
  import opened Transposed

  /** Every node of t strictly above k is opened by bucket b. */
  ghost predicate OpenedAbove(w: Walk, t: Src, k: Key, b: nat) {
    forall x {:trigger w.opens(x, b)} :: Within(t, x) && x != k && Within(w.source(x), k) ==> w.opens(x, b)
  }

  /** A bucket is due at a leaf it is let down to, its own leaf only with callSelf, and at an inner node it is let
      down to and does not open. */
  ghost predicate Due(w: Walk, t: Src, bs: set<nat>, v: Visit) {
    && v.bucket in bs && Within(t, v.source) && OpenedAbove(w, t, v.source, v.bucket)
    && match v
       case LeafVisit(k, b) => w.source(k).SLeaf? && (w.callSelf || w.leafKey(b) != k)
       case NodeVisit(k, b) => w.source(k).SInner? && !w.opens(k, b)
  }

  /** No visit leaves the subtree. */
  lemma {:induction false} Stays(w: Walk, t: Src, bs: set<nat>, v: Visit)
    requires !Within(t, v.source)
    ensures Visits(w, t, bs)[v] == 0
    decreases t, 1
  {
    match t
    case SLeaf(k) => assert v !in w.LeafVisits(k, bs);
    case SEmpty(_) =>
    case SInner(k, cs) =>
      assert v !in w.NodeVisits(k, bs);
      StaysAll(w, cs, w.Opened(k, bs), v);
  }

  lemma {:induction false} StaysAll(w: Walk, ts: seq<Src>, bs: set<nat>, v: Visit)
    requires !WithinAny(ts, v.source)
    ensures VisitsAll(w, ts, bs)[v] == 0
    decreases ts, 0
  {
    if ts != [] {
      Stays(w, ts[0], bs, v);
      StaysAll(w, ts[1..], bs, v);
    }
  }

  /** Only the child that holds the source visits it. */
  lemma {:induction false} FromChild(w: Walk, ts: seq<Src>, bs: set<nat>, v: Visit, c: nat)
    requires c < |ts| && forall d {:trigger ts[d]} :: 0 <= d < |ts| && d != c ==> !Within(ts[d], v.source)
    ensures VisitsAll(w, ts, bs)[v] == Visits(w, ts[c], bs)[v]
  {
    if c == 0 {
      NoneOf(ts[1..], v.source);
      StaysAll(w, ts[1..], bs, v);
    } else {
      Stays(w, ts[0], bs, v);
      FromChild(w, ts[1..], bs, v, c - 1);
    }
  }

  lemma {:induction false} NoneOf(ts: seq<Src>, k: Key)
    requires forall d {:trigger ts[d]} :: 0 <= d < |ts| ==> !Within(ts[d], k)
    ensures !WithinAny(ts, k)
  {
    if ts != [] { NoneOf(ts[1..], k); }
  }

  lemma {:induction false} HolderOf(ts: seq<Src>, k: Key) returns (c: nat)
    requires WithinAny(ts, k)
    ensures c < |ts| && Within(ts[c], k)
  {
    if Within(ts[0], k) {
      c := 0;
    } else {
      c := HolderOf(ts[1..], k);
      c := c + 1;
    }
  }

  /** What is below a node of t is in t. */
  lemma {:induction false} WithinTrans(w: Walk, t: Src, x: Key, k: Key)
    requires WellKeyed(w, t) && Within(t, x) && Within(w.source(x), k)
    ensures Within(t, k)
    decreases t
  {
    if x != t.key {
      var c := HolderOf(t.children, x);
      WithinTrans(w, t.children[c], x, k);
      WithinMember(t.children, c, k);
    }
  }

  lemma Alone(w: Walk, t: Src, c: nat, k: Key)
    requires WellKeyed(w, t) && t.SInner? && c < |t.children| && Within(t.children[c], k)
    ensures forall d {:trigger t.children[d]} :: 0 <= d < |t.children| && d != c ==> !Within(t.children[d], k)
  {
    forall d | 0 <= d < |t.children| && d != c
      ensures !Within(t.children[d], k)
    {
      var x, y := t.children[if d < c then d else c], t.children[if d < c then c else d];
      assert Disjoint(x, y);
    }
  }

  /** Above k in t: t itself, and what is above k in the child that holds it. */
  lemma OpenedDown(w: Walk, t: Src, k: Key, b: nat, c: nat)
    requires WellKeyed(w, t) && t.SInner? && c < |t.children| && Within(t.children[c], k)
    ensures OpenedAbove(w, t, k, b) <==> w.opens(t.key, b) && OpenedAbove(w, t.children[c], k, b)
  {
    WithinMember(t.children, c, k);
    assert t.key != k && Within(w.source(t.key), k);
    forall x | Within(t.children[c], x) ensures Within(t, x) { WithinMember(t.children, c, x); }
    forall x | Within(t, x) && x != t.key && Within(w.source(x), k)
      ensures Within(t.children[c], x)
    {
      var d := HolderOf(t.children, x);
      WithinTrans(w, t.children[d], x, k);
      Alone(w, t, c, k);
    }
  }

  /** The uninterrupted walk makes exactly the visits due, each once. */
  lemma {:induction false} VisitedOnce(w: Walk, t: Src, bs: set<nat>, v: Visit)
    requires WellKeyed(w, t)
    ensures Visits(w, t, bs)[v] == if Due(w, t, bs, v) then 1 else 0
    decreases t
  {
    if !Within(t, v.source) {
      Stays(w, t, bs, v);
    } else if v.source == t.key {
      AtTop(w, t, bs, v);
    } else {
      var c := HolderOf(t.children, v.source);
      Alone(w, t, c, v.source);
      FromChild(w, t.children, w.Opened(t.key, bs), v, c);
      assert v !in w.NodeVisits(t.key, bs);
      VisitedOnce(w, t.children[c], w.Opened(t.key, bs), v);
      OpenedDown(w, t, v.source, v.bucket, c);
    }
  }

  /** Nothing in t is above its root. */
  lemma TopOpened(w: Walk, t: Src, b: nat)
    requires WellKeyed(w, t)
    ensures OpenedAbove(w, t, t.key, b)
  {
    forall x | Within(t, x) && x != t.key
      ensures !Within(w.source(x), t.key)
    {
      if Within(w.source(x), t.key) {
        var c := HolderOf(t.children, x);
        WithinTrans(w, t.children[c], x, t.key);
      }
    }
  }

  lemma AtTop(w: Walk, t: Src, bs: set<nat>, v: Visit)
    requires WellKeyed(w, t) && v.source == t.key
    ensures Visits(w, t, bs)[v] == if Due(w, t, bs, v) then 1 else 0
  {
    TopOpened(w, t, v.bucket);
    KeyWithin(w, t);
    match t
    case SLeaf(k) => assert v in w.LeafVisits(k, bs) <==> Due(w, t, bs, v);
    case SEmpty(_) =>
    case SInner(k, cs) =>
      forall c | 0 <= c < |cs| ensures !Within(cs[c], k) { }
      NoneOf(cs, k);
      StaysAll(w, cs, w.Opened(k, bs), v);
      assert v in w.NodeVisits(k, bs) <==> Due(w, t, bs, v);
  }
}
