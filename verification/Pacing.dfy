/** When the pausing walk pauses: the events of the uninterrupted walk, in its order, and the first
    opened local node at which a counter is over its limit. */
module Pacing {
  import opened Transposed

  /** iter_pause_interval and request_pause_interval. */
  datatype Limits = Limits(iter: nat, request: nat)

  /** A node some bucket opens, or a node set aside; `first` when this lane is the first to ask for it. */
  datatype Event = Opens(local: bool) | Asks(key: Key, buckets: set<nat>, first: bool)

  /** What is constant in one descent: the visitor, the nodes not here, and who asks first. */
  datatype Scene = Scene(w: Walk, remote: set<Key>, first: Key -> bool)

  /** The events of the uninterrupted descent below t. */
  function Events(s: Scene, t: Src, bs: set<nat>): seq<Event>
    decreases t, 0
  {
    if t.key in s.remote then [Asks(t.key, bs, s.first(t.key))]
    else if !t.SInner? || s.w.Opened(t.key, bs) == {} then []
    else [Opens(s.w.local(t.key))] + EventsUpTo(s, t.children, |t.children|, s.w.Opened(t.key, bs))
  }

  function EventsUpTo(s: Scene, ts: seq<Src>, n: nat, bs: set<nat>): seq<Event>
    requires n <= |ts|
    decreases ts, n
  {
    if n == 0 then [] else EventsUpTo(s, ts, n - 1, bs) + Events(s, ts[n - 1], bs)
  }

  function OpenCount(e: Event): nat {
    if e.Opens? then 1 else 0
  }

  function FirstCount(e: Event): nat {
    if e.Asks? && e.first then 1 else 0
  }

  function OpensIn(ev: seq<Event>): nat {
    if ev == [] then 0 else OpenCount(ev[0]) + OpensIn(ev[1..])
  }

  function FirstsIn(ev: seq<Event>): nat {
    if ev == [] then 0 else FirstCount(ev[0]) + FirstsIn(ev[1..])
  }

  lemma {:induction false} CountsConcat(x: seq<Event>, y: seq<Event>)
    ensures OpensIn(x + y) == OpensIn(x) + OpensIn(y) && FirstsIn(x + y) == FirstsIn(x) + FirstsIn(y)
  {
    if x == [] {
      assert x + y == y;
    } else {
      CountsConcat(x[1..], y);
      assert (x + y)[1..] == x[1..] + y;
    }
  }

  /** An opened local node at which a counter is over its limit; the node itself is counted. */
  predicate Stops(lim: Limits, h: nat, r: nat, e: Event) {
    e.Opens? && e.local && (h + 1 > lim.iter || r > lim.request)
  }

  /** A walk that starts with counters h and r comes to a stop among the events. */
  predicate Trips(lim: Limits, h: nat, r: nat, ev: seq<Event>)
    decreases |ev|
  {
    ev != [] && (Stops(lim, h, r, ev[0]) || Trips(lim, h + OpenCount(ev[0]), r + FirstCount(ev[0]), ev[1..]))
  }

  /** Told by position: some event is an opened local node at which the opened nodes up to it, or the first
      requests before it, take a counter over its limit. */
  lemma {:induction false} TripsWhere(lim: Limits, h: nat, r: nat, ev: seq<Event>)
    ensures Trips(lim, h, r, ev) <==> exists n {:trigger TripsAt(lim, h, r, ev, n)} :: TripsAt(lim, h, r, ev, n)
    decreases |ev|
  {
    if ev != [] {
      var h1, r1 := h + OpenCount(ev[0]), r + FirstCount(ev[0]);
      TripsWhere(lim, h1, r1, ev[1..]);
      TripsHere(lim, h, r, ev);
      if Trips(lim, h1, r1, ev[1..]) {
        var n :| TripsAt(lim, h1, r1, ev[1..], n);
        TripsLater(lim, h, r, ev, n);
      }
      if exists n :: TripsAt(lim, h, r, ev, n) {
        var n :| TripsAt(lim, h, r, ev, n);
        if n > 0 { TripsLater(lim, h, r, ev, n - 1); }
      }
    }
  }

  predicate TripsAt(lim: Limits, h: nat, r: nat, ev: seq<Event>, n: int) {
    0 <= n < |ev| && Stops(lim, h + OpensIn(ev[..n]), r + FirstsIn(ev[..n]), ev[n])
  }

  lemma TripsHere(lim: Limits, h: nat, r: nat, ev: seq<Event>)
    requires ev != []
    ensures TripsAt(lim, h, r, ev, 0) <==> Stops(lim, h, r, ev[0])
  {
    assert ev[..0] == [];
  }

  lemma TripsLater(lim: Limits, h: nat, r: nat, ev: seq<Event>, n: nat)
    requires ev != []
    ensures TripsAt(lim, h, r, ev, n + 1) <==> TripsAt(lim, h + OpenCount(ev[0]), r + FirstCount(ev[0]), ev[1..], n)
  {
    if n + 1 < |ev| {
      assert ev[..n + 1][0] == ev[0] && ev[..n + 1][1..] == ev[1..][..n];
    }
  }

  /** A walk stops in the first part, or in the second with what the first part counted. */
  lemma {:induction false} TripsConcat(lim: Limits, h: nat, r: nat, x: seq<Event>, y: seq<Event>)
    ensures Trips(lim, h, r, x + y) <==> Trips(lim, h, r, x) || Trips(lim, h + OpensIn(x), r + FirstsIn(x), y)
    decreases |x|
  {
    if x == [] {
      assert x + y == y;
    } else {
      TripsConcat(lim, h + OpenCount(x[0]), r + FirstCount(x[0]), x[1..], y);
      assert (x + y)[1..] == x[1..] + y && (x + y)[0] == x[0];
    }
  }

  /** From counters h, r the walk has come through the events ev: it stopped somewhere exactly if it trips,
      and if not its counters are h1, r1. */
  ghost predicate Paced(lim: Limits, h: nat, r: nat, ev: seq<Event>, h1: nat, r1: nat, stopped: bool) {
    (stopped <==> Trips(lim, h, r, ev)) && (!stopped ==> h1 == h + OpensIn(ev) && r1 == r + FirstsIn(ev))
  }

  lemma PacedNext(lim: Limits, h: nat, r: nat, x: seq<Event>, h1: nat, r1: nat, s1: bool, y: seq<Event>, h2: nat,
                  r2: nat, s2: bool)
    requires Paced(lim, h, r, x, h1, r1, s1) && Paced(lim, h1, r1, y, h2, r2, s2)
    ensures Paced(lim, h, r, x + y, h2, r2, s1 || s2)
  {
    TripsConcat(lim, h, r, x, y);
    CountsConcat(x, y);
  }

  lemma PacedNone(lim: Limits, h: nat, r: nat)
    ensures Paced(lim, h, r, [], h, r, false)
  {
  }

  lemma PacedOne(lim: Limits, h: nat, r: nat, e: Event)
    ensures Paced(lim, h, r, [e], h + OpenCount(e), r + FirstCount(e), Stops(lim, h, r, e))
  {
    assert [e][1..] == [];
  }

  /** The opened node itself, then its children. */
  lemma PacedNode(s: Scene, lim: Limits, t: Src, bs: set<nat>, h: nat, r: nat, h2: nat, r2: nat, below: bool)
    requires t.SInner? && t.key !in s.remote && s.w.Opened(t.key, bs) != {}
    ensures var stops := Stops(lim, h, r, Opens(s.w.local(t.key)));
            && (stops ==> Trips(lim, h, r, Events(s, t, bs)))
            && (!stops && Paced(lim, h
                  + 1, r, EventsUpTo(s, t.children, |t.children|, s.w.Opened(t.key, bs)), h2, r2, below) ==>
                  Paced(lim, h, r, Events(s, t, bs), h2, r2, below))
  {
    var e := Opens(s.w.local(t.key));
    var rest := EventsUpTo(s, t.children, |t.children|, s.w.Opened(t.key, bs));
    PacedOne(lim, h, r, e);
    TripsConcat(lim, h, r, [e], rest);
    CountsConcat([e], rest);
    assert [e][1..] == [];
    assert Events(s, t, bs) == [e] + rest;
  }

  /** Every event's wait has been set aside with its buckets. */
  ghost predicate Asked(ev: seq<Event>, curr: map<Key, set<nat>>) {
    forall n {:trigger ev[n]} :: 0 <= n < |ev| && ev[n].Asks? ==> ev[n].key in curr && curr[ev[n].key] == ev[n].buckets
  }

  lemma AskedNext(x: seq<Event>, curr: map<Key, set<nat>>, y: seq<Event>, curr2: map<Key, set<nat>>)
    requires Asked(x, curr) && Extends(curr, curr2) && Asked(y, curr2)
    ensures Asked(x + y, curr2)
  {
  }

  lemma AskedNode(s: Scene, t: Src, bs: set<nat>, curr: map<Key, set<nat>>)
    requires t.SInner? && t.key !in s.remote && s.w.Opened(t.key, bs) != {}
    ensures Asked(EventsUpTo(s, t.children, |t.children|, s.w.Opened(t.key, bs)), curr) ==>
          Asked(Events(s, t, bs), curr)
  {
    var rest := EventsUpTo(s, t.children, |t.children|, s.w.Opened(t.key, bs));
    assert Events(s, t, bs) == [Opens(s.w.local(t.key))] + rest;
  }

  /** The events of a resumption: those of every queued node waited for, repeats passed over. */
  function QueueEvents(s: Scene, was: map<Key, set<nat>>, queue: seq<Key>, n: nat): seq<Event>
    requires n <= |queue|
  {
    if n == 0 then [] else
      QueueEvents(s, was, queue, n - 1)
      + if queue[n - 1] in queue[..n - 1] || queue[n - 1] !in was then []
            else Events(s, s.w.source(queue[n - 1]), was[queue[n - 1]])
  }

  lemma QueueSkip(s: Scene, was: map<Key, set<nat>>, queue: seq<Key>, n: nat)
    requires n < |queue| && (queue[n] in queue[..n] || queue[n] !in was)
    ensures QueueEvents(s, was, queue, n + 1) == QueueEvents(s, was, queue, n)
  {
    assert QueueEvents(s, was, queue, n) + [] == QueueEvents(s, was, queue, n);
  }

  lemma PacedQueue(s: Scene, lim: Limits, h: nat, r: nat, was: map<Key, set<nat>>, queue: seq<Key>, n: nat,
                   h1: nat, r1: nat, s1: bool, h2: nat, r2: nat, s2: bool)
    requires n < |queue| && queue[n] !in queue[..n] && queue[n] in was
    requires Paced(lim, h, r, QueueEvents(s, was, queue, n), h1, r1, s1)
    requires Paced(lim, h1, r1, Events(s, s.w.source(queue[n]), was[queue[n]]), h2, r2, s2)
    ensures Paced(lim, h, r, QueueEvents(s, was, queue, n + 1), h2, r2, s1 || s2)
  {
    PacedNext(lim, h, r, QueueEvents(s, was, queue, n), h1, r1, s1, Events(s, s.w.source(queue[n]), was[queue[n]]), h2,
          r2, s2);
  }

  // ---- Taking up paused nodes.

  predicate Over(lim: Limits, h: nat, r: nat) {
    h > lim.iter || r > lim.request
  }

  /** A walk that stopped has a counter over its limit, and counting on does not bring it back. */
  lemma {:induction false} TripsOver(lim: Limits, h: nat, r: nat, ev: seq<Event>)
    requires Trips(lim, h, r, ev)
    ensures Over(lim, h + OpensIn(ev), r + FirstsIn(ev))
    decreases |ev|
  {
    if !Stops(lim, h, r, ev[0]) { TripsOver(lim, h + OpenCount(ev[0]), r + FirstCount(ev[0]), ev[1..]); }
  }

  /** The events below one paused node, and below the first n. */
  function Below(s: Scene, p: Paused): seq<Event> {
    if p.0.SInner? then EventsUpTo(s, p.0.children, |p.0.children|, p.1) else []
  }

  function PausedEvents(s: Scene, ps: seq<Paused>, n: nat): seq<Event>
    requires n <= |ps|
  {
    if n == 0 then [] else PausedEvents(s, ps, n - 1) + Below(s, ps[n - 1])
  }

  /** From zero the events below the first n paused nodes take a counter over its limit. */
  predicate Sated(s: Scene, lim: Limits, ps: seq<Paused>, n: nat)
    requires n <= |ps|
  {
    Over(lim, OpensIn(PausedEvents(s, ps, n)), FirstsIn(PausedEvents(s, ps, n)))
  }

  /** A resumption takes up n paused nodes: all there are, or as few as take a counter over its limit. */
  ghost predicate Share(s: Scene, lim: Limits, ps: seq<Paused>, n: nat) {
    && n <= |ps| && (n == |ps| || Sated(s, lim, ps, n))
    && forall m: nat {:trigger Sated(s, lim, ps, m)} :: m < n ==> !Sated(s, lim, ps, m)
  }

  /** One share for each list of paused nodes, and something is taken up if anything is paused. */
  lemma ShareUnique(s: Scene, lim: Limits, ps: seq<Paused>, m: nat, n: nat)
    requires Share(s, lim, ps, m) && Share(s, lim, ps, n)
    ensures m == n && (ps != [] ==> n > 0)
  {
  }

  lemma DropTaken(was: seq<Paused>, had: seq<Paused>, n: nat)
    requires n <= |was| && was <= had
    ensures was[n..] <= had[n..] && (had[n..] == was[n..] <==> had == was)
  {
    assert had[n..] == was[n..] + had[|was|..];
    if had[n..] == was[n..] { assert had[|was|..] == []; }
  }

  function SizeUpTo(ts: seq<Src>, n: nat): nat
    requires n <= |ts|
    decreases ts, n
  {
    if n == 0 then 0 else SizeUpTo(ts, n - 1) + SrcSize(ts[n - 1])
  }

  function SrcSize(t: Src): (r: nat)
    ensures r > 0
    decreases t, 0
  {
    if t.SInner? then 1 + SizeUpTo(t.children, |t.children|) else 1
  }

  /** The nodes below all that is paused. */
  function PausedSize(ps: seq<Paused>): nat {
    if ps == [] then 0 else SrcSize(ps[0].0) + PausedSize(ps[1..])
  }

  lemma {:induction false} PausedSizeConcat(x: seq<Paused>, y: seq<Paused>)
    ensures PausedSize(x + y) == PausedSize(x) + PausedSize(y)
  {
    if x == [] {
      assert x + y == y;
    } else {
      PausedSizeConcat(x[1..], y);
      assert (x + y)[1..] == x[1..] + y;
    }
  }
}
