/** The pausing traverser and its owner's messages. */
module PausingWalk {
  import opened Transposed
  import opened Pacing
  import opened VisitLaws

  // ---- The traverser.

  class Traverser {
    const w: Walk
    const root: Src
    const buckets: set<nat>
    const lim: Limits
    const first: Key -> bool          // is this lane the first to ask for the node?
    var done: multiset<Visit>
    var curr: map<Key, set<nat>>      // curr_nodes
    ghost var keys: seq<Key>          // its keys, in the order they were set aside
    var paused: seq<Paused>           // paused_curr_nodes
    var requested: nat                // num_requested
    var handled: nat                  // handle_count
    var remote: set<Key>              // nodes this process does not hold yet
    var posted: nat                   // resumeAfterPause messages under way

    constructor (w: Walk, root: Src, buckets: set<nat>, lim: Limits, first: Key -> bool, remote: set<Key>)
      ensures this.w == w && this.root == root && this.buckets == buckets && this.remote == remote
      ensures this.lim == lim && this.first == first && Unstarted()
    {
      this.w, this.root, this.buckets, this.lim, this.first, this.remote := w, root, buckets, lim, first, remote;
      done, curr, keys, paused, requested, handled, posted := multiset{}, map[], [], [], 0, 0, 0;
    }

    ghost predicate Unstarted()
      reads this
    {
      done == multiset{} && curr == map[] && keys == [] && paused == [] && requested == 0 && handled == 0 && posted == 0
    }

    function Now(): Scene
      reads this`remote
    {
      Scene(w, remote, first)
    }

    predicate WantsPause()
      reads this`handled, this`requested
    {
      handled > lim.iter || requested > lim.request
    }

    ghost predicate Keyed()
      reads this`keys, this`curr
    {
      KeysOf(keys, curr)
    }

    /** The counters and the pauses since h and r: as the events say. */
    ghost predicate Came(h: nat, r: nat, ev: seq<Event>, ps: seq<Paused>)
      reads this`handled, this`requested, this`curr
    {
      Paced(lim, h, r, ev, handled, requested, ps != []) && (ps == [] ==> Asked(ev, curr))
    }

    /** recurse: visit, defer, or go down - for all active buckets at once. */
    method Recurse(t: Src, bs: set<nat>)
      returns (ghost made: multiset<Visit>, ghost ks: seq<Key>, ghost ps: seq<Paused>)
      requires Keyed() && Ready(w, t, remote, curr)
      modifies this`done, this`curr, this`keys, this`paused, this`requested, this`handled
      ensures Grew(old(done), old(curr), old(keys), old(paused), made, ks, ps) && Leaves(w, t, bs, made, ks, curr, ps)
      ensures Came(old(handled), old(requested), Events(Now(), t, bs), ps)
      ensures PausedSize(ps) <= SrcSize(t)
      decreases t, 1, 1
    {
      KeyWithin(w, t);
      if t.key in remote {
        PacedOne(lim, handled, requested, Asks(t.key, bs, first(t.key)));
        Defer(t, bs);
        made, ks, ps := multiset{}, [t.key], [];
        return;
      }
      match t {
        case SEmpty(_) =>
          PacedNone(lim, handled, requested);
          made, ks, ps := multiset{}, [], [];
          EmptyWhole(w, t, bs, curr);
        case SLeaf(k) =>
          PacedNone(lim, handled, requested);
          made, ks, ps := multiset(w.LeafVisits(k, bs)), [], [];
          done := done + multiset(w.LeafVisits(k, bs));
          LeafWhole(w, t, bs, curr);
        case SInner(k, cs) =>
          made, ks, ps := VisitInner(t, bs);
      }
    }

    /** An inner node here: visit it for the buckets that do not open it, and go on for those that do. */
    method VisitInner(t: Src, bs: set<nat>)
      returns (ghost made: multiset<Visit>, ghost ks: seq<Key>, ghost ps: seq<Paused>)
      requires t.SInner? && t.key !in remote && Keyed() && Ready(w, t, remote, curr)
      modifies this`done, this`curr, this`keys, this`paused, this`requested, this`handled
      ensures Grew(old(done), old(curr), old(keys), old(paused), made, ks, ps) && Leaves(w, t, bs, made, ks, curr, ps)
      ensures Came(old(handled), old(requested), Events(Now(), t, bs), ps)
      ensures PausedSize(ps) <= SrcSize(t)
      decreases t, 1, 0
    {
      ghost var here := multiset(w.NodeVisits(t.key, bs));
      var active := w.Opened(t.key, bs);
      done := done + multiset(w.NodeVisits(t.key, bs));
      if active == {} {
        PacedNone(lim, handled, requested);
        made, ks, ps := here, [], [];
        ClosedWhole(w, t, bs, curr);
      } else {
        ghost var below;
        below, ks, ps := GoOn(t, bs, active);
        made := here + below;
      }
    }

    /** A node not here: set its buckets aside and, if nobody has asked for it yet, ask. */
    method Defer(t: Src, bs: set<nat>)
      requires WellKeyed(w, t) && t.key in remote && t.key !in curr && Keyed()
      modifies this`curr, this`keys, this`requested
      ensures curr == old(curr)[t.key := bs] && keys == old(keys) + [t.key]
      ensures requested == old(requested) + if first(t.key) then 1 else 0
      ensures Keyed() && Kept(old(curr), curr, [t.key]) && Leaves(w, t, bs, multiset{}, [t.key], curr, [])
    {
      curr := curr[t.key := bs];
      keys := keys + [t.key];
      if first(t.key) { requested := requested + 1; }
      RemoteWhole(w, t, bs, curr);
    }

    /** continue_trav: below an opened node, or later. */
    method GoOn(t: Src, bs: set<nat>, active: set<nat>)
      returns (ghost made: multiset<Visit>, ghost ks: seq<Key>, ghost ps: seq<Paused>)
      requires t.SInner? && t.key !in remote && Keyed() && Ready(w, t, remote, curr)
      requires active == w.Opened(t.key, bs) != {}
      modifies this`done, this`curr, this`keys, this`paused, this`requested, this`handled
      ensures Grew(old(done), old(curr), old(keys), old(paused), made, ks, ps)
      ensures Leaves(w, t, bs, multiset(w.NodeVisits(t.key, bs)) + made, ks, curr, ps)
      ensures Came(old(handled), old(requested), Events(Now(), t, bs), ps)
      ensures PausedSize(ps) <= SrcSize(t)
      decreases t, 0, 3
    {
      ghost var h, r := handled, requested;
      handled := handled + 1;
      if w.local(t.key) && WantsPause() {
        made, ks, ps := SetPaused(t, bs, active);
        PacedNode(Now(), lim, t, bs, h, r, h, r, false);
      } else {
        made, ks, ps := Enter(t, bs, active, h);
      }
    }

    method SetPaused(t: Src, bs: set<nat>, active: set<nat>)
      returns (ghost made: multiset<Visit>, ghost ks: seq<Key>, ghost ps: seq<Paused>)
      requires t.SInner? && Keyed() && WellKeyed(w, t) && active == w.Opened(t.key, bs) && WantsPause()
      modifies this`paused
      ensures Grew(old(done), old(curr), old(keys), old(paused), made, ks, ps) && ps != []
      ensures PausedSize(ps) <= SrcSize(t)
      ensures Leaves(w, t, bs, multiset(w.NodeVisits(t.key, bs)) + made, ks, curr, ps)
    {
      paused := paused + [(t, active)];
      made, ks, ps := multiset{}, [], [(t, active)];
      assert ps[1..] == [];
      PausedWhole(w, t, bs, curr);
    }

    /** Nothing stops the walk at t: on to the children. */
    method Enter(t: Src, bs: set<nat>, active: set<nat>, ghost h: nat)
      returns (ghost made: multiset<Visit>, ghost ks: seq<Key>, ghost ps: seq<Paused>)
      requires t.SInner? && t.key !in remote && Keyed() && Ready(w, t, remote, curr)
      requires active == w.Opened(t.key, bs) != {}
      requires handled == h + 1 && !Stops(lim, h, requested, Opens(w.local(t.key)))
      modifies this`done, this`curr, this`keys, this`paused, this`requested, this`handled
      ensures Grew(old(done), old(curr), old(keys), old(paused), made, ks, ps)
      ensures Leaves(w, t, bs, multiset(w.NodeVisits(t.key, bs)) + made, ks, curr, ps)
      ensures Came(h, old(requested), Events(Now(), t, bs), ps)
      ensures PausedSize(ps) <= SrcSize(t)
      decreases t, 0, 2
    {
      ghost var r := requested;
      made, ks, ps := RecurseAll(t, active);
      FromChildren(w, t, bs, made, ks, curr, ps);
      PacedNode(Now(), lim, t, bs, h, r, handled, requested, ps != []);
      AskedNode(Now(), t, bs, curr);
    }

    ghost predicate AllRemote(ks: seq<Key>)
      reads this`remote
    {
      forall k {:trigger k in ks} :: k in ks ==> k in remote
    }

    /** What has been added to the fields since they were d, was, k and p. */
    ghost predicate Grew(d: multiset<Visit>, was: map<Key, set<nat>>, k: seq<Key>, p: seq<Paused>,
                         made: multiset<Visit>, ks: seq<Key>, ps: seq<Paused>)
      reads this
    {
      Keyed() && done == d + made && keys == k + ks && paused == p + ps && Kept(was, curr, ks) && AllRemote(ks) &&
            (ps != [] ==> WantsPause())
    }

    /** The first c children are done; h and r were the counters when they started. */
    ghost predicate Half(t: Src, c: nat, bs: set<nat>, d: multiset<Visit>, was: map<Key, set<nat>>, k: seq<Key>,
                         p: seq<Paused>,
                         h: nat, r: nat, made: multiset<Visit>, ks: seq<Key>, ps: seq<Paused>)
      requires t.SInner? && c <= |t.children|
      reads this
    {
      && Grew(d, was, k, p, made, ks, ps) && LeavesAll(w, t.children, c, bs, made, ks, curr, ps)
      && Came(h, r, EventsUpTo(Now(), t.children, c, bs), ps) && PausedSize(ps) <= SizeUpTo(t.children, c)
    }

    method RecurseAll(t: Src, bs: set<nat>)
      returns (ghost made: multiset<Visit>, ghost ks: seq<Key>, ghost ps: seq<Paused>)
      requires WellKeyed(w, t) && t.SInner? && Keyed() && ClearBelow(curr, t.children)
      modifies this`done, this`curr, this`keys, this`paused, this`requested, this`handled
      ensures Half(t, |t.children|, bs, old(done), old(curr), old(keys), old(paused), old(handled), old(requested),
            made, ks, ps)
      decreases t, 0, 1
    {
      made, ks, ps := multiset{}, [], [];
      NothingYet(w, t.children, bs, curr);
      PacedNone(lim, handled, requested);
      for c := 0 to |t.children|
        invariant Half(t, c, bs, old(done), old(curr), old(keys), old(paused), old(handled), old(requested), made, ks,
              ps)
      {
        made, ks, ps := RecurseChild(t, c, bs, old(done), old(curr), old(keys), old(paused), old(handled),
              old(requested), made, ks, ps);
      }
    }

    method RecurseChild(t: Src, c: nat, bs: set<nat>, ghost d: multiset<Visit>, ghost was: map<Key, set<nat>>,
                        ghost k: seq<Key>, ghost p: seq<Paused>,
                        ghost h: nat, ghost r: nat, ghost made: multiset<Visit>, ghost ks: seq<Key>,
                              ghost ps: seq<Paused>)
      returns (ghost made': multiset<Visit>, ghost ks': seq<Key>, ghost ps': seq<Paused>)
      requires WellKeyed(w, t) && t.SInner? && c < |t.children| && ClearBelow(was, t.children)
      requires Half(t, c, bs, d, was, k, p, h, r, made, ks, ps)
      modifies this`done, this`curr, this`keys, this`paused, this`requested, this`handled
      ensures Half(t, c + 1, bs, d, was, k, p, h, r, made', ks', ps')
      decreases t, 0, 0
    {
      ChildClear(w, t, c, bs, made, ks, curr, was, ps, remote);
      ghost var had, h1, r1 := curr, handled, requested;
      ghost var more, ks2, ps2;
      more, ks2, ps2 := Recurse(t.children[c], bs);
      ChildDone(w, t, c, bs, made, ks, had, ps, more, ks2, curr, ps2, was, k, p);
      ChildPaced(t, c, bs, h, r, h1, r1, had, ps, ps2);
      PausedSizeConcat(ps, ps2);
      made', ks', ps' := made + more, ks + ks2, ps + ps2;
    }

    lemma ChildPaced(t: Src, c: nat, bs: set<nat>, h: nat, r: nat, h1: nat, r1: nat, had: map<Key, set<nat>>,
                     ps: seq<Paused>, ps2: seq<Paused>)
      requires t.SInner? && c < |t.children| && Extends(had, curr)
      requires var ev := EventsUpTo(Now(), t.children, c, bs); Paced(lim, h, r, ev, h1, r1, ps != []) && (ps == [] ==>
            Asked(ev, had))
      requires Came(h1, r1, Events(Now(), t.children[c], bs), ps2)
      ensures Came(h, r, EventsUpTo(Now(), t.children, c + 1, bs), ps + ps2)
    {
      var x, y := EventsUpTo(Now(), t.children, c, bs), Events(Now(), t.children[c], bs);
      PacedNext(lim, h, r, x, h1, r1, ps != [], y, handled, requested, ps2 != []);
      if ps == [] && ps2 == [] { AskedNext(x, had, y, curr); }
    }

    /** Visits made and visits owed make up the uninterrupted walk's. */
    ghost predicate Conserved()
      reads this`done, this`keys, this`curr, this`paused
    {
      Leaves(w, root, buckets, done, keys, curr, paused) && Keyed()
    }

    /** Paused work has a message on its way that will take it up. */
    predicate Attended()
      reads this`paused, this`posted
    {
      paused != [] ==> posted > 0
    }

    /** A node arrives. */
    method Install(k: Key)
      requires Conserved() && Attended()
      modifies this`remote
      ensures Conserved() && Attended() && remote == old(remote) - {k}
    {
      remote := remote - {k};
    }

    /** Nothing waited for and nothing paused: exactly the uninterrupted walk's visits have been made. */
    lemma AllVisited()
      requires Conserved() && curr == map[] && paused == []
      ensures done == Visits(w, root, buckets)
    {
      NoKeys(keys, curr);
    }

    /** startDown: walk, and post a continuation if the walk wants to pause. */
    method Start()
      requires WellKeyed(w, root) && Unstarted()
      modifies this`done, this`curr, this`keys, this`paused, this`requested, this`handled, this`posted
      ensures Conserved() && Attended() && (forall k :: k in curr ==> k in remote)
      ensures Came(0, 0, Events(Now(), root, buckets), paused) && posted == if WantsPause() then 1 else 0
    {
      ghost var made, ks, ps;
      made, ks, ps := Recurse(root, buckets);
      assert done == made && keys == ks && paused == ps;
      if WantsPause() { posted := posted + 1; }
    }

    lemma Place(k: Key) returns (i: nat)
      requires Conserved() && k in curr
      ensures i < |keys| && keys[i] == k && WellKeyed(w, w.source(k)) && w.source(k).key == k
      ensures k !in remote ==> Ready(w, w.source(k), remote, curr)
    {
      i :| 0 <= i < |keys| && keys[i] == k;
      OutOfTheWay(w, keys, paused, curr, i);
    }

    /** The descent for one queue entry; its own wait is struck out afterwards. */
    method Replay(k: Key, bs: set<nat>) returns (ghost left: seq<Key>, ghost ps: seq<Paused>)
      requires Conserved() && k !in remote && k in curr && curr[k] == bs
      modifies this`done, this`curr, this`keys, this`paused, this`requested, this`handled
      ensures Leaves(w, root, buckets, done, left, curr - {k}, paused) && KeysOf(left, curr - {k})
      ensures Longer(old(curr), curr, remote)
      ensures paused == old(paused) + ps && (ps != [] ==> WantsPause())
      ensures Paced(lim, old(handled), old(requested), Events(Now(), w.source(k), bs), handled, requested, ps != [])
    {
      ghost var i := Place(k);
      ghost var had, waits, stops, was := curr, keys, paused, done;
      ghost var made, ks;
      made, ks, ps := Recurse(w.source(k), bs);
      left := ServedWhole(w, root, buckets, was, waits, had, stops, i, k, bs, made, ks, curr, ps, remote);
    }

    /** One queue entry of resumeTrav. */
    method Serve(k: Key, bs: set<nat>)
      requires Conserved() && k !in remote && k in curr && curr[k] == bs
      modifies this`done, this`curr, this`keys, this`paused, this`requested, this`handled
      ensures Conserved() && TookUp(k, old(curr), curr, remote)
      ensures |paused| >= |old(paused)| && (|paused| > |old(paused)| ==> WantsPause())
      ensures Paced(lim, old(handled), old(requested), Events(Now(), w.source(k), bs), handled, requested,
            |paused| > |old(paused)|)
    {
      ghost var had := curr;
      ghost var left, ps;
      left, ps := Replay(k, bs);
      TookUpLess(k, had, curr, remote);
      curr := curr - {k};
      keys := left;
    }

    /** goDown, that is resumeTrav: take up the wait for every queued node, passing over repeats and nodes not
        waited for.  It posts nothing, so it leaves paused work without a message exactly when none was under way
        and either something was paused before or a counter is over its limit at an opened local node it reaches. */
    method GoDown(queue: seq<Key>)
      requires Conserved() && forall k {:trigger k in queue} :: k in queue ==> k !in remote
      modifies this`done, this`curr, this`keys, this`paused, this`requested, this`handled
      ensures Conserved() && Round(queue, |queue|, old(curr), |old(paused)|, old(handled), old(requested))
      ensures !Attended()
         <==> posted == 0 && (old(paused) != [] ||
               Trips(lim, old(handled), old(requested), QueueEvents(Now(), old(curr), queue, |queue|)))
    {
      TakeQueue(queue);
    }

    method TakeQueue(queue: seq<Key>)
      requires Conserved() && forall k {:trigger k in queue} :: k in queue ==> k !in remote
      modifies this`done, this`curr, this`keys, this`paused, this`requested, this`handled
      ensures Conserved() && Round(queue, |queue|, old(curr), |old(paused)|, old(handled), old(requested))
    {
      var seen: set<Key> := {};
      assert SetOf(queue[..0]) == {};
      PacedNone(lim, handled, requested);
      for n := 0 to |queue|
        invariant Conserved() && seen == SetOf(queue[..n])
        invariant Round(queue, n, old(curr), |old(paused)|, old(handled), old(requested))
      {
        assert queue[n] in queue;
        SetNext(queue, n);
        PassOrTake(queue, n, seen, old(curr), |old(paused)|, old(handled), old(requested));
        seen := seen + {queue[n]};
      }
      assert queue[..|queue|] == queue;
    }

    method PassOrTake(queue: seq<Key>, n: nat, seen: set<Key>, ghost was: map<Key, set<nat>>, ghost paused0: nat,
                      ghost h: nat, ghost r: nat)
      requires Conserved() && n < |queue| && queue[n] !in remote && seen == SetOf(queue[..n])
      requires Round(queue, n, was, paused0, h, r)
      modifies this`done, this`curr, this`keys, this`paused, this`requested, this`handled
      ensures Conserved() && Round(queue, n + 1, was, paused0, h, r)
    {
      SetNext(queue, n);
      if queue[n] !in seen {
        TakeUp(queue, n, was, paused0, h, r);
      } else {
        QueueSkip(Now(), was, queue, n);
      }
    }

    /** One queue entry not seen before. */
    method TakeUp(queue: seq<Key>, n: nat, ghost was: map<Key, set<nat>>, ghost paused0: nat, ghost h: nat,
                  ghost r: nat)
      requires Conserved() && n < |queue| && queue[n] !in remote && queue[n] !in queue[..n]
      requires Round(queue, n, was, paused0, h, r)
      modifies this`done, this`curr, this`keys, this`paused, this`requested, this`handled
      ensures Conserved() && Round(queue, n + 1, was, paused0, h, r)
    {
      var k := queue[n];
      SetNext(queue, n);
      if k in curr {
        ghost var had, h1, r1, stops := curr, handled, requested, |paused|;
        Serve(k, curr[k]);
        TookUpNext(SetOf(queue[..n]), was, had, curr, k, remote);
        PacedQueue(Now(), lim, h, r, was, queue, n, h1, r1, stops > paused0, handled, requested, |paused| > stops);
      } else {
        QueueSkip(Now(), was, queue, n);
      }
    }

    /** The first n queue entries have been taken up since `was`, h and r. */
    ghost predicate Round(queue: seq<Key>, n: nat, was: map<Key, set<nat>>, paused0: nat, h: nat, r: nat)
      requires n <= |queue|
      reads this
    {
      && TookUpAll(SetOf(queue[..n]), was, curr, remote) && |paused| >= paused0
      && Paced(lim, h, r, QueueEvents(Now(), was, queue, n), handled, requested, |paused| > paused0)
    }

    /** The children of one paused node; what they pause in turn goes to the end. */
    method Continue(idx: nat)
      requires idx < |paused| && Leaves(w, root, buckets, done, keys, curr, paused[idx..]) && Keyed()
      modifies this`done, this`curr, this`keys, this`paused, this`requested, this`handled
      ensures old(paused) <= paused && (paused != old(paused) ==> WantsPause())
      ensures Leaves(w, root, buckets, done, keys, curr, paused[idx + 1..]) && Keyed()
      ensures Longer(old(curr), curr, remote)
      ensures Paced(lim, old(handled), old(requested), Below(Now(), old(paused)[idx]), handled, requested,
            paused != old(paused))
      ensures PausedSize(paused[idx + 1..]) < PausedSize(old(paused)[idx..])
    {
      ghost var had, waits, stops, was := curr, keys, paused, done;
      var next := paused[idx];
      assert paused[idx..][0] == next;
      PausedClear(w, keys, paused[idx..], curr);
      ghost var made, ks, ps;
      made, ks, ps := RecurseAll(next.0, next.1);
      Continued(w, root, buckets, was, waits, had, stops[idx..], made, ks, curr, ps);
      assert paused[idx + 1..] == stops[idx..][1..] + ps;
      PausedSizeConcat(stops[idx..][1..], ps);
    }

    /** The first n of the nodes that were paused have been taken up, from counters at zero. */
    ghost predicate Taken(was: seq<Paused>, n: nat)
      reads this`paused, this`handled, this`requested, this`remote
    {
      && n <= |was| && was <= paused
      && (WantsPause() <==> Sated(Now(), lim, was, n))
      && (forall m: nat {:trigger Sated(Now(), lim, was, m)} :: m < n ==> !Sated(Now(), lim, was, m))
      && Paced(lim, 0, 0, PausedEvents(Now(), was, n), handled, requested, paused != was)
      && (paused != was ==> WantsPause())
      && PausedSize(paused[n..]) + n <= PausedSize(was)
    }

    /** The counters tell whether the events so far take one over its limit. */
    lemma SatedNow(was: seq<Paused>, n: nat)
      requires n <= |was| && Paced(lim, 0, 0, PausedEvents(Now(), was, n), handled, requested, paused != was)
      requires paused != was ==> WantsPause()
      ensures WantsPause() <==> Sated(Now(), lim, was, n)
    {
      if paused != was { TripsOver(lim, 0, 0, PausedEvents(Now(), was, n)); }
    }

    /** One more paused node. */
    method TakeNext(ghost was: seq<Paused>, idx: nat)
      requires idx < |was| && Taken(was, idx) && !WantsPause()
      requires Leaves(w, root, buckets, done, keys, curr, paused[idx..]) && Keyed()
      modifies this`done, this`curr, this`keys, this`paused, this`requested, this`handled
      ensures Taken(was, idx + 1) && Longer(old(curr), curr, remote)
      ensures Leaves(w, root, buckets, done, keys, curr, paused[idx + 1..]) && Keyed()
    {
      ghost var h, r := handled, requested;
      Continue(idx);
      PacedNext(lim, 0, 0, PausedEvents(Now(), was, idx), h, r, false, Below(Now(), was[idx]), handled, requested,
                paused != was);
      SatedNow(was, idx + 1);
    }

    /** The paused nodes in order until the walk wants to pause again. */
    method TakePaused() returns (idx: nat)
      requires Conserved() && handled == 0 && requested == 0
      modifies this`done, this`curr, this`keys, this`paused, this`requested, this`handled
      ensures Taken(old(paused), idx) && (idx == |old(paused)| || WantsPause())
      ensures Leaves(w, root, buckets, done, keys, curr, paused[idx..]) && Keyed()
      ensures Longer(old(curr), curr, remote)
    {
      idx := 0;
      PacedNone(lim, 0, 0);
      assert paused[0..] == paused;
      while idx < |paused|
        invariant Taken(old(paused), idx) && Longer(old(curr), curr, remote)
        invariant Leaves(w, root, buckets, done, keys, curr, paused[idx..]) && Keyed()
        decreases |old(paused)| - idx
      {
        if WantsPause() { break; }
        TakeNext(old(paused), idx);
        idx := idx + 1;
      }
    }

    /** ... which leave the list. */
    method TakeShare() returns (ghost n: nat)
      requires Conserved() && handled == 0 && requested == 0
      modifies this`done, this`curr, this`keys, this`paused, this`requested, this`handled
      ensures Conserved() && Longer(old(curr), curr, remote) && (paused != [] ==> WantsPause())
      ensures Share(Now(), lim, old(paused), n) && (WantsPause() <==> Sated(Now(), lim, old(paused), n))
      ensures old(paused)[n..] <= paused
      ensures Paced(lim, 0, 0, PausedEvents(Now(), old(paused), n), handled, requested, paused != old(paused)[n..])
      ensures PausedSize(paused) + n <= PausedSize(old(paused))
    {
      var idx := TakePaused();
      DropTaken(old(paused), paused, idx);
      n := idx;
      paused := paused[idx..];
    }

    /** resumeAfterPause: counters to zero, take up paused nodes, and post again if the walk still wants to pause.
        The nodes taken are the first n; the others stay in front of what is newly paused, and something is newly
        paused exactly when the walk below the n, counted from zero, comes to a stop. */
    method ResumeAfterPause() returns (ghost n: nat)
      requires Conserved() && posted > 0
      modifies this`done, this`curr, this`keys, this`paused, this`requested, this`handled, this`posted
      ensures Conserved() && Attended() && Longer(old(curr), curr, remote)
      ensures Share(Now(), lim, old(paused), n) && (old(paused) != [] ==> n > 0)
      ensures old(paused)[n..] <= paused
      ensures Paced(lim, 0, 0, PausedEvents(Now(), old(paused), n), handled, requested, paused != old(paused)[n..])
      ensures posted == if Sated(Now(), lim, old(paused), n) then old(posted) else old(posted) - 1
      ensures PausedSize(paused) + n <= PausedSize(old(paused))
    {
      requested, handled := 0, 0;
      n := TakeShare();
      posted := if WantsPause() then posted else posted - 1;
    }

    /** The messages under way, one after another, until none is left: nothing stays paused, whatever has not
        arrived. */
    method ResumeAll()
      requires Conserved() && Attended()
      modifies this`done, this`curr, this`keys, this`paused, this`requested, this`handled, this`posted
      ensures Conserved() && paused == [] && posted == 0 && Longer(old(curr), curr, remote)
    {
      while posted > 0
        invariant Conserved() && Attended() && Longer(old(curr), curr, remote)
        decreases PausedSize(paused), posted
      {
        ghost var n := ResumeAfterPause();
      }
    }

    /** With every node here a walk and its resumptions make exactly the uninterrupted walk's visits, whatever the
        limits. */
    method WalkThrough()
      requires WellKeyed(w, root) && Unstarted() && remote == {}
      modifies this`done, this`curr, this`keys, this`paused, this`requested, this`handled, this`posted
      ensures done == Visits(w, root, buckets) && paused == [] && posted == 0
      ensures forall v {:trigger done[v]} :: done[v] == if Due(w, root, buckets, v) then 1 else 0
    {
      Start();
      ResumeAll();
      AllVisited();
      forall v ensures done[v] == if Due(w, root, buckets, v) then 1 else 0 { VisitedOnce(w, root, buckets, v); }
    }
  }

  // ---- A run that strands work, for any limits.

  /** n nodes one below the other, from key k on, over an empty leaf. */
  function Chain(n: nat, k: Key): Src {
    if n == 0 then SEmpty(k) else SInner(k, [Chain(n - 1, k + 1)])
  }

  /** An installed root, a canopy node cut from the starter pack, and below it a local piece n nodes deep. */
  function Cut(n: nat): Src {
    Chain(n + 2, 0)
  }

  /** One bucket that opens everything; the canopy is not local, the piece is. */
  function CutWalk(n: nat): Walk {
    Walk((k, b) => true, true, b => 0, (k: Key) => if k <= n + 2 then Chain(n + 2 - k, k)
          else SEmpty(k), (k: Key) => k >= 2)
  }

  lemma {:induction false} ChainWithin(n: nat, k: Key, j: Key)
    ensures Within(Chain(n, k), j) <==> k <= j <= k + n
  {
    if n > 0 {
      ChainWithin(n - 1, k + 1, j);
      var one: seq<Src> := [Chain(n - 1, k + 1)];
      assert Chain(n, k).children == one && one[1..] == [];
      assert WithinAny(one, j) <==> Within(one[0], j) || WithinAny(one[1..], j);
    }
  }

  lemma {:induction false} ChainKeyed(n: nat, m: nat, k: Key)
    requires m + k == n + 2
    ensures WellKeyed(CutWalk(n), Chain(m, k))
  {
    if m > 0 {
      ChainKeyed(n, m - 1, k + 1);
      ChainWithin(m - 1, k + 1, k);
    }
  }

  /** A chain's events: every node opens. */
  lemma {:induction false} ChainEvents(n: nat, m: nat, k: Key, first: Key -> bool, lim: Limits, h: nat, r: nat)
    requires k >= 2
    ensures h + m > lim.iter >= h ==> Trips(lim, h, r, Events(Scene(CutWalk(n), {}, first), Chain(m, k), {0}))
    decreases m
  {
    var s := Scene(CutWalk(n), {}, first);
    assert s.w.Opened(k, {0}) == {0};
    if m > 0 && h + m > lim.iter >= h {
      OneChild(s, m, k);
      var ev := Events(s, Chain(m, k), {0});
      assert ev == [Opens(true)] + Events(s, Chain(m - 1, k + 1), {0});
      assert ev[1..] == Events(s, Chain(m - 1, k + 1), {0});
      if h + 1 <= lim.iter { ChainEvents(n, m - 1, k + 1, first, lim, h + 1, r); }
    }
  }

  lemma OneChild(s: Scene, m: nat, k: Key)
    requires m > 0 && k !in s.remote && s.w.Opened(k, {0}) == {0}
    ensures Events(s, Chain(m, k), {0}) == [Opens(s.w.local(k))] + Events(s, Chain(m - 1, k + 1), {0})
  {
    var cs := Chain(m, k).children;
    assert EventsUpTo(s, cs, 1, {0}) == EventsUpTo(s, cs, 0, {0}) + Events(s, cs[0], {0});
  }

  /** With the canopy node missing the walk opens the root and asks once. */
  lemma StartEvents(n: nat, first: Key -> bool, lim: Limits)
    requires lim.iter > 0 && lim.request > 0
    ensures var ev := Events(Scene(CutWalk(n), {1}, first), Cut(n), {0});
            ev == [Opens(false), Asks(1, {0}, first(1))] && !Trips(lim, 0, 0, ev) && OpensIn(ev) == 1 &&
                  FirstsIn(ev) <= 1
  {
    var s := Scene(CutWalk(n), {1}, first);
    assert s.w.Opened(0, {0}) == {0};
    OneChild(s, n + 2, 0);
    assert Events(s, Chain(n + 1, 1), {0}) == [Asks(1, {0}, first(1))];
    TwoEvents(Opens(false), Asks(1, {0}, first(1)), lim);
  }

  lemma TwoEvents(e: Event, f: Event, lim: Limits)
    ensures OpensIn([e, f]) == OpenCount(e) + OpenCount(f) && FirstsIn([e, f]) == FirstCount(e) + FirstCount(f)
    ensures Trips(lim, 0, 0, [e, f]) <==> Stops(lim, 0, 0, e) || Stops(lim, OpenCount(e), FirstCount(e), f)
  {
    var ev: seq<Event> := [e, f];
    assert ev[1..] == [f] && ev[1..][1..] == [];
    assert OpensIn(ev) == OpenCount(e) + (OpenCount(f) + OpensIn(ev[1..][1..]));
    assert FirstsIn(ev) == FirstCount(e) + (FirstCount(f) + FirstsIn(ev[1..][1..]));
    var h, r := OpenCount(e), FirstCount(e);
    assert Trips(lim, h, r, ev[1..])
      <==> Stops(lim, h, r, f) || Trips(lim, h + OpenCount(f), r + FirstCount(f), ev[1..][1..]);
  }

  /** Once the canopy node is here, the resumption opens it and the whole piece below. */
  lemma ResumeEvents(n: nat, first: Key -> bool, lim: Limits, r: nat)
    requires n == lim.iter > 0
    ensures Trips(lim, 1, r, QueueEvents(Scene(CutWalk(n), {}, first), map[1 := {0}], [1], 1))
  {
    var s := Scene(CutWalk(n), {}, first);
    assert s.w.Opened(1, {0}) == {0};
    var rest := Events(s, Chain(n, 2), {0});
    OneChild(s, n + 1, 1);
    var ev := Events(s, Chain(n + 1, 1), {0});
    assert ev == [Opens(false)] + rest && ev[1..] == rest;
    assert s.w.source(1) == Chain(n + 1, 1);
    assert QueueEvents(s, map[1 := {0}], [1], 0) == [];
    assert QueueEvents(s, map[1 := {0}], [1], 1) == [] + ev == ev;
    if lim.iter >= 2 {
      ChainEvents(n, n, 2, first, lim, 2, r);
    } else {
      OverLimit(s, n, lim, 2, r);
    }
  }

  lemma OverLimit(s: Scene, m: nat, lim: Limits, h: nat, r: nat)
    requires m > 0 && s.w == CutWalk(m) && s.remote == {} && h > lim.iter
    ensures Trips(lim, h, r, Events(s, Chain(m, 2), {0}))
  {
    assert s.w.Opened(2, {0}) == {0};
    OneChild(s, m, 2);
  }

  /** For any non-zero limits: the walk starts at an installed root and waits for the canopy node; the resumption
      that node's arrival brings stops in the piece below, and nothing is under way to take it up again. */
  method Strand(lim: Limits, first: Key -> bool) returns (t: Traverser)
    requires lim.iter > 0 && lim.request > 0
    ensures t.lim == lim && t.root == Cut(lim.iter) && t.remote == {} && t.Conserved()
    ensures t.curr == map[] && t.paused != [] && t.posted == 0 && !t.Attended()
  {
    t := CanopyArrives(lim, first);
    ResumeEvents(lim.iter, first, lim, t.requested);
    t.GoDown([1]);
    assert 1 in SetOf([1]) && [1][..1] == [1];
  }

  /** The walk has started, waits for the canopy node alone, and the node has just arrived. */
  method CanopyArrives(lim: Limits, first: Key -> bool) returns (t: Traverser)
    requires lim.iter > 0 && lim.request > 0
    ensures fresh(t) && t.lim == lim && t.w == CutWalk(lim.iter) && t.root == Cut(lim.iter) && t.first == first
    ensures t.remote == {} && t.Conserved() && t.curr == map[1 := {0}] && t.paused == [] && t.posted == 0
    ensures t.handled == 1
  {
    var n := lim.iter;
    ChainKeyed(n, n + 2, 0);
    StartEvents(n, first, lim);
    t := new Traverser(CutWalk(n), Cut(n), {0}, lim, first, {1});
    t.Start();
    assert t.paused == [] && Events(Scene(CutWalk(n), {1}, first), Cut(n), {0})[1].Asks?;
    t.Install(1);
  }
}
