/** Every step keeps the invariant. */
module WalkSteps {
  import opened Trees
  import opened Visitor
  import opened WalkMachine
  import opened WalkCredits
  import opened WalkInv

  /** Fetches under way stay under way when lane l moves on, unless it was l that closed the node. */
  lemma FetchesKept(c: Config, s: State, s': State, l: nat)
    requires Shaped(c, s) && Shaped(c, s') && l < c.lanes && NodesOk(c, s)
    requires forall q {:trigger s'.lanes[q]} :: 0 <= q < c.lanes && q != l ==> s'.lanes[q] == s.lanes[q]
    requires forall k {:trigger k in s.latched} ::
          k in s.latched && k !in s'.closed && (Ask(k) in s.msgs || Asking(s.lanes[l], k)) ==> BeingFetched(s', k)
    requires s.closed <= s'.closed
    ensures forall k {:trigger k in s.latched} :: k in s.latched && k !in s'.closed ==> BeingFetched(s', k)
  {
    forall k | k in s.latched && k !in s'.closed
      ensures BeingFetched(s', k)
    {
      if !(Ask(k) in s.msgs || Asking(s.lanes[l], k)) {
        var q :| 0 <= q < c.lanes && Asking(s.lanes[q], k);
        assert Asking(s'.lanes[q], k);
      }
    }
  }

  lemma AskedBy(c: Config, s: State, l: nat, k: Key)
    requires Shaped(c, s) && l < c.lanes && Asking(s.lanes[l], k)
    ensures BeingFetched(s, k)
  {
  }

  /** Queues keep their goDowns when the queues and the lane's claims on goDowns are untouched. */
  lemma QueuesKept(c: Config, s: State, s': State, l: nat)
    requires Shaped(c, s) && Shaped(c, s') && l < c.lanes && QueuesOk(c, s) && s'.queue == s.queue
    requires s.closed <= s'.closed
    requires forall q {:trigger s'.lanes[q]} :: 0 <= q < c.lanes && q != l ==> s'.lanes[q] == s.lanes[q]
    requires forall e: nat {:trigger GoDown(e)} {:trigger Down(e)} ::
               (GoDown(e) in s.msgs ==> GoDown(e) in s'.msgs || (c.Home(e) == l && Down(e) in Owns(s'.lanes[l])))
               && (Down(e) in Owns(s.lanes[l]) ==> Down(e) in Owns(s'.lanes[l]) || GoDown(e) in s'.msgs)
    ensures QueuesOk(c, s')
  {
    forall e: nat | e < |c.home| && s'.queue[e] != []
      ensures GoDown(e) in s'.msgs || (c.home[e] < c.lanes && Down(e) in Owns(s'.lanes[c.home[e]]))
    {
      assert s.queue[e] != [];
      if GoDown(e) !in s.msgs { assert Down(e) in Owns(s.lanes[c.home[e]]); }
    }
  }

  lemma SeedInv(c: Config, s: State, l: nat, e: nat)
    requires Inv(c, s) && Enabled(c, s, Seed(l, e))
    ensures Inv(c, Apply(c, s, Seed(l, e)))
  {
    var s' := Apply(c, s, Seed(l, e));
    StillPlaced(s, s', l, s'.lanes[l]);
    OthersOk(c, s, s', l);
    FetchesKept(c, s, s', l);
    QueuesKept(c, s, s', l);
  }

  lemma VisitInv(c: Config, s: State, l: nat, split: bool)
    requires Inv(c, s) && Enabled(c, s, Visit(l, split))
    ensures Inv(c, Apply(c, s, Visit(l, split)))
  {
    var s' := Apply(c, s, Visit(l, split));
    assert LaneOk(c, s, l, s.lanes[l]);
    StillPlaced(s, s', l, s'.lanes[l]);
    OthersOk(c, s, s', l);
    FetchesKept(c, s, s', l);
    QueuesKept(c, s, s', l);
  }

  lemma PublishInv(c: Config, s: State, l: nat, batch: set<Key>)
    requires Inv(c, s) && Enabled(c, s, Publish(l, batch))
    ensures Inv(c, Apply(c, s, Publish(l, batch)))
  {
    var s' := Apply(c, s, Publish(l, batch));
    assert LaneOk(c, s, l, s.lanes[l]);
    StillPlaced(s, s', l, s'.lanes[l]);
    OthersOk(c, s, s', l);
    AskedBy(c, s', l, s.lanes[l].k);
    FetchesKept(c, s, s', l);
    QueuesKept(c, s, s', l);
  }

  // ---- Requests.

  lemma ReqLatched(c: Config, s: State, k: Key)
    requires Inv(c, s) && k !in s.latched
    ensures Fresh(s, Req(k))
  {
    forall l | 0 <= l < c.lanes
      ensures Req(k) !in Owns(s.lanes[l])
    {
      var f := s.lanes[l];
      assert LaneOk(c, s, l, f);
      if f.Crediting? || f.Mailing? { assert Base(f) == Base(f.next); }
    }
  }

  lemma MissAgainInv(c: Config, s: State, l: nat)
    requires Inv(c, s) && Enabled(c, s, Miss(l)) && TopOf(s.lanes[l].w).k in s.latched
    ensures Inv(c, DoMiss(c, s, l))
  {
    var s' := DoMiss(c, s, l);
    assert LaneOk(c, s, l, s.lanes[l]);
    StillPlaced(s, s', l, s'.lanes[l]);
    OthersOk(c, s, s', l);
    FetchesKept(c, s, s', l);
    QueuesKept(c, s, s', l);
  }

  lemma MissFirstRest(c: Config, s: State, s': State, l: nat)
    requires Bodies(c, s) && Enabled(c, s, Miss(l)) && TopOf(s.lanes[l].w).k !in s.latched && s' == DoMiss(c, s, l)
    ensures Bodies(c, s')
  {
    var f, g := s.lanes[l], s'.lanes[l];
    assert LaneOk(c, s, l, f);
    assert g.Crediting? && g.next.Parking? && g.next.w.seed == f.w.seed && g.next.w.e == f.w.e;
    assert Base(g.next) == Base(f) && Base(g) == Base(g.next);
    AskedBy(c, s', l, TopOf(f.w).k);
    OthersOk(c, s, s', l);
    FetchesKept(c, s, s', l);
    QueuesKept(c, s, s', l);
  }

  lemma MissFirstInv(c: Config, s: State, l: nat)
    requires Inv(c, s) && Enabled(c, s, Miss(l)) && TopOf(s.lanes[l].w).k !in s.latched
    ensures Inv(c, DoMiss(c, s, l))
  {
    var s' := DoMiss(c, s, l);
    ReqLatched(c, s, TopOf(s.lanes[l].w).k);
    ClaimPlaced(s, s', l, s'.lanes[l].m, s'.lanes[l].next);
    MissFirstRest(c, s, s', l);
  }

  lemma MissInv(c: Config, s: State, l: nat)
    requires Inv(c, s) && Enabled(c, s, Miss(l))
    ensures Inv(c, Apply(c, s, Miss(l)))
  {
    if TopOf(s.lanes[l].w).k in s.latched { MissAgainInv(c, s, l); } else { MissFirstInv(c, s, l); }
  }

  lemma IdFresh(c: Config, s: State)
    requires Inv(c, s)
    ensures Fresh(s, Res(s.nextId))
  {
    forall l | 0 <= l < c.lanes
      ensures Res(s.nextId) !in Owns(s.lanes[l])
    {
    }
  }

  lemma ParkRest(c: Config, s: State, s': State, l: nat)
    requires Bodies(c, s) && Enabled(c, s, Park(l)) && s' == DoPark(c, s, l) && s.lanes[l].k !in s.closed
    ensures Bodies(c, s')
  {
    assert LaneOk(c, s, l, s.lanes[l]);
    OthersOk(c, s, s', l);
    FetchesKept(c, s, s', l);
    QueuesKept(c, s, s', l);
  }

  lemma ParkInv(c: Config, s: State, l: nat)
    requires Inv(c, s) && Enabled(c, s, Park(l)) && s.lanes[l].k !in s.closed
    ensures Inv(c, DoPark(c, s, l))
  {
    var s' := DoPark(c, s, l);
    StillPlaced(s, s', l, s'.lanes[l]);
    ParkRest(c, s, s', l);
  }

  lemma LateParkInv(c: Config, s: State, l: nat)
    requires Inv(c, s) && Enabled(c, s, Park(l)) && s.lanes[l].k in s.closed
    ensures Inv(c, DoPark(c, s, l))
  {
    var s' := DoPark(c, s, l);
    var f := s'.lanes[l];
    assert LaneOk(c, s, l, s.lanes[l]);
    IdFresh(c, s);
    ClaimPlaced(s, s', l, f.m, f.next);
    OthersOk(c, s, s', l);
    FetchesKept(c, s, s', l);
    QueuesKept(c, s, s', l);
  }

  /** A lane about to credit a message runs on a credit of its own, or seeds under the open one. */
  lemma LaneAlive(c: Config, s: State, l: nat)
    requires Inv(c, s) && l < c.lanes && s.lanes[l].Crediting?
    ensures s.tokens != {}
  {
    var f := s.lanes[l];
    assert LaneOk(c, s, l, f);
    if Base(f.next) != {} {
      var t :| t in Base(f.next);
      assert t in Holds(f) && LaneHolds(s, t) && t in s.tokens;
    } else {
      assert s.open && Open in Mail(s) && Open in s.tokens;
    }
  }

  lemma CreditInv(c: Config, s: State, l: nat)
    requires Inv(c, s) && Enabled(c, s, CreditUp(l))
    ensures Inv(c, Apply(c, s, CreditUp(l)))
  {
    var s' := Apply(c, s, CreditUp(l));
    var f := s.lanes[l];
    assert LaneOk(c, s, l, f);
    LaneAlive(c, s, l);
    CreditPlaced(s, s', l, f.m, f.next);
    CreditCounted(s, s', l, f.m, f.next);
    CreditLanes(c, s, s', l, f.m, f.next);
    CreditNodes(c, s, s', l, f.m, f.next);
  }

  ghost predicate SameShared(s: State, s': State) {
    && s'.present == s.present && s'.closed == s.closed && s'.latched == s.latched && s'.parked == s.parked
    && s'.queue == s.queue
    && s'.unseeded == s.unseeded && s'.seeding == s.seeding && s'.open == s.open && s'.msgs == s.msgs
  }

  lemma CreditLanes(c: Config, s: State, s': State, l: nat, m: Msg, next: Frame)
    requires Shaped(c, s) && Shaped(c, s') && l < c.lanes && LanesOk(c, s) && QueuesOk(c, s) && SameShared(s, s')
    requires s.lanes[l] == Crediting(m, next) && s'.lanes == s.lanes[l := Mailing(m, next)]
    ensures LanesOk(c, s') && QueuesOk(c, s')
  {
    assert LaneOk(c, s, l, s.lanes[l]);
    OthersOk(c, s, s', l);
    assert Owns(s'.lanes[l]) == Owns(s.lanes[l]);
    QueuesKept(c, s, s', l);
  }

  lemma CreditNodes(c: Config, s: State, s': State, l: nat, m: Msg, next: Frame)
    requires Shaped(c, s) && Shaped(c, s') && l < c.lanes && NodesOk(c, s) && SameShared(s, s')
    requires s.lanes[l] == Crediting(m, next) && s'.lanes == s.lanes[l := Mailing(m, next)]
    ensures NodesOk(c, s')
  {
    if m.Ask? { AskedBy(c, s', l, m.k); }
    FetchesKept(c, s, s', l);
  }

  lemma PostRest(c: Config, s: State, s': State, l: nat)
    requires Bodies(c, s) && Enabled(c, s, Post(l)) && s' == Apply(c, s, Post(l))
    ensures Bodies(c, s')
  {
    assert LaneOk(c, s, l, s.lanes[l]);
    OthersOk(c, s, s', l);
    FetchesKept(c, s, s', l);
    QueuesKept(c, s, s', l);
  }

  lemma PostInv(c: Config, s: State, l: nat)
    requires Inv(c, s) && Enabled(c, s, Post(l))
    ensures Inv(c, Apply(c, s, Post(l)))
  {
    var s' := Apply(c, s, Post(l));
    var f := s.lanes[l];
    assert LaneOk(c, s, l, f);
    PostPlaced(s, s', l, f.m, f.next);
    PostRest(c, s, s', l);
  }

  // ---- Installs.

  lemma ReplyInv(c: Config, s: State, l: nat, k: Key)
    requires Inv(c, s) && Enabled(c, s, Reply(l, k))
    ensures Inv(c, Apply(c, s, Reply(l, k)))
  {
    var s' := Apply(c, s, Reply(l, k));
    assert Ask(k) in s.msgs;
    TakePlaced(s, s', l, Ask(k), Publishing(k));
    OthersOk(c, s, s', l);
    AskedBy(c, s', l, k);
    FetchesKept(c, s, s', l);
    QueuesKept(c, s, s', l);
  }

  ghost predicate SoleFetched(c: Config, s: State, l: nat, k: Key)
    requires Shaped(c, s)
  {
    Ask(k) !in s.msgs && forall q {:trigger s.lanes[q]} :: 0 <= q < c.lanes && q != l ==> !Asking(s.lanes[q], k)
  }

  /** Closing a node: no other lane fetches it, no request for it is in flight. */
  lemma SoleFetch(c: Config, s: State, l: nat, k: Key)
    requires Inv(c, s) && l < c.lanes && s.lanes[l] == Closing(k)
    ensures SoleFetched(c, s, l, k)
  {
    HeldOnce(s, l, Req(k));
    assert Ask(k) in s.msgs ==> TokenOf(Ask(k)) in Mail(s);
    forall q | 0 <= q < c.lanes && q != l
      ensures !Asking(s.lanes[q], k)
    {
      assert Req(k) !in Owns(s.lanes[q]);
    }
  }

  lemma CloseRest(c: Config, s: State, s': State, l: nat)
    requires Bodies(c, s) && Enabled(c, s, Close(l)) && s' == Apply(c, s, Close(l))
    requires SoleFetched(c, s, l, s.lanes[l].k)
    ensures Bodies(c, s')
  {
    assert LaneOk(c, s, l, s.lanes[l]);
    OthersOk(c, s, s', l);
    FetchesKept(c, s, s', l);
    QueuesKept(c, s, s', l);
  }

  lemma CloseInv(c: Config, s: State, l: nat)
    requires Inv(c, s) && Enabled(c, s, Close(l))
    ensures Inv(c, Apply(c, s, Close(l)))
  {
    var s' := Apply(c, s, Close(l));
    assert LaneOk(c, s, l, s.lanes[l]);
    SoleFetch(c, s, l, s.lanes[l].k);
    StillPlaced(s, s', l, s'.lanes[l]);
    CloseRest(c, s, s', l);
  }

  lemma {:induction false} OnLaneFacts(c: Config, es: seq<nat>, q: nat, want: bool)
    requires ElemsIn(c, es) && |c.home| == |c.target|
    ensures ElemsIn(c, OnLane(c.home, es, q, want)) && (want ==> AtHome(c, OnLane(c.home, es, q, want), q))
    ensures forall e {:trigger e in OnLane(c.home, es, q, want)} :: e in OnLane(c.home, es, q, want) <==>
          e in es && ((e < |c.home| && c.home[e] == q) == want)
    ensures |OnLane(c.home, es, q, want)| <= |es|
  {
    if es != [] {
      OnLaneFacts(c, es[1..], q, want);
      assert es == [es[0]] + es[1..];
    }
  }

  lemma NotifyLast(c: Config, s: State, l: nat)
    requires Inv(c, s) && Enabled(c, s, Notify(l)) && s.lanes[l].todo == []
    ensures Inv(c, DoNotify(c, s, l))
  {
    var s' := DoNotify(c, s, l);
    assert LaneOk(c, s, l, s.lanes[l]);
    StillPlaced(s, s', l, s'.lanes[l]);
    OthersOk(c, s, s', l);
    FetchesKept(c, s, s', l);
    QueuesKept(c, s, s', l);
  }

  lemma NotifyNext(c: Config, s: State, l: nat)
    requires Inv(c, s) && Enabled(c, s, Notify(l)) && s.lanes[l].todo != []
    ensures Inv(c, DoNotify(c, s, l))
  {
    var s' := DoNotify(c, s, l);
    var f := s.lanes[l];
    assert LaneOk(c, s, l, f);
    IdFresh(c, s);
    OnLaneFacts(c, f.todo, c.home[f.todo[0]], true);
    OnLaneFacts(c, f.todo, c.home[f.todo[0]], false);
    ClaimPlaced(s, s', l, s'.lanes[l].m, s'.lanes[l].next);
    OthersOk(c, s, s', l);
    FetchesKept(c, s, s', l);
    QueuesKept(c, s, s', l);
  }

  lemma NotifyInv(c: Config, s: State, l: nat)
    requires Inv(c, s) && Enabled(c, s, Notify(l))
    ensures Inv(c, Apply(c, s, Notify(l)))
  {
    if s.lanes[l].todo == [] { NotifyLast(c, s, l); } else { NotifyNext(c, s, l); }
  }

  // ---- Resumes.

  lemma ReceiveRest(c: Config, s: State, s': State, l: nat, m: Msg)
    requires Bodies(c, s) && Enabled(c, s, Receive(l, m)) && s' == Apply(c, s, Receive(l, m))
    ensures Bodies(c, s')
  {
    OthersOk(c, s, s', l);
    FetchesKept(c, s, s', l);
    QueuesKept(c, s, s', l);
  }

  lemma ReceiveInv(c: Config, s: State, l: nat, m: Msg)
    requires Inv(c, s) && Enabled(c, s, Receive(l, m))
    ensures Inv(c, Apply(c, s, Receive(l, m)))
  {
    var s' := Apply(c, s, Receive(l, m));
    TakePlaced(s, s', l, m, s'.lanes[l]);
    ReceiveRest(c, s, s', l, m);
  }

  lemma SkipInv(c: Config, s: State, l: nat)
    requires Inv(c, s) && Enabled(c, s, Deliver(l)) && (s.lanes[l].todo == [] || s.lanes[l].todo[0] in s.lanes[l].done)
    ensures Inv(c, Apply(c, s, Deliver(l)))
  {
    var s' := Apply(c, s, Deliver(l));
    var f := s.lanes[l];
    assert LaneOk(c, s, l, f);
    StillPlaced(s, s', l, s'.lanes[l]);
    OthersOk(c, s, s', l);
    FetchesKept(c, s, s', l);
    QueuesKept(c, s, s', l);
  }

  /** An empty queue of an element at home on a delivering lane has no goDown anywhere. */
  lemma NoGoDown(c: Config, s: State, l: nat, e: nat)
    requires Inv(c, s) && l < c.lanes && s.lanes[l].Delivering? && e < |c.home| && c.home[e] == l && s.queue[e] == []
    ensures Fresh(s, Down(e))
  {
    forall q | 0 <= q < c.lanes
      ensures Down(e) !in Owns(s.lanes[q])
    {
      var f := s.lanes[q];
      assert LaneOk(c, s, q, f);
      if f.Crediting? || f.Mailing? { assert Base(f) == Base(f.next); }
    }
  }

  lemma DeliverInv(c: Config, s: State, l: nat)
    requires Inv(c, s) && Enabled(c, s, Deliver(l)) && s.lanes[l].todo != [] && s.lanes[l].todo[0] !in s.lanes[l].done
    ensures Inv(c, Apply(c, s, Deliver(l)))
  {
    var s' := Apply(c, s, Deliver(l));
    var f := s.lanes[l];
    var f' := s'.lanes[l];
    var e := f.todo[0];
    assert LaneOk(c, s, l, f);
    if s.queue[e] == [] {
      NoGoDown(c, s, l, e);
      ClaimPlaced(s, s', l, f'.m, f'.next);
    } else {
      StillPlaced(s, s', l, f');
    }
    DeliverLanes(c, s, s', l);
    FetchesKept(c, s, s', l);
    DeliverQueues(c, s, s', l);
  }

  lemma DeliverLanes(c: Config, s: State, s': State, l: nat)
    requires Inv(c, s) && Enabled(c, s, Deliver(l)) && s.lanes[l].todo != [] && s.lanes[l].todo[0] !in s.lanes[l].done
    requires s' == Apply(c, s, Deliver(l))
    ensures LanesOk(c, s')
  {
    var f := s.lanes[l];
    assert LaneOk(c, s, l, f);
    forall e | e in f.done + {f.todo[0]}
      ensures e < |c.home| && c.home[e] == l && f.k in s'.queue[e]
    {
    }
    OthersOk(c, s, s', l);
  }

  lemma DeliverQueues(c: Config, s: State, s': State, l: nat)
    requires Inv(c, s) && Enabled(c, s, Deliver(l)) && s.lanes[l].todo != [] && s.lanes[l].todo[0] !in s.lanes[l].done
    requires s' == Apply(c, s, Deliver(l))
    ensures QueuesOk(c, s') && MailOk(c, s')
  {
    var f := s.lanes[l];
    var e0 := f.todo[0];
    assert LaneOk(c, s, l, f);
    forall e: nat | e < |c.home| && s'.queue[e] != []
      ensures GoDown(e) in s'.msgs || (c.home[e] < c.lanes && Down(e) in Owns(s'.lanes[c.home[e]]))
    {
      if e == e0 && s.queue[e] == [] {
        assert Down(e) in Owns(s'.lanes[l]);
      } else {
        assert s.queue[e] != [];
        assert GoDown(e) in s.msgs || Down(e) in Owns(s.lanes[c.home[e]]);
      }
    }
  }

  // ---- goDown.

  lemma DescendInv(c: Config, s: State, l: nat, e: nat)
    requires Inv(c, s) && Enabled(c, s, Step.Descend(l, e))
    ensures Inv(c, Apply(c, s, Step.Descend(l, e)))
  {
    var s' := Apply(c, s, Step.Descend(l, e));
    TakePlaced(s, s', l, GoDown(e), Draining(e));
    OthersOk(c, s, s', l);
    FetchesKept(c, s, s', l);
    QueuesKept(c, s, s', l);
  }

  lemma DrainStop(c: Config, s: State, l: nat)
    requires Inv(c, s) && Enabled(c, s, Drain(l)) && s.queue[s.lanes[l].e] == []
    ensures Inv(c, DoDrain(c, s, l))
  {
    var s' := DoDrain(c, s, l);
    assert LaneOk(c, s, l, s.lanes[l]);
    StillPlaced(s, s', l, s'.lanes[l]);
    OthersOk(c, s, s', l);
    FetchesKept(c, s, s', l);
    QueuesKept(c, s, s', l);
  }

  lemma DrainTake(c: Config, s: State, l: nat)
    requires Inv(c, s) && Enabled(c, s, Drain(l)) && s.queue[s.lanes[l].e] != []
    ensures Inv(c, DoDrain(c, s, l))
  {
    var s' := DoDrain(c, s, l);
    assert LaneOk(c, s, l, s.lanes[l]);
    StillPlaced(s, s', l, s'.lanes[l]);
    OthersOk(c, s, s', l);
    FetchesKept(c, s, s', l);
    QueuesKept(c, s, s', l);
  }

  lemma DrainInv(c: Config, s: State, l: nat)
    requires Inv(c, s) && Enabled(c, s, Drain(l))
    ensures Inv(c, DoDrain(c, s, l))
  {
    if s.queue[s.lanes[l].e] == [] { DrainStop(c, s, l); } else { DrainTake(c, s, l); }
  }

  lemma FinishInv(c: Config, s: State, l: nat)
    requires Inv(c, s) && Enabled(c, s, Finish(l))
    ensures Inv(c, Apply(c, s, Finish(l)))
  {
    var s' := Apply(c, s, Finish(l));
    var w := s.lanes[l].w;
    assert LaneOk(c, s, l, s.lanes[l]);
    StillPlaced(s, s', l, s'.lanes[l]);
    FinishLanes(c, s, s', l);
    FetchesKept(c, s, s', l);
    FinishQueues(c, s, s', l);
  }

  lemma FinishLanes(c: Config, s: State, s': State, l: nat)
    requires Inv(c, s) && Enabled(c, s, Finish(l)) && s' == Apply(c, s, Finish(l))
    ensures LanesOk(c, s')
  {
    assert LaneOk(c, s, l, s.lanes[l]);
    OthersOk(c, s, s', l);
  }

  lemma FinishQueues(c: Config, s: State, s': State, l: nat)
    requires Inv(c, s) && Enabled(c, s, Finish(l)) && s' == Apply(c, s, Finish(l))
    ensures QueuesOk(c, s') && MailOk(c, s')
  {
    var w := s.lanes[l].w;
    assert LaneOk(c, s, l, s.lanes[l]);
    if !w.seed {
      HeldOnce(s, l, Down(w.e));
      assert s.queue[w.e] == [s.queue[w.e][0]] + s.queue[w.e][1..];
    }
    forall e, k | 0 <= e < |c.home| && k in s'.queue[e]
      ensures k in s'.closed
    {
      assert k in s.queue[e];
    }
    assert GoDown(w.e) in s.msgs ==> TokenOf(GoDown(w.e)) in Mail(s);
    forall e: nat | e < |c.home| && s'.queue[e] != []
      ensures GoDown(e) in s'.msgs || (c.home[e] < c.lanes && Down(e) in Owns(s'.lanes[c.home[e]]))
    {
      assert s.queue[e] != [];
      assert GoDown(e) in s.msgs || Down(e) in Owns(s.lanes[c.home[e]]);
    }
  }

  // ---- The end of a credit.

  lemma ReleaseInv(c: Config, s: State, l: nat)
    requires Inv(c, s) && Enabled(c, s, Release(l))
    ensures Inv(c, Apply(c, s, Release(l)))
  {
    var s' := Apply(c, s, Release(l));
    ReleasePlaced(s, s', l);
    OthersOk(c, s, s', l);
    FetchesKept(c, s, s', l);
    QueuesKept(c, s, s', l);
  }

  lemma RemoveRest(c: Config, s: State, s': State, l: nat)
    requires Bodies(c, s) && Enabled(c, s, Remove(l)) && s.armed && s' == DoRemove(c, s, l) && QueuesOk(c, s')
    ensures Bodies(c, s')
  {
    assert LaneOk(c, s, l, s.lanes[l]);
    OthersOk(c, s, s', l);
    FetchesKept(c, s, s', l);
  }

  lemma RemoveInv(c: Config, s: State, l: nat)
    requires Inv(c, s) && Enabled(c, s, Remove(l))
    ensures Inv(c, DoRemove(c, s, l))
  {
    var s' := DoRemove(c, s, l);
    var t := s.lanes[l].t;
    assert t in Holds(s.lanes[l]) && LaneHolds(s, t) && t in s.tokens && s.armed;
    RemovePlaced(s, s', l, t);
    RemoveCounted(s, s', l, t);
    RemoveQueues(c, s, s', l);
    RemoveRest(c, s, s', l);
  }

  /** A goDown gives its credit up only after it has seen its queue empty. */
  lemma RemoveQueues(c: Config, s: State, s': State, l: nat)
    requires Inv(c, s) && Enabled(c, s, Remove(l)) && s' == Apply(c, s, Remove(l))
    ensures QueuesOk(c, s')
  {
    var t := s.lanes[l].t;
    assert LaneOk(c, s, l, s.lanes[l]);
    forall e: nat | e < |c.home| && s'.queue[e] != []
      ensures GoDown(e) in s'.msgs || (c.home[e] < c.lanes && Down(e) in Owns(s'.lanes[c.home[e]]))
    {
      assert s.queue[e] != [];
      assert GoDown(e) in s.msgs || Down(e) in Owns(s.lanes[c.home[e]]);
      assert t != Down(e);
    }
  }

  lemma SwapInv(c: Config, s: State, l: nat)
    requires Inv(c, s) && Enabled(c, s, Swap(l))
    ensures Inv(c, Apply(c, s, Swap(l)))
  {
    var s' := Apply(c, s, Swap(l));
    SwapPlaced(s, s', l);
    OthersOk(c, s, s', l);
    FetchesKept(c, s, s', l);
    QueuesKept(c, s, s', l);
  }

  // ---- Every step, every run.

  lemma StepInv(c: Config, s: State, step: Step)
    requires Inv(c, s) && Enabled(c, s, step)
    ensures Inv(c, Apply(c, s, step))
  {
    match step
    case Seed(l, e) => SeedInv(c, s, l, e);
    case Visit(l, split) => VisitInv(c, s, l, split);
    case Miss(l) => MissInv(c, s, l);
    case Park(l) => if s.lanes[l].k in s.closed { LateParkInv(c, s, l); } else { ParkInv(c, s, l); }
    case CreditUp(l) => CreditInv(c, s, l);
    case Post(l) => PostInv(c, s, l);
    case Reply(l, k) => ReplyInv(c, s, l, k);
    case Publish(l, batch) => PublishInv(c, s, l, batch);
    case Close(l) => CloseInv(c, s, l);
    case Notify(l) => NotifyInv(c, s, l);
    case Receive(l, m) => ReceiveInv(c, s, l, m);
    case Deliver(l) => if s.lanes[l].todo == [] || s.lanes[l].todo[0] in s.lanes[l].done { SkipInv(c, s, l); }
          else { DeliverInv(c, s, l); }
    case Descend(l, e) => DescendInv(c, s, l, e);
    case Drain(l) => DrainInv(c, s, l);
    case Finish(l) => FinishInv(c, s, l);
    case Release(l) => ReleaseInv(c, s, l);
    case Remove(l) => RemoveInv(c, s, l);
    case Swap(l) => SwapInv(c, s, l);
  }

  lemma {:induction false} RunInv(c: Config, trace: seq<State>, steps: seq<Step>, i: nat)
    requires Run(c, trace, steps) && i < |trace|
    ensures Inv(c, trace[i])
  {
    if i == 0 {
      InitialInv(c, trace[0]);
    } else {
      RunInv(c, trace, steps, i - 1);
      StepInv(c, trace[i - 1], steps[i - 1]);
    }
  }
}
