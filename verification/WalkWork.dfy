/** No lost or repeated wake-up: every (source key, target) a walker set aside for a remote node is
    carried by exactly the machinery that will bring it back, and is walked once, after the install. */
module WalkWork {
  import opened Trees
  import opened Visitor
  import opened WalkMachine
  import opened WalkCredits
  import opened WalkInv
  import opened WalkSteps

  /** The doTrav a lane is in the middle of, if any. */
  function Doing(f: Frame): (r: seq<Work>)
    ensures |r| <= 1
  {
    match f
    case Walking(w) => [w]
    case Parking(_, w) => [w]
    case Crediting(_, next) => Doing(next)
    case Mailing(_, next) => Doing(next)
    case _ => []
  }

  predicate Runs(f: Frame, e: nat) {
    Doing(f) != [] && Doing(f)[0].e == e
  }

  /** Element e's records: those in its table and those its running doTrav will insert. */
  function Records(c: Config, s: State, e: nat): seq<Record>
    requires Shaped(c, s) && e < |c.home|
  {
    s.curr[e] + if c.home[e] < c.lanes && Runs(s.lanes[c.home[e]], e) then Doing(s.lanes[c.home[e]])[0].ins else []
  }

  /** Element e's queue without the entry its running goDown is working on. */
  function Rest(c: Config, s: State, e: nat): seq<Key>
    requires Shaped(c, s) && e < |c.home|
  {
    if c.home[e] < c.lanes && Runs(s.lanes[c.home[e]], e) && !Doing(s.lanes[c.home[e]])[0].seed && s.queue[e] != []
    then s.queue[e][1..] else s.queue[e]
  }

  predicate Carries(f: Frame, e: nat, k: Key) {
    match f
    case Parking(p, w) => p == k && w.e == e
    case Delivering(_, p, todo, _) => p == k && e in todo
    case Notifying(p, todo) => p == k && e in todo
    case Crediting(m, next) => Carries(next, e, k) || (m.Resume? && m.k == k && e in m.elems)
    case Mailing(m, next) => Carries(next, e, k) || (m.Resume? && m.k == k && e in m.elems)
    case _ => false
  }

  ghost predicate Mailed(msgs: set<Msg>, e: nat, k: Key) {
    exists m {:trigger m in msgs} :: m in msgs && m.Resume? && m.k == k && e in m.elems
  }

  ghost predicate LaneCarries(s: State, e: nat, k: Key) {
    exists l {:trigger s.lanes[l]} :: 0 <= l < |s.lanes| && Carries(s.lanes[l], e, k)
  }

  /** Something will bring element e back to node k: a parked entry, a resume message, a lane on the way,
      or the element's queue. */
  ghost predicate Carried(c: Config, s: State, e: nat, k: Key)
    requires Shaped(c, s) && e < |c.home|
  {
    e in Get(s.parked, k) || Mailed(s.msgs, e, k) || LaneCarries(s, e, k) || k in Rest(c, s, e)
  }

  ghost predicate Awaited(c: Config, s: State)
    requires Shaped(c, s)
  {
    forall e: nat, r {:trigger r in Records(c, s, e)} :: e < |c.home| && r in Records(c, s, e) ==> Carried(c, s, e, r.0)
  }

  /** Recorded is walked plus still set aside, with multiplicity; only installed nodes are walked. */
  ghost predicate Conserved(c: Config, s: State)
    requires Shaped(c, s)
  {
    forall e: nat {:trigger s.recorded[e]} :: e < |c.home| ==>
      s.recorded[e] == s.walked[e] + multiset(Records(c, s, e)) && forall r {:trigger s.walked[e][r]} ::
            s.walked[e][r] > 0 ==> r.0 in s.present
  }

  lemma InitialWork(c: Config, s: State)
    requires Initial(c, s)
    ensures Awaited(c, s) && Conserved(c, s)
  {
    forall e: nat | e < |c.home|
      ensures Records(c, s, e) == []
    {
      assert s.curr[e] == [];
    }
    forall e: nat | e < |c.home|
      ensures s.recorded[e] == s.walked[e] + multiset(Records(c, s, e))
    {
      assert s.recorded[e] == multiset{};
    }
  }

  /** What lane l carried, it hands on; what waited elsewhere still does. */
  ghost predicate HandsOn(c: Config, s: State, s': State, l: nat)
    requires Shaped(c, s) && Shaped(c, s') && l < c.lanes
  {
    && (forall q {:trigger s'.lanes[q]} :: 0 <= q < c.lanes && q != l ==> s'.lanes[q] == s.lanes[q])
    && (forall e: nat, k {:trigger e in Get(s.parked, k)} :: e in Get(s.parked, k) ==>
          e in Get(s'.parked, k) || Carries(s'.lanes[l], e, k))
    && (forall e: nat, k {:trigger Mailed(s.msgs, e, k)} :: Mailed(s.msgs, e, k) ==>
          Mailed(s'.msgs, e, k) || Carries(s'.lanes[l], e, k))
    && (forall e: nat, k {:trigger Carries(s.lanes[l], e, k)} :: e < |c.home| && Carries(s.lanes[l], e, k) ==>
          Carries(s'.lanes[l], e, k) || e in Get(s'.parked, k) || Mailed(s'.msgs, e, k) || k in Rest(c, s', e))
  }

  lemma StillCarried(c: Config, s: State, s': State, l: nat, e: nat, k: Key)
    requires Shaped(c, s) && Shaped(c, s') && l < c.lanes && HandsOn(c, s, s', l) && e < |c.home| && Carried(c, s, e, k)
    requires k in Rest(c, s, e) ==> k in Rest(c, s', e)
    ensures Carried(c, s', e, k)
  {
    if e in Get(s.parked, k) {
      assert e in Get(s'.parked, k) || Carries(s'.lanes[l], e, k);
    } else if LaneCarries(s, e, k) {
      var q :| 0 <= q < c.lanes && Carries(s.lanes[q], e, k);
      if q != l { assert Carries(s'.lanes[q], e, k); }
    }
  }

  /** A step that hands everything on and touches no record keeps both invariants. */
  lemma PlainWork(c: Config, s: State, s': State, l: nat)
    requires Shaped(c, s) && Shaped(c, s') && l < c.lanes && Awaited(c, s) && Conserved(c, s) && HandsOn(c, s, s', l)
    requires forall e: nat {:trigger Records(c, s', e)} {:trigger Rest(c, s', e)} :: e < |c.home| ==>
               multiset(Records(c, s', e)) == multiset(Records(c, s, e)) && forall k :: k in Rest(c, s, e) ==>
                     k in Rest(c, s', e)
    requires s'.recorded == s.recorded && s'.walked == s.walked && s.present <= s'.present
    ensures Awaited(c, s') && Conserved(c, s')
  {
    forall e: nat, r | e < |c.home| && r in Records(c, s', e)
      ensures Carried(c, s', e, r.0)
    {
      assert r in multiset(Records(c, s', e));
      assert r in Records(c, s, e);
      StillCarried(c, s, s', l, e, r.0);
    }
  }

  ghost predicate WorkInv(c: Config, s: State) {
    Inv(c, s) && Awaited(c, s) && Conserved(c, s)
  }

  /** The part of the invariant the hand-overs rest on. */
  ghost predicate Working(c: Config, s: State) {
    Shaped(c, s) && LanesOk(c, s) && Awaited(c, s) && Conserved(c, s)
  }

  /** Steps that carry nothing: they leave every record, queue and waiter as it is. */
  lemma IdleWork(c: Config, s: State, s': State, l: nat)
    requires Working(c, s) && Shaped(c, s') && l < c.lanes && s'.lanes == s.lanes[l := s'.lanes[l]]
    requires s'.curr == s.curr && s'.queue == s.queue && s'.recorded == s.recorded && s'.walked == s.walked
    requires s.present <= s'.present
    requires s'.parked == s.parked && forall m {:trigger m in s.msgs} :: m in s.msgs && m.Resume? ==> m in s'.msgs
    requires forall e: nat, k {:trigger Carries(s.lanes[l], e, k)} :: Carries(s.lanes[l], e, k) ==>
          Carries(s'.lanes[l], e, k) || Mailed(s'.msgs, e, k)
    requires SameDoing(s.lanes[l], s'.lanes[l])
    ensures Awaited(c, s') && Conserved(c, s')
  {
    forall e: nat | e < |c.home|
      ensures Records(c, s', e) == Records(c, s, e) && Rest(c, s', e) == Rest(c, s, e)
    {
    }
    PlainWork(c, s, s', l);
  }

  /** The same doTrav, as far as records and queues are concerned; none counts as an empty one. */
  predicate SameDoing(f: Frame, g: Frame) {
    if Doing(f) == [] then Doing(g) == [] || (Doing(g)[0].ins == [] && Doing(g)[0].seed)
    else if Doing(g) == [] then Doing(f)[0].ins == [] && Doing(f)[0].seed
    else Doing(f)[0].e == Doing(g)[0].e && Doing(f)[0].ins == Doing(g)[0].ins && Doing(f)[0].seed == Doing(g)[0].seed
  }

  /** A lane's own steps between the hand-overs. */
  lemma LocalStepWork(c: Config, s: State, step: Step)
    requires Working(c, s) && Enabled(c, s, step)
    requires step.Seed? || step.Visit? || step.Publish? || step.Release? || step.Remove? || step.Swap?
    ensures Awaited(c, Apply(c, s, step)) && Conserved(c, Apply(c, s, step))
  {
    IdleWork(c, s, Apply(c, s, step), step.l);
  }

  lemma CreditWork(c: Config, s: State, l: nat)
    requires Working(c, s) && Enabled(c, s, CreditUp(l))
    ensures Awaited(c, Apply(c, s, CreditUp(l))) && Conserved(c, Apply(c, s, CreditUp(l)))
  {
    var f := s.lanes[l];
    assert Doing(f) == Doing(f.next) == Doing(Mailing(f.m, f.next));
    IdleWork(c, s, Apply(c, s, CreditUp(l)), l);
  }

  lemma PostWork(c: Config, s: State, l: nat)
    requires Working(c, s) && Enabled(c, s, Post(l))
    ensures Awaited(c, Apply(c, s, Post(l))) && Conserved(c, Apply(c, s, Post(l)))
  {
    var f := s.lanes[l];
    var s' := Apply(c, s, Post(l));
    assert f.m in s'.msgs;
    assert Doing(f) == Doing(f.next);
    IdleWork(c, s, s', l);
  }

  lemma TakeWork(c: Config, s: State, step: Step)
    requires Working(c, s) && Enabled(c, s, step) && (step.Reply? || step.Descend?)
    ensures Awaited(c, Apply(c, s, step)) && Conserved(c, Apply(c, s, step))
  {
    IdleWork(c, s, Apply(c, s, step), step.l);
  }

  lemma MissRecords(c: Config, s: State, l: nat)
    requires Shaped(c, s) && Enabled(c, s, Miss(l)) && LaneOk(c, s, l, s.lanes[l])
    ensures var s' := DoMiss(c, s, l); var w := s.lanes[l].w; var r0 := (TopOf(w).k, TopOf(w).t);
            && Carries(s'.lanes[l], w.e, r0.0)
            && (forall e: nat {:trigger Rest(c, s', e)} :: e < |c.home| ==> Rest(c, s', e) == Rest(c, s, e))
            && (forall e: nat {:trigger Records(c, s', e)} :: e < |c.home| ==>
                  Records(c, s', e) == if e == w.e then Records(c, s, e) + [r0] else Records(c, s, e))
  {
    var s' := DoMiss(c, s, l);
    var w := s.lanes[l].w;
    var x := TopOf(w);
    var r0 := (x.k, x.t);
    var w' := w.(stack := w.stack[..|w.stack| - 1], ins := w.ins + [r0]);
    var parking := Parking(x.k, w');
    assert Carries(parking, w.e, x.k) && Doing(parking) == [w'];
    assert s'.lanes[l] == parking || s'.lanes[l] == Crediting(Ask(x.k), parking);
    assert Carries(s'.lanes[l], w.e, x.k) && Doing(s'.lanes[l]) == [w'];
    forall e: nat | e < |c.home|
      ensures Rest(c, s', e) == Rest(c, s, e)
      ensures Records(c, s', e) == if e == w.e then Records(c, s, e) + [r0] else Records(c, s, e)
    {
      if e == w.e { assert s.curr[e] + (w.ins + [r0]) == s.curr[e] + w.ins + [r0]; }
    }
  }

  lemma MissWork(c: Config, s: State, l: nat)
    requires Working(c, s) && Enabled(c, s, Miss(l))
    ensures Awaited(c, DoMiss(c, s, l)) && Conserved(c, DoMiss(c, s, l))
  {
    var s' := DoMiss(c, s, l);
    var w := s.lanes[l].w;
    var r0 := (TopOf(w).k, TopOf(w).t);
    MissRecords(c, s, l);
    MissAwaited(c, s, s', l, w.e, r0);
    MissConserved(c, s, s', l, w.e, r0);
  }

  lemma MissAwaited(c: Config, s: State, s': State, l: nat, e0: nat, r0: Record)
    requires Shaped(c, s) && Shaped(c, s') && l < c.lanes && Awaited(c, s) && HandsOn(c, s, s', l)
    requires Carries(s'.lanes[l], e0, r0.0)
    requires forall e: nat {:trigger Rest(c, s', e)} :: e < |c.home| ==> Rest(c, s', e) == Rest(c, s, e)
    requires forall e: nat {:trigger Records(c, s', e)} :: e < |c.home| ==>
          Records(c, s', e) == if e == e0 then Records(c, s, e) + [r0] else Records(c, s, e)
    ensures Awaited(c, s')
  {
    forall e: nat, r | e < |c.home| && r in Records(c, s', e)
      ensures Carried(c, s', e, r.0)
    {
      if e == e0 && r == r0 {
        assert LaneCarries(s', e, r.0);
      } else {
        assert r in Records(c, s, e);
        StillCarried(c, s, s', l, e, r.0);
      }
    }
  }

  lemma MissConserved(c: Config, s: State, s': State, l: nat, e0: nat, r0: Record)
    requires Shaped(c, s) && Shaped(c, s') && Conserved(c, s) && e0 < |c.home| && s'.walked == s.walked
    requires s.present <= s'.present
    requires s'.recorded == s.recorded[e0 := s.recorded[e0] + multiset{r0}]
    requires forall e: nat {:trigger Records(c, s', e)} :: e < |c.home| ==>
          Records(c, s', e) == if e == e0 then Records(c, s, e) + [r0] else Records(c, s, e)
    ensures Conserved(c, s')
  {
    forall e: nat | e < |c.home|
      ensures s'.recorded[e] == s'.walked[e] + multiset(Records(c, s', e))
    {
      assert s.recorded[e] == s.walked[e] + multiset(Records(c, s, e));
    }
  }

  lemma ParkWork(c: Config, s: State, l: nat)
    requires Working(c, s) && Enabled(c, s, Park(l))
    ensures Awaited(c, Apply(c, s, Park(l))) && Conserved(c, Apply(c, s, Park(l)))
  {
    var s' := Apply(c, s, Park(l));
    var w := s.lanes[l].w;
    var walking := Walking(w);
    assert Doing(walking) == [w] && Doing(s.lanes[l]) == [w];
    assert s'.lanes[l] == walking || s'.lanes[l] == Crediting(Resume(s.nextId, l, s.lanes[l].k, [w.e]), walking);
    assert Doing(s'.lanes[l]) == [w];
    forall e: nat | e < |c.home|
      ensures Records(c, s', e) == Records(c, s, e) && Rest(c, s', e) == Rest(c, s, e)
    {
    }
    ParkHandsOn(c, s, s', l);
    PlainWork(c, s, s', l);
  }

  lemma ParkHandsOn(c: Config, s: State, s': State, l: nat)
    requires Shaped(c, s) && Enabled(c, s, Park(l)) && s' == Apply(c, s, Park(l))
    ensures HandsOn(c, s, s', l)
  {
    var w := s.lanes[l].w;
    if s.lanes[l].k in s.closed {
      assert w.e in [w.e];
    }
  }

  lemma CloseWork(c: Config, s: State, l: nat)
    requires Working(c, s) && Enabled(c, s, Close(l))
    ensures Awaited(c, Apply(c, s, Close(l))) && Conserved(c, Apply(c, s, Close(l)))
  {
    var s' := Apply(c, s, Close(l));
    forall e: nat | e < |c.home|
      ensures Records(c, s', e) == Records(c, s, e) && Rest(c, s', e) == Rest(c, s, e)
    {
    }
    PlainWork(c, s, s', l);
  }

  lemma NotifyWork(c: Config, s: State, l: nat)
    requires Working(c, s) && Enabled(c, s, Notify(l))
    ensures Awaited(c, Apply(c, s, Notify(l))) && Conserved(c, Apply(c, s, Notify(l)))
  {
    var s' := Apply(c, s, Notify(l));
    var todo := s.lanes[l].todo;
    if todo != [] {
      OnLaneFacts(c, todo, c.home[todo[0]], true);
      OnLaneFacts(c, todo, c.home[todo[0]], false);
    }
    IdleWork(c, s, s', l);
  }

  lemma ReceiveWork(c: Config, s: State, l: nat, m: Msg)
    requires Working(c, s) && Enabled(c, s, Receive(l, m))
    ensures Awaited(c, Apply(c, s, Receive(l, m))) && Conserved(c, Apply(c, s, Receive(l, m)))
  {
    var s' := Apply(c, s, Receive(l, m));
    forall e: nat | e < |c.home|
      ensures Records(c, s', e) == Records(c, s, e) && Rest(c, s', e) == Rest(c, s, e)
    {
    }
    forall e: nat, k | Mailed(s.msgs, e, k)
      ensures Mailed(s'.msgs, e, k) || Carries(s'.lanes[l], e, k)
    {
      var n :| n in s.msgs && n.Resume? && n.k == k && e in n.elems;
      if n != m { assert n in s'.msgs; }
    }
    PlainWork(c, s, s', l);
  }

  lemma DeliverWork(c: Config, s: State, l: nat)
    requires Working(c, s) && Enabled(c, s, Deliver(l))
    ensures Awaited(c, Apply(c, s, Deliver(l))) && Conserved(c, Apply(c, s, Deliver(l)))
  {
    var s' := Apply(c, s, Deliver(l));
    var f := s.lanes[l];
    assert LaneOk(c, s, l, f);
    DeliverFrames(c, s, l);
    forall e: nat | e < |c.home|
      ensures Records(c, s', e) == Records(c, s, e) && forall k :: k in Rest(c, s, e) ==> k in Rest(c, s', e)
    {
    }
    DeliverHandsOn(c, s, s', l);
    PlainWork(c, s, s', l);
  }

  lemma DeliverHandsOn(c: Config, s: State, s': State, l: nat)
    requires Shaped(c, s) && Enabled(c, s, Deliver(l)) && s' == Apply(c, s, Deliver(l)) && LaneOk(c, s, l, s.lanes[l])
    requires forall e: nat {:trigger Rest(c, s', e)} :: e < |c.home| ==> forall k :: k in Rest(c, s, e) ==>
          k in Rest(c, s', e)
    ensures HandsOn(c, s, s', l)
  {
    var f := s.lanes[l];
    DeliverFrames(c, s, l);
    forall e: nat, k | e < |c.home| && Carries(f, e, k)
      ensures Carries(s'.lanes[l], e, k) || k in Rest(c, s', e)
    {
      assert e in f.todo && k == f.k;
      assert f.todo == [f.todo[0]] + f.todo[1..];
    }
  }

  lemma DeliverFrames(c: Config, s: State, l: nat)
    requires Shaped(c, s) && Enabled(c, s, Deliver(l))
    ensures Doing(s.lanes[l]) == [] && Doing(Apply(c, s, Deliver(l)).lanes[l]) == []
    ensures s.lanes[l].todo != [] ==>
          forall e: nat {:trigger Carries(Apply(c, s, Deliver(l)).lanes[l], e, s.lanes[l].k)} ::
              e in s.lanes[l].todo[1..] ==> Carries(Apply(c, s, Deliver(l)).lanes[l], e, s.lanes[l].k)
  {
    var f := s.lanes[l];
    if f.todo != [] {
      var next := Delivering(f.id, f.k, f.todo[1..], f.done + {f.todo[0]});
      assert Doing(next) == [];
      assert forall e: nat :: e in f.todo[1..] ==> Carries(next, e, f.k);
    }
  }

  // ---- goDown takes the records of one node, and hands the new ones over at the end.

  lemma {:induction false} SelectSplits(rs: seq<Record>, k: Key)
    ensures multiset(rs) == multiset(Select(rs, k, true)) + multiset(Select(rs, k, false))
    ensures forall r {:trigger r in Select(rs, k, false)} :: r in Select(rs, k, false) ==> r in rs && r.0 != k
    ensures forall r {:trigger r in Select(rs, k, true)} :: r in Select(rs, k, true) ==> r in rs && r.0 == k
  {
    if rs != [] {
      SelectSplits(rs[1..], k);
      assert rs == [rs[0]] + rs[1..];
    }
  }

  lemma DrainViews(c: Config, s: State, s': State, l: nat, e: nat)
    requires Shaped(c, s) && l < c.lanes && s.lanes[l].Draining? && s.lanes[l].e < |c.home| && e < |c.home|
    requires c.home[s.lanes[l].e] == l
    requires s.queue[s.lanes[l].e] != [] && s' == DoDrain(c, s, l)
    ensures var e0 := s.lanes[l].e; var k0 := s.queue[e0][0];
            && Records(c, s', e) == (if e == e0 then Select(s.curr[e0], k0, false) else Records(c, s, e))
            && (e == e0 ==> Records(c, s, e) == s.curr[e0])
            && Rest(c, s', e) == (if e == e0 then s.queue[e0][1..] else Rest(c, s, e)) && (e == e0 ==>
                  Rest(c, s, e) == s.queue[e0])
  {
    var e0 := s.lanes[l].e;
    var w := Work(e0, s.queue[e0][0], Entries(Select(s.curr[e0], s.queue[e0][0], true)), [], false);
    assert s'.lanes[l] == Walking(w) && Doing(Walking(w)) == [w];
    assert Doing(s.lanes[l]) == [];
    if c.home[e] == l && e != e0 {
      assert !Runs(s.lanes[l], e) && !Runs(s'.lanes[l], e);
    }
  }

  lemma DrainAwaited(c: Config, s: State, s': State, l: nat)
    requires Working(c, s) && Enabled(c, s, Drain(l)) && s' == DoDrain(c, s, l) && s.queue[s.lanes[l].e] != []
    ensures Awaited(c, s')
  {
    var e0 := s.lanes[l].e;
    var k0 := s.queue[e0][0];
    SelectSplits(s.curr[e0], k0);
    assert LaneOk(c, s, l, s.lanes[l]);
    assert s.queue[e0] == [k0] + s.queue[e0][1..];
    assert HandsOn(c, s, s', l);
    forall e: nat, r | e < |c.home| && r in Records(c, s', e)
      ensures Carried(c, s', e, r.0)
    {
      DrainViews(c, s, s', l, e);
      assert r in Records(c, s, e);
      StillCarried(c, s, s', l, e, r.0);
    }
  }

  lemma DrainConserved(c: Config, s: State, s': State, l: nat)
    requires WorkInv(c, s) && Enabled(c, s, Drain(l)) && s' == DoDrain(c, s, l) && s.queue[s.lanes[l].e] != []
    ensures Conserved(c, s')
  {
    var e0 := s.lanes[l].e;
    var k0 := s.queue[e0][0];
    SelectSplits(s.curr[e0], k0);
    assert LaneOk(c, s, l, s.lanes[l]);
    assert k0 in s.queue[e0] && k0 in s.present;
    forall e: nat | e < |c.home|
      ensures s'.recorded[e] == s'.walked[e] + multiset(Records(c, s', e)) && forall r {:trigger s'.walked[e][r]} ::
            s'.walked[e][r] > 0 ==> r.0 in s'.present
    {
      DrainViews(c, s, s', l, e);
      assert s.recorded[e] == s.walked[e] + multiset(Records(c, s, e));
      forall r | s'.walked[e][r] > 0
        ensures r.0 in s'.present
      {
        if s.walked[e][r] == 0 { assert r in Select(s.curr[e0], k0, true); }
      }
    }
  }

  lemma DrainWork(c: Config, s: State, l: nat)
    requires WorkInv(c, s) && Enabled(c, s, Drain(l))
    ensures Awaited(c, Apply(c, s, Drain(l))) && Conserved(c, Apply(c, s, Drain(l)))
  {
    var s' := DoDrain(c, s, l);
    if s.queue[s.lanes[l].e] == [] {
      IdleWork(c, s, s', l);
    } else {
      DrainAwaited(c, s, s', l);
      DrainConserved(c, s, s', l);
    }
  }

  lemma FinishRecords(c: Config, s: State, l: nat)
    requires Shaped(c, s) && Enabled(c, s, Finish(l)) && LaneOk(c, s, l, s.lanes[l])
    ensures forall e: nat {:trigger Records(c, DoFinish(c, s, l), e)} {:trigger Rest(c, DoFinish(c, s, l), e)} ::
              e < |c.home| ==>
              && Records(c, DoFinish(c, s, l), e) == Records(c, s, e) && Rest(c, DoFinish(c, s, l), e) == Rest(c, s, e)
  {
    var s' := DoFinish(c, s, l);
    var w := s.lanes[l].w;
    forall e: nat | e < |c.home|
      ensures Records(c, s', e) == Records(c, s, e) && Rest(c, s', e) == Rest(c, s, e)
    {
      if e == w.e { assert s.curr[e] + w.ins + [] == s.curr[e] + w.ins; }
    }
  }

  lemma FinishWork(c: Config, s: State, l: nat)
    requires Working(c, s) && Enabled(c, s, Finish(l))
    ensures Awaited(c, DoFinish(c, s, l)) && Conserved(c, DoFinish(c, s, l))
  {
    assert LaneOk(c, s, l, s.lanes[l]);
    FinishRecords(c, s, l);
    PlainWork(c, s, DoFinish(c, s, l), l);
  }

  lemma StepWork(c: Config, s: State, step: Step)
    requires WorkInv(c, s) && Enabled(c, s, step)
    ensures WorkInv(c, Apply(c, s, step))
  {
    StepInv(c, s, step);
    match step
    case Seed(_, _) => LocalStepWork(c, s, step);
    case Visit(_, _) => LocalStepWork(c, s, step);
    case Miss(l) => MissWork(c, s, l);
    case Park(l) => ParkWork(c, s, l);
    case CreditUp(l) => CreditWork(c, s, l);
    case Post(l) => PostWork(c, s, l);
    case Reply(_, _) => TakeWork(c, s, step);
    case Publish(_, _) => LocalStepWork(c, s, step);
    case Close(l) => CloseWork(c, s, l);
    case Notify(l) => NotifyWork(c, s, l);
    case Receive(l, m) => ReceiveWork(c, s, l, m);
    case Deliver(l) => DeliverWork(c, s, l);
    case Descend(_, _) => TakeWork(c, s, step);
    case Drain(l) => DrainWork(c, s, l);
    case Finish(l) => FinishWork(c, s, l);
    case Release(_) => LocalStepWork(c, s, step);
    case Remove(_) => LocalStepWork(c, s, step);
    case Swap(_) => LocalStepWork(c, s, step);
  }

  lemma {:induction false} RunWork(c: Config, trace: seq<State>, steps: seq<Step>, i: nat)
    requires Run(c, trace, steps) && i < |trace|
    ensures WorkInv(c, trace[i])
  {
    if i == 0 {
      InitialInv(c, trace[0]);
      InitialWork(c, trace[0]);
    } else {
      RunWork(c, trace, steps, i - 1);
      StepWork(c, trace[i - 1], steps[i - 1]);
    }
  }

  // ---- The theorems about every run.

  /** The counter is the open credit, plus the requests, resume messages and goDown messages not yet
      finished: the credits held by the mail and by the lanes. */
  lemma CreditsCounted(c: Config, trace: seq<State>, steps: seq<Step>, i: nat)
    requires Run(c, trace, steps) && i < |trace|
    ensures var s := trace[i];
            && (s.armed ==> s.credits == |s.tokens|)
            && (forall t {:trigger t in s.tokens} :: t in s.tokens <==> t in Mail(s) || LaneHolds(s, t))
            && s.fired <= 1 && (s.fired == 1 <==> !s.armed)
  {
    RunWork(c, trace, steps, i);
  }

  /** Nothing at all is pending. */
  ghost predicate Quiescent(c: Config, s: State) {
    && Shaped(c, s) && s.msgs == {} && s.parked.Keys == {} && s.unseeded == {} && s.seeding == {} && !s.open
    && (forall l {:trigger s.lanes[l]} :: 0 <= l < c.lanes ==> s.lanes[l].Idle? || s.lanes[l].Swapping?)
    && (forall e {:trigger s.queue[e]} {:trigger s.curr[e]} :: 0 <= e < |c.home| ==>
          s.queue[e] == [] && s.curr[e] == [])
    && (forall e {:trigger s.recorded[e]} :: 0 <= e < |c.home| ==> s.recorded[e] == s.walked[e])
    && s.latched == s.closed
  }

  lemma NoHolderIdle(c: Config, s: State, l: nat)
    requires Inv(c, s) && s.tokens == {} && l < c.lanes
    ensures s.lanes[l].Idle? || s.lanes[l].Swapping?
  {
    var f := s.lanes[l];
    NoneHeld(s);
    assert LaneOk(c, s, l, f);
    assert Holds(f) == {} && Mail(s) == {};
    assert !s.open && s.seeding == {};
    if f.Crediting? || f.Mailing? { assert Base(f) == Base(f.next); }
  }

  // ---- Whatever is pending keeps a credit alive.

  lemma MailLives(c: Config, s: State, m: Msg)
    requires Inv(c, s) && m in s.msgs
    ensures s.tokens != {}
  {
    assert TokenOf(m) in Mail(s) && TokenOf(m) in s.tokens;
  }

  lemma LaneLives(c: Config, s: State, l: nat)
    requires Inv(c, s) && l < c.lanes && !s.lanes[l].Idle? && !s.lanes[l].Swapping?
    ensures s.tokens != {}
  {
    var f := s.lanes[l];
    assert LaneOk(c, s, l, f);
    if f.Crediting? || f.Mailing? { assert Base(f) == Base(f.next); }
    if Holds(f) != {} {
      var t :| t in Holds(f);
      assert LaneHolds(s, t) && t in s.tokens;
    } else {
      assert s.open && Open in Mail(s) && Open in s.tokens;
    }
  }

  lemma FetchLives(c: Config, s: State, k: Key)
    requires Inv(c, s) && BeingFetched(s, k)
    ensures s.tokens != {}
  {
    if Ask(k) in s.msgs {
      MailLives(c, s, Ask(k));
    } else {
      var l :| 0 <= l < c.lanes && Asking(s.lanes[l], k);
      LaneLives(c, s, l);
    }
  }

  lemma QueueLives(c: Config, s: State, e: nat)
    requires Inv(c, s) && e < |c.home| && s.queue[e] != []
    ensures s.tokens != {}
  {
    if GoDown(e) in s.msgs {
      MailLives(c, s, GoDown(e));
    } else {
      assert Down(e) in Owns(s.lanes[c.home[e]]);
      LaneLives(c, s, c.home[e]);
    }
  }

  lemma CarriedLives(c: Config, s: State, e: nat, k: Key)
    requires Inv(c, s) && e < |c.home| && Carried(c, s, e, k)
    ensures s.tokens != {}
  {
    if e in Get(s.parked, k) {
      FetchLives(c, s, k);
    } else if Mailed(s.msgs, e, k) {
      var m :| m in s.msgs && m.Resume? && m.k == k && e in m.elems;
      MailLives(c, s, m);
    } else if LaneCarries(s, e, k) {
      var l :| 0 <= l < c.lanes && Carries(s.lanes[l], e, k);
      LaneLives(c, s, l);
    } else {
      QueueLives(c, s, e);
    }
  }

  /** No credit left means no work left: no parked walker, no request, no message, no queued node. */
  lemma ZeroIsQuiescent(c: Config, s: State)
    requires WorkInv(c, s) && s.tokens == {}
    ensures Quiescent(c, s)
  {
    NoneHeld(s);
    assert !s.open && s.seeding == {};
    forall m: Msg ensures m !in s.msgs { if m in s.msgs { MailLives(c, s, m); } }
    forall l: nat | l < c.lanes ensures s.lanes[l].Idle? || s.lanes[l].Swapping? { NoHolderIdle(c, s, l); }
    forall k: Key ensures k in s.latched ==>
          k in s.closed { if k in s.latched && k !in s.closed { FetchLives(c, s, k); } }
    forall e: nat | e < |c.home|
      ensures s.queue[e] == [] && s.curr[e] == [] && s.recorded[e] == s.walked[e]
    {
      if s.queue[e] != [] { QueueLives(c, s, e); }
      assert Records(c, s, e) == s.curr[e];
      if s.curr[e] != [] {
        assert s.curr[e][0] in Records(c, s, e);
        CarriedLives(c, s, e, s.curr[e][0].0);
      }
    }
  }

  /** The termination theorem: on every interleaving the done reduction fires at most once, and when it
      has fired nothing is pending and every recorded pair was walked exactly once. */
  lemma FiredMeansDone(c: Config, trace: seq<State>, steps: seq<Step>, i: nat)
    requires Run(c, trace, steps) && i < |trace|
    ensures trace[i].fired <= 1
    ensures trace[i].fired == 1 || (trace[i].armed && trace[i].credits == 0) ==> Quiescent(c, trace[i])
  {
    RunWork(c, trace, steps, i);
    if trace[i].fired == 1 || (trace[i].armed && trace[i].credits == 0) {
      assert trace[i].tokens == {};
      ZeroIsQuiescent(c, trace[i]);
    }
  }

  /** Lane l is about to send e's goDown, or is in its loop. */
  predicate Turning(s: State, l: nat, e: nat) {
    l < |s.lanes| && Down(e) in Owns(s.lanes[l]) && !s.lanes[l].Removing?
  }

  /** A queue with work has exactly one goDown for it, in flight or with the home lane.  One in flight, and one
      whose lane is anywhere but at the loop's test, has work; no other lane ever has it. */
  lemma QueueHasOneGoDown(c: Config, s: State, e: nat)
    requires WorkInv(c, s) && e < |c.home|
    ensures s.queue[e] != [] ==> (GoDown(e) in s.msgs <==> !Turning(s, c.home[e], e))
    ensures GoDown(e) in s.msgs ==> s.queue[e] != [] && !LaneOwns(s, Down(e))
    ensures Turning(s, c.home[e], e) && s.lanes[c.home[e]] != Draining(e) ==> s.queue[e] != []
    ensures forall l {:trigger s.lanes[l]} :: 0 <= l < c.lanes && Down(e) in Owns(s.lanes[l]) ==> l == c.home[e]
  {
    forall l | 0 <= l < c.lanes && Down(e) in Owns(s.lanes[l])
      ensures l == c.home[e] && GoDown(e) !in s.msgs
      ensures (s.queue[e] == [] ==> s.lanes[l] == Draining(e) || s.lanes[l].Removing?)
      ensures s.lanes[l].Removing? ==> s.queue[e] == []
    {
      var f := s.lanes[l];
      assert LaneOk(c, s, l, f);
      HeldOnce(s, l, Down(e));
      assert GoDown(e) in s.msgs ==> TokenOf(GoDown(e)) in Mail(s);
      if f.Crediting? || f.Mailing? { assert Base(f) == Base(f.next); }
    }
    if s.queue[e] != [] && GoDown(e) !in s.msgs {
      assert LaneOk(c, s, c.home[e], s.lanes[c.home[e]]);
    }
  }
}
