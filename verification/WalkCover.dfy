/** Completeness of the cross-process walk: until its tips are SEEN, every owed particle pair is covered
    by work still to do, whatever the interleaving; and every SEEN pair becomes one edge. */
module WalkCover {
  import opened Trees
  import opened Linking
  import opened Visitor
  import opened WalkMachine
  import opened WalkCredits
  import opened WalkInv
  import opened WalkSteps
  import opened WalkWork

  /** The stack of element e's running doTrav. */
  function StackOf(c: Config, s: State, e: nat): seq<Item>
    requires Shaped(c, s) && e < |c.home|
  {
    if c.home[e] < c.lanes && Runs(s.lanes[c.home[e]], e) then Doing(s.lanes[c.home[e]])[0].stack else []
  }

  ghost predicate OnStack(c: Config, s: State, e: nat, i: nat, j: nat)
    requires Shaped(c, s) && e < |c.home|
  {
    exists q {:trigger StackOf(c, s, e)[q]} :: 0 <= q < |StackOf(c, s, e)| && Covers(c.v, StackOf(c, s, e)[q], i, j)
  }

  ghost predicate SetAside(c: Config, s: State, e: nat, i: nat, j: nat)
    requires Shaped(c, s) && e < |c.home|
  {
    exists r {:trigger r in Records(c, s, e)} :: r in Records(c, s, e) && In(c.v.source(r.0), i) && In(r.1, j)
  }

  ghost predicate Pending(c: Config, s: State, e: nat, i: nat, j: nat)
    requires Shaped(c, s) && e < |c.home|
  {
    e in s.unseeded || OnStack(c, s, e, i, j) || SetAside(c, s, e, i, j)
  }

  ghost predicate Owed(c: Config, e: nat, i: nat, j: nat)
    requires e < |c.piece| == |c.target|
  {
    c.v.Owed(c.piece[e], c.target[e], i, j)
  }

  /** Every owed pair's tips are SEEN, or the pair is still covered. */
  ghost predicate Covered(c: Config, s: State)
    requires Shaped(c, s)
  {
    forall e: nat, i: nat, j: nat {:trigger Owed(c, e, i, j)} :: e < |c.home| && Owed(c, e, i, j) ==>
      Pack(c.v.tips[i], c.v.tips[j]) in s.seen || Pending(c, s, e, i, j)
  }

  ghost predicate WellStacked(c: Config, s: State)
    requires Shaped(c, s)
  {
    forall e: nat {:trigger StackOf(c, s, e)} {:trigger Records(c, s, e)} :: e < |c.home| ==>
      AllFit(c.v, s.seen, StackOf(c, s, e)) && forall r {:trigger r in Records(c, s, e)} :: r in Records(c, s, e) ==>
            c.v.Target(r.1)
  }

  /** p was inserted by a lane that has not added its edge yet. */
  ghost predicate Owing(c: Config, s: State, e: nat, q: int, p: TipPair)
    requires Shaped(c, s) && e < |c.home|
  {
    0 <= q < |StackOf(c, s, e)| && StackOf(c, s, e)[q] == Emit(p)
  }

  /** Each SEEN pair is witnessed by a linked pair, and is one edge: added already, or owed by the one
      lane that won the insertion. */
  ghost predicate EmittedOnce(c: Config, s: State)
    requires Shaped(c, s)
  {
    && (forall p {:trigger p in s.seen} :: p in s.seen ==>
          c.v.Witnessed(p) && (p in s.edges || exists e: nat, q {:trigger Owing(c, s, e, q, p)} ::
                e < |c.home| && Owing(c, s, e, q, p)))
    && (forall p {:trigger p in s.edges} :: p in s.edges ==> p in s.seen)
    && (forall a, b {:trigger s.edges[a], s.edges[b]} :: 0 <= a < b < |s.edges| ==> s.edges[a] != s.edges[b])
    && (forall e: nat, q, p {:trigger Owing(c, s, e, q, p)} :: e < |c.home| && Owing(c, s, e, q, p) ==>
          p in s.seen && p !in s.edges)
    && (forall e: nat, q, f: nat, r, p {:trigger Owing(c, s, e, q, p), Owing(c, s, f, r, p)} ::
          e < |c.home| && f < |c.home| && Owing(c, s, e, q, p) && Owing(c, s, f, r, p) ==> e == f && q == r)
  }

  ghost predicate CoverInv(c: Config, s: State) {
    c.Ok() && WorkInv(c, s) && Covered(c, s) && WellStacked(c, s) && EmittedOnce(c, s)
  }

  lemma InitialCover(c: Config, s: State)
    requires c.Ok() && Initial(c, s)
    ensures Covered(c, s) && WellStacked(c, s) && EmittedOnce(c, s)
  {
    forall e: nat | e < |c.home|
      ensures StackOf(c, s, e) == [] && Records(c, s, e) == []
    {
      assert s.curr[e] == [];
    }
  }

  // ---- Steps that leave all stacks and records alone.

  ghost predicate SameViews(c: Config, s: State, s': State)
    requires Shaped(c, s) && Shaped(c, s')
  {
    && s'.seen == s.seen && s'.edges == s.edges && s'.unseeded == s.unseeded
    && forall e: nat {:trigger StackOf(c, s', e)} {:trigger Records(c, s', e)} :: e < |c.home| ==>
         StackOf(c, s', e) == StackOf(c, s, e) && Records(c, s', e) == Records(c, s, e)
  }

  ghost predicate Still(c: Config, s: State, s': State) {
    Shaped(c, s) && Shaped(c, s') && SameViews(c, s, s')
  }

  ghost predicate AllCovered(c: Config, s: State) {
    Shaped(c, s) && Covered(c, s) && WellStacked(c, s) && EmittedOnce(c, s)
  }

  lemma StillCover(c: Config, s: State, s': State)
    requires CoverInv(c, s) && Still(c, s, s')
    ensures AllCovered(c, s')
  {
    SameCover(c, s, s');
  }

  lemma SameCover(c: Config, s: State, s': State)
    requires Shaped(c, s) && Shaped(c, s') && SameViews(c, s, s') && Covered(c, s) && WellStacked(c, s)
    requires EmittedOnce(c, s)
    ensures Covered(c, s') && WellStacked(c, s') && EmittedOnce(c, s')
  {
    forall e: nat, i: nat, j: nat | e < |c.home| && Owed(c, e, i, j)
      ensures Pack(c.v.tips[i], c.v.tips[j]) in s'.seen || Pending(c, s', e, i, j)
    {
      assert StackOf(c, s', e) == StackOf(c, s, e) && Records(c, s', e) == Records(c, s, e);
    }
    forall e: nat | e < |c.home|
      ensures AllFit(c.v, s'.seen, StackOf(c, s', e))
    {
      assert AllFit(c.v, s.seen, StackOf(c, s, e));
    }
    forall e: nat, q, p | e < |c.home|
      ensures Owing(c, s', e, q, p) == Owing(c, s, e, q, p)
    {
      assert StackOf(c, s', e) == StackOf(c, s, e);
    }
  }

  lemma DoingSame(c: Config, s: State, s': State, l: nat)
    requires Shaped(c, s) && Shaped(c, s') && l < c.lanes && s'.lanes == s.lanes[l := s'.lanes[l]]
    requires Doing(s'.lanes[l]) == Doing(s.lanes[l]) && s'.curr == s.curr && s'.seen == s.seen && s'.edges == s.edges
    requires s'.unseeded == s.unseeded
    ensures SameViews(c, s, s')
  {
  }

  /** Parking, crediting, posting: the doTrav under way is untouched. */
  lemma ParkViews(c: Config, s: State, l: nat)
    requires Shaped(c, s) && Enabled(c, s, Park(l))
    ensures SameViews(c, s, DoPark(c, s, l))
  {
    var f := s.lanes[l];
    var s' := DoPark(c, s, l);
    assert Doing(Walking(f.w)) == [f.w] && Doing(f) == [f.w];
    assert s'.lanes[l] == Walking(f.w) || s'.lanes[l] == Crediting(Resume(s.nextId, l, f.k, [f.w.e]), Walking(f.w));
    DoingSame(c, s, s', l);
  }

  lemma CreditViews(c: Config, s: State, l: nat)
    requires Shaped(c, s) && Enabled(c, s, CreditUp(l))
    ensures SameViews(c, s, Apply(c, s, CreditUp(l)))
  {
    var f := s.lanes[l];
    assert Doing(f) == Doing(f.next) == Doing(Mailing(f.m, f.next));
    DoingSame(c, s, Apply(c, s, CreditUp(l)), l);
  }

  lemma PostViews(c: Config, s: State, l: nat)
    requires Shaped(c, s) && Enabled(c, s, Post(l))
    ensures SameViews(c, s, Apply(c, s, Post(l)))
  {
    var f := s.lanes[l];
    assert Doing(f) == Doing(f.next);
    DoingSame(c, s, Apply(c, s, Post(l)), l);
  }

  lemma NotifyViews(c: Config, s: State, l: nat)
    requires Shaped(c, s) && Enabled(c, s, Notify(l))
    ensures SameViews(c, s, DoNotify(c, s, l))
  {
    var s' := DoNotify(c, s, l);
    var g := s'.lanes[l];
    if s.lanes[l].todo != [] { assert Doing(g) == Doing(g.next) == []; }
    DoingSame(c, s, s', l);
  }

  lemma RemoveViews(c: Config, s: State, l: nat)
    requires Shaped(c, s) && Enabled(c, s, Remove(l))
    ensures SameViews(c, s, DoRemove(c, s, l))
  {
    DoingSame(c, s, DoRemove(c, s, l), l);
  }

  /** Steps of lanes that run no doTrav. */
  lemma InstallViews(c: Config, s: State, step: Step)
    requires Shaped(c, s) && Enabled(c, s, step) && (step.Reply? || step.Publish? || step.Close?)
    ensures SameViews(c, s, Apply(c, s, step))
  {
    DoingSame(c, s, Apply(c, s, step), step.l);
  }

  lemma OffStageViews(c: Config, s: State, step: Step)
    requires Shaped(c, s) && Enabled(c, s, step) && (step.Receive? || step.Descend? || step.Release? || step.Swap?)
    ensures SameViews(c, s, Apply(c, s, step))
  {
    DoingSame(c, s, Apply(c, s, step), step.l);
  }

  lemma DeliverCover(c: Config, s: State, l: nat)
    requires CoverInv(c, s) && Enabled(c, s, Deliver(l))
    ensures SameViews(c, s, Apply(c, s, Deliver(l)))
  {
    DeliverFrames(c, s, l);
    DoingSame(c, s, Apply(c, s, Deliver(l)), l);
  }

  // ---- Steps of one element's doTrav.

  ghost predicate OthersSame(c: Config, s: State, s': State, e0: nat)
    requires Shaped(c, s) && Shaped(c, s')
  {
    && s.seen <= s'.seen && (forall e: nat {:trigger e in s'.unseeded} :: e < |c.home| && e in s.unseeded && e != e0 ==>
          e in s'.unseeded)
    && forall e: nat {:trigger StackOf(c, s', e)} {:trigger Records(c, s', e)} :: e < |c.home| && e != e0 ==>
         StackOf(c, s', e) == StackOf(c, s, e) && Records(c, s', e) == Records(c, s, e)
  }

  lemma ChangeCovered(c: Config, s: State, s': State, e0: nat)
    requires Shaped(c, s) && Shaped(c, s') && OthersSame(c, s, s', e0) && Covered(c, s) && e0 < |c.home|
    requires forall i: nat, j: nat {:trigger Owed(c, e0, i, j)} :: Owed(c, e0, i, j) && Pending(c, s, e0, i, j) ==>
               Pack(c.v.tips[i], c.v.tips[j]) in s'.seen || Pending(c, s', e0, i, j)
    ensures Covered(c, s')
  {
    forall e: nat, i: nat, j: nat | e < |c.home| && Owed(c, e, i, j)
      ensures Pack(c.v.tips[i], c.v.tips[j]) in s'.seen || Pending(c, s', e, i, j)
    {
      if e != e0 {
        assert StackOf(c, s', e) == StackOf(c, s, e) && Records(c, s', e) == Records(c, s, e);
      }
    }
  }

  lemma ChangeStacked(c: Config, s: State, s': State, e0: nat)
    requires Shaped(c, s) && Shaped(c, s') && OthersSame(c, s, s', e0) && WellStacked(c, s) && e0 < |c.home|
    requires AllFit(c.v, s'.seen, StackOf(c, s', e0)) && forall r {:trigger r in Records(c, s', e0)} ::
          r in Records(c, s', e0) ==> c.v.Target(r.1)
    ensures WellStacked(c, s')
  {
    forall e: nat | e < |c.home| && e != e0
      ensures AllFit(c.v, s'.seen, StackOf(c, s', e))
    {
      assert AllFit(c.v, s.seen, StackOf(c, s, e)) && StackOf(c, s', e) == StackOf(c, s, e);
      forall q | 0 <= q < |StackOf(c, s', e)|
        ensures Fit(c.v, s'.seen, StackOf(c, s', e)[q])
      {
        FitGrows(c.v, s.seen, s'.seen, StackOf(c, s, e)[q]);
      }
    }
  }

  /** No insertion and no edge: the owing entries are the same ones. */
  lemma SameOwing(c: Config, s: State, s': State)
    requires Shaped(c, s) && Shaped(c, s') && EmittedOnce(c, s) && s'.seen == s.seen && s'.edges == s.edges
    requires forall e: nat, q, p {:trigger Owing(c, s', e, q, p)} {:trigger Owing(c, s, e, q, p)} :: e < |c.home| ==>
          Owing(c, s', e, q, p) == Owing(c, s, e, q, p)
    ensures EmittedOnce(c, s')
  {
  }

  lemma SeedViews(c: Config, s: State, l: nat, e0: nat)
    requires Shaped(c, s) && Enabled(c, s, Seed(l, e0))
    ensures var s' := Apply(c, s, Seed(l, e0));
            && OthersSame(c, s, s', e0) && StackOf(c, s, e0) == [] && StackOf(c, s', e0) == [Pair(1, c.target[e0])]
            && Records(c, s', e0) == Records(c, s, e0)
  {
    var s' := Apply(c, s, Seed(l, e0));
    assert Doing(s.lanes[l]) == [];
    assert Doing(s'.lanes[l]) == [Work(e0, 1, [Pair(1, c.target[e0])], [], true)];
  }

  lemma SeedCover(c: Config, s: State, l: nat, e0: nat)
    requires CoverInv(c, s) && Enabled(c, s, Seed(l, e0))
    ensures var s' := Apply(c, s, Seed(l, e0)); Covered(c, s') && WellStacked(c, s') && EmittedOnce(c, s')
  {
    var s' := Apply(c, s, Seed(l, e0));
    SeedViews(c, s, l, e0);
    forall i: nat, j: nat | Owed(c, e0, i, j)
      ensures Pending(c, s', e0, i, j)
    {
      assert Covers(c.v, StackOf(c, s', e0)[0], i, j);
    }
    ChangeCovered(c, s, s', e0);
    ChangeStacked(c, s, s', e0);
    forall e: nat, q, p | e < |c.home|
      ensures Owing(c, s', e, q, p) == Owing(c, s, e, q, p)
    {
      if e != e0 { assert StackOf(c, s', e) == StackOf(c, s, e); }
    }
    SameOwing(c, s, s');
  }

  lemma MissViews(c: Config, s: State, l: nat)
    requires Shaped(c, s) && Enabled(c, s, Miss(l)) && c.home[s.lanes[l].w.e] == l
    ensures var s' := DoMiss(c, s, l); var w := s.lanes[l].w;
            && OthersSame(c, s, s', w.e) && StackOf(c, s, w.e) == w.stack
            && StackOf(c, s', w.e) == w.stack[..|w.stack| - 1]
            && Records(c, s', w.e) == Records(c, s, w.e) + [(TopOf(w).k, TopOf(w).t)]
  {
    var w := s.lanes[l].w;
    var x := TopOf(w);
    var w' := w.(stack := w.stack[..|w.stack| - 1], ins := w.ins + [(x.k, x.t)]);
    var s' := DoMiss(c, s, l);
    assert Doing(Parking(x.k, w')) == [w'];
    assert s'.lanes[l] == Parking(x.k, w') || s'.lanes[l] == Crediting(Ask(x.k), Parking(x.k, w'));
    assert Doing(s'.lanes[l]) == [w'] && Doing(s.lanes[l]) == [w];
    assert s.curr[w.e] + (w.ins + [(x.k, x.t)]) == s.curr[w.e] + w.ins + [(x.k, x.t)];
  }

  lemma MissCovered(c: Config, s: State, l: nat)
    requires CoverInv(c, s) && Enabled(c, s, Miss(l))
    ensures Covered(c, DoMiss(c, s, l))
  {
    var s' := DoMiss(c, s, l);
    var w := s.lanes[l].w;
    var x := TopOf(w);
    assert LaneOk(c, s, l, s.lanes[l]);
    MissViews(c, s, l);
    forall i: nat, j: nat | Owed(c, w.e, i, j) && Pending(c, s, w.e, i, j)
      ensures Pending(c, s', w.e, i, j)
    {
      PopPending(c, s, s', w.e, x, (x.k, x.t), i, j);
    }
    ChangeCovered(c, s, s', w.e);
  }

  lemma MissStacked(c: Config, s: State, l: nat)
    requires CoverInv(c, s) && Enabled(c, s, Miss(l))
    ensures WellStacked(c, DoMiss(c, s, l))
  {
    var s' := DoMiss(c, s, l);
    var w := s.lanes[l].w;
    assert LaneOk(c, s, l, s.lanes[l]);
    MissViews(c, s, l);
    assert AllFit(c.v, s.seen, w.stack) && Fit(c.v, s.seen, w.stack[|w.stack| - 1]);
    ChangeStacked(c, s, s', w.e);
  }

  lemma MissEmitted(c: Config, s: State, l: nat)
    requires Shaped(c, s) && EmittedOnce(c, s) && Enabled(c, s, Miss(l)) && c.home[s.lanes[l].w.e] == l
    ensures EmittedOnce(c, DoMiss(c, s, l))
  {
    var s' := DoMiss(c, s, l);
    var w := s.lanes[l].w;
    MissViews(c, s, l);
    forall e: nat, q, p | e < |c.home|
      ensures Owing(c, s', e, q, p) == Owing(c, s, e, q, p)
    {
      if e != w.e { assert StackOf(c, s', e) == StackOf(c, s, e); }
    }
    SameOwing(c, s, s');
  }

  lemma MissCover(c: Config, s: State, l: nat)
    requires CoverInv(c, s) && Enabled(c, s, Miss(l))
    ensures AllCovered(c, DoMiss(c, s, l))
  {
    assert LaneOk(c, s, l, s.lanes[l]);
    MissCovered(c, s, l);
    MissStacked(c, s, l);
    MissEmitted(c, s, l);
  }

  /** A pair popped into the records stays pending. */
  lemma PopPending(c: Config, s: State, s': State, e: nat, x: Item, r: Record, i: nat, j: nat)
    requires Shaped(c, s) && Shaped(c, s') && e < |c.home| && s'.unseeded == s.unseeded && Pending(c, s, e, i, j)
    requires StackOf(c, s, e) != [] && x == StackOf(c, s, e)[|StackOf(c, s, e)| - 1] && x == Pair(r.0, r.1)
    requires StackOf(c, s', e) == StackOf(c, s, e)[..|StackOf(c, s, e)| - 1]
    requires Records(c, s', e) == Records(c, s, e) + [r]
    ensures Pending(c, s', e, i, j)
  {
    if OnStack(c, s, e, i, j) {
      var q :| 0 <= q < |StackOf(c, s, e)| && Covers(c.v, StackOf(c, s, e)[q], i, j);
      if q < |StackOf(c, s', e)| {
        assert StackOf(c, s', e)[q] == StackOf(c, s, e)[q];
      } else {
        assert r in Records(c, s', e);
      }
    } else if SetAside(c, s, e, i, j) {
      var t :| t in Records(c, s, e) && In(c.v.source(t.0), i) && In(t.1, j);
      assert t in Records(c, s', e);
    }
  }

  lemma DrainOthers(c: Config, s: State, l: nat)
    requires Shaped(c, s) && l < c.lanes && s.lanes[l].Draining? && s.lanes[l].e < |c.home| && c.home[s.lanes[l].e] == l
    requires s.queue[s.lanes[l].e] != []
    ensures OthersSame(c, s, DoDrain(c, s, l), s.lanes[l].e)
  {
    DrainStacks(c, s, l);
    forall e: nat | e < |c.home| && e != s.lanes[l].e
      ensures Records(c, DoDrain(c, s, l), e) == Records(c, s, e)
    {
      DrainViews(c, s, DoDrain(c, s, l), l, e);
    }
  }

  lemma DrainFits(c: Config, s: State, l: nat)
    requires Shaped(c, s) && WellStacked(c, s) && l < c.lanes && s.lanes[l].Draining? && s.lanes[l].e < |c.home|
    requires c.home[s.lanes[l].e] == l && s.queue[s.lanes[l].e] != []
    ensures WellStacked(c, DoDrain(c, s, l))
  {
    var s' := DoDrain(c, s, l);
    var e0 := s.lanes[l].e;
    DrainStacks(c, s, l);
    DrainOthers(c, s, l);
    DrainViews(c, s, s', l, e0);
    SelectSplits(s.curr[e0], s.queue[e0][0]);
    var taken := Select(s.curr[e0], s.queue[e0][0], true);
    forall q | 0 <= q < |taken|
      ensures Fit(c.v, s'.seen, StackOf(c, s', e0)[q])
    {
      assert taken[q] in taken && taken[q] in Records(c, s, e0);
    }
    ChangeStacked(c, s, s', e0);
  }

  lemma DrainOwing(c: Config, s: State, l: nat)
    requires Shaped(c, s) && EmittedOnce(c, s) && l < c.lanes && s.lanes[l].Draining? && s.lanes[l].e < |c.home|
    requires c.home[s.lanes[l].e] == l && s.queue[s.lanes[l].e] != []
    ensures EmittedOnce(c, DoDrain(c, s, l))
  {
    var s' := DoDrain(c, s, l);
    DrainStacks(c, s, l);
    forall e: nat, q, p | e < |c.home|
      ensures Owing(c, s', e, q, p) == Owing(c, s, e, q, p)
    {
      if e != s.lanes[l].e { assert StackOf(c, s', e) == StackOf(c, s, e); }
    }
    SameOwing(c, s, s');
  }

  lemma DrainCover(c: Config, s: State, l: nat)
    requires CoverInv(c, s) && Enabled(c, s, Drain(l)) && s.queue[s.lanes[l].e] != []
    ensures var s' := DoDrain(c, s, l); Covered(c, s') && WellStacked(c, s') && EmittedOnce(c, s')
  {
    var s' := DoDrain(c, s, l);
    var e0 := s.lanes[l].e;
    assert LaneOk(c, s, l, s.lanes[l]);
    DrainOthers(c, s, l);
    DrainFits(c, s, l);
    DrainOwing(c, s, l);
    forall i: nat, j: nat | Owed(c, e0, i, j) && Pending(c, s, e0, i, j)
      ensures Pending(c, s', e0, i, j)
    {
      DrainStacks(c, s, l);
      if SetAside(c, s, e0, i, j) { TakenPending(c, s, s', l, i, j); }
    }
    ChangeCovered(c, s, s', e0);
  }

  lemma DrainStacks(c: Config, s: State, l: nat)
    requires Shaped(c, s) && l < c.lanes && s.lanes[l].Draining? && s.lanes[l].e < |c.home| && c.home[s.lanes[l].e] == l
    requires s.queue[s.lanes[l].e] != []
    ensures var s' := DoDrain(c, s, l); var e0 := s.lanes[l].e;
            && StackOf(c, s, e0) == [] && StackOf(c, s', e0) == Entries(Select(s.curr[e0], s.queue[e0][0], true))
            && forall e: nat {:trigger StackOf(c, s', e)} :: e < |c.home| && e != e0 ==>
                  StackOf(c, s', e) == StackOf(c, s, e)
  {
    var e0 := s.lanes[l].e;
    var w := Work(e0, s.queue[e0][0], Entries(Select(s.curr[e0], s.queue[e0][0], true)), [], false);
    var s' := DoDrain(c, s, l);
    assert s'.lanes == s.lanes[l := Walking(w)] && Doing(Walking(w)) == [w] && Doing(s.lanes[l]) == [];
    forall e: nat | e < |c.home| && e != e0
      ensures StackOf(c, s', e) == StackOf(c, s, e)
    {
      if c.home[e] == l { assert !Runs(Walking(w), e) && !Runs(s.lanes[l], e); }
    }
  }

  lemma TakenPending(c: Config, s: State, s': State, l: nat, i: nat, j: nat)
    requires Shaped(c, s) && l < c.lanes && s.lanes[l].Draining? && s.lanes[l].e < |c.home| && c.home[s.lanes[l].e] == l
    requires s.queue[s.lanes[l].e] != []
    requires s' == DoDrain(c, s, l) && SetAside(c, s, s.lanes[l].e, i, j)
    ensures Pending(c, s', s.lanes[l].e, i, j)
  {
    var e0 := s.lanes[l].e;
    var k0 := s.queue[e0][0];
    DrainStacks(c, s, l);
    DrainViews(c, s, s', l, e0);
    var r :| r in Records(c, s, e0) && In(c.v.source(r.0), i) && In(r.1, j);
    SelectSplits(s.curr[e0], k0);
    assert r in multiset(s.curr[e0]);
    if r in multiset(Select(s.curr[e0], k0, true)) {
      var taken := Select(s.curr[e0], k0, true);
      var q :| 0 <= q < |taken| && taken[q] == r;
      assert Covers(c.v, StackOf(c, s', e0)[q], i, j);
    } else {
      assert r in Records(c, s', e0);
    }
  }

  lemma FinishViews(c: Config, s: State, l: nat)
    requires Shaped(c, s) && Enabled(c, s, Finish(l)) && c.home[s.lanes[l].w.e] == l
    ensures SameViews(c, s, DoFinish(c, s, l))
  {
    var s' := DoFinish(c, s, l);
    var w := s.lanes[l].w;
    assert Doing(s.lanes[l]) == [w] && Doing(s'.lanes[l]) == [];
    assert s.curr[w.e] + w.ins + [] == s.curr[w.e] + w.ins;
  }

  // ---- Handling the top entry.

  lemma VisitViews(c: Config, s: State, l: nat, split: bool)
    requires Shaped(c, s) && Enabled(c, s, Visit(l, split)) && c.home[s.lanes[l].w.e] == l
    ensures var s' := DoVisit(c, s, l, split); var w := s.lanes[l].w;
            var push := Expand(c.v, c.piece[w.e], s.seen, TopOf(w), split).0;
            && StackOf(c, s, w.e) == w.stack && StackOf(c, s', w.e) == w.stack[..|w.stack| - 1] + push
            && forall e: nat {:trigger StackOf(c, s', e)} {:trigger Records(c, s', e)} :: e < |c.home| ==>
                 Records(c, s', e) == Records(c, s, e) && (e != w.e ==> StackOf(c, s', e) == StackOf(c, s, e))
  {
    var s' := DoVisit(c, s, l, split);
    var w := s.lanes[l].w;
    var w' := w.(stack := w.stack[..|w.stack| - 1] + Expand(c.v, c.piece[w.e], s.seen, TopOf(w), split).0);
    assert Doing(s'.lanes[l]) == [w'] && Doing(s.lanes[l]) == [w];
  }

  /** A stack whose top was handled: rest + push. */
  ghost predicate Handling(c: Config, s: State, s': State, e: nat, x: Item, push: seq<Item>)
    requires Shaped(c, s) && Shaped(c, s') && e < |c.home|
  {
    && StackOf(c, s, e) != [] && x == StackOf(c, s, e)[|StackOf(c, s, e)| - 1]
    && StackOf(c, s', e) == StackOf(c, s, e)[..|StackOf(c, s, e)| - 1] + push && Records(c, s', e) == Records(c, s, e)
    && s'.unseeded == s.unseeded && OthersSame(c, s, s', e)
  }

  lemma HandledPending(c: Config, s: State, s': State, e: nat, x: Item, push: seq<Item>, i: nat, j: nat)
    requires Shaped(c, s) && Shaped(c, s') && e < |c.home| && Handling(c, s, s', e, x, push) && Pending(c, s, e, i, j)
    requires i < |c.v.tips| && j < |c.v.tips| && (Covers(c.v, x, i, j) ==> Handled(c.v, s'.seen, push, i, j))
    ensures Pack(c.v.tips[i], c.v.tips[j]) in s'.seen || Pending(c, s', e, i, j)
  {
    var n := |StackOf(c, s, e)| - 1;
    if OnStack(c, s, e, i, j) {
      var q :| 0 <= q < |StackOf(c, s, e)| && Covers(c.v, StackOf(c, s, e)[q], i, j);
      if q < n {
        assert StackOf(c, s', e)[q] == StackOf(c, s, e)[q];
      } else if Pack(c.v.tips[i], c.v.tips[j]) !in s'.seen {
        var r :| 0 <= r < |push| && Covers(c.v, push[r], i, j);
        assert StackOf(c, s', e)[n + r] == push[r];
      }
    } else if SetAside(c, s, e, i, j) {
      var t :| t in Records(c, s, e) && In(c.v.source(t.0), i) && In(t.1, j);
      assert t in Records(c, s', e);
    }
  }

  lemma HandledStacked(c: Config, s: State, s': State, e: nat, x: Item, push: seq<Item>)
    requires Shaped(c, s) && Shaped(c, s') && e < |c.home| && Handling(c, s, s', e, x, push) && WellStacked(c, s)
    requires AllFit(c.v, s'.seen, push)
    ensures WellStacked(c, s')
  {
    var n := |StackOf(c, s, e)| - 1;
    assert AllFit(c.v, s.seen, StackOf(c, s, e));
    forall q | 0 <= q < |StackOf(c, s', e)|
      ensures Fit(c.v, s'.seen, StackOf(c, s', e)[q])
    {
      if q < n { FitGrows(c.v, s.seen, s'.seen, StackOf(c, s, e)[q]); }
            else { assert StackOf(c, s', e)[q] == push[q - n]; }
    }
    ChangeStacked(c, s, s', e);
  }

  /** The winner adds its edge. */
  lemma EmitHandled(c: Config, s: State, s': State, e: nat, p: TipPair)
    requires Shaped(c, s) && Shaped(c, s') && e < |c.home| && Handling(c, s, s', e, Emit(p), []) && EmittedOnce(c, s)
    requires s'.seen == s.seen && s'.edges == s.edges + [p]
    ensures EmittedOnce(c, s')
  {
    var n := |StackOf(c, s, e)| - 1;
    assert Owing(c, s, e, n, p);
    forall f: nat, q, r | f < |c.home|
      ensures Owing(c, s', f, q, r) <==> Owing(c, s, f, q, r) && !(f == e && q == n)
    {
      if f != e { assert StackOf(c, s', f) == StackOf(c, s, f); }
    }
    forall r | r in s'.seen
      ensures c.v.Witnessed(r)
      ensures (r in s'.edges || exists f: nat, q {:trigger Owing(c, s', f, q, r)} ::
            f < |c.home| && Owing(c, s', f, q, r))
    {
      if r !in s.edges && r != p {
        var f: nat, q :| f < |c.home| && Owing(c, s, f, q, r);
        assert Owing(c, s', f, q, r);
      }
    }
  }

  /** An entry that inserts nothing, or one pair with its edge owed on top. */
  lemma InsertHandled(c: Config, s: State, s': State, e: nat, x: Item, push: seq<Item>)
    requires Shaped(c, s) && Shaped(c, s') && e < |c.home| && Handling(c, s, s', e, x, push) && EmittedOnce(c, s)
    requires !x.Emit? && s'.edges == s.edges && Inserts(c.v, s.seen, push, s'.seen)
    ensures EmittedOnce(c, s')
  {
    var n := |StackOf(c, s, e)| - 1;
    forall f: nat, q, r | f < |c.home|
      ensures Owing(c, s', f, q, r) <==>
            Owing(c, s, f, q, r) || (f == e && n <= q < n + |push| && push[q - n] == Emit(r))
    {
      if f != e { assert StackOf(c, s', f) == StackOf(c, s, f); }
    }
    forall r | r in s'.seen
      ensures c.v.Witnessed(r)
      ensures (r in s'.edges || exists f: nat, q {:trigger Owing(c, s', f, q, r)} ::
            f < |c.home| && Owing(c, s', f, q, r))
    {
      if r in s.seen {
        if r !in s.edges {
          var f: nat, q :| f < |c.home| && Owing(c, s, f, q, r);
          assert Owing(c, s', f, q, r);
        }
      } else {
        var m :| 0 <= m < |push| && push[m].Emit?;
        assert Owing(c, s', e, n + m, r);
      }
    }
    forall f: nat, q, g: nat, r, p | f < |c.home| && g < |c.home| && Owing(c, s', f, q, p) && Owing(c, s', g, r, p)
      ensures f == g && q == r
    {
      OwingOnce(c, s, s', e, x, push, f, q, g, r, p);
    }
  }

  lemma OwingOnce(c: Config, s: State, s': State, e: nat, x: Item, push: seq<Item>, f: nat, q: int, g: nat, r: int,
                  p: TipPair)
    requires Shaped(c, s) && Shaped(c, s') && e < |c.home| && Handling(c, s, s', e, x, push) && EmittedOnce(c, s)
    requires !x.Emit? && Inserts(c.v, s.seen, push, s'.seen)
    requires f < |c.home| && g < |c.home| && Owing(c, s', f, q, p) && Owing(c, s', g, r, p)
    ensures f == g && q == r
  {
    var n := |StackOf(c, s, e)| - 1;
    if f != e { assert StackOf(c, s', f) == StackOf(c, s, f); }
    if g != e { assert StackOf(c, s', g) == StackOf(c, s, g); }
    var fNew, gNew := f == e && q >= n, g == e && r >= n;
    if !fNew { assert Owing(c, s, f, q, p); }
    if !gNew { assert Owing(c, s, g, r, p); }
    if fNew { assert push[q - n] == Emit(p); }
    if gNew { assert push[r - n] == Emit(p); }
  }

  lemma VisitHandles(c: Config, s: State, l: nat, split: bool)
    requires CoverInv(c, s) && Enabled(c, s, Visit(l, split))
    ensures var s' := DoVisit(c, s, l, split); var w := s.lanes[l].w;
            Handling(c, s, s', w.e, TopOf(w), Expand(c.v, c.piece[w.e], s.seen, TopOf(w), split).0)
  {
    var w := s.lanes[l].w;
    assert LaneOk(c, s, l, s.lanes[l]);
    VisitViews(c, s, l, split);
    assert AllFit(c.v, s.seen, w.stack) && Fit(c.v, s.seen, w.stack[|w.stack| - 1]);
    ExpandInserts(c.v, c.piece[w.e], s.seen, TopOf(w), split);
    ExpandGrows(c.v, c.piece[w.e], s.seen, TopOf(w), split);
    ExpandFits(c.v, c.piece[w.e], s.seen, TopOf(w), split);
  }

  lemma VisitCovered(c: Config, s: State, l: nat, split: bool)
    requires CoverInv(c, s) && Enabled(c, s, Visit(l, split))
    ensures Covered(c, DoVisit(c, s, l, split))
  {
    var s' := DoVisit(c, s, l, split);
    var w := s.lanes[l].w;
    var x := TopOf(w);
    var push := Expand(c.v, c.piece[w.e], s.seen, x, split).0;
    assert LaneOk(c, s, l, s.lanes[l]);
    VisitViews(c, s, l, split);
    VisitHandles(c, s, l, split);
    assert AllFit(c.v, s.seen, w.stack) && Fit(c.v, s.seen, w.stack[|w.stack| - 1]);
    forall i: nat, j: nat | Owed(c, w.e, i, j) && Pending(c, s, w.e, i, j)
      ensures Pack(c.v.tips[i], c.v.tips[j]) in s'.seen || Pending(c, s', w.e, i, j)
    {
      if Covers(c.v, x, i, j) { ExpandCovers(c.v, c.piece[w.e], c.target[w.e], s.seen, x, split, i, j); }
      HandledPending(c, s, s', w.e, x, push, i, j);
    }
    ChangeCovered(c, s, s', w.e);
  }

  lemma VisitStacked(c: Config, s: State, l: nat, split: bool)
    requires CoverInv(c, s) && Enabled(c, s, Visit(l, split))
    ensures WellStacked(c, DoVisit(c, s, l, split)) && EmittedOnce(c, DoVisit(c, s, l, split))
  {
    var s' := DoVisit(c, s, l, split);
    var w := s.lanes[l].w;
    var x := TopOf(w);
    var push := Expand(c.v, c.piece[w.e], s.seen, x, split).0;
    assert LaneOk(c, s, l, s.lanes[l]);
    VisitViews(c, s, l, split);
    assert AllFit(c.v, s.seen, w.stack) && Fit(c.v, s.seen, w.stack[|w.stack| - 1]);
    ExpandInserts(c.v, c.piece[w.e], s.seen, x, split);
    ExpandFits(c.v, c.piece[w.e], s.seen, x, split);
    VisitHandles(c, s, l, split);
    HandledStacked(c, s, s', w.e, x, push);
    if x.Emit? { EmitHandled(c, s, s', w.e, x.p); } else { InsertHandled(c, s, s', w.e, x, push); }
  }

  lemma VisitCover(c: Config, s: State, l: nat, split: bool)
    requires CoverInv(c, s) && Enabled(c, s, Visit(l, split))
    ensures AllCovered(c, DoVisit(c, s, l, split))
  {
    VisitCovered(c, s, l, split);
    VisitStacked(c, s, l, split);
  }

  lemma ExpandGrows(v: View, e: int, seen: set<TipPair>, x: Item, split: bool)
    ensures seen <= Expand(v, e, seen, x, split).1
  {
  }

  // ---- Every step, every run.

  predicate Active(step: Step) {
    step.Seed? || step.Visit? || step.Miss? || step.Drain?
  }

  lemma StillViews(c: Config, s: State, step: Step)
    requires CoverInv(c, s) && Enabled(c, s, step) && !Active(step)
    ensures Still(c, s, Apply(c, s, step))
  {
    ApplyShaped(c, s, step);
    var l := step.l;
    match step
    case Finish(_) => assert LaneOk(c, s, l, s.lanes[l]); FinishViews(c, s, l);
    case Park(_) => ParkViews(c, s, l);
    case CreditUp(_) => CreditViews(c, s, l);
    case Post(_) => PostViews(c, s, l);
    case Notify(_) => NotifyViews(c, s, l);
    case Deliver(_) => DeliverCover(c, s, l);
    case Remove(_) => RemoveViews(c, s, l);
    case Reply(_, _) => InstallViews(c, s, step);
    case Publish(_, _) => InstallViews(c, s, step);
    case Close(_) => InstallViews(c, s, step);
    case Receive(_, _) => OffStageViews(c, s, step);
    case Descend(_, _) => OffStageViews(c, s, step);
    case Release(_) => OffStageViews(c, s, step);
    case Swap(_) => OffStageViews(c, s, step);
  }

  lemma EmptyDrain(c: Config, s: State, l: nat)
    requires Shaped(c, s) && Enabled(c, s, Drain(l)) && s.queue[s.lanes[l].e] == []
    ensures SameViews(c, s, DoDrain(c, s, l))
  {
    DoingSame(c, s, DoDrain(c, s, l), l);
  }

  lemma ActiveCover(c: Config, s: State, step: Step)
    requires CoverInv(c, s) && Enabled(c, s, step) && Active(step)
    ensures AllCovered(c, Apply(c, s, step))
  {
    ApplyShaped(c, s, step);
    match step
    case Seed(l, e) => SeedCover(c, s, l, e);
    case Visit(l, split) => VisitCover(c, s, l, split);
    case Miss(l) => MissCover(c, s, l);
    case Drain(l) => if s.queue[s.lanes[l].e] != [] { DrainCover(c, s, l); }
          else { EmptyDrain(c, s, l); SameCover(c, s, Apply(c, s, step)); }
  }

  lemma StepCover(c: Config, s: State, step: Step)
    requires CoverInv(c, s) && Enabled(c, s, step)
    ensures AllCovered(c, Apply(c, s, step))
  {
    if Active(step) {
      ActiveCover(c, s, step);
    } else {
      StillViews(c, s, step);
      StillCover(c, s, Apply(c, s, step));
    }
  }

  lemma {:induction false} RunCover(c: Config, trace: seq<State>, steps: seq<Step>, i: nat)
    requires c.Ok() && Run(c, trace, steps) && i < |trace|
    ensures CoverInv(c, trace[i])
  {
    if i == 0 {
      RunWork(c, trace, steps, 0);
      InitialCover(c, trace[0]);
    } else {
      RunCover(c, trace, steps, i - 1);
      StepCover(c, trace[i - 1], steps[i - 1]);
      StepWork(c, trace[i - 1], steps[i - 1]);
    }
  }

  /** The completeness theorem: once the done reduction has fired, the edges of the process are exactly
      its SEEN pairs, each once, each witnessed by a linked pair, and every owed pair is among them. */
  lemma WalkComplete(c: Config, trace: seq<State>, steps: seq<Step>, n: nat)
    requires c.Ok() && Run(c, trace, steps) && n < |trace| && trace[n].fired == 1
    ensures var s := trace[n];
            && (forall p {:trigger p in s.edges} :: p in s.edges <==> p in s.seen)
            && (forall a, b {:trigger s.edges[a], s.edges[b]} :: 0 <= a < b < |s.edges| ==> s.edges[a] != s.edges[b])
            && (forall p {:trigger p in s.edges} :: p in s.edges ==> c.v.Witnessed(p))
            && (forall e: nat, i: nat, j: nat {:trigger Owed(c, e, i, j)} :: e < |c.home| && Owed(c, e, i, j) ==>
                  Pack(c.v.tips[i], c.v.tips[j]) in s.edges)
  {
    var s := trace[n];
    RunCover(c, trace, steps, n);
    FiredMeansDone(c, trace, steps, n);
    forall e: nat | e < |c.home|
      ensures StackOf(c, s, e) == [] && Records(c, s, e) == []
    {
    }
    forall p | p in s.seen
      ensures p in s.edges
    {
      if p !in s.edges { NoneOwing(c, s, p); }
    }
    forall e: nat, i: nat, j: nat | e < |c.home| && Owed(c, e, i, j)
      ensures Pack(c.v.tips[i], c.v.tips[j]) in s.edges
    {
      assert Pack(c.v.tips[i], c.v.tips[j]) in s.seen || Pending(c, s, e, i, j);
    }
  }

  lemma NoneOwing(c: Config, s: State, p: TipPair)
    requires Shaped(c, s) && forall e: nat {:trigger StackOf(c, s, e)} :: e < |c.home| ==> StackOf(c, s, e) == []
    ensures !exists e: nat, q {:trigger Owing(c, s, e, q, p)} :: e < |c.home| && Owing(c, s, e, q, p)
  {
    forall e: nat, q | e < |c.home| ensures !Owing(c, s, e, q, p) { assert StackOf(c, s, e) == []; }
  }
}
