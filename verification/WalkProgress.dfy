/** The walk never deadlocks: while it is armed and not done, some step can be taken. */
module WalkProgress {
  import opened Trees
  import opened Visitor
  import opened WalkMachine
  import opened WalkCredits
  import opened WalkInv
  import opened WalkSteps
  import opened WalkWork

  /** Lane frame f is in the seeding doTrav of element e. */
  predicate SeedsOn(f: Frame, e: nat) {
    match f
    case Walking(w) => w.seed && w.e == e
    case Parking(_, w) => w.seed && w.e == e
    case Crediting(_, next) => SeedsOn(next, e)
    case Mailing(_, next) => SeedsOn(next, e)
    case _ => false
  }

  /** An element that has begun to seed and is not through is being seeded by its lane. */
  ghost predicate SeedHeld(c: Config, s: State)
    requires Shaped(c, s)
  {
    forall e: nat {:trigger e in s.seeding} ::
          e in s.seeding && e !in s.unseeded && e < |c.home| && c.home[e] < c.lanes ==>
      SeedsOn(s.lanes[c.home[e]], e)
  }

  predicate ToLane(c: Config, m: Msg) {
    m.Resume? ==> m.lane < c.lanes
  }

  predicate Sends(c: Config, f: Frame) {
    match f
    case Crediting(m, next) => ToLane(c, m) && Sends(c, next)
    case Mailing(m, next) => ToLane(c, m) && Sends(c, next)
    case _ => true
  }

  /** Resume messages go to lanes there are. */
  ghost predicate Addressed(c: Config, s: State)
    requires Shaped(c, s)
  {
    && (forall m {:trigger m in s.msgs} :: m in s.msgs ==> ToLane(c, m))
    && (forall l {:trigger s.lanes[l]} :: 0 <= l < c.lanes ==> Sends(c, s.lanes[l]))
  }

  lemma StepSeedHeld(c: Config, s: State, step: Step)
    requires Inv(c, s) && Enabled(c, s, step) && SeedHeld(c, s)
    ensures Shaped(c, Apply(c, s, step)) && SeedHeld(c, Apply(c, s, step))
  {
    ApplyShaped(c, s, step);
    var s', l := Apply(c, s, step), step.l;
    forall e: nat | e in s'.seeding && e !in s'.unseeded && e < |c.home| && c.home[e] < c.lanes
      ensures SeedsOn(s'.lanes[c.home[e]], e)
    {
      LaneSeeds(c, s, step, e);
    }
  }

  /** Seeding is kept, ended, or begun by the element's own lane. */
  predicate Keeps(c: Config, s: State, s': State, e: nat)
    requires e < |c.home| && c.home[e] < |s.lanes| && c.home[e] < |s'.lanes|
  {
    (e in s.seeding && e !in s.unseeded ==> SeedsOn(s.lanes[c.home[e]], e)) ==>
      (e in s'.seeding && e !in s'.unseeded ==> SeedsOn(s'.lanes[c.home[e]], e))
  }

  lemma LaneSeeds(c: Config, s: State, step: Step, e: nat)
    requires Shaped(c, s) && Enabled(c, s, step) && e < |c.home| && c.home[e] < c.lanes
    requires e in s.seeding && e !in s.unseeded ==> SeedsOn(s.lanes[c.home[e]], e)
    ensures var s' := Apply(c, s, step);
            |s'.lanes| == c.lanes && (e in s'.seeding && e !in s'.unseeded ==> SeedsOn(s'.lanes[c.home[e]], e))
  {
    ApplyShaped(c, s, step);
    if step.Seed? || step.Finish? || step.Visit? || step.Miss? || step.Park? {
      TravSeeds(c, s, step, e);
    } else if step.CreditUp? || step.Post? || step.Reply? || step.Publish? || step.Close? || step.Notify? {
      MailSeeds(c, s, step, e);
    } else {
      OtherSeeds(c, s, step, e);
    }
  }

  lemma TravSeeds(c: Config, s: State, step: Step, e: nat)
    requires Shaped(c, s) && Enabled(c, s, step) && e < |c.home| && c.home[e] < c.lanes && Shaped(c, Apply(c, s, step))
    requires step.Seed? || step.Finish? || step.Visit? || step.Miss? || step.Park?
    ensures Keeps(c, s, Apply(c, s, step), e)
  {
  }

  lemma MailSeeds(c: Config, s: State, step: Step, e: nat)
    requires Shaped(c, s) && Enabled(c, s, step) && e < |c.home| && c.home[e] < c.lanes && Shaped(c, Apply(c, s, step))
    requires step.CreditUp? || step.Post? || step.Reply? || step.Publish? || step.Close? || step.Notify?
    ensures Keeps(c, s, Apply(c, s, step), e)
  {
  }

  lemma OtherSeeds(c: Config, s: State, step: Step, e: nat)
    requires Shaped(c, s) && Enabled(c, s, step) && e < |c.home| && c.home[e] < c.lanes && Shaped(c, Apply(c, s, step))
    requires step.Receive? || step.Deliver? || step.Descend? || step.Drain? || step.Release? || step.Remove? ||
          step.Swap?
    ensures Keeps(c, s, Apply(c, s, step), e)
  {
  }

  lemma SendsMail(c: Config, s: State, step: Step)
    requires Shaped(c, s) && Enabled(c, s, step) && Addressed(c, s)
    ensures forall m {:trigger m in Apply(c, s, step).msgs} :: m in Apply(c, s, step).msgs ==> ToLane(c, m)
  {
    assert Sends(c, s.lanes[step.l]);
  }

  lemma OtherLanes(c: Config, s: State, step: Step)
    requires Shaped(c, s) && Enabled(c, s, step)
    ensures |Apply(c, s, step).lanes| == c.lanes
    ensures forall l {:trigger Apply(c, s, step).lanes[l]} :: 0 <= l < c.lanes && l != step.l ==>
          Apply(c, s, step).lanes[l] == s.lanes[l]
  {
    ApplyShaped(c, s, step);
  }

  lemma SendsPark(c: Config, s: State, l: nat)
    requires Shaped(c, s) && Enabled(c, s, Park(l))
    ensures Sends(c, DoPark(c, s, l).lanes[l])
  {
  }

  lemma SendsNotify(c: Config, s: State, l: nat)
    requires Shaped(c, s) && Enabled(c, s, Notify(l)) && forall e {:trigger c.home[e]} :: 0 <= e < |c.home| ==>
          c.home[e] < c.lanes
    ensures Sends(c, DoNotify(c, s, l).lanes[l])
  {
  }

  lemma SendsDeliver(c: Config, s: State, l: nat)
    requires Shaped(c, s) && Enabled(c, s, Deliver(l))
    ensures Sends(c, DoDeliver(c, s, l).lanes[l])
  {
  }

  lemma SendsMiss(c: Config, s: State, l: nat)
    requires Shaped(c, s) && Enabled(c, s, Miss(l))
    ensures Sends(c, DoMiss(c, s, l).lanes[l])
  {
  }

  lemma SendsPlain(c: Config, s: State, step: Step)
    requires Shaped(c, s) && Enabled(c, s, step) && Sends(c, s.lanes[step.l]) && |Apply(c, s, step).lanes| == c.lanes
    requires !step.Park? && !step.Notify? && !step.Deliver? && !step.Miss? && !step.CreditUp? && !step.Post?
    ensures Sends(c, Apply(c, s, step).lanes[step.l])
  {
  }

  lemma SendsMailing(c: Config, s: State, step: Step)
    requires Shaped(c, s) && Enabled(c, s, step) && Sends(c, s.lanes[step.l]) && (step.CreditUp? || step.Post?)
    ensures |Apply(c, s, step).lanes| == c.lanes && Sends(c, Apply(c, s, step).lanes[step.l])
  {
  }

  lemma SendsLane(c: Config, s: State, step: Step)
    requires c.Ok() && Shaped(c, s) && Enabled(c, s, step) && Sends(c, s.lanes[step.l])
    requires |Apply(c, s, step).lanes| == c.lanes
    ensures Sends(c, Apply(c, s, step).lanes[step.l])
  {
    match step
    case Park(l) => SendsPark(c, s, l);
    case Notify(l) => SendsNotify(c, s, l);
    case Deliver(l) => SendsDeliver(c, s, l);
    case Miss(l) => SendsMiss(c, s, l);
    case CreditUp(_) => SendsMailing(c, s, step);
    case Post(_) => SendsMailing(c, s, step);
    case _ => SendsPlain(c, s, step);
  }

  lemma StepAddressed(c: Config, s: State, step: Step)
    requires c.Ok() && Shaped(c, s) && Enabled(c, s, step) && Addressed(c, s)
    ensures Shaped(c, Apply(c, s, step)) && Addressed(c, Apply(c, s, step))
  {
    ApplyShaped(c, s, step);
    SendsMail(c, s, step);
    OtherLanes(c, s, step);
    assert Sends(c, s.lanes[step.l]);
    SendsLane(c, s, step);
  }

  lemma {:induction false} RunHeld(c: Config, trace: seq<State>, steps: seq<Step>, i: nat)
    requires c.Ok() && Run(c, trace, steps) && i < |trace|
    ensures WorkInv(c, trace[i]) && SeedHeld(c, trace[i]) && Addressed(c, trace[i])
  {
    RunWork(c, trace, steps, i);
    if i > 0 {
      RunHeld(c, trace, steps, i - 1);
      StepSeedHeld(c, trace[i - 1], steps[i - 1]);
      StepAddressed(c, trace[i - 1], steps[i - 1]);
    }
  }

  // ---- A lane with work can go on.

  lemma BusyLane(c: Config, s: State, l: nat) returns (step: Step)
    requires Inv(c, s) && l < c.lanes && !s.lanes[l].Idle?
    ensures Enabled(c, s, step)
  {
    var f := s.lanes[l];
    assert LaneOk(c, s, l, f);
    match f
    case Walking(w) =>
      if w.stack == [] { step := Finish(l); }
      else if TopOf(w).Pair? && !Here(c, s, TopOf(w).k) && !Early(TopOf(w)) { step := Miss(l); }
      else { step := Visit(l, true); }
    case Parking(_, _) => step := Park(l);
    case Draining(_) => step := Drain(l);
    case Delivering(_, _, _, _) => step := Deliver(l);
    case Publishing(k) => step := Publish(l, {k});
    case Closing(_) => step := Close(l);
    case Notifying(_, _) => step := Notify(l);
    case Crediting(_, _) => step := CreditUp(l);
    case Mailing(_, _) => step := Post(l);
    case Removing(_) => step := Remove(l);
    case Swapping => step := Swap(l);
  }

  lemma IdleHoldsNothing(c: Config, s: State, t: Token)
    requires Shaped(c, s) && forall l {:trigger s.lanes[l]} :: 0 <= l < c.lanes ==> s.lanes[l].Idle?
    ensures !LaneHolds(s, t)
  {
  }

  /** With every lane idle, some message or the open credit can be taken up. */
  lemma AllIdle(c: Config, s: State) returns (step: Step)
    requires c.Ok() && WorkInv(c, s) && SeedHeld(c, s) && Addressed(c, s) && s.tokens != {}
    requires forall l {:trigger s.lanes[l]} :: 0 <= l < c.lanes ==> s.lanes[l].Idle?
    ensures Enabled(c, s, step)
  {
    var t :| t in s.tokens;
    IdleHoldsNothing(c, s, t);
    assert t in Mail(s);
    if t == Open {
      assert s.open;
      if s.seeding == {} {
        step := Release(0);
      } else {
        var e :| e in s.seeding;
        assert e < |c.home| && c.home[e] < c.lanes;
        assert !SeedsOn(s.lanes[c.home[e]], e);
        step := Seed(c.home[e], e);
      }
    } else {
      var m :| m in s.msgs && TokenOf(m) == t;
      match m
      case Ask(k) => step := Reply(0, k);
      case Resume(_, q, _, _) => step := Receive(q, m);
      case GoDown(e) => step := Step.Descend(c.home[e], e);
    }
  }

  // ---- The last credit.

  ghost predicate SomeSwaps(s: State) {
    exists l {:trigger s.lanes[l]} :: 0 <= l < |s.lanes| && s.lanes[l].Swapping?
  }

  /** The decrement that takes the last credit goes on to the exchange; no other lane does, and the flag is still
      up when it gets there. */
  ghost predicate Finishing(s: State) {
    && (s.armed && s.tokens == {} ==> SomeSwaps(s))
    && (forall l {:trigger s.lanes[l]} :: 0 <= l < |s.lanes| && s.lanes[l].Swapping? ==> s.armed)
    && (forall l, k {:trigger s.lanes[l], s.lanes[k]} :: 0 <= l < k < |s.lanes| ==>
          !(s.lanes[l].Swapping? && s.lanes[k].Swapping?))
  }

  lemma RemoveFinishes(c: Config, s: State, l: nat)
    requires Shaped(c, s) && Placed(s) && Counted(s) && Enabled(c, s, Remove(l))
    ensures Finishing(DoRemove(c, s, l))
  {
    var t, s' := s.lanes[l].t, DoRemove(c, s, l);
    assert t in Holds(s.lanes[l]) && LaneHolds(s, t) && t in s.tokens;
    assert s.armed && s'.lanes == s.lanes[l := s'.lanes[l]];
    assert |s'.tokens| == |s.tokens| - 1;
    if s'.tokens == {} {
      assert s'.lanes[l].Swapping?;
    }
  }

  lemma SwapFinishes(c: Config, s: State, l: nat)
    requires Shaped(c, s) && Enabled(c, s, Swap(l)) && Finishing(s)
    ensures Finishing(Apply(c, s, Swap(l)))
  {
    var s' := Apply(c, s, Swap(l));
    forall k | 0 <= k < |s'.lanes|
      ensures !s'.lanes[k].Swapping?
    {
      assert !(s.lanes[l].Swapping? && k != l && s.lanes[k].Swapping?);
    }
  }

  lemma PlainStep(c: Config, s: State, step: Step)
    requires Shaped(c, s) && Enabled(c, s, step) && !step.Remove? && !step.Swap?
    ensures !s.lanes[step.l].Swapping? && |Apply(c, s, step).lanes| == c.lanes
    ensures Apply(c, s, step).armed == s.armed && s.tokens <= Apply(c, s, step).tokens
    ensures !Apply(c, s, step).lanes[step.l].Swapping? || (step.Post? && s.lanes[step.l].next.Swapping?)
  {
    ApplyShaped(c, s, step);
  }

  lemma PostsPlain(c: Config, s: State, l: nat)
    requires Shaped(c, s) && LanesOk(c, s) && l < c.lanes
    ensures s.lanes[l].Mailing? ==> !s.lanes[l].next.Swapping?
  {
    assert LaneOk(c, s, l, s.lanes[l]);
  }

  lemma OthersFinish(c: Config, s: State, s': State, l: nat)
    requires Shaped(c, s) && Finishing(s) && l < c.lanes == |s'.lanes| && s'.armed == s.armed && s.tokens <= s'.tokens
    requires forall k {:trigger s'.lanes[k]} :: 0 <= k < c.lanes && k != l ==> s'.lanes[k] == s.lanes[k]
    requires !s.lanes[l].Swapping? && !s'.lanes[l].Swapping?
    ensures Finishing(s')
  {
    if s'.armed && s'.tokens == {} {
      var k :| 0 <= k < |s.lanes| && s.lanes[k].Swapping?;
      assert s'.lanes[k].Swapping?;
    }
  }

  lemma PlainFinishes(c: Config, s: State, step: Step)
    requires Shaped(c, s) && Enabled(c, s, step) && Finishing(s) && !step.Remove? && !step.Swap?
    requires s.lanes[step.l].Mailing? ==> !s.lanes[step.l].next.Swapping?
    ensures Finishing(Apply(c, s, step))
  {
    PlainStep(c, s, step);
    OtherLanes(c, s, step);
    OthersFinish(c, s, Apply(c, s, step), step.l);
  }

  lemma StepFinishing(c: Config, s: State, step: Step)
    requires Shaped(c, s) && Placed(s) && Counted(s) && LanesOk(c, s) && Enabled(c, s, step) && Finishing(s)
    ensures Finishing(Apply(c, s, step))
  {
    if step.Remove? {
      RemoveFinishes(c, s, step.l);
    } else if step.Swap? {
      SwapFinishes(c, s, step.l);
    } else {
      PostsPlain(c, s, step.l);
      PlainFinishes(c, s, step);
    }
  }

  lemma {:induction false} RunFinishing(c: Config, trace: seq<State>, steps: seq<Step>, i: nat)
    requires c.Ok() && Run(c, trace, steps) && i < |trace|
    ensures Finishing(trace[i])
  {
    if i > 0 {
      RunFinishing(c, trace, steps, i - 1);
      RunWork(c, trace, steps, i - 1);
      StepFinishing(c, trace[i - 1], steps[i - 1]);
    }
  }

  /** When the counter of an armed walk stands at zero one lane is at the exchange, and its step fires the done
      reduction, which had not fired before. */
  lemma ZeroFires(c: Config, trace: seq<State>, steps: seq<Step>, i: nat) returns (l: nat)
    requires c.Ok() && Run(c, trace, steps) && i < |trace| && trace[i].armed && trace[i].credits == 0
    ensures l < c.lanes && Shaped(c, trace[i]) && Enabled(c, trace[i], Swap(l))
    ensures trace[i].fired == 0 && Apply(c, trace[i], Swap(l)).fired == 1
  {
    RunWork(c, trace, steps, i);
    RunFinishing(c, trace, steps, i);
    assert trace[i].tokens == {};
    l :| 0 <= l < c.lanes && trace[i].lanes[l].Swapping?;
  }

  /** Deadlock freedom: in every reachable state of an armed walk a step is enabled. */
  lemma NoDeadlock(c: Config, trace: seq<State>, steps: seq<Step>, i: nat) returns (step: Step)
    requires c.Ok() && Run(c, trace, steps) && i < |trace| && trace[i].armed
    ensures Shaped(c, trace[i]) && Enabled(c, trace[i], step)
  {
    var s := trace[i];
    RunHeld(c, trace, steps, i);
    if forall l {:trigger s.lanes[l]} :: 0 <= l < c.lanes ==> s.lanes[l].Idle? {
      if s.tokens == {} {
        RunFinishing(c, trace, steps, i);
        assert false;
      }
      step := AllIdle(c, s);
    } else {
      var l :| 0 <= l < c.lanes && !s.lanes[l].Idle?;
      step := BusyLane(c, s, l);
    }
  }

  /** Nothing more can happen. */
  ghost predicate Stuck(c: Config, s: State) {
    Shaped(c, s) && forall step {:trigger Enabled(c, s, step)} :: !Enabled(c, s, step)
  }

  /** A run has come to its end exactly when the done reduction has fired, exactly once. */
  lemma StuckIffFired(c: Config, trace: seq<State>, steps: seq<Step>, i: nat)
    requires c.Ok() && Run(c, trace, steps) && i < |trace|
    ensures Shaped(c, trace[i]) && (Stuck(c, trace[i]) <==> trace[i].fired == 1) && trace[i].fired <= 1
  {
    var s := trace[i];
    RunFinishing(c, trace, steps, i);
    CreditsCounted(c, trace, steps, i);
    RunWork(c, trace, steps, i);
    if s.armed {
      var step := NoDeadlock(c, trace, steps, i);
    } else {
      FiredMeansDone(c, trace, steps, i);
      QuiescentStuck(c, s);
    }
  }

  lemma QuiescentStuck(c: Config, s: State)
    requires Quiescent(c, s) && Finishing(s) && !s.armed
    ensures Stuck(c, s)
  {
    forall step ensures !Enabled(c, s, step) {
      if step.l < c.lanes { assert s.lanes[step.l].Idle?; }
    }
  }
}
