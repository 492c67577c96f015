/** Every run of the walk is finite: each step of any lane, in any order, makes one number smaller that the
    configuration alone fixes at the start.  With deadlock freedom, every run that goes on as long as it can
    fires the done reduction. */
module WalkBound {
  import opened Trees
  import opened Visitor
  import opened WalkMeasure
  import opened WalkMachine
  import opened WalkCredits
  import opened WalkInv
  import opened WalkSteps
  import opened WalkWork
  import opened WalkProgress

  // ---- Sums.

  function Total(ns: seq<nat>): nat {
    if ns == [] then 0 else ns[0] + Total(ns[1..])
  }

  lemma {:induction false} TotalSet(ns: seq<nat>, i: nat, x: nat)
    requires i < |ns|
    ensures Total(ns[i := x]) + ns[i] == Total(ns) + x
  {
    if i == 0 {
      assert ns[0 := x][1..] == ns[1..];
    } else {
      TotalSet(ns[1..], i - 1, x);
      assert ns[i := x][1..] == ns[1..][i - 1 := x];
    }
  }

  ghost function SetTotal<T(!new)>(xs: set<T>, f: T -> nat): nat {
    if xs == {} then 0 else var x :| x in xs; f(x) + SetTotal(xs - {x}, f)
  }

  lemma {:induction false} SetTake<T(!new)>(xs: set<T>, f: T -> nat, x: T)
    requires x in xs
    ensures SetTotal(xs, f) == f(x) + SetTotal(xs - {x}, f)
    decreases |xs|
  {
    var y :| y in xs && SetTotal(xs, f) == f(y) + SetTotal(xs - {y}, f);
    if y != x {
      SetTake(xs - {y}, f, x);
      SetTake(xs - {x}, f, y);
      assert xs - {y} - {x} == xs - {x} - {y};
    }
  }

  lemma {:induction false} SetSame<T(!new)>(xs: set<T>, f: T -> nat, g: T -> nat)
    requires forall x :: x in xs ==> f(x) == g(x)
    ensures SetTotal(xs, f) == SetTotal(xs, g)
    decreases |xs|
  {
    if xs != {} {
      var x :| x in xs;
      SetTake(xs, f, x);
      SetTake(xs, g, x);
      SetSame(xs - {x}, f, g);
    }
  }

  // ---- What is still to do.

  function RecordLoad(v: View, r: Record): nat {
    32 * Product(v, r.0, r.1)
  }

  function RecordsLoad(v: View, rs: seq<Record>): nat {
    if rs == [] then 0 else RecordLoad(v, rs[0]) + RecordsLoad(v, rs[1..])
  }

  function StartOf(w: Work): int {
    if w.seed then -1 else w.key
  }

  function WorkLoad(v: View, w: Work): nat {
    (if w.seed then 1 else 2) + StackLoad(v, StartOf(w), w.stack) + RecordsLoad(v, w.ins)
  }

  function MsgLoad(m: Msg): nat {
    match m
    case Ask(_) => 6
    case Resume(_, _, _, es) => 4 + 9 * |es|
    case GoDown(_) => 4
  }

  function FrameLoad(v: View, f: Frame): nat {
    match f
    case Idle => 0
    case Walking(w) => WorkLoad(v, w)
    case Parking(_, w) => WorkLoad(v, w) + 17
    case Draining(_) => 3
    case Delivering(_, _, todo, _) => 3 + 9 * |todo|
    case Publishing(_) => 5
    case Closing(_) => 4
    case Notifying(_, todo) => 3 + 16 * |todo|
    case Crediting(m, next) => 2 + MsgLoad(m) + FrameLoad(v, next)
    case Mailing(m, next) => 1 + MsgLoad(m) + FrameLoad(v, next)
    case Removing(_) => 2
    case Swapping => 1
  }

  function SeedCost(c: Config, e: nat): nat {
    if e < |c.target| then 2 + ItemLoad(c.v, -1, Pair(1, c.target[e])) else 0
  }

  function LaneLoads(v: View, lanes: seq<Frame>): seq<nat> {
    seq(|lanes|, l requires 0 <= l < |lanes| => FrameLoad(v, lanes[l]))
  }

  function QueueLoads(queue: seq<seq<Key>>): seq<nat> {
    seq(|queue|, e requires 0 <= e < |queue| => 2 * |queue[e]|)
  }

  function TableLoads(v: View, curr: seq<seq<Record>>): seq<nat> {
    seq(|curr|, e requires 0 <= e < |curr| => RecordsLoad(v, curr[e]))
  }

  ghost function MailLoad(msgs: set<Msg>): nat {
    SetTotal(msgs, MsgLoad)
  }

  ghost function WaitLoad(parked: map<Key, seq<nat>>): nat {
    SetTotal(parked.Keys, (k: Key) => 16 * |Get(parked, k)|)
  }

  ghost function SeedLoad(c: Config, unseeded: set<nat>): nat {
    SetTotal(unseeded, (e: nat) => SeedCost(c, e))
  }

  /** Frames, messages, parked walkers, queued nodes, set-aside pairs, elements to seed, the open credit. */
  ghost function Left(c: Config, s: State): nat {
    Total(LaneLoads(c.v, s.lanes)) + MailLoad(s.msgs) + WaitLoad(s.parked) + Total(QueueLoads(s.queue))
    + Total(TableLoads(c.v, s.curr)) + SeedLoad(c, s.unseeded) + if s.open then 3 else 0
  }

  // ---- Moving load about.

  lemma LaneMoves(v: View, lanes: seq<Frame>, l: nat, f: Frame)
    requires l < |lanes|
    ensures Total(LaneLoads(v, lanes[l := f])) + FrameLoad(v, lanes[l]) == Total(LaneLoads(v, lanes)) + FrameLoad(v, f)
  {
    assert LaneLoads(v, lanes[l := f]) == LaneLoads(v, lanes)[l := FrameLoad(v, f)];
    TotalSet(LaneLoads(v, lanes), l, FrameLoad(v, f));
  }

  lemma QueueMoves(queue: seq<seq<Key>>, e: nat, q: seq<Key>)
    requires e < |queue|
    ensures Total(QueueLoads(queue[e := q])) + 2 * |queue[e]| == Total(QueueLoads(queue)) + 2 * |q|
  {
    assert QueueLoads(queue[e := q]) == QueueLoads(queue)[e := 2 * |q|];
    TotalSet(QueueLoads(queue), e, 2 * |q|);
  }

  lemma TableMoves(v: View, curr: seq<seq<Record>>, e: nat, rs: seq<Record>)
    requires e < |curr|
    ensures Total(TableLoads(v, curr[e := rs])) + RecordsLoad(v, curr[e])
         == Total(TableLoads(v, curr)) + RecordsLoad(v, rs)
  {
    assert TableLoads(v, curr[e := rs]) == TableLoads(v, curr)[e := RecordsLoad(v, rs)];
    TotalSet(TableLoads(v, curr), e, RecordsLoad(v, rs));
  }

  lemma MailTake(msgs: set<Msg>, m: Msg)
    requires m in msgs
    ensures MailLoad(msgs - {m}) + MsgLoad(m) == MailLoad(msgs)
  {
    SetTake(msgs, MsgLoad, m);
  }

  lemma MailPut(msgs: set<Msg>, m: Msg)
    ensures MailLoad(msgs + {m}) <= MailLoad(msgs) + MsgLoad(m)
  {
    if m in msgs {
      assert msgs + {m} == msgs;
    } else {
      MailTake(msgs + {m}, m);
      assert msgs + {m} - {m} == msgs;
    }
  }

  lemma SeedTake(c: Config, unseeded: set<nat>, e: nat)
    requires e in unseeded
    ensures SeedLoad(c, unseeded - {e}) + SeedCost(c, e) == SeedLoad(c, unseeded)
  {
    SetTake(unseeded, (x: nat) => SeedCost(c, x), e);
  }

  lemma WaitTake(parked: map<Key, seq<nat>>, k: Key)
    ensures WaitLoad(parked - {k}) + 16 * |Get(parked, k)| == WaitLoad(parked)
  {
    var f, g := (x: Key) => 16 * |Get(parked, x)|, (x: Key) => 16 * |Get(parked - {k}, x)|;
    assert (parked - {k}).Keys == parked.Keys - {k};
    SetSame((parked - {k}).Keys, g, f);
    if k in parked {
      SetTake(parked.Keys, f, k);
    } else {
      assert parked.Keys - {k} == parked.Keys;
    }
  }

  lemma WaitPut(parked: map<Key, seq<nat>>, k: Key, es: seq<nat>)
    ensures WaitLoad(parked[k := es]) + 16 * |Get(parked, k)| == WaitLoad(parked) + 16 * |es|
  {
    WaitTake(parked, k);
    WaitTake(parked[k := es], k);
    assert parked[k := es] - {k} == parked - {k};
  }

  lemma {:induction false} RecordsConcat(v: View, x: seq<Record>, y: seq<Record>)
    ensures RecordsLoad(v, x + y) == RecordsLoad(v, x) + RecordsLoad(v, y)
  {
    if x == [] {
      assert x + y == y;
    } else {
      RecordsConcat(v, x[1..], y);
      assert (x + y)[1..] == x[1..] + y;
    }
  }

  /** A node's records become the stack of the walk that starts there, at the same load. */
  lemma {:induction false} SelectLoad(v: View, rs: seq<Record>, k: Key)
    ensures StackLoad(v, k, Entries(Select(rs, k, true))) + RecordsLoad(v, Select(rs, k, false)) == RecordsLoad(v, rs)
  {
    if rs != [] {
      SelectLoad(v, rs[1..], k);
      var taken := Select(rs[1..], k, true);
      if rs[0].0 == k {
        assert Select(rs, k, true) == [rs[0]] + taken;
        assert Entries([rs[0]] + taken) == [Pair(k, rs[0].1)] + Entries(taken);
        StackOne(v, k, Pair(k, rs[0].1));
        StackConcat(v, k, [Pair(k, rs[0].1)], Entries(taken));
        assert Select(rs, k, false) == Select(rs[1..], k, false);
      } else {
        assert Select(rs, k, true) == taken;
        assert Select(rs, k, false) == [rs[0]] + Select(rs[1..], k, false);
      }
    } else {
      assert Entries([]) == [];
    }
  }

  lemma {:induction false} OnLaneSplits(home: seq<nat>, es: seq<nat>, q: nat)
    ensures |OnLane(home, es, q, true)| + |OnLane(home, es, q, false)| == |es|
    ensures es != [] && es[0] < |home| && home[es[0]] == q ==> OnLane(home, es, q, true) != []
  {
    if es != [] { OnLaneSplits(home, es[1..], q); }
  }

  // ---- Every step makes it smaller.

  ghost predicate Shrinks(c: Config, s: State, s': State) {
    Left(c, s') < Left(c, s)
  }

  /** Steps that change only lane l's frame. */
  lemma LaneShrinks(c: Config, s: State, s': State, l: nat, f: Frame)
    requires l < |s.lanes| && s'.lanes == s.lanes[l := f] && FrameLoad(c.v, f) < FrameLoad(c.v, s.lanes[l])
    requires s'.msgs == s.msgs && s'.parked == s.parked && s'.queue == s.queue && s'.curr == s.curr
    requires s'.unseeded == s.unseeded && s'.open == s.open
    ensures Shrinks(c, s, s')
  {
    LaneMoves(c.v, s.lanes, l, f);
  }

  lemma VisitShrinks(c: Config, s: State, l: nat, split: bool)
    requires c.v.Ok() && Shaped(c, s) && Enabled(c, s, Visit(l, split))
    ensures Shrinks(c, s, DoVisit(c, s, l, split))
  {
    var w, s' := s.lanes[l].w, DoVisit(c, s, l, split);
    var rest, x := w.stack[..|w.stack| - 1], TopOf(w);
    var push := Expand(c.v, c.piece[w.e], s.seen, x, split).0;
    ExpandShrinks(c.v, c.piece[w.e], s.seen, x, split, StartOf(w));
    PopLoad(c.v, w);
    StackConcat(c.v, StartOf(w), rest, push);
    LaneShrinks(c, s, s', l, Walking(w.(stack := rest + push)));
  }

  lemma PopLoad(v: View, w: Work)
    requires w.stack != []
    ensures StackLoad(v, StartOf(w), w.stack)
         == StackLoad(v, StartOf(w), w.stack[..|w.stack| - 1]) + ItemLoad(v, StartOf(w), TopOf(w))
  {
    assert w.stack == w.stack[..|w.stack| - 1] + [TopOf(w)];
    StackConcat(v, StartOf(w), w.stack[..|w.stack| - 1], [TopOf(w)]);
    StackOne(v, StartOf(w), TopOf(w));
  }

  /** A walk resumed at a node finds that node there. */
  lemma StartPresent(c: Config, s: State, l: nat)
    requires Shaped(c, s) && LanesOk(c, s) && NodesOk(c, s) && QueuesOk(c, s) && l < c.lanes && s.lanes[l].Walking?
    ensures !s.lanes[l].w.seed ==> s.lanes[l].w.key in s.present
  {
    var w := s.lanes[l].w;
    assert LaneOk(c, s, l, s.lanes[l]);
    if !w.seed { assert s.queue[w.e][0] in s.queue[w.e]; }
  }

  lemma MissShrinks(c: Config, s: State, l: nat)
    requires Shaped(c, s) && LanesOk(c, s) && NodesOk(c, s) && QueuesOk(c, s) && Enabled(c, s, Miss(l))
    ensures Shrinks(c, s, DoMiss(c, s, l))
  {
    var w, s' := s.lanes[l].w, DoMiss(c, s, l);
    var x := TopOf(w);
    StartPresent(c, s, l);
    PopLoad(c.v, w);
    RecordsConcat(c.v, w.ins, [(x.k, x.t)]);
    var w' := w.(stack := w.stack[..|w.stack| - 1], ins := w.ins + [(x.k, x.t)]);
    assert RecordsLoad(c.v, [(x.k, x.t)]) == RecordLoad(c.v, (x.k, x.t)) by { assert [(x.k, x.t)][1..] == []; }
    assert StartOf(w') == StartOf(w) && ItemLoad(c.v, StartOf(w), x) == RecordLoad(c.v, (x.k, x.t)) + FETCH;
    assert WorkLoad(c.v, w') + FETCH == WorkLoad(c.v, w);
    LaneShrinks(c, s, s', l, s'.lanes[l]);
  }

  lemma ParkShrinks(c: Config, s: State, l: nat)
    requires Shaped(c, s) && Enabled(c, s, Park(l))
    ensures Shrinks(c, s, DoPark(c, s, l))
  {
    var k, w, s' := s.lanes[l].k, s.lanes[l].w, DoPark(c, s, l);
    if k in s.closed {
      LaneShrinks(c, s, s', l, s'.lanes[l]);
    } else {
      LaneMoves(c.v, s.lanes, l, Walking(w));
      WaitPut(s.parked, k, s'.parked[k]);
    }
  }

  lemma PostShrinks(c: Config, s: State, l: nat)
    requires Shaped(c, s) && Enabled(c, s, Post(l))
    ensures Shrinks(c, s, Apply(c, s, Post(l)))
  {
    LaneMoves(c.v, s.lanes, l, s.lanes[l].next);
    MailPut(s.msgs, s.lanes[l].m);
  }

  /** Lane l takes a message up. */
  lemma TakeShrinks(c: Config, s: State, s': State, l: nat, m: Msg, f: Frame)
    requires l < |s.lanes| && s.lanes[l].Idle? && s'.lanes == s.lanes[l := f] && FrameLoad(c.v, f) < MsgLoad(m)
    requires m in s.msgs && s'.msgs == s.msgs - {m} && s'.parked == s.parked && s'.queue == s.queue
    requires s'.curr == s.curr && s'.unseeded == s.unseeded && s'.open == s.open
    ensures Shrinks(c, s, s')
  {
    LaneMoves(c.v, s.lanes, l, f);
    MailTake(s.msgs, m);
  }

  lemma MailShrinks(c: Config, s: State, step: Step)
    requires Shaped(c, s) && Enabled(c, s, step) && (step.Reply? || step.Receive? || step.Descend?)
    ensures Shrinks(c, s, Apply(c, s, step))
  {
    var l, s' := step.l, Apply(c, s, step);
    match step
    case Reply(_, k) => TakeShrinks(c, s, s', l, Ask(k), Publishing(k));
    case Receive(_, m) => TakeShrinks(c, s, s', l, m, Delivering(m.id, m.k, m.elems, {}));
    case Descend(_, e) => TakeShrinks(c, s, s', l, GoDown(e), Draining(e));
  }

  lemma CloseShrinks(c: Config, s: State, l: nat)
    requires Shaped(c, s) && Enabled(c, s, Close(l))
    ensures Shrinks(c, s, Apply(c, s, Close(l)))
  {
    var k := s.lanes[l].k;
    LaneMoves(c.v, s.lanes, l, Notifying(k, Get(s.parked, k)));
    WaitTake(s.parked, k);
  }

  lemma NotifyShrinks(c: Config, s: State, l: nat)
    requires Shaped(c, s) && Enabled(c, s, Notify(l))
    ensures Shrinks(c, s, DoNotify(c, s, l))
  {
    var todo, s' := s.lanes[l].todo, DoNotify(c, s, l);
    if todo != [] {
      OnLaneSplits(c.home, todo, c.home[todo[0]]);
    }
    LaneShrinks(c, s, s', l, s'.lanes[l]);
  }

  lemma DeliverShrinks(c: Config, s: State, l: nat)
    requires Shaped(c, s) && Enabled(c, s, Deliver(l))
    ensures Shrinks(c, s, DoDeliver(c, s, l))
  {
    var f, s' := s.lanes[l], DoDeliver(c, s, l);
    if f.todo == [] || f.todo[0] in f.done {
      LaneShrinks(c, s, s', l, s'.lanes[l]);
    } else {
      var next := Delivering(f.id, f.k, f.todo[1..], f.done + {f.todo[0]});
      QueueMoves(s.queue, f.todo[0], s.queue[f.todo[0]] + [f.k]);
      if s.queue[f.todo[0]] == [] {
        LaneMoves(c.v, s.lanes, l, Crediting(GoDown(f.todo[0]), next));
      } else {
        LaneMoves(c.v, s.lanes, l, next);
      }
    }
  }

  lemma DrainShrinks(c: Config, s: State, l: nat)
    requires Shaped(c, s) && Enabled(c, s, Drain(l))
    ensures Shrinks(c, s, DoDrain(c, s, l))
  {
    var e, s' := s.lanes[l].e, DoDrain(c, s, l);
    if s.queue[e] == [] {
      LaneShrinks(c, s, s', l, Removing(Down(e)));
    } else {
      var k := s.queue[e][0];
      LaneMoves(c.v, s.lanes, l, s'.lanes[l]);
      TableMoves(c.v, s.curr, e, Select(s.curr[e], k, false));
      SelectLoad(c.v, s.curr[e], k);
    }
  }

  lemma FinishShrinks(c: Config, s: State, l: nat)
    requires Shaped(c, s) && Enabled(c, s, Finish(l))
    ensures Shrinks(c, s, DoFinish(c, s, l))
  {
    var w := s.lanes[l].w;
    TableMoves(c.v, s.curr, w.e, s.curr[w.e] + w.ins);
    RecordsConcat(c.v, s.curr[w.e], w.ins);
    assert WorkLoad(c.v, w) == (if w.seed then 1 else 2) + RecordsLoad(c.v, w.ins);
    if w.seed {
      LaneMoves(c.v, s.lanes, l, Idle);
    } else {
      LaneMoves(c.v, s.lanes, l, Draining(w.e));
      QueueMoves(s.queue, w.e, s.queue[w.e][1..]);
    }
  }

  lemma SeedShrinks(c: Config, s: State, l: nat, e: nat)
    requires Shaped(c, s) && Enabled(c, s, Seed(l, e))
    ensures Shrinks(c, s, Apply(c, s, Seed(l, e)))
  {
    LaneMoves(c.v, s.lanes, l, Apply(c, s, Seed(l, e)).lanes[l]);
    SeedTake(c, s.unseeded, e);
    StackOne(c.v, -1, Pair(1, c.target[e]));
  }

  lemma ReleaseShrinks(c: Config, s: State, l: nat)
    requires Shaped(c, s) && Enabled(c, s, Release(l))
    ensures Shrinks(c, s, Apply(c, s, Release(l)))
  {
    LaneMoves(c.v, s.lanes, l, Removing(Open));
  }

  lemma PlainShrinks(c: Config, s: State, step: Step)
    requires Shaped(c, s) && Enabled(c, s, step)
    requires step.CreditUp? || step.Publish? || step.Remove? || step.Swap?
    ensures Shrinks(c, s, Apply(c, s, step))
  {
    LaneShrinks(c, s, Apply(c, s, step), step.l, Apply(c, s, step).lanes[step.l]);
  }

  /** The variant of the whole protocol. */
  lemma StepShrinks(c: Config, s: State, step: Step)
    requires c.v.Ok() && Inv(c, s) && Enabled(c, s, step)
    ensures Shrinks(c, s, Apply(c, s, step))
  {
    match step
    case Seed(l, e) => SeedShrinks(c, s, l, e);
    case Visit(l, split) => VisitShrinks(c, s, l, split);
    case Miss(l) => MissShrinks(c, s, l);
    case Park(l) => ParkShrinks(c, s, l);
    case Close(l) => CloseShrinks(c, s, l);
    case Notify(l) => NotifyShrinks(c, s, l);
    case Deliver(l) => DeliverShrinks(c, s, l);
    case Drain(l) => DrainShrinks(c, s, l);
    case Finish(l) => FinishShrinks(c, s, l);
    case CreditUp(_) => PlainShrinks(c, s, step);
    case Publish(_, _) => PlainShrinks(c, s, step);
    case Release(l) => ReleaseShrinks(c, s, l);
    case Remove(_) => PlainShrinks(c, s, step);
    case Swap(_) => PlainShrinks(c, s, step);
    case Post(l) => PostShrinks(c, s, l);
    case Reply(_, _) => MailShrinks(c, s, step);
    case Receive(_, _) => MailShrinks(c, s, step);
    case Descend(_, _) => MailShrinks(c, s, step);
  }

  // ---- Every run.

  function Elements(n: nat): (r: set<nat>)
    ensures forall e: nat {:trigger e in r} :: e in r <==> e < n
  {
    if n == 0 then {} else Elements(n - 1) + {n - 1}
  }

  /** What a configuration has to do: its elements' seeding walks, and the release. */
  ghost function Budget(c: Config): nat {
    SeedLoad(c, Elements(|c.home|)) + 3
  }

  lemma {:induction false} Nothing(ns: seq<nat>)
    requires forall i {:trigger ns[i]} :: 0 <= i < |ns| ==> ns[i] == 0
    ensures Total(ns) == 0
  {
    if ns != [] { Nothing(ns[1..]); }
  }

  lemma InitialLoad(c: Config, s: State)
    requires Initial(c, s)
    ensures Left(c, s) == Budget(c)
  {
    Nothing(LaneLoads(c.v, s.lanes));
    Nothing(QueueLoads(s.queue));
    Nothing(TableLoads(c.v, s.curr));
    assert s.unseeded == Elements(|c.home|);
    assert s.parked.Keys == {};
  }

  lemma NextShrinks(c: Config, trace: seq<State>, steps: seq<Step>, i: nat)
    requires c.Ok() && Run(c, trace, steps) && i < |steps|
    ensures Shrinks(c, trace[i], trace[i + 1])
  {
    RunInv(c, trace, steps, i);
    StepShrinks(c, trace[i], steps[i]);
  }

  /** After i steps at most Budget - i remain. */
  lemma {:induction false} RunShrinks(c: Config, trace: seq<State>, steps: seq<Step>, i: nat)
    requires c.Ok() && Run(c, trace, steps) && i < |trace|
    ensures Left(c, trace[i]) + i <= Budget(c)
  {
    if i == 0 {
      InitialLoad(c, trace[0]);
    } else {
      RunShrinks(c, trace, steps, i - 1);
      NextShrinks(c, trace, steps, i - 1);
    }
  }

  /** No run takes more steps than the configuration's budget, however the lanes interleave and in whatever order
      messages arrive. */
  lemma RunsAreShort(c: Config, trace: seq<State>, steps: seq<Step>)
    requires c.Ok() && Run(c, trace, steps)
    ensures |steps| <= Budget(c)
  {
    RunShrinks(c, trace, steps, |steps|);
  }

  /** Every run can be gone on with until the done reduction fires, and that takes finitely many steps. */
  lemma {:induction false} GoesOn(c: Config, trace: seq<State>, steps: seq<Step>)
    returns (trace': seq<State>, steps': seq<Step>)
    requires c.Ok() && Run(c, trace, steps)
    ensures Run(c, trace', steps') && trace <= trace' && steps <= steps'
    ensures trace'[|trace'| - 1].fired == 1 && Stuck(c, trace'[|trace'| - 1])
    decreases Budget(c) - |steps|
  {
    var s := trace[|trace| - 1];
    StuckIffFired(c, trace, steps, |trace| - 1);
    if Stuck(c, s) {
      trace', steps' := trace, steps;
    } else {
      var step :| Enabled(c, s, step);
      OneMore(c, trace, steps, step);
      RunsAreShort(c, trace + [Apply(c, s, step)], steps + [step]);
      trace', steps' := GoesOn(c, trace + [Apply(c, s, step)], steps + [step]);
    }
  }

  lemma OneMore(c: Config, trace: seq<State>, steps: seq<Step>, step: Step)
    requires Run(c, trace, steps) && Shaped(c, trace[|steps|]) && Enabled(c, trace[|steps|], step)
    ensures Run(c, trace + [Apply(c, trace[|steps|], step)], steps + [step])
  {
    var t, u := trace + [Apply(c, trace[|steps|], step)], steps + [step];
    forall i | 0 <= i < |u|
      ensures Shaped(c, t[i]) && Enabled(c, t[i], u[i]) && t[i + 1] == Apply(c, t[i], u[i])
    {
      if i < |steps| { assert u[i] == steps[i] && t[i] == trace[i] && t[i + 1] == trace[i + 1]; }
    }
  }

  // ---- A run there always is.

  function Beginning(c: Config): State {
    var n := |c.home|;
    State({}, {}, {}, map[], seq(n, e => []), seq(n, e => []), Elements(n), Elements(n), true, {},
          seq(c.lanes, l => Idle), 1, true, 0, {Open}, 0, {}, [], seq(n, e => multiset{}), seq(n, e => multiset{}))
  }

  /** From a walk's beginning its lanes reach the end. */
  lemma FromStart(c: Config) returns (trace: seq<State>, steps: seq<Step>)
    requires c.Ok()
    ensures Run(c, trace, steps) && trace[0] == Beginning(c)
    ensures trace[|steps|].fired == 1 && Stuck(c, trace[|steps|]) && |steps| <= Budget(c)
  {
    assert Initial(c, Beginning(c));
    trace, steps := GoesOn(c, [Beginning(c)], []);
    RunsAreShort(c, trace, steps);
  }
}
