/** The fetch / park / resume protocol of one process as a step machine.  A lane is a PE: it runs one
    entry method at a time, but any two lanes interleave between atomic operations.  Replies, resume
    messages and goDown messages arrive in any order. */
module WalkMachine {
  import opened Trees
  import opened Visitor

  type Record = (Key, Tree)

  /** What holds a walk credit. */
  datatype Token = Open | Req(k: Key) | Res(id: nat) | Down(e: nat)

  /** Ask: a request on its way out or its reply on the way back.  Resume: Resumer::process for a lane.
      GoDown: for a walk element. */
  datatype Msg = Ask(k: Key) | Resume(id: nat, lane: nat, k: Key, elems: seq<nat>) | GoDown(e: nat)

  function TokenOf(m: Msg): Token {
    match m
    case Ask(k) => Req(k)
    case Resume(id, _, _, _) => Res(id)
    case GoDown(e) => Down(e)
  }

  /** A running doTrav: its element, start key, stack and the insertions it will make at its end. */
  datatype Work = Work(e: nat, key: Key, stack: seq<Item>, ins: seq<Record>, seed: bool)

  /** Where a lane stands.  Crediting and Mailing are the two halves of every "credit, then send". */
  datatype Frame =
    | Idle
    | Walking(w: Work)
    | Parking(k: Key, w: Work)
    | Draining(e: nat)
    | Delivering(id: nat, k: Key, todo: seq<nat>, done: set<nat>)
    | Publishing(k: Key)
    | Closing(k: Key)
    | Notifying(k: Key, todo: seq<nat>)
    | Crediting(m: Msg, next: Frame)
    | Mailing(m: Msg, next: Frame)
    | Removing(t: Token)
    | Swapping

  datatype Config = Config(v: View, lanes: nat, home: seq<nat>, piece: seq<int>, target: seq<Tree>) {
    function Home(e: nat): int {
      if e < |home| then home[e] else -1
    }

    ghost predicate Ok() {
      && v.Ok() && lanes > 0 && |piece| == |target| == |home|
      && (forall e {:trigger home[e]} :: 0 <= e < |home| ==> home[e] < lanes)
      && (forall e {:trigger target[e]} :: 0 <= e < |home| ==> v.Target(target[e]))
    }
  }

  datatype State = State(
    present: set<Key>, closed: set<Key>, latched: set<Key>, parked: map<Key, seq<nat>>,
    queue: seq<seq<Key>>,            // all_resume_nodes, per element
    curr: seq<seq<Record>>,          // curr_nodes, per element
    unseeded: set<nat>, seeding: set<nat>, open: bool,
    msgs: set<Msg>, lanes: seq<Frame>,
    credits: int, armed: bool, fired: nat, tokens: set<Token>, nextId: nat,
    seen: set<TipPair>, edges: seq<TipPair>,
    recorded: seq<multiset<Record>>, walked: seq<multiset<Record>>)

  function Get(m: map<Key, seq<nat>>, k: Key): seq<nat> {
    if k in m then m[k] else []
  }

  function Select(rs: seq<Record>, k: Key, want: bool): seq<Record> {
    if rs == [] then [] else (if (rs[0].0 == k) == want then [rs[0]] else []) + Select(rs[1..], k, want)
  }

  function Entries(rs: seq<Record>): seq<Item> {
    seq(|rs|, i requires 0 <= i < |rs| => Pair(rs[i].0, rs[i].1))
  }

  /** The waiters of one lane, and the others. */
  function OnLane(home: seq<nat>, es: seq<nat>, q: nat, want: bool): seq<nat> {
    if es == [] then [] else
      (if (es[0] < |home| && home[es[0]] == q) == want then [es[0]] else []) + OnLane(home, es[1..], q, want)
  }

  function Lane(s: State, l: nat, f: Frame): State
    requires l < |s.lanes|
  {
    s.(lanes := s.lanes[l := f])
  }

  predicate Top(f: Frame) {
    f.Walking? && f.w.stack != []
  }

  function TopOf(w: Work): Item
    requires w.stack != []
  {
    w.stack[|w.stack| - 1]
  }

  /** An empty target is dropped before the node is looked at.  The other prunes read the node, and a
      placeholder belongs to no piece yet. */
  predicate Early(x: Item) {
    x.Pair? && x.t.Empty()
  }

  /** The process's own nodes are always there. */
  predicate Here(c: Config, s: State, k: Key) {
    k in s.present || c.v.local(k)
  }

  datatype Step =
    | Seed(l: nat, e: nat) | Visit(l: nat, split: bool) | Miss(l: nat) | Park(l: nat) | CreditUp(l: nat) | Post(l: nat)
    | Reply(l: nat, k: Key) | Publish(l: nat, batch: set<Key>) | Close(l: nat) | Notify(l: nat)
    | Receive(l: nat, m: Msg) | Deliver(l: nat) | Descend(l: nat, e: nat) | Drain(l: nat) | Finish(l: nat)
    | Release(l: nat) | Remove(l: nat) | Swap(l: nat)

  predicate Shaped(c: Config, s: State) {
    |s.lanes| == c.lanes && |s.queue| == |s.curr| == |s.recorded| == |s.walked| == |c.home| == |c.piece| == |c.target|
  }

  predicate WorkIn(c: Config, w: Work) {
    w.e < |c.home|
  }

  predicate ElemsIn(c: Config, es: seq<nat>) {
    forall i {:trigger es[i]} :: 0 <= i < |es| ==> es[i] < |c.home|
  }

  predicate Enabled(c: Config, s: State, step: Step)
    requires Shaped(c, s)
  {
    step.l < c.lanes && var f := s.lanes[step.l];
    match step
    case Seed(l, e) => f.Idle? && e < |c.home| && c.home[e] == l && e in s.unseeded
    case Visit(_, _) => Top(f) && WorkIn(c, f.w) && (TopOf(f.w).Pair? ==> Here(c, s, TopOf(f.w).k) || Early(TopOf(f.w)))
    // A walker meets a placeholder: one not yet installed, or a stale pointer to one installed since.  The node a
    // resumed walk starts at was looked up after its install and is never stale.
    case Miss(_) => Top(f) && WorkIn(c, f.w) && TopOf(f.w).Pair? && !Early(TopOf(f.w)) && !c.v.local(TopOf(f.w).k)
                    && (TopOf(f.w).k !in s.present
                        || (TopOf(f.w).k in s.latched && (f.w.seed || TopOf(f.w).k != f.w.key)))
    case Park(_) => f.Parking? && WorkIn(c, f.w)
    case CreditUp(_) => f.Crediting?
    case Post(_) => f.Mailing?
    case Reply(_, k) => f.Idle? && Ask(k) in s.msgs
    case Publish(_, batch) => f.Publishing? && f.k in batch
    case Close(_) => f.Closing?
    case Notify(_) => f.Notifying? && ElemsIn(c, f.todo)
    case Receive(l, m) => f.Idle? && m in s.msgs && m.Resume? && m.lane == l
    case Deliver(_) => f.Delivering? && ElemsIn(c, f.todo)
    case Descend(l, e) => f.Idle? && GoDown(e) in s.msgs && e < |c.home| && c.home[e] == l
    case Drain(_) => f.Draining? && f.e < |c.home|
    case Finish(_) => f.Walking? && f.w.stack == [] && WorkIn(c, f.w) && (!f.w.seed ==> s.queue[f.w.e] != [])
    case Release(_) => f.Idle? && s.open && s.seeding == {}
    case Remove(_) => f.Removing?
    case Swap(_) => f.Swapping?
  }

  // ---- Each step.

  function DoVisit(c: Config, s: State, l: nat, split: bool): (r: State)
    requires Shaped(c, s) && Enabled(c, s, Visit(l, split))
    ensures Shaped(c, r)
  {
    var w := s.lanes[l].w;
    var x := TopOf(w);
    var r := Expand(c.v, c.piece[w.e], s.seen, x, split);
    Lane(s, l, Walking(w.(stack := w.stack[..|w.stack| - 1] + r.0))).(seen := r.1, edges := if x.Emit? then s.edges
          + [x.p] else s.edges)
  }

  /** The insertion is noted and the request bit latched; the first lane to latch asks. */
  function DoMiss(c: Config, s: State, l: nat): (r: State)
    requires Shaped(c, s) && Enabled(c, s, Miss(l))
    ensures Shaped(c, r)
  {
    var w := s.lanes[l].w;
    var x := TopOf(w);
    var w' := w.(stack := w.stack[..|w.stack| - 1], ins := w.ins + [(x.k, x.t)]);
    Lane(s, l, if x.k in s.latched then Parking(x.k, w') else Crediting(Ask(x.k), Parking(x.k, w')))
      .(latched := s.latched + {x.k}, recorded := s.recorded[w.e := s.recorded[w.e] + multiset{(x.k, x.t)}])
  }

  /** park: a closed list means the install won, and the walker sends its own lane a resume. */
  function DoPark(c: Config, s: State, l: nat): (r: State)
    requires Shaped(c, s) && Enabled(c, s, Park(l))
    ensures Shaped(c, r)
  {
    var k, w := s.lanes[l].k, s.lanes[l].w;
    var waiting := Get(s.parked, k);
    if k in s.closed then
      Lane(s, l, Crediting(Resume(s.nextId, l, k, [w.e]), Walking(w))).(nextId := s.nextId + 1)
    else
      Lane(s, l, Walking(w)).(parked := s.parked[k := if waiting != [] && waiting[0] == w.e then waiting
            else [w.e] + waiting])
  }

  function DoNotify(c: Config, s: State, l: nat): (r: State)
    requires Shaped(c, s) && Enabled(c, s, Notify(l))
    ensures Shaped(c, r)
  {
    var k, todo := s.lanes[l].k, s.lanes[l].todo;
    if todo == [] then Lane(s, l, Removing(Req(k))) else
      var q := c.home[todo[0]];
      Lane(s, l, Crediting(Resume(s.nextId, q, k, OnLane(c.home, todo, q, true)),
            Notifying(k, OnLane(c.home, todo, q, false)))).(nextId := s.nextId + 1)
  }

  /** One waiter of a resume message: queue the node; the queue's first entry sends the goDown. */
  function DoDeliver(c: Config, s: State, l: nat): (r: State)
    requires Shaped(c, s) && Enabled(c, s, Deliver(l))
    ensures Shaped(c, r)
  {
    var f := s.lanes[l];
    if f.todo == [] then Lane(s, l, Removing(Res(f.id)))
    else if f.todo[0] in f.done then Lane(s, l, Delivering(f.id, f.k, f.todo[1..], f.done))
    else
      var e := f.todo[0];
      var next := Delivering(f.id, f.k, f.todo[1..], f.done + {e});
      Lane(s, l, if s.queue[e] == [] then Crediting(GoDown(e), next)
            else next).(queue := s.queue[e := s.queue[e] + [f.k]])
  }

  /** goDown's loop: stop on an empty queue, else doTrav on its front with all that waits for it. */
  function DoDrain(c: Config, s: State, l: nat): (r: State)
    requires Shaped(c, s) && Enabled(c, s, Drain(l))
    ensures Shaped(c, r)
  {
    var e := s.lanes[l].e;
    if s.queue[e] == [] then Lane(s, l, Removing(Down(e))) else
      var k := s.queue[e][0];
      var taken := Select(s.curr[e], k, true);
      Lane(s, l, Walking(Work(e, k, Entries(taken), [], false)))
        .(curr := s.curr[e := Select(s.curr[e], k, false)], walked := s.walked[e := s.walked[e] + multiset(taken)])
  }

  function DoFinish(c: Config, s: State, l: nat): (r: State)
    requires Shaped(c, s) && Enabled(c, s, Finish(l))
    ensures Shaped(c, r)
  {
    var w := s.lanes[l].w;
    var s1 := s.(curr := s.curr[w.e := s.curr[w.e] + w.ins]);
    if w.seed then Lane(s1, l, Idle).(seeding := s.seeding - {w.e})
    else Lane(s1, l, Draining(w.e)).(queue := s.queue[w.e := s.queue[w.e][1..]])
  }

  /** walkCreditDec(1): the one decrement that finds the count at 1 goes on to the exchange. */
  function DoRemove(c: Config, s: State, l: nat): (r: State)
    requires Shaped(c, s) && Enabled(c, s, Remove(l))
    ensures Shaped(c, r)
  {
    var t := s.lanes[l].t;
    if !s.armed then Lane(s, l, Idle).(tokens := s.tokens - {t})
    else Lane(s, l, if s.credits == 1 then Swapping else Idle).(credits := s.credits - 1, tokens := s.tokens - {t})
  }

  function Apply(c: Config, s: State, step: Step): State
    requires Shaped(c, s) && Enabled(c, s, step)
  {
    var l := step.l;
    var f := s.lanes[l];
    match step
    case Seed(_, e) => Lane(s, l, Walking(Work(e, 1, [Pair(1, c.target[e])], [], true))).(unseeded := s.unseeded - {e})
    case Visit(_, split) => DoVisit(c, s, l, split)
    case Miss(_) => DoMiss(c, s, l)
    case Park(_) => DoPark(c, s, l)
    case CreditUp(_) => Lane(s, l, Mailing(f.m, f.next)).(credits := if s.armed then s.credits + 1
          else s.credits, tokens := s.tokens + {TokenOf(f.m)})
    case Post(_) => Lane(s, l, f.next).(msgs := s.msgs + {f.m})
    case Reply(_, k) => Lane(s, l, Publishing(k)).(msgs := s.msgs - {Ask(k)})
    case Publish(_, batch) => Lane(s, l, Closing(f.k)).(present := s.present + batch)
    case Close(_) => Lane(s, l, Notifying(f.k, Get(s.parked, f.k))).(closed := s.closed
          + {f.k}, parked := s.parked - {f.k})
    case Notify(_) => DoNotify(c, s, l)
    case Receive(_, m) => Lane(s, l, Delivering(m.id, m.k, m.elems, {})).(msgs := s.msgs - {m})
    case Deliver(_) => DoDeliver(c, s, l)
    case Descend(_, e) => Lane(s, l, Draining(e)).(msgs := s.msgs - {GoDown(e)})
    case Drain(_) => DoDrain(c, s, l)
    case Finish(_) => DoFinish(c, s, l)
    case Release(_) => Lane(s, l, Removing(Open)).(open := false)
    case Remove(_) => DoRemove(c, s, l)
    case Swap(_) => Lane(s, l, Idle).(armed := false, fired := if s.armed then s.fired + 1 else s.fired)
  }

  lemma ApplyShaped(c: Config, s: State, step: Step)
    requires Shaped(c, s) && Enabled(c, s, step)
    ensures Shaped(c, Apply(c, s, step))
  {
  }

  /** A walk armed and not yet started: one open credit, every element still to seed. */
  ghost predicate Initial(c: Config, s: State) {
    && Shaped(c, s) && s.closed == {} && s.latched == {} && s.parked == map[] && s.msgs == {} && s.nextId == 0
    && (forall e {:trigger s.queue[e]} :: 0 <= e < |c.home| ==> s.queue[e] == [])
    && (forall e {:trigger s.curr[e]} :: 0 <= e < |c.home| ==> s.curr[e] == [])
    && (forall e {:trigger s.recorded[e]} :: 0 <= e < |c.home| ==>
          s.recorded[e] == multiset{} && s.walked[e] == multiset{})
    && (forall e: nat {:trigger e in s.unseeded} :: e in s.unseeded <==> e < |c.home|) && s.seeding == s.unseeded
    && s.open && (forall l {:trigger s.lanes[l]} :: 0 <= l < c.lanes ==> s.lanes[l].Idle?)
    && s.credits == 1 && s.armed && s.fired == 0 && s.tokens == {Open} && s.seen == {} && s.edges == []
  }

  ghost predicate Run(c: Config, trace: seq<State>, steps: seq<Step>) {
    && |trace| == |steps| + 1 && Initial(c, trace[0])
    && forall i {:trigger steps[i]} :: 0 <= i < |steps| ==>
         Shaped(c, trace[i]) && Enabled(c, trace[i], steps[i]) && trace[i + 1] == Apply(c, trace[i], steps[i])
  }
}
