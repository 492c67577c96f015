/** What holds at every state of every run: where each element's work may be, which nodes are closed,
    and which queues have a goDown. */
module WalkInv {
  import opened Trees
  import opened Visitor
  import opened WalkMachine
  import opened WalkCredits

  // ---- One lane.

  ghost predicate WorkOk(c: Config, s: State, l: nat, w: Work)
    requires Shaped(c, s)
  {
    && w.e < |c.home| && c.home[w.e] == l
    && (if w.seed then w.e in s.seeding && w.e !in s.unseeded else s.queue[w.e] != [] && s.queue[w.e][0] == w.key)
  }

  ghost predicate AtHome(c: Config, es: seq<nat>, l: nat) {
    forall i {:trigger es[i]} :: 0 <= i < |es| ==> es[i] < |c.home| && c.home[es[i]] == l
  }

  ghost predicate PlainOk(c: Config, s: State, l: nat, f: Frame)
    requires Shaped(c, s)
  {
    match f
    case Walking(w) => WorkOk(c, s, l, w)
    case Parking(k, w) => WorkOk(c, s, l, w) && k in s.latched
    case Draining(e) => e < |c.home| && c.home[e] == l
    case Delivering(id, k, todo, done) =>
      && k in s.closed && AtHome(c, todo, l)
      && forall e {:trigger e in done} :: e in done ==> e < |c.home| && c.home[e] == l && k in s.queue[e]
    case Publishing(k) => k in s.latched && k !in s.closed
    case Closing(k) => k in s.latched && k !in s.closed && k in s.present
    case Notifying(k, todo) => k in s.closed && ElemsIn(c, todo)
    case Removing(t) =>
      && (t.Req? ==> t.k in s.closed) && (t.Open? ==> !s.open)
      && (t.Down? ==> t.e < |c.home| && c.home[t.e] == l && s.queue[t.e] == [])
    case _ => true
  }

  /** A message about to be sent. */
  ghost predicate SendOk(c: Config, s: State, l: nat, m: Msg)
    requires Shaped(c, s)
  {
    match m
    case Ask(k) => k in s.latched && k !in s.closed
    case Resume(_, q, k, es) => k in s.closed && AtHome(c, es, q)
    case GoDown(e) => e < |c.home| && c.home[e] == l && s.queue[e] != []
  }

  ghost predicate LaneOk(c: Config, s: State, l: nat, f: Frame)
    requires Shaped(c, s)
  {
    if f.Crediting? || f.Mailing? then
      && SendOk(c, s, l, f.m) && PlainOk(c, s, l, f.next)
      && (f.next.Parking? || f.next.Walking? || f.next.Notifying? || f.next.Delivering?)
      && (f.m.Ask? ==> f.next.Parking? && f.next.k == f.m.k)
    else PlainOk(c, s, l, f)
  }

  ghost predicate LanesOk(c: Config, s: State)
    requires Shaped(c, s)
  {
    forall l {:trigger s.lanes[l]} :: 0 <= l < c.lanes ==> LaneOk(c, s, l, s.lanes[l])
  }

  // ---- Messages, placeholders, queues.

  ghost predicate MailOk(c: Config, s: State)
    requires Shaped(c, s)
  {
    forall m {:trigger m in s.msgs} :: m in s.msgs ==>
      match m
      case Ask(k) => k in s.latched && k !in s.closed
      case Resume(_, q, k, es) => k in s.closed && AtHome(c, es, q)
      case GoDown(e) => e < |c.home| && s.queue[e] != []
  }

  /** The request for k is somewhere between the latch and the close. */
  ghost predicate Asking(f: Frame, k: Key) {
    || ((f.Crediting? || f.Mailing?) && f.m == Ask(k))
    || f == Publishing(k) || f == Closing(k)
  }

  ghost predicate BeingFetched(s: State, k: Key) {
    Ask(k) in s.msgs || exists l {:trigger s.lanes[l]} :: 0 <= l < |s.lanes| && Asking(s.lanes[l], k)
  }

  ghost predicate NodesOk(c: Config, s: State) {
    && s.closed <= s.latched && s.closed <= s.present
    && (forall k {:trigger k in s.parked} :: k in s.parked ==>
          k !in s.closed && k in s.latched && ElemsIn(c, s.parked[k]))
    && (forall k {:trigger k in s.latched} :: k in s.latched && k !in s.closed ==> BeingFetched(s, k))
  }

  ghost predicate QueuesOk(c: Config, s: State)
    requires Shaped(c, s)
  {
    && (forall e, k {:trigger k in s.queue[e]} :: 0 <= e < |c.home| && k in s.queue[e] ==> k in s.closed)
    && (forall e: nat {:trigger s.queue[e]} :: e < |c.home| && s.queue[e] != [] ==>
          GoDown(e) in s.msgs || (c.home[e] < c.lanes && Down(e) in Owns(s.lanes[c.home[e]])))
  }

  ghost predicate SeedsOk(c: Config, s: State) {
    && s.unseeded <= s.seeding && (s.seeding != {} ==> s.open)
    && (forall e {:trigger e in s.seeding} :: e in s.seeding ==> e < |c.home|)
  }

  /** All but the credits. */
  ghost predicate Bodies(c: Config, s: State) {
    Shaped(c, s) && LanesOk(c, s) && MailOk(c, s) && NodesOk(c, s) && QueuesOk(c, s) && SeedsOk(c, s)
  }

  ghost predicate Inv(c: Config, s: State) {
    Shaped(c, s) && Placed(s) && Counted(s) && LanesOk(c, s) && MailOk(c, s) && NodesOk(c, s) && QueuesOk(c, s) &&
          SeedsOk(c, s)
  }

  lemma InitialInv(c: Config, s: State)
    requires Initial(c, s)
    ensures Inv(c, s)
  {
    assert Mail(s) == {Open};
    forall t ensures t in s.tokens <==> t in Mail(s) || LaneHolds(s, t) { }
  }

  /** A step of lane l disturbs no other lane: it closes no node another lane is fetching and touches no
      queue but its own elements'. */
  ghost predicate Aside(c: Config, s: State, s': State, l: nat)
    requires Shaped(c, s) && Shaped(c, s')
  {
    && (forall k {:trigger s'.lanes[k]} :: 0 <= k < c.lanes && k != l ==> s'.lanes[k] == s.lanes[k])
    && (forall e {:trigger s'.queue[e]} :: 0 <= e < |c.home| && c.home[e] != l ==> s'.queue[e] == s.queue[e])
    && (forall e {:trigger e in s'.seeding} {:trigger e in s.seeding} ::
          0 <= e < |c.home| && c.home[e] != l && e in s.seeding ==> e in s'.seeding)
    && s'.unseeded <= s.unseeded && s.latched <= s'.latched && s.closed <= s'.closed && s.present <= s'.present
    && (!s.open ==> !s'.open)
    && (forall k {:trigger k in s'.closed} :: k in s'.closed && k !in s.closed ==>
          forall q {:trigger s.lanes[q]} :: 0 <= q < c.lanes && q != l ==> !Asking(s.lanes[q], k))
  }

  lemma OthersOk(c: Config, s: State, s': State, l: nat)
    requires Shaped(c, s) && Shaped(c, s') && LanesOk(c, s) && Aside(c, s, s', l) && l < c.lanes
    requires LaneOk(c, s', l, s'.lanes[l])
    ensures LanesOk(c, s')
  {
    forall q | 0 <= q < c.lanes && q != l
      ensures LaneOk(c, s', q, s'.lanes[q])
    {
      var f := s.lanes[q];
      assert LaneOk(c, s, q, f);
      assert s'.lanes[q] == f;
      var g := if f.Crediting? || f.Mailing? then f.next else f;
      assert PlainOk(c, s', q, g) by { PlainKept(c, s, s', l, q, f, g); }
    }
  }

  lemma PlainKept(c: Config, s: State, s': State, l: nat, q: nat, f: Frame, g: Frame)
    requires Shaped(c, s) && Shaped(c, s') && Aside(c, s, s', l) && q < c.lanes && q != l && f == s.lanes[q]
    requires LaneOk(c, s, q, f) && g == (if f.Crediting? || f.Mailing? then f.next else f)
    ensures PlainOk(c, s', q, g)
  {
    match g
    case Publishing(k) => assert Asking(f, k);
    case Closing(k) => assert Asking(f, k);
    case _ =>
  }
}
