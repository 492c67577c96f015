/** The credit counter: every credit has exactly one holder, so a count of zero means nothing is left
    in flight, and the done reduction fires once. */
module WalkCredits {
  import opened Trees
  import opened Visitor
  import opened WalkMachine

  // ---- Who holds what.

  /** The credit a lane runs on. */
  function Base(f: Frame): set<Token> {
    match f
    case Idle => {}
    case Walking(w) => if w.seed then {} else {Down(w.e)}
    case Parking(_, w) => if w.seed then {} else {Down(w.e)}
    case Draining(e) => {Down(e)}
    case Delivering(id, _, _, _) => {Res(id)}
    case Publishing(k) => {Req(k)}
    case Closing(k) => {Req(k)}
    case Notifying(k, _) => {Req(k)}
    case Crediting(_, next) => Base(next)
    case Mailing(_, next) => Base(next)
    case Removing(t) => {t}
    case Swapping => {}
  }

  /** Credits counted for the lane: its own, and one added for a message it has not sent yet. */
  function Holds(f: Frame): set<Token> {
    Base(f) + if f.Mailing? then {TokenOf(f.m)} else {}
  }

  /** ... and one it is about to add. */
  function Owns(f: Frame): set<Token> {
    Holds(f) + if f.Crediting? then {TokenOf(f.m)} else {}
  }

  function Mail(s: State): set<Token> {
    (set m | m in s.msgs :: TokenOf(m)) + if s.open then {Open} else {}
  }

  ghost predicate LaneHolds(s: State, t: Token) {
    exists l {:trigger s.lanes[l]} :: 0 <= l < |s.lanes| && t in Holds(s.lanes[l])
  }

  ghost predicate LaneOwns(s: State, t: Token) {
    exists l {:trigger s.lanes[l]} :: 0 <= l < |s.lanes| && t in Owns(s.lanes[l])
  }

  ghost predicate Unique(msgs: set<Msg>) {
    forall m, n {:trigger m in msgs, n in msgs} :: m in msgs && n in msgs && TokenOf(m) == TokenOf(n) ==> m == n
  }

  ghost predicate Located(s: State) {
    forall t {:trigger t in s.tokens} :: t in s.tokens <==> t in Mail(s) || LaneHolds(s, t)
  }

  ghost predicate Apart(s: State) {
    && (forall l {:trigger s.lanes[l]} :: 0 <= l < |s.lanes| ==> Owns(s.lanes[l]) !! Mail(s))
    && (forall l, k {:trigger s.lanes[l], s.lanes[k]} :: 0 <= l < |s.lanes| && 0 <= k < |s.lanes| && l != k ==>
          Owns(s.lanes[l]) !! Owns(s.lanes[k]))
    && (forall l {:trigger s.lanes[l]} :: 0 <= l < |s.lanes| && (s.lanes[l].Crediting? || s.lanes[l].Mailing?) ==>
          TokenOf(s.lanes[l].m) !in Base(s.lanes[l]))
    && Unique(s.msgs)
    && (forall l, id: nat {:trigger s.lanes[l], Res(id)} :: 0 <= l < |s.lanes| && Res(id) in Owns(s.lanes[l]) ==>
          id < s.nextId)
    && (forall id: nat {:trigger Res(id)} :: Res(id) in Mail(s) ==> id < s.nextId)
  }

  /** Every credit has one holder: a message, the open flag, or a lane. */
  ghost predicate Placed(s: State) {
    Located(s) && Apart(s)
  }

  /** The counter counts the held credits while armed; it is disarmed, and has fired, only once none is
      left. */
  ghost predicate Counted(s: State) {
    && (s.armed ==> s.credits == |s.tokens|)
    && (s.tokens != {} ==> s.armed)
    && s.fired == (if s.armed then 0 else 1)
    && (forall l {:trigger s.lanes[l]} :: 0 <= l < |s.lanes| && s.lanes[l].Swapping? ==> s.tokens == {})
  }

  // ---- Moving credits about.

  ghost predicate Fresh(s: State, t: Token) {
    t !in Mail(s) && !LaneOwns(s, t)
  }

  /** A step of lane l that leaves the set of counted credits alone, moving some between the lane and
      the mail and perhaps claiming novel ones. */
  ghost predicate Moves(s: State, s': State, l: nat, novel: set<Token>)
    requires l < |s.lanes| == |s'.lanes|
  {
    && (forall k {:trigger s'.lanes[k]} :: 0 <= k < |s.lanes| && k != l ==> s'.lanes[k] == s.lanes[k])
    && s'.tokens == s.tokens && s'.credits == s.credits && s'.armed == s.armed && s'.fired == s.fired
    && s'.nextId >= s.nextId
    && (forall t {:trigger t in novel} :: t in novel ==> Fresh(s, t))
    && Owns(s'.lanes[l]) + Mail(s') <= Owns(s.lanes[l]) + Mail(s) + novel
    && Holds(s'.lanes[l]) + Mail(s') == Holds(s.lanes[l]) + Mail(s)
    && Owns(s'.lanes[l]) !! Mail(s') && Unique(s'.msgs) && !s'.lanes[l].Swapping?
    && (s'.lanes[l].Crediting? || s'.lanes[l].Mailing? ==> TokenOf(s'.lanes[l].m) !in Base(s'.lanes[l]))
    && (forall id: nat {:trigger Res(id)} :: Res(id) in novel ==> id < s'.nextId)
  }

  lemma MovesLocated(s: State, s': State, l: nat, novel: set<Token>)
    requires l < |s.lanes| == |s'.lanes| && Located(s) && Moves(s, s', l, novel)
    ensures Located(s')
  {
    forall t
      ensures t in s'.tokens <==> t in Mail(s') || LaneHolds(s', t)
    {
      assert t in Holds(s'.lanes[l]) + Mail(s') <==> t in Holds(s.lanes[l]) + Mail(s);
      if LaneHolds(s, t) {
        var k :| 0 <= k < |s.lanes| && t in Holds(s.lanes[k]);
        if k != l { assert t in Holds(s'.lanes[k]); } else { assert t in Holds(s'.lanes[l]) || t in Mail(s'); }
      }
      if LaneHolds(s', t) {
        var k :| 0 <= k < |s.lanes| && t in Holds(s'.lanes[k]);
        if k != l { assert t in Holds(s.lanes[k]); } else { assert t in Holds(s.lanes[l]) || t in Mail(s); }
      }
    }
  }

  lemma MovesApart(s: State, s': State, l: nat, novel: set<Token>)
    requires l < |s.lanes| == |s'.lanes| && Apart(s) && Moves(s, s', l, novel)
    ensures Apart(s')
  {
    forall k | 0 <= k < |s.lanes| && k != l
      ensures Owns(s'.lanes[k]) !! Mail(s') && Owns(s'.lanes[k]) !! Owns(s'.lanes[l])
    {
      forall t | t in Owns(s'.lanes[k])
        ensures t !in Owns(s'.lanes[l]) + Mail(s')
      {
        assert t in Owns(s.lanes[k]) && LaneOwns(s, t);
        assert Owns(s.lanes[k]) !! Owns(s.lanes[l]) && Owns(s.lanes[k]) !! Mail(s);
      }
    }
    forall id: nat | Res(id) in Owns(s'.lanes[l]) + Mail(s')
      ensures id < s'.nextId
    {
      assert Res(id) in Owns(s.lanes[l]) + Mail(s) + novel;
    }
  }

  lemma MovesPlaced(s: State, s': State, l: nat, novel: set<Token>)
    requires l < |s.lanes| == |s'.lanes| && Placed(s) && Counted(s) && Moves(s, s', l, novel)
    ensures Placed(s') && Counted(s')
  {
    MovesLocated(s, s', l, novel);
    MovesApart(s, s', l, novel);
  }

  lemma ApartShrinks(s: State, s': State, l: nat)
    requires l < |s.lanes| == |s'.lanes| && Apart(s) && s'.lanes == s.lanes[l := s'.lanes[l]] && s'.msgs == s.msgs
    requires s'.open == s.open && s'.nextId == s.nextId
    requires Owns(s'.lanes[l]) <= Owns(s.lanes[l]) && !s'.lanes[l].Crediting?
    requires (s'.lanes[l].Mailing? ==> TokenOf(s'.lanes[l].m) !in Base(s'.lanes[l]))
    ensures Apart(s')
  {
    assert Mail(s') == Mail(s);
    forall k | 0 <= k < |s.lanes| && k != l
      ensures s'.lanes[k] == s.lanes[k] && Owns(s.lanes[k]) !! Owns(s'.lanes[l])
    {
      assert Owns(s.lanes[k]) !! Owns(s.lanes[l]);
    }
  }

  lemma HeldOnce(s: State, l: nat, t: Token)
    requires Placed(s) && l < |s.lanes| && t in Owns(s.lanes[l])
    ensures t !in Mail(s) && forall k {:trigger s.lanes[k]} :: 0 <= k < |s.lanes| && k != l ==> t !in Owns(s.lanes[k])
  {
    assert Owns(s.lanes[l]) !! Mail(s);
    forall k | 0 <= k < |s.lanes| && k != l
      ensures t !in Owns(s.lanes[k])
    {
      assert Owns(s.lanes[l]) !! Owns(s.lanes[k]);
    }
  }

  /** Only lane l changed, and only in whether it holds t. */
  lemma Relocated(s: State, s': State, l: nat, t: Token)
    requires l < |s.lanes| == |s'.lanes| && Located(s) && s'.lanes == s.lanes[l := s'.lanes[l]] && Mail(s') == Mail(s)
    requires t !in Mail(s) && forall k {:trigger s.lanes[k]} :: 0 <= k < |s.lanes| && k != l ==> t !in Holds(s.lanes[k])
    requires forall u :: u != t ==>
          (u in Holds(s'.lanes[l]) <==> u in Holds(s.lanes[l])) && (u in s'.tokens <==> u in s.tokens)
    requires t in s'.tokens <==> t in Holds(s'.lanes[l])
    ensures Located(s')
  {
    forall u
      ensures u in s'.tokens <==> u in Mail(s') || LaneHolds(s', u)
    {
      if LaneHolds(s, u) {
        var k :| 0 <= k < |s.lanes| && u in Holds(s.lanes[k]);
        assert u == t || u in Holds(s'.lanes[k]);
      }
      if LaneHolds(s', u) {
        var k :| 0 <= k < |s.lanes| && u in Holds(s'.lanes[k]);
        assert k == l || u in Holds(s.lanes[k]);
        assert u == t || u in Holds(s.lanes[k]);
      }
      if u == t && t in s'.tokens { assert u in Holds(s'.lanes[l]); }
    }
  }

  ghost predicate SameMail(s: State, s': State) {
    s'.msgs == s.msgs && s'.open == s.open && s'.nextId == s.nextId
  }

  /** walkCreditInc: the claimed credit becomes a counted one. */
  lemma CreditPlaced(s: State, s': State, l: nat, m: Msg, next: Frame)
    requires l < |s.lanes| && Placed(s) && s.lanes[l] == Crediting(m, next)
    requires s'.lanes == s.lanes[l := Mailing(m, next)]
    requires SameMail(s, s') && s'.tokens == s.tokens + {TokenOf(m)}
    ensures Placed(s') && TokenOf(m) !in s.tokens
  {
    var t := TokenOf(m);
    assert Mail(s') == Mail(s);
    HeldOnce(s, l, t);
    assert t !in Holds(s.lanes[l]);
    assert t !in s.tokens;
    ApartShrinks(s, s', l);
    Relocated(s, s', l, t);
  }

  lemma CreditCounted(s: State, s': State, l: nat, m: Msg, next: Frame)
    requires l < |s.lanes| && Counted(s) && s.tokens != {} && TokenOf(m) !in s.tokens
    requires s'.lanes == s.lanes[l := Mailing(m, next)]
    requires s'.tokens == s.tokens + {TokenOf(m)} && s'.credits == (if s.armed then s.credits + 1 else s.credits)
    requires s'.armed == s.armed && s'.fired == s.fired
    ensures Counted(s')
  {
  }

  /** walkCreditDec gives up a held credit. */
  lemma RemovePlaced(s: State, s': State, l: nat, t: Token)
    requires l < |s.lanes| && Placed(s) && s.lanes[l] == Removing(t) && |s'.lanes| == |s.lanes|
    requires s'.lanes == s.lanes[l := s'.lanes[l]]
    requires (s'.lanes[l].Idle? || s'.lanes[l].Swapping?) && SameMail(s, s') && s'.tokens == s.tokens - {t}
    ensures Placed(s') && t in s.tokens
  {
    assert Mail(s') == Mail(s);
    assert t in Holds(s.lanes[l]) && LaneHolds(s, t) && t in s.tokens;
    HeldOnce(s, l, t);
    ApartShrinks(s, s', l);
    Relocated(s, s', l, t);
  }

  /** Exactly the last credit's removal finds the count at one. */
  lemma RemoveCounted(s: State, s': State, l: nat, t: Token)
    requires l < |s.lanes| && Counted(s) && t in s.tokens && s'.tokens == s.tokens - {t} && s'.armed == s.armed
    requires s'.fired == s.fired
    requires s'.lanes == s.lanes[l := if s.credits == 1 then Swapping else Idle] && s'.credits == s.credits - 1
    ensures Counted(s')
  {
    assert |s'.tokens| == |s.tokens| - 1;
  }

  // ---- The kinds of step, as far as credits go.

  ghost predicate Plain(f: Frame) {
    !f.Crediting? && !f.Mailing? && !f.Swapping?
  }

  /** Only lane l's frame changes, and nothing the counter sees. */
  ghost predicate Quiet(s: State, s': State, l: nat, f: Frame) {
    && l < |s.lanes| && s'.lanes == s.lanes[l := f] && s'.tokens == s.tokens && s'.credits == s.credits
    && s'.armed == s.armed && s'.fired == s.fired
  }

  lemma StillPlaced(s: State, s': State, l: nat, f: Frame)
    requires Placed(s) && Counted(s) && Quiet(s, s', l, f) && SameMail(s, s') && Plain(s.lanes[l]) && Plain(f)
    requires Base(f) == Base(s.lanes[l])
    ensures Placed(s') && Counted(s')
  {
    assert Mail(s') == Mail(s);
    MovesPlaced(s, s', l, {});
  }

  lemma ClaimPlaced(s: State, s': State, l: nat, m: Msg, next: Frame)
    requires Placed(s) && Counted(s) && Quiet(s, s', l, Crediting(m, next)) && Plain(s.lanes[l]) && Plain(next)
    requires Base(next) == Base(s.lanes[l])
    requires s'.msgs == s.msgs && s'.open == s.open && s'.nextId >= s.nextId && Fresh(s, TokenOf(m))
    requires (m.Resume? ==> m.id < s'.nextId)
    ensures Placed(s') && Counted(s')
  {
    assert Mail(s') == Mail(s);
    assert TokenOf(m) !in Owns(s.lanes[l]);
    MovesPlaced(s, s', l, {TokenOf(m)});
  }

  lemma PostPlaced(s: State, s': State, l: nat, m: Msg, next: Frame)
    requires Placed(s) && Counted(s) && Quiet(s, s', l, next) && s.lanes[l] == Mailing(m, next) && Plain(next)
    requires s'.msgs == s.msgs + {m} && s'.open == s.open && s'.nextId == s.nextId
    ensures Placed(s') && Counted(s')
  {
    assert Mail(s') == Mail(s) + {TokenOf(m)};
    HeldOnce(s, l, TokenOf(m));
    assert forall n :: n in s.msgs ==> TokenOf(n) in Mail(s);
    forall t | t in Base(next) ensures t !in Mail(s) { HeldOnce(s, l, t); }
    MovesPlaced(s, s', l, {});
  }

  lemma TakePlaced(s: State, s': State, l: nat, m: Msg, f: Frame)
    requires Placed(s) && Counted(s) && Quiet(s, s', l, f) && s.lanes[l].Idle? && Plain(f) && Base(f) == {TokenOf(m)}
    requires m in s.msgs && s'.msgs == s.msgs - {m} && s'.open == s.open && s'.nextId == s.nextId
    ensures Placed(s') && Counted(s')
  {
    assert forall n :: n in s.msgs && n != m ==> TokenOf(n) != TokenOf(m);
    assert TokenOf(m) != Open;
    assert Mail(s') == Mail(s) - {TokenOf(m)};
    MovesPlaced(s, s', l, {});
  }

  lemma ReleasePlaced(s: State, s': State, l: nat)
    requires Placed(s) && Counted(s) && Quiet(s, s', l, Removing(Open)) && s.lanes[l].Idle? && s.open
    requires s'.msgs == s.msgs && !s'.open && s'.nextId == s.nextId
    ensures Placed(s') && Counted(s')
  {
    assert forall n: Msg :: TokenOf(n) != Open;
    assert Mail(s') == Mail(s) - {Open};
    MovesPlaced(s, s', l, {});
  }

  /** No credit, no holder. */
  lemma NoneHeld(s: State)
    requires Placed(s) && s.tokens == {}
    ensures Mail(s) == {} && forall k {:trigger s.lanes[k]} :: 0 <= k < |s.lanes| ==> Holds(s.lanes[k]) == {}
  {
    forall t ensures t !in Mail(s) && !LaneHolds(s, t) { assert t !in s.tokens; }
  }

  /** The exchange after the last decrement: the flag flips once, and stays flipped. */
  lemma SwapPlaced(s: State, s': State, l: nat)
    requires Placed(s) && Counted(s) && l < |s.lanes| && s.lanes[l].Swapping? && s'.lanes == s.lanes[l := Idle]
    requires SameMail(s, s') && s'.tokens == s.tokens
    requires s'.credits == s.credits && !s'.armed && s'.fired == if s.armed then s.fired + 1 else s.fired
    ensures Placed(s') && Counted(s')
  {
    assert Mail(s') == Mail(s) && Holds(Swapping) == Holds(Idle) == {};
    ApartShrinks(s, s', l);
    NoneHeld(s);
    assert forall k {:trigger s'.lanes[k]} :: 0 <= k < |s'.lanes| ==> Holds(s'.lanes[k]) == {};
  }
}
