/** recvStarterChunk on the lanes of one process: chunks arrive on any lane in any order, one lane at a
    time holds the turn, and what cannot be installed yet waits in a map. */
module ChunkTurns {
  import opened StarterPack

  /** Outside the lock a lane is idle, about to install chunk k, back from it, or about to contribute. */
  datatype Lane = Idle | Installing(k: nat) | Installed(k: nat) | Contributing

  datatype State = State(next: nat, busy: bool, pending: set<nat>, arrived: set<nat>, log: seq<nat>, lanes: seq<Lane>,
        contributed: nat)

  datatype Step = Arrive(l: nat, k: nat) | Install(l: nat) | Advance(l: nat) | Contribute(l: nat)

  predicate Enabled(n: nat, s: State, step: Step) {
    step.l < |s.lanes| &&
    match step
    case Arrive(l, k) => s.lanes[l].Idle? && k < n && k !in s.arrived
    case Install(l) => s.lanes[l].Installing?
    case Advance(l) => s.lanes[l].Installed?
    case Contribute(l) => s.lanes[l].Contributing?
  }

  function Apply(n: nat, s: State, step: Step): State
    requires Enabled(n, s, step)
  {
    var l := step.l;
    match step
    case Arrive(_, k) =>
      var s1 := s.(arrived := s.arrived + {k});
      if s.busy || k != s.next then s1.(pending := s.pending + {k})
      else s1.(busy := true, lanes := s.lanes[l := Installing(k)])
    case Install(_) => s.(log := s.log + [s.lanes[l].k], lanes := s.lanes[l := Installed(s.lanes[l].k)])
    case Advance(_) =>
      var next := s.lanes[l].k + 1;
      if next in s.pending then s.(next := next, pending := s.pending - {next}, lanes := s.lanes[l := Installing(next)])
      else if next == n then s.(next := 0, busy := false, lanes := s.lanes[l := Contributing])
      else s.(next := next, busy := false, lanes := s.lanes[l := Idle])
    case Contribute(_) => s.(contributed := s.contributed + 1, lanes := s.lanes[l := Idle])
  }

  ghost predicate Initial(s: State) {
    && s.next == 0 && !s.busy && s.pending == {} && s.arrived == {} && s.log == [] && s.contributed == 0
    && forall l {:trigger s.lanes[l]} :: 0 <= l < |s.lanes| ==> s.lanes[l].Idle?
  }

  predicate Turn(f: Lane) {
    f.Installing? || f.Installed?
  }

  /** Chunks 0..m-1 are installed, in order.  At most one lane has the turn, and it is installing m or
      has just installed m - 1; the next chunk waits only for a lane with the turn. */
  ghost predicate Inv(n: nat, s: State) {
    var m := |s.log|;
    && m <= n && (forall i {:trigger s.log[i]} :: 0 <= i < m ==> s.log[i] == i)
    && (forall l {:trigger s.lanes[l]} :: 0 <= l < |s.lanes| && s.lanes[l].Installing? ==>
          s.lanes[l].k == m == s.next && m < n)
    && (forall l {:trigger s.lanes[l]} :: 0 <= l < |s.lanes| && s.lanes[l].Installed? ==>
          s.lanes[l].k == s.next && s.next + 1 == m)
    && (s.busy <==> exists l {:trigger s.lanes[l]} :: 0 <= l < |s.lanes| && Turn(s.lanes[l]))
    && (forall l, q {:trigger s.lanes[l], s.lanes[q]} :: 0 <= l < q < |s.lanes| ==>
          !(Turn(s.lanes[l]) && Turn(s.lanes[q])))
    && (!s.busy ==> m !in s.pending && s.next == if m == n then 0 else m)
    && (forall k: nat {:trigger k in s.arrived} {:trigger k in s.pending} ::
          (k in s.arrived <==> k < m || k in s.pending || exists l {:trigger s.lanes[l]} ::
                0 <= l < |s.lanes| && s.lanes[l] == Installing(k))
          && (k in s.pending ==> m <= k < n))
    && (forall l {:trigger s.lanes[l]} :: 0 <= l < |s.lanes| && s.lanes[l].Installing? ==> m !in s.pending)
    && Contributions(n, s)
  }

  /** One contribution, made or under way, once every chunk is in and the turn was given back. */
  ghost predicate Contributions(n: nat, s: State) {
    && (forall l, q {:trigger s.lanes[l], s.lanes[q]} :: 0 <= l < q < |s.lanes| ==>
          !(s.lanes[l].Contributing? && s.lanes[q].Contributing?))
    && ((exists l {:trigger s.lanes[l]} :: 0 <= l < |s.lanes| && s.lanes[l].Contributing?) ==>
          s.contributed == 0 && |s.log| == n && !s.busy)
    && (s.contributed > 0 ==> s.contributed == 1 && |s.log| == n && !s.busy)
    && (|s.log| == n && !s.busy ==>
          s.contributed == 1 || exists l {:trigger s.lanes[l]} :: 0 <= l < |s.lanes| && s.lanes[l].Contributing?)
  }

  lemma ArriveInv(n: nat, s: State, l: nat, k: nat)
    requires n > 0 && Inv(n, s) && Enabled(n, s, Arrive(l, k))
    ensures Inv(n, Apply(n, s, Arrive(l, k)))
  {
    var s' := Apply(n, s, Arrive(l, k));
    assert k !in s.arrived;
    assert k !in s.pending && k >= |s.log|;
    if s.busy || k != s.next {
      assert s'.lanes == s.lanes;
    } else {
      assert s'.lanes[l] == Installing(k);
      assert forall q {:trigger s'.lanes[q]} :: 0 <= q < |s.lanes| && q != l ==> s'.lanes[q] == s.lanes[q];
    }
  }

  lemma InstallInv(n: nat, s: State, l: nat)
    requires n > 0 && Inv(n, s) && Enabled(n, s, Install(l))
    ensures Inv(n, Apply(n, s, Install(l)))
  {
    var s' := Apply(n, s, Install(l));
    assert Turn(s.lanes[l]) && s.busy;
    assert s'.lanes[l] == Installed(s.lanes[l].k) && Turn(s'.lanes[l]);
    assert forall q {:trigger s'.lanes[q]} :: 0 <= q < |s.lanes| && q != l ==>
          s'.lanes[q] == s.lanes[q] && !Turn(s.lanes[q]);
    assert forall i {:trigger s'.log[i]} :: 0 <= i < |s'.log| ==> s'.log[i] == i;
    assert forall k: nat {:trigger k in s.arrived} ::
          (exists q {:trigger s.lanes[q]} :: 0 <= q < |s.lanes| && s.lanes[q] == Installing(k)) <==> k == |s.log|;
  }

  lemma AdvanceInv(n: nat, s: State, l: nat)
    requires n > 0 && Inv(n, s) && Enabled(n, s, Advance(l))
    ensures Inv(n, Apply(n, s, Advance(l)))
  {
    var s' := Apply(n, s, Advance(l));
    assert Turn(s.lanes[l]) && s.busy;
    assert forall q {:trigger s'.lanes[q]} :: 0 <= q < |s.lanes| && q != l ==>
          s'.lanes[q] == s.lanes[q] && !Turn(s.lanes[q]);
    var next := s.lanes[l].k + 1;
    assert next == |s.log|;
    if next in s.pending {
      assert s'.lanes[l] == Installing(next) && Turn(s'.lanes[l]);
    } else if next == n {
      assert s'.lanes[l].Contributing?;
    }
  }

  lemma ContributeInv(n: nat, s: State, l: nat)
    requires n > 0 && Inv(n, s) && Enabled(n, s, Contribute(l))
    ensures Inv(n, Apply(n, s, Contribute(l)))
  {
    var s' := Apply(n, s, Contribute(l));
    assert s.lanes[l].Contributing?;
    assert forall q {:trigger s'.lanes[q]} :: 0 <= q < |s.lanes| && q != l ==>
          s'.lanes[q] == s.lanes[q] && !s.lanes[q].Contributing?;
  }

  lemma StepInv(n: nat, s: State, step: Step)
    requires n > 0 && Inv(n, s) && Enabled(n, s, step)
    ensures Inv(n, Apply(n, s, step))
  {
    match step
    case Arrive(l, k) => ArriveInv(n, s, l, k);
    case Install(l) => InstallInv(n, s, l);
    case Advance(l) => AdvanceInv(n, s, l);
    case Contribute(l) => ContributeInv(n, s, l);
  }

  ghost predicate Run(n: nat, trace: seq<State>, steps: seq<Step>) {
    && |trace| == |steps| + 1 && Initial(trace[0])
    && forall i {:trigger steps[i]} :: 0 <= i < |steps| ==>
          Enabled(n, trace[i], steps[i]) && trace[i + 1] == Apply(n, trace[i], steps[i])
  }

  lemma {:induction false} RunInv(n: nat, trace: seq<State>, steps: seq<Step>, i: nat)
    requires n > 0 && Run(n, trace, steps) && i < |trace|
    ensures Inv(n, trace[i])
  {
    if i > 0 {
      RunInv(n, trace, steps, i - 1);
      StepInv(n, trace[i - 1], steps[i - 1]);
    }
  }

  ghost predicate Settled(n: nat, s: State) {
    && (forall k: nat {:trigger k in s.arrived} :: k < n ==> k in s.arrived)
    && (forall l {:trigger s.lanes[l]} :: 0 <= l < |s.lanes| ==> s.lanes[l].Idle?)
  }

  lemma NothingMissing(n: nat, s: State)
    requires n > 0 && Inv(n, s) && Settled(n, s)
    ensures |s.log| == n && s.pending == {}
  {
    assert forall l {:trigger s.lanes[l]} :: 0 <= l < |s.lanes| ==> !Turn(s.lanes[l]);
    assert |s.log| !in s.arrived;
    forall k: nat ensures k !in s.pending { }
  }

  /** On every interleaving chunks are installed at most once each and in key order, by one lane at a
      time; once all have arrived and the lanes are idle again, every chunk is in, nothing is pending,
      exactly one contribution was made, and the turn counter is ready for the next pack. */
  lemma ChunksComplete(n: nat, trace: seq<State>, steps: seq<Step>, i: nat)
    requires n > 0 && Run(n, trace, steps) && i < |trace|
    ensures var s := trace[i];
            && |s.log| <= n && (forall k {:trigger s.log[k]} :: 0 <= k < |s.log| ==> s.log[k] == k)
            && (forall l, q {:trigger s.lanes[l], s.lanes[q]} :: 0 <= l < q < |s.lanes| ==>
                  !(Turn(s.lanes[l]) && Turn(s.lanes[q])))
            && s.contributed <= 1
            && (Settled(n, s) ==> |s.log| == n && s.pending == {} && s.contributed == 1 && s.next == 0 && !s.busy)
  {
    RunInv(n, trace, steps, i);
    var s := trace[i];
    if Settled(n, s) {
      NothingMissing(n, s);
      assert forall l {:trigger s.lanes[l]} :: 0 <= l < |s.lanes| ==> !Turn(s.lanes[l]) && !s.lanes[l].Contributing?;
    }
  }

  // ---- Every run ends, and ends settled.

  /** Nothing more can happen. */
  ghost predicate Stuck(n: nat, s: State) {
    forall step {:trigger Enabled(n, s, step)} :: !Enabled(n, s, step)
  }

  /** As long as a chunk is missing or a lane is busy, something can be done. */
  lemma StuckIffSettled(n: nat, s: State)
    requires |s.lanes| > 0
    ensures Stuck(n, s) <==> Settled(n, s)
  {
    if Stuck(n, s) {
      forall l | 0 <= l < |s.lanes|
        ensures s.lanes[l].Idle?
      {
        assert !Enabled(n, s, Install(l)) && !Enabled(n, s, Advance(l)) && !Enabled(n, s, Contribute(l));
      }
      forall k: nat | k < n ensures k in s.arrived { assert !Enabled(n, s, Arrive(0, k)); }
    }
  }

  function Upto(n: nat): (r: set<nat>)
    ensures |r| == n && forall k: nat {:trigger k in r} :: k in r <==> k < n
  {
    if n == 0 then {} else Upto(n - 1) + {n - 1}
  }

  ghost predicate SomeInstalled(s: State) {
    exists l {:trigger s.lanes[l]} :: 0 <= l < |s.lanes| && s.lanes[l].Installed?
  }

  /** What has been done: arrivals, installs, the turn handed on after each, contributions. */
  ghost function Progress(s: State): int {
    |s.arrived| + 2 * |s.log| - (if SomeInstalled(s) then 1 else 0) + s.contributed
  }

  lemma StepCounts(n: nat, s: State, step: Step)
    requires n > 0 && Inv(n, s) && Enabled(n, s, step)
    ensures Progress(Apply(n, s, step)) == Progress(s) + 1
  {
    var s' := Apply(n, s, step);
    var l := step.l;
    assert forall q {:trigger s'.lanes[q]} :: 0 <= q < |s.lanes| && q != l ==> s'.lanes[q] == s.lanes[q];
    match step
    case Arrive(_, _) =>
      SameInstalled(s, s', l);
    case Install(_) =>
      assert Turn(s.lanes[l]) && !SomeInstalled(s);
      assert s'.lanes[l].Installed? && SomeInstalled(s');
    case Advance(_) =>
      assert Turn(s.lanes[l]) && SomeInstalled(s);
      assert !SomeInstalled(s');
    case Contribute(_) =>
      SameInstalled(s, s', l);
  }

  lemma SameInstalled(s: State, s': State, l: nat)
    requires |s'.lanes| == |s.lanes| && l < |s.lanes| && !s.lanes[l].Installed? && !s'.lanes[l].Installed?
    requires forall q {:trigger s'.lanes[q]} :: 0 <= q < |s.lanes| && q != l ==> s'.lanes[q] == s.lanes[q]
    ensures SomeInstalled(s') <==> SomeInstalled(s)
  {
    if SomeInstalled(s) {
      var q :| 0 <= q < |s.lanes| && s.lanes[q].Installed?;
      assert s'.lanes[q].Installed?;
    }
  }

  lemma {:induction false} RunCounts(n: nat, trace: seq<State>, steps: seq<Step>, i: nat)
    requires n > 0 && Run(n, trace, steps) && i < |trace|
    ensures Progress(trace[i]) == i && |trace[i].lanes| == |trace[0].lanes|
  {
    if i > 0 {
      RunCounts(n, trace, steps, i - 1);
      RunInv(n, trace, steps, i - 1);
      StepCounts(n, trace[i - 1], steps[i - 1]);
    }
  }

  /** A run has at most 3n + 1 steps - an arrival, an install and a handing on for each chunk, and one contribution -
      and can always be gone on with until it has exactly these: that is when all is settled. */
  lemma ChunksEnd(n: nat, trace: seq<State>, steps: seq<Step>)
    requires n > 0 && Run(n, trace, steps) && |trace[0].lanes| > 0
    ensures var last := trace[|steps|];
            && |steps| <= 3 * n + 1 && (Stuck(n, last) <==> Settled(n, last))
            && (Settled(n, last) <==> |steps| == 3 * n + 1)
  {
    var s := trace[|steps|];
    RunCounts(n, trace, steps, |steps|);
    RunInv(n, trace, steps, |steps|);
    ChunksComplete(n, trace, steps, |steps|);
    StuckIffSettled(n, s);
    ArrivedFits(n, s);
    if |s.arrived| == n && |s.log| == n && s.contributed == 1 && !SomeInstalled(s) {
      AllDone(n, s);
    }
    if Settled(n, s) {
      assert s.arrived == Upto(n);
    }
  }

  lemma ArrivedFits(n: nat, s: State)
    requires Inv(n, s)
    ensures s.arrived <= Upto(n) && |s.arrived| <= n && (|s.arrived| == n ==> s.arrived == Upto(n))
  {
    forall k | k in s.arrived ensures k < n { }
    Fits(s.arrived, Upto(n));
  }

  lemma Fits(x: set<nat>, y: set<nat>)
    requires x <= y
    ensures |x| <= |y| && (|x| == |y| ==> x == y)
  {
    assert y == x + (y - x) && |y| == |x| + |y - x|;
    if |x| == |y| { assert |y - x| == 0 && y - x == {}; }
  }

  lemma AllDone(n: nat, s: State)
    requires Inv(n, s) && s.arrived == Upto(n) && |s.log| == n && s.contributed == 1 && !SomeInstalled(s)
    ensures Settled(n, s)
  {
    forall l | 0 <= l < |s.lanes|
      ensures s.lanes[l].Idle?
    {
      assert !s.lanes[l].Installing? && !s.lanes[l].Installed? && !s.lanes[l].Contributing?;
    }
  }

  // ---- What ends up installed.

  function Installs<V>(pack: seq<(Key, V)>, n: nat, log: seq<nat>): seq<(Key, V)>
    requires n > 0 && forall i {:trigger log[i]} :: 0 <= i < |log| ==> log[i] < n
  {
    if log == [] then [] else Installs(pack, n, log[..|log| - 1]) + Chunk(pack, n, log[|log| - 1])
  }

  lemma {:induction false} InOrderInstalls<V>(pack: seq<(Key, V)>, n: nat, log: seq<nat>)
    requires n > 0 && |log| <= n && forall i {:trigger log[i]} :: 0 <= i < |log| ==> log[i] == i
    ensures Installs(pack, n, log) == Chunks(pack, n, |log|)
    decreases |log|
  {
    if log != [] { InOrderInstalls(pack, n, log[..|log| - 1]); }
  }

  /** A pack closed under parents: the broadcast cuts the sorted canopies at any length, and a prefix of
      them is still closed because a parent's key is smaller. */
  ghost predicate ParentClosed<V>(pack: seq<(Key, V)>) {
    forall i: nat {:trigger Parented(pack, i, |pack|)} :: i < |pack| ==> Parented(pack, i, |pack|)
  }

  /** Every entry's parent is an earlier entry. */
  ghost predicate ParentsEarlier<V>(pack: seq<(Key, V)>) {
    forall i: nat {:trigger Parented(pack, i, i)} :: i < |pack| ==> Parented(pack, i, i)
  }

  /** Entry i is the root, or its parent is among the first n entries. */
  ghost predicate Parented<V>(pack: seq<(Key, V)>, i: nat, n: nat)
    requires i < |pack| && n <= |pack|
  {
    pack[i].0 > 1 ==> exists j {:trigger pack[j]} :: 0 <= j < n && pack[j].0 == pack[i].0 / 8
  }

  lemma PrefixClosed<V>(pack: seq<(Key, V)>, m: nat)
    requires Rising(pack) && ParentClosed(pack) && m <= |pack| && forall i {:trigger pack[i]} :: 0 <= i < |pack| ==>
          pack[i].0 >= 1
    ensures ParentClosed(pack[..m]) && Rising(pack[..m])
  {
    var cut := pack[..m];
    forall i: nat | i < m
      ensures Parented(cut, i, |cut|)
    {
      ParentBefore(pack, i);
      if cut[i].0 > 1 {
        var j :| 0 <= j < i && pack[j].0 == pack[i].0 / 8;
        assert cut[j] == pack[j] && cut[i] == pack[i];
      }
    }
  }

  lemma ParentBefore<V>(pack: seq<(Key, V)>, i: nat)
    requires Rising(pack) && ParentClosed(pack) && i < |pack|
    ensures Parented(pack, i, i)
  {
    assert Parented(pack, i, |pack|);
    if pack[i].0 > 1 {
      var j :| 0 <= j < |pack| && pack[j].0 == pack[i].0 / 8;
      assert pack[j].0 < pack[i].0;
    }
  }

  /** The installed entries are a prefix of the starter pack, in key order, and every entry's parent was
      installed before it; at the end all of it is in. */
  lemma ParentsFirst<V>(pack: seq<(Key, V)>, n: nat, trace: seq<State>, steps: seq<Step>, i: nat)
    requires n > 0 && Run(n, trace, steps) && i < |trace| && Rising(pack) && ParentClosed(pack)
    requires forall j {:trigger pack[j]} :: 0 <= j < |pack| ==> pack[j].0 >= 1
    ensures (forall k {:trigger trace[i].log[k]} :: 0 <= k < |trace[i].log| ==> trace[i].log[k] < n)
    ensures var done := Installs(pack, n, trace[i].log);
            done <= pack && ParentsEarlier(done) && (Settled(n, trace[i]) ==> done == pack)
  {
    ChunksComplete(n, trace, steps, i);
    var log := trace[i].log;
    InOrderInstalls(pack, n, log);
    ChunksTile(pack, n, |log|);
    BoundsRise(|pack|, n, 0);
    PrefixParents(pack, Bound(|pack|, n, |log|));
  }

  lemma PrefixParents<V>(pack: seq<(Key, V)>, m: nat)
    requires Rising(pack) && ParentClosed(pack) && m <= |pack| && forall i {:trigger pack[i]} :: 0 <= i < |pack| ==>
          pack[i].0 >= 1
    ensures ParentsEarlier(pack[..m])
  {
    PrefixClosed(pack, m);
    forall k: nat | k < m ensures Parented(pack[..m], k, k) { ParentBefore(pack[..m], k); }
  }
}
