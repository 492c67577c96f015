/** Installing the canopy: each entry finds its parent by walking the base-8 digits of the parent's key down from
    the root, and hangs itself and its child slots there. */
module Canopy {

  import opened StarterPack
  import HostCells
  import ChunkTurns

  /** What a child slot holds: a placeholder, an installed canopy node, or a node of a local TreePiece. */
  datatype Node = Placeholder | Boundary | Piece

  datatype Option<T> = None | Some(value: T)

  // ---- Keys as digit strings.

  /** The digits that lead from s to t, lowest first, as the division loop collects them. */
  function Digits(s: Key, t: Key): (r: seq<nat>)
    requires s >= 1
    ensures forall i {:trigger r[i]} :: 0 <= i < |r| ==> r[i] < 8
  {
    if t >= 8 * s then [t % 8] + Digits(s, t / 8) else []
  }

  /** t with its lowest i digits dropped. */
  function Drop(t: Key, i: nat): Key {
    if i == 0 then t else Drop(t / 8, i - 1)
  }

  /** t's digits below s, put back under s itself. */
  function Renamed(s: Key, t: Key): Key
    requires s >= 1
  {
    if t >= 8 * s then 8 * Renamed(s, t / 8) + t % 8 else s
  }

  /** s is t or one of t's ancestors. */
  predicate Above(s: Key, t: Key) {
    t == s || (t > s && Above(s, t / 8))
  }

  /** The digits walk leads back to the key asked for exactly when the start is above it. */
  lemma {:induction false} RenamedExact(s: Key, t: Key)
    requires s >= 1
    ensures Renamed(s, t) == t <==> Above(s, t)
  {
    if t >= 8 * s {
      RenamedExact(s, t / 8);
    } else if t > s {
      assert t / 8 < s;
    }
  }

  /** Every 64-bit key has few enough digits for the fixed array of 64. */
  lemma DigitsFit(s: Key, t: Key)
    requires s >= 1 && t < LONG64
    ensures |Digits(s, t)| <= 21
  {
    HostCells.Pow8Levels();
    DigitsSize(s, t, 21);
  }

  const LONG64: nat := 0x1_0000_0000_0000_0000

  /** BRANCH_FACTOR * key as the 64-bit code computes it. */
  function Bound64(s: Key): nat {
    (8 * s) % LONG64
  }

  /** The division loop is still running after n turns. */
  predicate Runs64(s: Key, t: Key, n: nat) {
    n == 0 || (t >= Bound64(s) && Runs64(s, t / 8, n - 1))
  }

  /** The 64-bit loop overruns the array, whatever key is asked for, exactly when the start's low 61 bits are
      zero; and its bound is the one intended exactly when 8 times the start fits. */
  lemma OverrunExact(s: Key, t: Key)
    requires 1 <= s < LONG64 && t < LONG64
    ensures Runs64(s, t, 65) <==> s % 0x2000_0000_0000_0000 == 0
    ensures Bound64(s) == 8 * s <==> s < 0x2000_0000_0000_0000
  {
    if Bound64(s) == 0 {
      RunsOn(s, t, 65);
    } else {
      HostCells.Pow8Levels();
      RunsOut(s, t, 22);
    }
  }

  lemma {:induction false} RunsOn(s: Key, t: Key, n: nat)
    requires Bound64(s) == 0
    ensures Runs64(s, t, n)
    decreases n
  {
    if n > 0 { RunsOn(s, t / 8, n - 1); }
  }

  lemma {:induction false} RunsOut(s: Key, t: Key, n: nat)
    requires Bound64(s) > 0 && t < HostCells.Pow8(n)
    ensures forall m: nat {:trigger Runs64(s, t, m)} :: m > n ==> !Runs64(s, t, m)
    decreases n
  {
    if n > 0 { RunsOut(s, t / 8, n - 1); }
  }

  /** The shallowest start that overruns: a cell of depth 21 whose key is 2^63. */
  lemma FirstOverrun(t: Key)
    requires t < LONG64
    ensures Runs64(0x8000_0000_0000_0000, t, 65)
  {
    OverrunExact(0x8000_0000_0000_0000, t);
  }

  lemma {:induction false} DigitsSize(s: Key, t: Key, n: nat)
    requires s >= 1 && t < 8 * HostCells.Pow8(n)
    ensures |Digits(s, t)| <= n
  {
    if t >= 8 * s && n > 0 { DigitsSize(s, t / 8, n - 1); }
  }

  lemma {:induction false} DigitAt(s: Key, t: Key, i: nat)
    requires s >= 1 && i < |Digits(s, t)|
    ensures Digits(s, t)[i] == Drop(t, i) % 8 && Drop(t, i) >= 8 * s && Drop(t, i + 1) == Drop(t, i) / 8
    ensures Renamed(s, Drop(t, i)) == 8 * Renamed(s, Drop(t, i + 1)) + Digits(s, t)[i]
  {
    if i > 0 { DigitAt(s, t / 8, i - 1); }
  }

  lemma {:induction false} DropLast(s: Key, t: Key)
    requires s >= 1
    ensures Drop(t, |Digits(s, t)|) < 8 * s && Renamed(s, Drop(t, |Digits(s, t)|)) == s
  {
    if t >= 8 * s { DropLast(s, t / 8); }
  }

  // ---- Paths in the tree.

  /** Every node strictly above t down from s has child slots to follow, and t's own slot is filled or filled on
      asking. */
  predicate Reach(nodes: map<Key, Node>, creates: bool, s: Key, t: Key) {
    t == s || (t > s && Reach(nodes, creates, s, t / 8) && t / 8 in nodes && Followed(nodes, creates, t / 8, t))
  }

  predicate Followed(nodes: map<Key, Node>, creates: bool, k: Key, child: Key)
    requires k in nodes
  {
    nodes[k] != Placeholder && (child in nodes || (creates && nodes[k].Boundary?))
  }

  /** From a canopy node every child can be reached when slots fill on asking, and otherwise those that are
      there; from a placeholder none; from a piece those that are there. */
  lemma ReachChild(nodes: map<Key, Node>, creates: bool, s: Key, k: Key, d: nat)
    requires s >= 1 && d < 8 && k in nodes && Reach(nodes, creates, s, k)
    ensures Reach(nodes, creates, s, 8 * k + d)
       <==> !nodes[k].Placeholder? && (8 * k + d in nodes || (nodes[k].Boundary? && creates))
  {
    ReachedIsBelow(nodes, creates, s, k);
    assert (8 * k + d) / 8 == k;
  }

  lemma {:induction false} ReachedIsBelow(nodes: map<Key, Node>, creates: bool, s: Key, t: Key)
    requires Reach(nodes, creates, s, t)
    ensures Above(s, t)
  {
    if t != s { ReachedIsBelow(nodes, creates, s, t / 8); }
  }

  /** A walk that has come off the tree never comes back. */
  lemma {:induction false} LostStays(nodes: map<Key, Node>, creates: bool, s: Key, t: Key, i: nat)
    requires s >= 1 && i <= |Digits(s, t)| && !Reach(nodes, creates, s, Renamed(s, Drop(t, i)))
    ensures !Reach(nodes, creates, s, Renamed(s, t))
  {
    if i > 0 {
      DigitAt(s, t, i - 1);
      StepReach(nodes, creates, s, t, i - 1);
      LostStays(nodes, creates, s, t, i - 1);
    }
  }

  /** One digit further down. */
  lemma StepReach(nodes: map<Key, Node>, creates: bool, s: Key, t: Key, i: nat)
    requires s >= 1 && i < |Digits(s, t)|
    ensures Reach(nodes, creates, s, Renamed(s, Drop(t, i)))
       <==> Reach(nodes, creates, s, Renamed(s, Drop(t, i + 1))) && Renamed(s, Drop(t, i + 1)) in nodes
            && Followed(nodes, creates, Renamed(s, Drop(t, i + 1)), 8 * Renamed(s, Drop(t, i + 1)) + Digits(s, t)[i])
  {
    DigitAt(s, t, i);
    var k := Renamed(s, Drop(t, i + 1));
    RenamedFrom(s, Drop(t, i + 1));
    assert (8 * k + Digits(s, t)[i]) / 8 == k;
  }

  lemma {:induction false} RenamedFrom(s: Key, t: Key)
    requires s >= 1
    ensures Renamed(s, t) >= s
  {
    if t >= 8 * s { RenamedFrom(s, t / 8); }
  }

  // ---- What a run of entries must offer, and what is built.

  /** Rising keys, each after its parent, none of them in a local TreePiece: what the chunks install, in their order. */
  ghost predicate InOrder<V>(pack: seq<(Key, V)>, n: nat)
    requires n <= |pack|
  {
    && Rising(pack) && (forall i {:trigger pack[i]} :: 0 <= i < n ==> pack[i].0 >= 1)
    && forall k: nat {:trigger ChunkTurns.Parented(pack, k, k)} :: k < n ==> ChunkTurns.Parented(pack, k, k)
  }

  ghost predicate Built<V>(nodes: map<Key, Node>, pack: seq<(Key, V)>, n: nat)
    requires n <= |pack|
  {
    forall i {:trigger pack[i]} :: 0 <= i < n ==> pack[i].0 in nodes && nodes[pack[i].0].Boundary?
  }

  /** Every installed entry can be walked to from the root. */
  lemma {:induction false} BuiltReach<V>(nodes: map<Key, Node>, creates: bool, pack: seq<(Key, V)>, n: nat, i: nat)
    requires i < n <= |pack| && InOrder(pack, n) && Built(nodes, pack, n)
    ensures Reach(nodes, creates, 1, pack[i].0)
    decreases i
  {
    assert ChunkTurns.Parented(pack, i, i);
    if pack[i].0 > 1 {
      var j :| 0 <= j < i && pack[j].0 == pack[i].0 / 8;
      BuiltReach(nodes, creates, pack, n, j);
    }
  }

  /** No earlier entry is a later one or its child. */
  lemma Others<V>(pack: seq<(Key, V)>, n: nat)
    requires n < |pack| && InOrder(pack, |pack|)
    ensures forall i {:trigger pack[i]} :: 0 <= i < n ==> pack[i].0 != pack[n].0 && pack[i].0 / 8 != pack[n].0
  {
    forall i | 0 <= i < n
      ensures pack[i].0 < pack[n].0
    {
    }
  }

  /** Only placeholders are added. */
  ghost predicate Grown(x: map<Key, Node>, y: map<Key, Node>) {
    && (forall k {:trigger k in x} :: k in x ==> k in y && y[k] == x[k])
    && forall k {:trigger k in y} :: k in y && k !in x ==> y[k].Placeholder?
  }

  /** Slots other than key's and its children's are as they were. */
  ghost predicate Elsewhere(x: map<Key, Node>, y: map<Key, Node>, key: Key) {
    forall k {:trigger k in x} {:trigger k in y} :: k in x && k != key && k / 8 != key ==> k in y && y[k] == x[k]
  }

  predicate Filled(nodes: map<Key, Node>, key: Key, d: int) {
    d >= 0 && 8 * key + d in nodes
  }

  class Tree {
    const creates: bool         // lazy_canopy: absent child slots are filled when first asked for
    const pieces: set<Key>      // local_tps: roots of the TreePieces held here
    var nodes: map<Key, Node>

    constructor (creates: bool, pieces: set<Key>)
      ensures this.creates == creates && this.pieces == pieces && nodes == map k | k in pieces :: Piece
    {
      this.creates, this.pieces := creates, pieces;
      nodes := map k | k in pieces :: Piece;
    }

    ghost predicate HoldsPieces()
      reads this`nodes
    {
      forall k {:trigger k in pieces} :: k in pieces ==> k in nodes && nodes[k].Piece?
    }

    /** getChild. */
    method GetChild(k: Key, d: nat) returns (r: Option<Key>)
      requires k in nodes && d < 8
      modifies this`nodes
      ensures r == if Followed(old(nodes), creates, k, 8 * k + d) then Some(8 * k + d) else None
      ensures old(nodes)[k].Placeholder? ==> r.None?
      ensures !old(nodes)[k].Placeholder? && 8 * k + d in old(nodes) ==> r == Some(8 * k + d)
      ensures old(nodes)[k].Boundary? && 8 * k + d !in old(nodes) && creates ==>
            r == Some(8 * k + d) && nodes == old(nodes)[8 * k + d := Placeholder]
      ensures 8 * k + d !in old(nodes) && !(old(nodes)[k].Boundary? && creates) ==> r.None? && nodes == old(nodes)
      ensures nodes == if r.Some? && r.value !in old(nodes) then old(nodes)[r.value := Placeholder] else old(nodes)
    {
      var child := 8 * k + d;
      if nodes[k].Placeholder? {
        r := None;
      } else if child in nodes {
        r := Some(child);
      } else if creates && nodes[k].Boundary? {
        nodes := nodes[child := Placeholder];
        r := Some(child);
      } else {
        r := None;
      }
    }

    /** getDescendant's first loop: the digits by repeated division. */
    method CollectDigits(s: Key, t: Key) returns (digits: seq<nat>)
      requires s >= 1
      ensures digits == Digits(s, t)
    {
      var temp: Key := t;
      digits := [];
      while temp >= 8 * s
        invariant digits + Digits(s, temp) == Digits(s, t)
      {
        digits, temp := digits + [temp % 8], temp / 8;
      }
    }

    /** getDescendant: a step down for each digit, the highest first. */
    method GetDescendant(s: Key, t: Key) returns (r: Option<Key>)
      requires s >= 1 && s in nodes
      modifies this`nodes
      ensures r == if Reach(old(nodes), creates, s, Renamed(s, t)) then Some(Renamed(s, t)) else None
      ensures Grown(old(nodes), nodes)
    {
      var digits := CollectDigits(s, t);
      DropLast(s, t);
      r := Some(s);
      var i: nat := |digits|;
      while i > 0
        invariant i <= |digits| && At(old(nodes), nodes, s, t, i, r)
      {
        i := i - 1;
        if r.None? {
          LostStays(old(nodes), creates, s, t, i + 1);
          return;
        }
        StepReach(old(nodes), creates, s, t, i);
        DigitAt(s, t, i);
        RenamedFrom(s, Drop(t, i + 1));
        r := GetChild(r.value, digits[i]);
      }
    }

    /** The walk stands where all but the lowest i digits lead; only the slot it stands on can be new. */
    ghost predicate At(was: map<Key, Node>, now: map<Key, Node>, s: Key, t: Key, i: nat, r: Option<Key>)
      requires s >= 1
    {
      && r == (if Reach(was, creates, s, Renamed(s, Drop(t, i))) then Some(Renamed(s, Drop(t, i))) else None)
      && Grown(was, now) && (r.Some? ==> r.value in now && forall j {:trigger j in now} :: j in now && j !in was ==>
            j == r.value)
    }

    /** insertNode and swapIn for one canopy entry.  With no parent there is no slot to hang it in: the code
        stops there. */
    method InstallBoundary(key: Key) returns (parent: Option<Key>)
      requires key >= 1 && (key > 1 ==> 1 in nodes) && HoldsPieces() && key !in pieces
      modifies this`nodes
      ensures HoldsPieces() && Elsewhere(old(nodes), nodes, key)
      ensures key == 1 || parent.Some? ==> key in nodes && nodes[key].Boundary?
      ensures key > 1 && parent.None? ==> Grown(old(nodes), nodes)
      ensures key > 1 ==> parent == if Reach(old(nodes), creates, 1, Renamed(1, key / 8)) then Some(Renamed(1, key / 8))
            else None
      ensures key == 1 ==> parent == None
      ensures !creates && (key == 1 || parent.Some?) ==> forall d {:trigger Filled(nodes, key, d)} :: 0 <= d < 8 ==>
            Filled(nodes, key, d)
    {
      parent := None;
      if key > 1 {
        parent := GetDescendant(1, key / 8);
        if parent.None? { return; }
      }
      ghost var before := nodes;
      nodes := nodes[key := Boundary];
      ghost var had := nodes;
      for d := 0 to 8
        invariant HoldsPieces() && key in nodes && nodes[key].Boundary?
        invariant Elsewhere(had, nodes, key)
        invariant !creates ==> forall e {:trigger Filled(nodes, key, e)} :: 0 <= e < d ==> Filled(nodes, key, e)
      {
        ghost var was := nodes;
        assert (8 * key + d) / 8 == key;
        if 8 * key + d !in pieces && !creates {
          nodes := nodes[8 * key + d := Placeholder];
        }
        forall e | 0 <= e < d && !creates ensures Filled(nodes, key, e) { assert Filled(was, key, e); }
      }
      forall k | k in old(nodes) && k != key && k / 8 != key ensures k in nodes && nodes[k] == old(nodes)[k] {
        assert k in before && k in had;
      }
    }

    method InstallNext<V>(pack: seq<(Key, V)>, n: nat) returns (parent: Option<Key>)
      requires n < |pack| && InOrder(pack, |pack|) && Built(nodes, pack, n) && HoldsPieces() && pack[n].0 !in pieces
      modifies this`nodes
      ensures HoldsPieces() && Built(nodes, pack, n + 1)
      ensures parent == if pack[n].0 == 1 then None else Some(pack[n].0 / 8)
    {
      FindsParent(nodes, creates, pack, n);
      Others(pack, n);
      parent := InstallBoundary(pack[n].0);
    }

    /** A run of entries: every one of them finds its parent installed, and stays reachable. */
    method InstallAll<V>(pack: seq<(Key, V)>) returns (parents: seq<Option<Key>>)
      requires InOrder(pack, |pack|) && HoldsPieces() && forall i {:trigger pack[i]} :: 0 <= i < |pack| ==>
            pack[i].0 !in pieces
      modifies this`nodes
      ensures HoldsPieces() && Built(nodes, pack, |pack|)
      ensures |parents| == |pack| && forall i {:trigger parents[i]} :: 0 <= i < |pack| ==>
            parents[i] == if pack[i].0 == 1 then None else Some(pack[i].0 / 8)
      ensures forall i {:trigger pack[i]} :: 0 <= i < |pack| ==> Reach(nodes, creates, 1, pack[i].0)
      ensures forall q {:trigger q in pieces} :: q in pieces && (exists i :: 0 <= i < |pack| && pack[i].0 == q / 8) ==>
            Reach(nodes, creates, 1, q)
    {
      parents := [];
      for n := 0 to |pack|
        invariant HoldsPieces() && Built(nodes, pack, n) && |parents| == n
        invariant forall i {:trigger parents[i]} :: 0 <= i < n ==>
              parents[i] == if pack[i].0 == 1 then None else Some(pack[i].0 / 8)
      {
        var parent := InstallNext(pack, n);
        parents := parents + [parent];
      }
      forall i: nat | i < |pack|
        ensures Reach(nodes, creates, 1, pack[i].0)
      {
        BuiltReach(nodes, creates, pack, |pack|, i);
      }
    }
  }

  /** The next entry's parent is already there, and the digit walk goes to it. */
  lemma FindsParent<V>(nodes: map<Key, Node>, creates: bool, pack: seq<(Key, V)>, n: nat)
    requires n < |pack| && InOrder(pack, |pack|) && Built(nodes, pack, n)
    ensures pack[n].0 > 1 ==>
          1 in nodes && Renamed(1, pack[n].0 / 8) == pack[n].0 / 8 && Reach(nodes, creates, 1, pack[n].0 / 8)
  {
    assert ChunkTurns.Parented(pack, n, n);
    if pack[n].0 > 1 {
      var j :| 0 <= j < n && pack[j].0 == pack[n].0 / 8;
      BuiltReach(nodes, creates, pack, n, j);
      ReachedIsBelow(nodes, creates, 1, pack[j].0);
      RenamedExact(1, pack[j].0);
      RootIn(nodes, creates, pack[j].0);
    }
  }

  lemma {:induction false} RootIn(nodes: map<Key, Node>, creates: bool, t: Key)
    requires Reach(nodes, creates, 1, t) && t in nodes
    ensures 1 in nodes
  {
    if t != 1 { RootIn(nodes, creates, t / 8); }
  }

  /** Whatever the arrival order of the chunks, the entries installed so far can be installed one after another. */
  lemma ArrivalsInOrder<V>(pack: seq<(Key, V)>, n: nat, trace: seq<ChunkTurns.State>, steps: seq<ChunkTurns.Step>,
                           i: nat)
    requires n > 0 && ChunkTurns.Run(n, trace, steps) && i < |trace| && Rising(pack) && ChunkTurns.ParentClosed(pack)
    requires forall j {:trigger pack[j]} :: 0 <= j < |pack| ==> pack[j].0 >= 1
    ensures forall k {:trigger trace[i].log[k]} :: 0 <= k < |trace[i].log| ==> trace[i].log[k] < n
    ensures InOrder(ChunkTurns.Installs(pack, n, trace[i].log), |ChunkTurns.Installs(pack, n, trace[i].log)|)
  {
    ChunkTurns.ParentsFirst(pack, n, trace, steps, i);
    var done := ChunkTurns.Installs(pack, n, trace[i].log);
    assert forall j {:trigger done[j]} :: 0 <= j < |done| ==> done[j] == pack[j];
  }
}
