/** Labels kept per representative.  After the freeze, label maps rewrite one label per root and an
    indexed pass copies it to the particles; the component sizes ride along as one count per root. */
module Representatives {
  import opened Forest
  import opened Linking
  import opened PhaseA
  import opened Labels
  import opened Sorting

  // ---- What every label rewrite must amount to, particle by particle.

  function Rewrite(m: map<int, int>, l: int): int {
    if l in m then m[l] else l
  }

  function RewriteEach(m: map<int, int>, ls: seq<int>): (r: seq<int>)
    ensures |r| == |ls| && forall i {:trigger r[i]} :: 0 <= i < |ls| ==> r[i] == Rewrite(m, ls[i])
  {
    seq(|ls|, i requires 0 <= i < |ls| => Rewrite(m, ls[i]))
  }

  function RewriteAll(ms: seq<map<int, int>>, ls: seq<int>): seq<int> {
    if ms == [] then ls else RewriteAll(ms[1..], RewriteEach(ms[0], ls))
  }

  function RewriteChain(ms: seq<map<int, int>>, l: int): int {
    if ms == [] then l else RewriteChain(ms[1..], Rewrite(ms[0], l))
  }

  lemma {:induction false} RewriteAllAt(ms: seq<map<int, int>>, ls: seq<int>, i: nat)
    requires i < |ls|
    ensures |RewriteAll(ms, ls)| == |ls| && RewriteAll(ms, ls)[i] == RewriteChain(ms, ls[i])
  {
    if ms != [] {
      RewriteAllAt(ms[1..], RewriteEach(ms[0], ls), i);
    }
  }

  // ---- The structure.

  predicate Below(s: seq<nat>, n: nat) {
    forall k {:trigger s[k]} :: 0 <= k < |s| ==> s[k] < n
  }

  /** parent sends every particle straight to its representative, `roots` lists the representatives
      once each, and rootCounts counts the particles behind each. */
  ghost predicate Frozen(parent: seq<nat>, roots: seq<nat>, rootCounts: seq<nat>) {
    && |rootCounts| == |parent| && NoRepeats(roots)
    && (forall i {:trigger parent[i]} :: 0 <= i < |parent| ==> parent[i] < |parent| && parent[i] in roots)
    && Below(roots, |parent|) && (forall k {:trigger roots[k]} :: 0 <= k < |roots| ==> parent[roots[k]] == roots[k])
    && (forall r {:trigger rootCounts[r]} :: 0 <= r < |parent| ==> rootCounts[r] == multiset(parent)[r])
  }

  ghost predicate Materialized(parent: seq<nat>, repLabel: seq<int>, groupNumber: seq<int>) {
    && |repLabel| == |parent| == |groupNumber|
    && forall i {:trigger groupNumber[i]} {:trigger parent[i]} :: 0 <= i < |parent| ==>
          parent[i] < |parent| && groupNumber[i] == repLabel[parent[i]]
  }

  /** The sizes filed under label l when each root's count is deposited under its current label. */
  function Deposited(roots: seq<nat>, repLabel: seq<int>, rootCounts: seq<nat>, l: int): nat
    requires |repLabel| == |rootCounts| && Below(roots, |repLabel|)
  {
    if roots == [] then 0 else
      (if repLabel[roots[0]] == l then rootCounts[roots[0]] else 0) + Deposited(roots[1..], repLabel, rootCounts, l)
  }

  lemma {:induction false} DepositedBump(roots: seq<nat>, repLabel: seq<int>, before: seq<nat>, after: seq<nat>,
                                         p: nat, l: int)
    requires |repLabel| == |before| == |after| && NoRepeats(roots) && p < |before| && Below(roots, |repLabel|)
    requires after == before[p := before[p] + 1]
    ensures Deposited(roots, repLabel, after, l)
         == Deposited(roots, repLabel, before, l) + if p in roots && repLabel[p] == l then 1 else 0
  {
    if roots != [] {
      var rest := roots[1..];
      assert roots == [roots[0]] + rest;
      DepositedBump(rest, repLabel, before, after, p, l);
      if roots[0] == p {
        assert forall k :: 0 <= k < |rest| ==> rest[k] == roots[k + 1] != roots[0];
        assert p !in rest;
      } else {
        assert p in roots <==> p in rest;
      }
    }
  }

  /** Every particle points at a representative and carries its label. */
  ghost predicate Pointing(parent: seq<nat>, roots: seq<nat>, repLabel: seq<int>, groupNumber: seq<int>) {
    && |repLabel| == |parent| == |groupNumber| && NoRepeats(roots) && Below(roots, |parent|)
    && forall i {:trigger parent[i]} :: 0 <= i < |parent| ==>
         parent[i] < |parent| && parent[i] in roots && groupNumber[i] == repLabel[parent[i]]
  }

  /** Counting by representatives is counting particles: for every label, after any rewrites. */
  lemma DepositsAreSizes(parent: seq<nat>, roots: seq<nat>, rootCounts: seq<nat>, repLabel: seq<int>,
                         groupNumber: seq<int>, l: int)
    requires Frozen(parent, roots, rootCounts) && Materialized(parent, repLabel, groupNumber)
    ensures Deposited(roots, repLabel, rootCounts, l) == multiset(groupNumber)[l]
  {
    var counts := DepositedUpTo(parent, roots, repLabel, groupNumber, l, |parent|);
    assert parent[..|parent|] == parent && groupNumber[..|parent|] == groupNumber;
    assert counts == rootCounts;
  }

  lemma NoneDeposited(parent: seq<nat>, roots: seq<nat>, repLabel: seq<int>, groupNumber: seq<int>, l: int)
    returns (counts: seq<nat>)
    requires |repLabel| == |parent| && Below(roots, |repLabel|)
    ensures Counted(parent[..0], counts, |parent|)
    ensures Deposited(roots, repLabel, counts, l) == multiset(groupNumber[..0])[l]
  {
    counts := seq(|parent|, r => 0);
    DepositedZero(roots, repLabel, counts, l);
  }

  lemma {:induction false} DepositedUpTo(parent: seq<nat>, roots: seq<nat>, repLabel: seq<int>, groupNumber: seq<int>,
                                         l: int, k: nat)
    returns (counts: seq<nat>)
    requires Pointing(parent, roots, repLabel, groupNumber) && k <= |parent|
    ensures Counted(parent[..k], counts, |parent|)
    ensures Deposited(roots, repLabel, counts, l) == multiset(groupNumber[..k])[l]
    decreases k
  {
    if k == 0 {
      counts := NoneDeposited(parent, roots, repLabel, groupNumber, l);
    } else {
      var before := DepositedUpTo(parent, roots, repLabel, groupNumber, l, k - 1);
      var p := parent[k - 1];
      assert p < |parent| && p in roots && groupNumber[k - 1] == repLabel[p];
      CountedNext(parent, before, |parent|, k - 1);
      DepositedNext(roots, repLabel, before, p, groupNumber, k - 1, l);
      counts := before[p := before[p] + 1];
    }
  }

  ghost predicate Counted(some: seq<nat>, counts: seq<nat>, n: nat) {
    |counts| == n && forall r {:trigger counts[r]} :: 0 <= r < n ==> counts[r] == multiset(some)[r]
  }

  lemma CountedNext(parent: seq<nat>, counts: seq<nat>, n: nat, k: nat)
    requires k < |parent| && Counted(parent[..k], counts, n) && parent[k] < n
    ensures Counted(parent[..k + 1], counts[parent[k] := counts[parent[k]] + 1], n)
  {
    assert parent[..k + 1] == parent[..k] + [parent[k]];
  }

  lemma DepositedNext(roots: seq<nat>, repLabel: seq<int>, counts: seq<nat>, p: nat, groupNumber: seq<int>, k: nat,
                      l: int)
    requires |repLabel| == |counts| && NoRepeats(roots) && Below(roots, |repLabel|) && p < |counts| && p in roots
    requires k < |groupNumber| && groupNumber[k] == repLabel[p]
    requires Deposited(roots, repLabel, counts, l) == multiset(groupNumber[..k])[l]
    ensures Deposited(roots, repLabel, counts[p := counts[p] + 1], l) == multiset(groupNumber[..k + 1])[l]
  {
    assert groupNumber[..k + 1] == groupNumber[..k] + [groupNumber[k]];
    DepositedBump(roots, repLabel, counts, counts[p := counts[p] + 1], p, l);
  }

  lemma {:induction false} DepositedZero(roots: seq<nat>, repLabel: seq<int>, counts: seq<nat>, l: int)
    requires |repLabel| == |counts| && Below(roots, |repLabel|) && forall r :: 0 <= r < |counts| ==> counts[r] == 0
    ensures Deposited(roots, repLabel, counts, l) == 0
  {
    if roots != [] {
      DepositedZero(roots[1..], repLabel, counts, l);
    }
  }

  ghost function RootsOf(parent: seq<nat>, order: seq<nat>): (r: seq<nat>)
    requires Ranked(parent, order)
    ensures |r| == |parent| && forall i: nat {:trigger r[i]} {:trigger Root(parent, order, i)} :: i < |r| ==>
          r[i] == Root(parent, order, i)
  {
    seq(|parent|, i requires 0 <= i < |parent| => Root(parent, order, i))
  }

  /** One more particle: behind an existing representative, or its own. */
  lemma FrozenSnoc(parent: seq<nat>, roots: seq<nat>, counts: seq<nat>, run: nat, roots': seq<nat>, counts': seq<nat>)
    requires Frozen(parent, roots, counts) && (run == |parent| || run in roots)
    requires roots' == if run == |parent| then roots + [run] else roots
    requires counts' == (counts + [0])[run := (counts + [0])[run] + 1]
    ensures Frozen(parent + [run], roots', counts') && run in roots'
  {
    CountSnoc(parent, counts, run, counts');
    if run == |parent| { assert forall k :: 0 <= k < |roots| ==> roots[k] != run; }
  }

  lemma CountSnoc(parent: seq<nat>, counts: seq<nat>, run: nat, counts': seq<nat>)
    requires |counts| == |parent| && (forall i {:trigger parent[i]} :: 0 <= i < |parent| ==> parent[i] < |parent|)
    requires forall r {:trigger counts[r]} :: 0 <= r < |parent| ==> counts[r] == multiset(parent)[r]
    requires run <= |parent| && counts' == (counts + [0])[run := (counts + [0])[run] + 1]
    ensures forall r {:trigger counts'[r]} :: 0 <= r < |counts'| ==> counts'[r] == multiset(parent + [run])[r]
  {
    var n := |parent|;
    assert n !in parent && multiset(parent)[n] == 0;
    assert multiset(parent + [run]) == multiset(parent) + multiset{run};
    forall r | 0 <= r < n + 1
      ensures counts'[r] == multiset(parent)[r] + if r == run then 1 else 0
    {
      if r < n { assert counts[r] == multiset(parent)[r]; }
    }
  }

  lemma MaterializedSnoc(parent: seq<nat>, repLabel: seq<int>, groupNumber: seq<int>, run: nat, g: int)
    requires Materialized(parent, repLabel, groupNumber) && (run == |parent| || (run < |parent| && repLabel[run] == g))
    ensures Materialized(parent + [run], repLabel + [g], groupNumber + [g])
  {
  }

  class PeLabels {
    var parent: seq<nat>        // uf_parent, fully compressed
    var roots: seq<nat>
    var repLabel: seq<int>      // rep_label: meaningful at roots
    var rootCounts: seq<nat>
    var groupNumber: seq<int>   // the particles' labels

    ghost predicate Valid()
      reads this
    {
      Frozen(parent, roots, rootCounts) && Materialized(parent, repLabel, groupNumber)
    }

    constructor ()
      ensures Valid()
    {
      parent, roots, repLabel, rootCounts, groupNumber := [], [], [], [], [];
    }

    /** The freeze is past particles 0..i-1; R holds the root of every particle. */
    ghost predicate FrozenUpTo(e: Engine, R: seq<nat>, i: nat)
      reads this, e
    {
      && e.Valid() && |e.parent| == |R| == |rootCounts| == |groupNumber| && i <= |R| && Below(R, |R|)
      && (forall k: nat {:trigger R[k]} :: k < |R| ==> Root(e.parent, e.order, k) == R[k])
      && (forall k: nat {:trigger e.parent[k]} :: k < i ==> e.parent[k] == R[k])
      && (forall k: nat {:trigger groupNumber[k]} :: k < i ==> groupNumber[k] == e.order[R[k]])
      && (forall r: nat {:trigger rootCounts[r]} :: r < |R| ==> rootCounts[r] == multiset(R[..i])[r])
    }

    method FreezeNext(e: Engine, ghost R: seq<nat>, i: nat)
      requires FrozenUpTo(e, R, i) && i < |R|
      modifies this`groupNumber, this`rootCounts, e`parent
      ensures FrozenUpTo(e, R, i + 1)
    {
      var r := e.Find(i);
      assert R[..i + 1] == R[..i] + [R[i]];
      groupNumber := groupNumber[i := e.order[r]];
      rootCounts := rootCounts[r := rootCounts[r] + 1];
    }

    /** phaseAFreeze: find every particle's root, label it with the root's order, count it. */
    method Freeze(e: Engine)
      requires e.Valid()
      modifies this, e`parent
      ensures Valid() && e.Valid() && |groupNumber| == |e.parts|
      ensures forall i: nat {:trigger Root(e.parent, e.order, i)} :: i < |e.parent| ==>
            Root(e.parent, e.order, i) == old(Root(e.parent, e.order, i))
      ensures forall i: nat {:trigger groupNumber[i]} :: i < |groupNumber| ==>
            groupNumber[i] == e.order[Root(e.parent, e.order, i)]
    {
      var n := |e.parent|;
      ghost var R := RootsOf(e.parent, e.order);
      rootCounts := seq(n, r => 0);
      groupNumber := seq(n, i => 0);
      assert R[..0] == [];
      for i := 0 to n
        invariant FrozenUpTo(e, R, i) && e.order == old(e.order) && e.parts == old(e.parts)
      {
        FreezeNext(e, R, i);
      }
      parent := e.parent;
      assert parent == R && R[..n] == R;
      CollectRoots(e.order);
    }

    /** The representative structure: every index that counts a particle. */
    method CollectRoots(order: seq<nat>)
      requires |order| == |parent| == |rootCounts| == |groupNumber|
      requires forall i {:trigger parent[i]} :: 0 <= i < |parent| ==>
            parent[i] < |parent| && parent[parent[i]] == parent[i]
      requires forall i {:trigger groupNumber[i]} :: 0 <= i < |parent| ==> groupNumber[i] == order[parent[i]]
      requires forall r {:trigger rootCounts[r]} :: 0 <= r < |parent| ==> rootCounts[r] == multiset(parent)[r]
      modifies this`roots, this`repLabel
      ensures Valid() && forall q: nat {:trigger q in roots} :: q in roots <==> q < |rootCounts| && rootCounts[q] > 0
    {
      var n := |parent|;
      roots := [];
      repLabel := seq(n, r => -1);
      for r := 0 to n
        invariant |repLabel| == n && NoRepeats(roots)
        invariant Below(roots, r) && forall q: nat {:trigger q in roots} :: q in roots <==> q < r && rootCounts[q] > 0
        invariant forall q {:trigger repLabel[q]} :: 0 <= q < r && rootCounts[q] > 0 ==> repLabel[q] == order[q]
      {
        if rootCounts[r] > 0 {
          assert forall k :: 0 <= k < |roots| ==> roots[k] != r;
          roots := roots + [r];
          repLabel := repLabel[r := order[r]];
        }
      }
      forall i | 0 <= i < n
        ensures parent[i] in roots && groupNumber[i] == repLabel[parent[i]]
      {
        assert parent[i] in parent && multiset(parent)[parent[i]] > 0;
      }
      forall q | q in roots
        ensures parent[q] == q
      {
        assert q in multiset(parent);
        var i :| 0 <= i < n && parent[i] == q;
      }
    }

    /** deviceAdopt: the device's labels arrive per particle; runs of equal labels become the
        representatives. */
    method DeviceAdopt(labels: seq<int>, base: nat, n: nat)
      requires base + n <= |labels|
      modifies this
      ensures Valid() && groupNumber == labels[base..base + n]
    {
      parent, roots, repLabel, rootCounts, groupNumber := [], [], [], [], [];
      var run, runLabel := 0, 0;
      for k := 0 to n
        invariant Valid() && |parent| == k && groupNumber == labels[base..base + k]
        invariant (roots == [] <==> k == 0) && |repLabel| == k
        invariant k > 0 ==> run in roots && repLabel[run] == runLabel
      {
        var g := labels[base + k];
        if roots == [] || g != runLabel { run, runLabel := k, g; }
        AdoptNext(g, run);
      }
    }

    method AdoptNext(g: int, run: nat)
      requires Valid() && (run == |parent| || (run in roots && repLabel[run] == g))
      modifies this
      ensures Valid() && groupNumber == old(groupNumber) + [g] && |parent| == old(|parent|) + 1
      ensures run in roots && repLabel[run] == g
    {
      var more := if run == |parent| then roots + [run] else roots;
      var counts := (rootCounts + [0])[run := (rootCounts + [0])[run] + 1];
      FrozenSnoc(parent, roots, rootCounts, run, more, counts);
      MaterializedSnoc(parent, repLabel, groupNumber, run, g);
      repLabel, groupNumber := repLabel + [g], groupNumber + [g];
      parent, roots, rootCounts := parent + [run], more, counts;
    }

    /** materializeLabels: one indexed load per particle. */
    method Materialize()
      requires Frozen(parent, roots, rootCounts) && |repLabel| == |parent| == |groupNumber|
      modifies this`groupNumber
      ensures Valid()
    {
      for i := 0 to |parent|
        invariant |groupNumber| == |parent|
        invariant forall k {:trigger groupNumber[k]} :: 0 <= k < i ==> groupNumber[k] == repLabel[parent[k]]
      {
        groupNumber := groupNumber[i := repLabel[parent[i]]];
      }
    }

    /** relabelBody, applyGlobalMap: one probe per root. */
    method ApplyMap(m: map<int, int>)
      requires Valid()
      modifies this`repLabel, this`groupNumber
      ensures Valid() && groupNumber == RewriteEach(m, old(groupNumber))
    {
      ghost var had := repLabel;
      for k := 0 to |roots|
        invariant |repLabel| == |parent| && groupNumber == old(groupNumber)
        invariant forall q {:trigger roots[q]} :: 0 <= q < k ==> repLabel[roots[q]] == Rewrite(m, had[roots[q]])
        invariant forall q {:trigger roots[q]} :: k <= q < |roots| ==> repLabel[roots[q]] == had[roots[q]]
      {
        var r := roots[k];
        assert r in roots;
        assert forall q {:trigger roots[q]} :: 0 <= q < |roots| ==> roots[q] in roots;
        if repLabel[r] in m { repLabel := repLabel[r := m[repLabel[r]]]; }
      }
      Materialize();
      forall i | 0 <= i < |parent|
        ensures groupNumber[i] == Rewrite(m, old(groupNumber)[i])
      {
        assert parent[i] in roots;
      }
    }

    /** applySliceOnPE: an empty slice skips both passes. */
    method ApplySlice(m: map<int, int>)
      requires Valid()
      modifies this`repLabel, this`groupNumber
      ensures Valid() && groupNumber == RewriteEach(m, old(groupNumber))
    {
      if m != map[] { ApplyMap(m); }
    }

    /** applyTipEncoding: refuses a label that is no particle order. */
    method ApplyTipEncoding(process: nat) returns (ok: bool)
      requires Valid()
      modifies this`repLabel, this`groupNumber
      ensures ok <==> forall i {:trigger old(groupNumber[i])} :: 0 <= i < |parent| ==>
            0 <= old(groupNumber[i]) < IDX_SPAN
      ensures ok ==> Valid() && |groupNumber| == |parent|
      ensures ok ==> forall i {:trigger groupNumber[i]} :: 0 <= i < |parent| ==>
            groupNumber[i] == EncodeTip(process, old(groupNumber[i]))
    {
      ghost var had := repLabel;
      for k := 0 to |roots|
        invariant |repLabel| == |parent| && groupNumber == old(groupNumber)
        invariant forall q {:trigger roots[q]} :: 0 <= q < k ==>
              0 <= had[roots[q]] < IDX_SPAN && repLabel[roots[q]] == EncodeTip(process, had[roots[q]])
        invariant forall q {:trigger roots[q]} :: k <= q < |roots| ==> repLabel[roots[q]] == had[roots[q]]
      {
        var r := roots[k];
        assert r in roots;
        assert forall q {:trigger roots[q]} :: 0 <= q < |roots| ==> roots[q] in roots;
        if !(0 <= repLabel[r] < IDX_SPAN) {
          assert old(groupNumber[r]) == had[parent[r]];
          return false;
        }
        repLabel := repLabel[r := EncodeTip(process, repLabel[r])];
      }
      Materialize();
      ok := true;
      forall i | 0 <= i < |parent|
        ensures 0 <= old(groupNumber[i]) < IDX_SPAN && groupNumber[i] == EncodeTip(process, old(groupNumber[i]))
      {
        assert parent[i] in roots;
      }
    }

    /** Any run of label maps: the particles end as if each map had been applied to each particle,
        and the deposits still equal a recount. */
    method ApplyMaps(ms: seq<map<int, int>>)
      requires Valid()
      modifies this`repLabel, this`groupNumber
      ensures Valid() && groupNumber == RewriteAll(ms, old(groupNumber))
      ensures forall l {:trigger multiset(groupNumber)[l]} ::
            Deposited(roots, repLabel, rootCounts, l) == multiset(groupNumber)[l]
    {
      for k := 0 to |ms|
        invariant Valid() && RewriteAll(ms[k..], groupNumber) == RewriteAll(ms, old(groupNumber))
      {
        assert ms[k..][0] == ms[k] && ms[k..][1..] == ms[k + 1..];
        ApplyMap(ms[k]);
      }
      assert ms[|ms|..] == [];
      forall l: int
        ensures Deposited(roots, repLabel, rootCounts, l) == multiset(groupNumber)[l]
      {
        DepositsAreSizes(parent, roots, rootCounts, repLabel, groupNumber, l);
      }
    }
  }
}
