/** Building the phase-B pool: strided slices of the cross-PE piece pairs, round-robin merge, the
    adaptive tail split, and the partition reorder with its B1 / B2 boundary. */
module PoolBuild {
  import opened Geometry
  import opened Trees
  import opened Linking
  import opened PhaseAWalk
  import opened Sorting
  import opened Pool

  // ---- The enumeration: pieces of PE x against pieces of PE y, for x < y.

  function Row(a: Tree, bs: seq<Tree>): seq<Unit> {
    if bs == [] then [] else [Unit(a, bs[0])] + Row(a, bs[1..])
  }

  function Block(xs: seq<Tree>, bs: seq<Tree>): seq<Unit> {
    if xs == [] then [] else Row(xs[0], bs) + Block(xs[1..], bs)
  }

  function Against(xs: seq<Tree>, pes: seq<seq<Tree>>): seq<Unit> {
    if pes == [] then [] else Block(xs, pes[0]) + Against(xs, pes[1..])
  }

  function AllPairs(pes: seq<seq<Tree>>): seq<Unit> {
    if pes == [] then [] else Against(pes[0], pes[1..]) + AllPairs(pes[1..])
  }

  /** The registry after re-keying: per PE the pieces it holds, together one tiling of the process. */
  function Flat(pes: seq<seq<Tree>>): seq<Tree> {
    if pes == [] then [] else pes[0] + Flat(pes[1..])
  }

  /** The PE that holds particle i. */
  function Home(pes: seq<seq<Tree>>, i: nat): nat {
    if pes == [] then 0 else if HoldsSum(pes[0], i) > 0 then 0 else 1 + Home(pes[1..], i)
  }

  function Both(x: nat, y: nat): nat {
    if x > 0 && y > 0 then 1 else 0
  }

  lemma {:induction false} RowTimes(a: Tree, bs: seq<Tree>, i: nat, j: nat)
    ensures Times(Row(a, bs), i, j) == WeightSum(bs, a, i, j)
  {
    if bs != [] {
      RowTimes(a, bs[1..], i, j);
      WeightSwaps(a, bs[0], i, j);
      assert Row(a, bs)[1..] == Row(a, bs[1..]);
    }
  }

  lemma {:induction false} HoldsSumConcat(x: seq<Tree>, y: seq<Tree>, i: nat)
    ensures HoldsSum(x + y, i) == HoldsSum(x, i) + HoldsSum(y, i)
  {
    if x == [] {
      assert x + y == y;
    } else {
      HoldsSumConcat(x[1..], y, i);
      assert (x + y)[1..] == x[1..] + y;
    }
  }

  lemma {:induction false} BlockTimes(xs: seq<Tree>, bs: seq<Tree>, i: nat, j: nat)
    requires HoldsSum(xs, i) <= 1 && HoldsSum(xs, j) <= 1 && HoldsSum(bs, i) <= 1 && HoldsSum(bs, j) <= 1
    ensures Times(Block(xs, bs), i, j) == Both(HoldsSum(xs, i), HoldsSum(bs, j))
          + Both(HoldsSum(xs, j), HoldsSum(bs, i))
  {
    if xs != [] {
      BlockTimes(xs[1..], bs, i, j);
      RowTimes(xs[0], bs, i, j);
      WeightSumLinear(bs, xs[0], i, j);
      TimesConcat(Row(xs[0], bs), Block(xs[1..], bs), i, j);
    }
  }

  lemma {:induction false} AgainstTimes(xs: seq<Tree>, pes: seq<seq<Tree>>, i: nat, j: nat)
    requires HoldsSum(xs, i) + HoldsSum(Flat(pes), i) <= 1 && HoldsSum(xs, j) + HoldsSum(Flat(pes), j) <= 1
    ensures Times(Against(xs, pes), i, j) == Both(HoldsSum(xs, i), HoldsSum(Flat(pes), j))
          + Both(HoldsSum(xs, j), HoldsSum(Flat(pes), i))
  {
    if pes != [] {
      HoldsSumConcat(pes[0], Flat(pes[1..]), i);
      HoldsSumConcat(pes[0], Flat(pes[1..]), j);
      AgainstTimes(xs, pes[1..], i, j);
      BlockTimes(xs, pes[0], i, j);
      TimesConcat(Block(xs, pes[0]), Against(xs, pes[1..]), i, j);
    }
  }

  /** Every cross-PE pair once, no same-PE pair at all. */
  lemma {:induction false} AllPairsTimes(pes: seq<seq<Tree>>, i: nat, j: nat)
    requires HoldsSum(Flat(pes), i) <= 1 && HoldsSum(Flat(pes), j) <= 1
    ensures HoldsSum(Flat(pes), i) == 1 && HoldsSum(Flat(pes), j) == 1 ==>
              Times(AllPairs(pes), i, j) == if Home(pes, i) != Home(pes, j) then 1 else 0
    ensures HoldsSum(Flat(pes), i) == 0 || HoldsSum(Flat(pes), j) == 0 ==> Times(AllPairs(pes), i, j) == 0
  {
    if pes != [] {
      HoldsSumConcat(pes[0], Flat(pes[1..]), i);
      HoldsSumConcat(pes[0], Flat(pes[1..]), j);
      AllPairsTimes(pes[1..], i, j);
      AgainstTimes(pes[0], pes[1..], i, j);
      TimesConcat(Against(pes[0], pes[1..]), AllPairs(pes[1..]), i, j);
    }
  }

  // ---- buildPoolSlice: rank r takes the pairs whose index is r modulo the number of ranks.

  function Stride(pairs: seq<Unit>, idx: nat, rank: nat, n: nat, i: nat, j: nat): nat
    requires n > 0
  {
    if pairs == [] then 0
    else (if idx % n == rank then Weight(pairs[0].a, pairs[0].b, i, j) else 0)
          + Stride(pairs[1..], idx + 1, rank, n, i, j)
  }

  function StrideSum(pairs: seq<Unit>, idx: nat, m: nat, n: nat, i: nat, j: nat): nat
    requires n > 0
  {
    if m == 0 then 0 else StrideSum(pairs, idx, m - 1, n, i, j) + Stride(pairs, idx, m - 1, n, i, j)
  }

  lemma {:induction false} StrideSumStep(pairs: seq<Unit>, idx: nat, m: nat, n: nat, i: nat, j: nat)
    requires n > 0 && pairs != []
    ensures StrideSum(pairs, idx, m, n, i, j)
         == (if idx % n < m then Weight(pairs[0].a, pairs[0].b, i, j) else 0)
               + StrideSum(pairs[1..], idx + 1, m, n, i, j)
  {
    if m > 0 { StrideSumStep(pairs, idx, m - 1, n, i, j); }
  }

  lemma {:induction false} StrideSumEmpty(idx: nat, m: nat, n: nat, i: nat, j: nat)
    requires n > 0
    ensures StrideSum([], idx, m, n, i, j) == 0
  {
    if m > 0 { StrideSumEmpty(idx, m - 1, n, i, j); }
  }

  /** Together the ranks take every pair exactly once. */
  lemma {:induction false} StridesCover(pairs: seq<Unit>, idx: nat, n: nat, i: nat, j: nat)
    requires n > 0
    ensures StrideSum(pairs, idx, n, n, i, j) == Times(pairs, i, j)
  {
    if pairs == [] {
      StrideSumEmpty(idx, n, n, i, j);
    } else {
      StrideSumStep(pairs, idx, n, n, i, j);
      StridesCover(pairs[1..], idx + 1, n, i, j);
    }
  }

  lemma {:induction false} StrideSnoc(pairs: seq<Unit>, u: Unit, idx: nat, rank: nat, n: nat, i: nat, j: nat)
    requires n > 0
    ensures Stride(pairs + [u], idx, rank, n, i, j)
         == Stride(pairs, idx, rank, n, i, j) + if (idx + |pairs|) % n == rank then Weight(u.a, u.b, i, j) else 0
  {
    if pairs == [] {
      assert [u][1..] == [];
    } else {
      StrideSnoc(pairs[1..], u, idx + 1, rank, n, i, j);
      assert (pairs + [u])[1..] == pairs[1..] + [u];
    }
  }

  ghost predicate SliceExact(parts: seq<Particle>, rule: Rule, slice: seq<Unit>, pairs: seq<Unit>, rank: nat, n: nat)
    requires n > 0
  {
    forall i: nat, j: nat {:trigger Times(slice, i, j)} :: Interacts(parts, rule, i, j) ==>
      Times(slice, i, j) == Stride(pairs, 0, rank, n, i, j)
  }

  /** Every unit is what splitting one of the pairs comes to. */
  ghost predicate SplitFrom(rule: Rule, policy: SplitPolicy, pairs: seq<Unit>, units: seq<Unit>) {
    forall u {:trigger u in units} :: u in units ==> IsSplit(rule, policy, pairs, u)
  }

  ghost predicate IsSplit(rule: Rule, policy: SplitPolicy, pairs: seq<Unit>, u: Unit) {
    exists p {:trigger p in pairs} :: p in pairs && Reaches(rule, policy, p.a, p.b, 0, u)
  }

  lemma SplitMore(rule: Rule, policy: SplitPolicy, pairs: seq<Unit>, before: seq<Unit>, after: seq<Unit>, p: Unit)
    requires SplitFrom(rule, policy, pairs, before) && p in pairs
    requires Adds(before, after, u => Reaches(rule, policy, p.a, p.b, 0, u))
    ensures SplitFrom(rule, policy, pairs, after)
  {
    assert after == before + after[|before|..];
    forall u | u in after
      ensures IsSplit(rule, policy, pairs, u)
    {
      if u !in before { assert u in after[|before|..]; }
    }
  }

  lemma SplitPermuted(rule: Rule, policy: SplitPolicy, pairs: seq<Unit>, x: seq<Unit>, y: seq<Unit>)
    requires SplitFrom(rule, policy, pairs, x) && multiset(y) == multiset(x)
    ensures SplitFrom(rule, policy, pairs, y)
  {
    forall u | u in y
      ensures u in x
    {
      SameMembers(y, x, u);
    }
  }

  method BuildSlice(parts: seq<Particle>, rule: Rule, policy: SplitPolicy, pairs: seq<Unit>, rank: nat, n: nat,
                    cost: Unit -> int) returns (slice: seq<Unit>)
    requires AllReached(parts, rule) && UnitsOk(parts, pairs) && rank < n
    ensures UnitsOk(parts, slice) && SliceExact(parts, rule, slice, pairs, rank, n)
    ensures SplitFrom(rule, policy, pairs, slice) && SortedBy(slice, cost)
  {
    var raw: seq<Unit> := [];
    SliceStart(parts, rule, pairs, rank, n);
    for idx := 0 to |pairs|
      invariant UnitsOk(parts, raw) && SliceExact(parts, rule, raw, pairs[..idx], rank, n)
      invariant SplitFrom(rule, policy, pairs, raw)
    {
      var before := raw;
      assert pairs[idx] in pairs;
      if idx % n == rank {
        raw := PushInto(parts, rule, policy, raw, pairs[idx].a, pairs[idx].b, 0);
        SplitMore(rule, policy, pairs, before, raw, pairs[idx]);
      }
      SliceStep(parts, rule, before, raw, pairs, idx, rank, n);
    }
    assert pairs[..|pairs|] == pairs;
    slice := SortBy(raw, cost);
    forall i: nat, j: nat
      ensures Times(slice, i, j) == Times(raw, i, j)
    {
      TimesPermutes(slice, raw, i, j);
    }
    PermutedOk(parts, raw, slice);
    SplitPermuted(rule, policy, pairs, raw, slice);
  }

  lemma PermutedOk(parts: seq<Particle>, x: seq<Unit>, y: seq<Unit>)
    requires UnitsOk(parts, x) && multiset(y) == multiset(x)
    ensures UnitsOk(parts, y)
  {
    forall u | u in y
      ensures u in x
    {
      SameMembers(y, x, u);
    }
  }

  lemma SliceStart(parts: seq<Particle>, rule: Rule, pairs: seq<Unit>, rank: nat, n: nat)
    requires n > 0
    ensures SliceExact(parts, rule, [], pairs[..0], rank, n)
  {
    forall i: nat, j: nat
      ensures Stride(pairs[..0], 0, rank, n, i, j) == 0
    {
      assert pairs[..0] == [];
    }
  }

  lemma SliceStep(parts: seq<Particle>, rule: Rule, before: seq<Unit>, after: seq<Unit>, pairs: seq<Unit>, idx: nat,
                  rank: nat, n: nat)
    requires idx < |pairs| && rank < n && SliceExact(parts, rule, before, pairs[..idx], rank, n)
    requires if idx % n == rank then Gains(parts, rule, before, after, [pairs[idx].a], pairs[idx].b)
          else after == before
    ensures SliceExact(parts, rule, after, pairs[..idx + 1], rank, n)
  {
    assert pairs[..idx + 1] == pairs[..idx] + [pairs[idx]];
    forall i: nat, j: nat | Interacts(parts, rule, i, j)
      ensures Times(after, i, j) == Stride(pairs[..idx + 1], 0, rank, n, i, j)
    {
      assert Times(before, i, j) == Stride(pairs[..idx], 0, rank, n, i, j);
      StrideSnoc(pairs[..idx], pairs[idx], 0, rank, n, i, j);
      WeightOfOne(pairs[idx].a, pairs[idx].b, i, j);
    }
  }

  // ---- Assembly.

  function Concat(slices: seq<seq<Unit>>): seq<Unit> {
    if slices == [] then [] else slices[0] + Concat(slices[1..])
  }

  /** The first i units of every slice. */
  function Heads(slices: seq<seq<Unit>>, i: nat): multiset<Unit> {
    if slices == [] then multiset{} else Head(slices[0], i) + Heads(slices[1..], i)
  }

  /** What one round-robin turn adds: the i-th unit of every slice that has one. */
  function Turn(slices: seq<seq<Unit>>, i: nat): seq<Unit> {
    if slices == [] then [] else (if i < |slices[0]| then [slices[0][i]] else []) + Turn(slices[1..], i)
  }

  lemma {:induction false} TurnSnoc(slices: seq<seq<Unit>>, s: seq<Unit>, i: nat)
    ensures Turn(slices + [s], i) == Turn(slices, i) + if i < |s| then [s[i]] else []
  {
    if slices == [] {
      assert (slices + [s])[1..] == [];
    } else {
      TurnSnoc(slices[1..], s, i);
      assert (slices + [s])[1..] == slices[1..] + [s];
    }
  }

  function Head(s: seq<Unit>, i: nat): multiset<Unit> {
    multiset(s[..if i < |s| then i else |s|])
  }

  lemma HeadNext(s: seq<Unit>, i: nat)
    ensures Head(s, i + 1) == Head(s, i) + multiset(if i < |s| then [s[i]] else [])
  {
    if i < |s| { assert s[..i + 1] == s[..i] + [s[i]]; }
  }

  lemma {:induction false} HeadsTurn(slices: seq<seq<Unit>>, i: nat)
    ensures Heads(slices, i + 1) == Heads(slices, i) + multiset(Turn(slices, i))
  {
    if slices != [] {
      HeadsTurn(slices[1..], i);
      HeadNext(slices[0], i);
      var one: seq<Unit> := if i < |slices[0]| then [slices[0][i]] else [];
      assert Turn(slices, i) == one + Turn(slices[1..], i);
      assert multiset(one + Turn(slices[1..], i)) == multiset(one) + multiset(Turn(slices[1..], i));
    }
  }

  lemma {:induction false} HeadsAll(slices: seq<seq<Unit>>, i: nat)
    requires forall s :: s in slices ==> |s| <= i
    ensures Heads(slices, i) == multiset(Concat(slices))
  {
    if slices != [] {
      HeadsAll(slices[1..], i);
      assert slices[0][..|slices[0]|] == slices[0];
    }
  }

  lemma {:induction false} HeadsNone(slices: seq<seq<Unit>>)
    ensures Heads(slices, 0) == multiset{}
  {
    if slices != [] { HeadsNone(slices[1..]); }
  }

  /** The comparison-free merge: one unit from each slice in turn. */
  /** All first units, then all second units, and so on. */
  function Turns(slices: seq<seq<Unit>>, n: nat): seq<Unit> {
    if n == 0 then [] else Turns(slices, n - 1) + Turn(slices, n - 1)
  }

  method RoundRobin(slices: seq<seq<Unit>>) returns (pool: seq<Unit>, ghost turns: nat)
    ensures multiset(pool) == multiset(Concat(slices))
    ensures pool == Turns(slices, turns) && forall s :: s in slices ==> |s| <= turns
  {
    pool := [];
    var longest := Longest(slices);
    HeadsNone(slices);
    var i := 0;
    while i < longest
      invariant 0 <= i <= longest && multiset(pool) == Heads(slices, i) && pool == Turns(slices, i)
    {
      var turn := TakeTurn(slices, i);
      HeadsTurn(slices, i);
      pool := pool + turn;
      i := i + 1;
    }
    HeadsAll(slices, longest);
    turns := longest;
  }

  method Longest(slices: seq<seq<Unit>>) returns (longest: nat)
    ensures forall s :: s in slices ==> |s| <= longest
  {
    longest := 0;
    for k := 0 to |slices|
      invariant forall s :: s in slices[..k] ==> |s| <= longest
    {
      if |slices[k]| > longest { longest := |slices[k]|; }
    }
    assert slices[..|slices|] == slices;
  }

  method TakeTurn(slices: seq<seq<Unit>>, i: nat) returns (turn: seq<Unit>)
    ensures turn == Turn(slices, i)
  {
    turn := [];
    assert slices[..0] == [];
    for k := 0 to |slices|
      invariant turn == Turn(slices[..k], i)
    {
      assert slices[..k + 1] == slices[..k] + [slices[k]];
      TurnSnoc(slices[..k], slices[k], i);
      if i < |slices[k]| { turn := turn + [slices[k][i]]; }
    }
    assert slices[..|slices|] == slices;
  }

  // ---- The adaptive tail split: a worklist that opens the larger side of costly units.

  /** Both pools hold every interacting pair equally often. */
  ghost predicate SamePairs(parts: seq<Particle>, rule: Rule, x: seq<Unit>, y: seq<Unit>) {
    forall i: nat, j: nat {:trigger Times(y, i, j)} {:trigger Times(x, i, j)} :: Interacts(parts, rule, i, j) ==>
          Times(x, i, j) == Times(y, i, j)
  }

  function Mass(units: seq<Unit>): nat {
    if units == [] then 0 else Size(units[0].a) * Size(units[0].b) + Mass(units[1..])
  }

  lemma {:induction false} MassSnoc(units: seq<Unit>, u: Unit)
    ensures Mass(units + [u]) == Mass(units) + Size(u.a) * Size(u.b)
  {
    if units == [] {
      assert [u][1..] == [];
    } else {
      MassSnoc(units[1..], u);
      assert (units + [u])[1..] == units[1..] + [u];
    }
  }

  lemma {:induction false} SizeAllSnoc(ts: seq<Tree>, t: Tree)
    ensures SizeAll(ts + [t]) == SizeAll(ts) + Size(t)
  {
    if ts == [] {
      assert [t][1..] == [];
    } else {
      SizeAllSnoc(ts[1..], t);
      assert (ts + [t])[1..] == ts[1..] + [t];
    }
  }

  lemma MassOfChild(x: nat, c: nat, o: nat)
    ensures (x + c) * o == x * o + c * o
  {
  }

  /** u is a non-empty child of node within reach of the other side. */
  ghost predicate OpensTo(rule: Rule, node: Tree, other: Tree, u: Unit) {
    && node.Inner? && u.b == other && MinDist2(u.a.box, other.box, rule.period) <= rule.b2
    && exists k {:trigger node.children[k]} :: 0 <= k < |node.children| && u.a == node.children[k] && !u.a.Empty()
  }

  /** What was added are children of node against the other side, one level down. */
  ghost predicate OpenedOnto(rule: Rule, node: Tree, other: Tree, work: seq<Unit>, depths: seq<nat>, w: seq<Unit>,
                             d: seq<nat>, depth: nat)
  {
    && |w| == |d| && |work| == |depths| && work <= w && depths <= d
    && forall q {:trigger w[q]} :: |work| <= q < |w| ==> d[q] == depth + 1 && OpensTo(rule, node, other, w[q])
  }

  lemma OneMoreOpened(rule: Rule, node: Tree, other: Tree, work: seq<Unit>, depths: seq<nat>, w: seq<Unit>,
                      d: seq<nat>, depth: nat, k: nat)
    requires OpenedOnto(rule, node, other, work, depths, w, d, depth) && node.Inner? && k < |node.children|
    requires !node.children[k].Empty() && MinDist2(node.children[k].box, other.box, rule.period) <= rule.b2
    ensures OpenedOnto(rule, node, other, work, depths, w + [Unit(node.children[k], other)], d + [depth + 1], depth)
  {
    var u := Unit(node.children[k], other);
    var w', d' := w + [u], d + [depth + 1];
    assert u.a == node.children[k] && OpensTo(rule, node, other, u);
    assert work <= w' && depths <= d';
    forall q | |work| <= q < |w'|
      ensures d'[q] == depth + 1 && OpensTo(rule, node, other, w'[q])
    {
      if q < |w| { assert w'[q] == w[q] && d'[q] == d[q]; } else { assert w'[q] == u && d'[q] == depth + 1; }
    }
  }

  predicate TailStops(heavy: Unit -> bool, u: Unit, depth: nat) {
    depth >= 4 || !heavy(u) || (u.a.Leaf? && u.b.Leaf?)
  }

  /** u is what the tail split makes of p: opened while costly, four levels at most. */
  ghost predicate TailReaches(rule: Rule, heavy: Unit -> bool, p: Unit, depth: nat, u: Unit)
    decreases 4 - depth
  {
    if TailStops(heavy, p, depth) then u == p else
      exists q {:trigger TailReaches(rule, heavy, q, depth + 1, u)} ::
        OpensTo(rule, Opener(p), Closer(p), q) && TailReaches(rule, heavy, q, depth + 1, u)
  }

  function Opener(u: Unit): Tree {
    if OpensFirst(u.a, u.b) then u.a else u.b
  }

  function Closer(u: Unit): Tree {
    if OpensFirst(u.a, u.b) then u.b else u.a
  }

  ghost predicate TailFrom(rule: Rule, heavy: Unit -> bool, pool: seq<Unit>, u: Unit) {
    exists p {:trigger p in pool} :: p in pool && TailReaches(rule, heavy, p, 0, u)
  }

  /** Whatever comes of a waiting entry comes of the pool. */
  ghost predicate Waits(rule: Rule, heavy: Unit -> bool, pool: seq<Unit>, p: Unit, depth: nat) {
    forall u {:trigger TailReaches(rule, heavy, p, depth, u)} :: TailReaches(rule, heavy, p, depth, u) ==>
      TailFrom(rule, heavy, pool, u)
  }

  ghost predicate AllWait(rule: Rule, heavy: Unit -> bool, pool: seq<Unit>, work: seq<Unit>, depths: seq<nat>) {
    |work| == |depths| && forall k {:trigger work[k]} :: 0 <= k < |work| ==>
          Waits(rule, heavy, pool, work[k], depths[k])
  }

  ghost predicate AllFrom(rule: Rule, heavy: Unit -> bool, pool: seq<Unit>, out: seq<Unit>) {
    forall u {:trigger u in out} :: u in out ==> TailFrom(rule, heavy, pool, u)
  }

  lemma PoolWaits(rule: Rule, heavy: Unit -> bool, pool: seq<Unit>, depths: seq<nat>)
    requires depths == seq(|pool|, k => 0)
    ensures AllWait(rule, heavy, pool, pool, depths)
  {
    forall k | 0 <= k < |pool|
      ensures Waits(rule, heavy, pool, pool[k], depths[k])
    {
      assert pool[k] in pool;
    }
  }

  lemma OpenedWaits(rule: Rule, heavy: Unit -> bool, pool: seq<Unit>, p: Unit, depth: nat, q: Unit)
    requires Waits(rule, heavy, pool, p, depth) && !TailStops(heavy, p, depth)
    requires OpensTo(rule, Opener(p), Closer(p), q)
    ensures Waits(rule, heavy, pool, q, depth + 1)
  {
    forall u | TailReaches(rule, heavy, q, depth + 1, u)
      ensures TailFrom(rule, heavy, pool, u)
    {
      assert TailReaches(rule, heavy, p, depth, u);
    }
  }

  /** Push the non-empty children of one side that are near the other side. */
  method PushChildren(parts: seq<Particle>, rule: Rule, work: seq<Unit>, depths: seq<nat>, node: Tree, other: Tree,
                      depth: nat)
    returns (w: seq<Unit>, d: seq<nat>)
    requires AllReached(parts, rule) && Good(node, parts) && node.Inner? && Good(other, parts)
    requires UnitsOk(parts, work) && |work| == |depths|
    ensures UnitsOk(parts, w) && |w| == |d| && Gains(parts, rule, work, w, [node], other)
    ensures Mass(w) < Mass(work) + Size(node) * Size(other)
    ensures OpenedOnto(rule, node, other, work, depths, w, d, depth)
  {
    w, d := work, depths;
    GainsNothing(parts, rule, work, node.children, other);
    assert node.children[..0] == [];
    for k := 0 to |node.children|
      invariant UnitsOk(parts, w) && |w| == |d| && Gains(parts, rule, work, w, node.children[..k], other)
      invariant Mass(w) <= Mass(work) + SizeAll(node.children[..k]) * Size(other)
      invariant OpenedOnto(rule, node, other, work, depths, w, d, depth)
    {
      var before := w;
      var c := node.children[k];
      ChildFacts(node, parts, k);
      assert node.children[..k + 1] == node.children[..k] + [c];
      SizeAllSnoc(node.children[..k], c);
      MassOfChild(SizeAll(node.children[..k]), Size(c), Size(other));
      MassSnoc(w, Unit(c, other));
      if !c.Empty() {
        if MinDist2(c.box, other.box, rule.period) <= rule.b2 {
          OneMoreOpened(rule, node, other, work, depths, w, d, depth, k);
          w, d := w + [Unit(c, other)], d + [depth + 1];
        }
        ChildGains(parts, rule, before, w, c, other);
      }
      GainsChain(parts, rule, work, before, w, node.children, k, other);
    }
    assert node.children[..|node.children|] == node.children;
    GainsShared(parts, rule, work, w, node, other);
    MassOfChild(SizeAll(node.children), 1, Size(other));
  }

  lemma ChildGains(parts: seq<Particle>, rule: Rule, before: seq<Unit>, after: seq<Unit>, c: Tree, other: Tree)
    requires AllReached(parts, rule) && Good(c, parts) && Good(other, parts)
    requires after == if MinDist2(c.box, other.box, rule.period) <= rule.b2 then before + [Unit(c, other)] else before
    ensures Gains(parts, rule, before, after, [c], other)
  {
    forall i: nat, j: nat | Interacts(parts, rule, i, j)
      ensures Times(after, i, j) == Times(before, i, j) + WeightSum([c], other, i, j)
    {
      WeightOfOne(c, other, i, j);
      if MinDist2(c.box, other.box, rule.period) <= rule.b2 {
        TimesSnoc(before, Unit(c, other), i, j);
      } else {
        FarWeightless(parts, rule, c, other, i, j);
      }
    }
  }

  method OpenUnit(parts: seq<Particle>, rule: Rule, heavy: Unit -> bool, ghost pool: seq<Unit>, work: seq<Unit>,
                  depths: seq<nat>, u: Unit, depth: nat) returns (w: seq<Unit>, d: seq<nat>)
    requires AllReached(parts, rule) && Good(u.a, parts) && Good(u.b, parts) && UnitsOk(parts, work)
    requires !TailStops(heavy, u, depth) && AllWait(rule, heavy, pool, work, depths)
    requires Waits(rule, heavy, pool, u, depth)
    ensures UnitsOk(parts, w) && |w| == |d| && Gains(parts, rule, work, w, [Opener(u)], Closer(u))
    ensures Mass(w) < Mass(work) + Size(Opener(u)) * Size(Closer(u)) && AllWait(rule, heavy, pool, w, d)
  {
    w, d := PushChildren(parts, rule, work, depths, Opener(u), Closer(u), depth);
    forall k | |work| <= k < |w|
      ensures Waits(rule, heavy, pool, w[k], d[k])
    {
      OpenedWaits(rule, heavy, pool, u, depth, w[k]);
    }
  }

  method TailSplit(parts: seq<Particle>, rule: Rule, pool: seq<Unit>, heavy: Unit -> bool) returns (out: seq<Unit>)
    requires AllReached(parts, rule) && UnitsOk(parts, pool)
    ensures UnitsOk(parts, out) && SamePairs(parts, rule, pool, out) && AllFrom(rule, heavy, pool, out)
  {
    out := [];
    var work, depths := pool, seq(|pool|, k => 0);
    assert out + work == pool;
    PoolWaits(rule, heavy, pool, depths);
    while work != []
      invariant |work| == |depths| && UnitsOk(parts, work) && UnitsOk(parts, out)
      invariant SamePairs(parts, rule, pool, out + work)
      invariant AllWait(rule, heavy, pool, work, depths) && AllFrom(rule, heavy, pool, out)
      decreases Mass(work)
    {
      var u, depth := work[|work| - 1], depths[|work| - 1];
      ghost var had := out + work;
      assert work == work[..|work| - 1] + [u];
      work, depths := work[..|work| - 1], depths[..|work| - 1];
      SnocOk(parts, work, u);
      MassSnoc(work, u);
      SizesPositive(u);
      if !TailStops(heavy, u, depth) {
        ghost var rest := work;
        SizeProductSwaps(u);
        work, depths := OpenUnit(parts, rule, heavy, pool, work, depths, u, depth);
        SplitKeeps(parts, rule, out, rest, work, u, Opener(u), Closer(u));
      } else {
        assert TailReaches(rule, heavy, u, depth, u);
        MoveKeeps(parts, rule, out, work, u);
        out := out + [u];
      }
      forall i: nat, j: nat | Interacts(parts, rule, i, j)
        ensures Times(pool, i, j) == Times(out + work, i, j)
      {
        assert Times(had, i, j) == Times(out + work, i, j);
      }
    }
    assert out + [] == out;
  }

  lemma SnocOk(parts: seq<Particle>, x: seq<Unit>, u: Unit)
    requires UnitsOk(parts, x + [u])
    ensures UnitsOk(parts, x) && Good(u.a, parts) && Good(u.b, parts)
  {
    assert u in x + [u];
    forall v | v in x
      ensures v in x + [u]
    {
    }
  }

  lemma SizesPositive(u: Unit)
    ensures Size(u.a) * Size(u.b) > 0
  {
  }

  lemma SizeProductSwaps(u: Unit)
    ensures Size(u.a) * Size(u.b) == Size(u.b) * Size(u.a)
  {
  }

  lemma SplitKeeps(parts: seq<Particle>, rule: Rule, out: seq<Unit>, rest: seq<Unit>, work: seq<Unit>, u: Unit,
                   node: Tree, other: Tree)
    requires Gains(parts, rule, rest, work, [node], other)
    requires (node == u.a && other == u.b) || (node == u.b && other == u.a)
    ensures SamePairs(parts, rule, out + (rest + [u]), out + work)
  {
    forall i: nat, j: nat | Interacts(parts, rule, i, j)
      ensures Times(out + (rest + [u]), i, j) == Times(out + work, i, j)
    {
      TimesConcat(out, rest + [u], i, j);
      TimesSnoc(rest, u, i, j);
      TimesConcat(out, work, i, j);
      WeightOfOne(node, other, i, j);
      WeightSwaps(u.a, u.b, i, j);
    }
  }

  lemma MoveKeeps(parts: seq<Particle>, rule: Rule, out: seq<Unit>, rest: seq<Unit>, u: Unit)
    ensures SamePairs(parts, rule, out + (rest + [u]), (out + [u]) + rest)
  {
    forall i: nat, j: nat | Interacts(parts, rule, i, j)
      ensures Times(out + (rest + [u]), i, j) == Times((out + [u]) + rest, i, j)
    {
      TimesConcat(out, rest + [u], i, j);
      TimesSnoc(rest, u, i, j);
      TimesConcat(out + [u], rest, i, j);
      TimesSnoc(out, u, i, j);
    }
  }

  // ---- The partition reorder: B1 units grouped by region, costliest region first, then the B2 tail.

  /** The units of the pool that the classification assigns to region r (B1), or to the tail. */
  function Part(pool: seq<Unit>, region: seq<nat>, tail: seq<bool>, r: nat, wantTail: bool): seq<Unit>
    requires |pool| == |region| == |tail|
  {
    if pool == [] then []
    else (if (if wantTail then tail[0] else !tail[0] && region[0] == r) then [pool[0]] else [])
          + Part(pool[1..], region[1..], tail[1..], r, wantTail)
  }

  function Regions(pool: seq<Unit>, region: seq<nat>, tail: seq<bool>, order: seq<nat>): seq<Unit>
    requires |pool| == |region| == |tail|
  {
    if order == [] then [] else Part(pool, region, tail, order[0], false) + Regions(pool, region, tail, order[1..])
  }

  /** The head unit goes to its own region's group, if it is no tail unit. */
  lemma {:induction false} RegionsStep(pool: seq<Unit>, region: seq<nat>, tail: seq<bool>, order: seq<nat>)
    requires |pool| == |region| == |tail| && pool != [] && NoRepeats(order)
    ensures multiset(Regions(pool, region, tail, order))
         == multiset(Regions(pool[1..], region[1..], tail[1..], order))
            + if !tail[0] && region[0] in order then multiset{pool[0]} else multiset{}
  {
    if order != [] {
      var rest := order[1..];
      RegionsStep(pool, region, tail, rest);
      assert order == [order[0]] + rest && order[0] !in rest;
      PartHead(pool, region, tail, order[0]);
      RegionsHead(pool, region, tail, order);
      RegionsHead(pool[1..], region[1..], tail[1..], order);
    }
  }

  lemma RegionsHead(pool: seq<Unit>, region: seq<nat>, tail: seq<bool>, order: seq<nat>)
    requires |pool| == |region| == |tail| && order != []
    ensures multiset(Regions(pool, region, tail, order))
         == multiset(Part(pool, region, tail, order[0], false)) + multiset(Regions(pool, region, tail, order[1..]))
  {
  }

  lemma PartHead(pool: seq<Unit>, region: seq<nat>, tail: seq<bool>, r: nat)
    requires |pool| == |region| == |tail| && pool != []
    ensures multiset(Part(pool, region, tail, r, false))
         == multiset(Part(pool[1..], region[1..], tail[1..], r, false))
            + if !tail[0] && region[0] == r then multiset{pool[0]} else multiset{}
  {
  }

  lemma {:induction false} NoRegions(region: seq<nat>, tail: seq<bool>, order: seq<nat>)
    requires |region| == |tail| == 0
    ensures Regions([], region, tail, order) == []
  {
    if order != [] { NoRegions(region, tail, order[1..]); }
  }

  lemma PartStep(pool: seq<Unit>, region: seq<nat>, tail: seq<bool>)
    requires |pool| == |region| == |tail| && pool != []
    ensures multiset(Part(pool, region, tail, 0, true))
         == multiset(Part(pool[1..], region[1..], tail[1..], 0, true))
            + if tail[0] then multiset{pool[0]} else multiset{}
    ensures multiset(pool) == multiset(pool[1..]) + multiset{pool[0]}
  {
    assert pool == [pool[0]] + pool[1..];
  }

  /** Each unit lands in its own region's group or in the tail, once. */
  lemma {:induction false} ReorderPermutes(pool: seq<Unit>, region: seq<nat>, tail: seq<bool>, order: seq<nat>)
    requires |pool| == |region| == |tail| && NoRepeats(order)
    requires forall r {:trigger r in region} :: r in region ==> r in order
    ensures multiset(Regions(pool, region, tail, order)) + multiset(Part(pool, region, tail, 0, true)) == multiset(pool)
  {
    if pool == [] {
      NoRegions(region, tail, order);
    } else {
      assert region[0] in region;
      forall r | r in region[1..] ensures r in region { }
      RegionsStep(pool, region, tail, order);
      PartStep(pool, region, tail);
      ReorderPermutes(pool[1..], region[1..], tail[1..], order);
    }
  }

  lemma {:induction false} RegionsSnoc(pool: seq<Unit>, region: seq<nat>, tail: seq<bool>, order: seq<nat>, p: nat)
    requires |pool| == |region| == |tail|
    ensures Regions(pool, region, tail, order + [p]) == Regions(pool, region, tail, order)
          + Part(pool, region, tail, p, false)
  {
    if order == [] {
      assert ([p])[1..] == [];
    } else {
      RegionsSnoc(pool, region, tail, order[1..], p);
      assert (order + [p])[1..] == order[1..] + [p];
    }
  }

  lemma SortedIotaFacts(order: seq<nat>, n: nat)
    requires multiset(order) == multiset(seq(n, k => k)) && |order| == n
    ensures NoRepeats(order) && forall r :: 0 <= r < n ==> r in order
  {
    var iota: seq<nat> := seq(n, k => k);
    forall r: nat | r < n
      ensures r in order
    {
      assert iota[r] == r;
      SameMembers(order, iota, r);
    }
    forall a, b | 0 <= a < b < |order|
      ensures order[a] != order[b]
    {
      assert order == order[..b] + order[b..];
      assert order[a] in order[..b] && order[b] in order[b..];
      SameMembers(order, iota, order[b]);
      assert order[b] in order;
      var x := order[b];
      assert iota == iota[..x] + [iota[x]] + iota[x + 1..];
      assert x !in iota[..x] && x !in iota[x + 1..];
      assert multiset(order)[x] == multiset(iota)[x] == 1;
      assert multiset(order)[x] == multiset(order[..b])[x] + multiset(order[b..])[x];
    }
  }

  /** The classification of a unit: its region, and whether it belongs to the tail. */
  ghost predicate Classified(pool: seq<Unit>, region: seq<nat>, tail: seq<bool>, regionOf: Unit -> nat,
                             isTail: Unit -> bool)
  {
    && |pool| == |region| == |tail|
    && forall k {:trigger pool[k]} :: 0 <= k < |pool| ==> region[k] == regionOf(pool[k]) && tail[k] == isTail(pool[k])
  }

  lemma {:induction false} PartKind(pool: seq<Unit>, region: seq<nat>, tail: seq<bool>, regionOf: Unit -> nat,
                                    isTail: Unit -> bool, r: nat, wantTail: bool)
    requires Classified(pool, region, tail, regionOf, isTail)
    ensures forall u {:trigger u in Part(pool, region, tail, r, wantTail)} ::
              u in Part(pool, region, tail, r, wantTail) ==> isTail(u) == wantTail && (!wantTail ==> regionOf(u) == r)
  {
    if pool != [] {
      assert region[0] == regionOf(pool[0]) && tail[0] == isTail(pool[0]);
      assert Classified(pool[1..], region[1..], tail[1..], regionOf, isTail) by {
        forall k | 0 <= k < |pool| - 1
          ensures region[1..][k] == regionOf(pool[1..][k]) && tail[1..][k] == isTail(pool[1..][k])
        {
          assert pool[k + 1] == pool[1..][k];
        }
      }
      PartKind(pool[1..], region[1..], tail[1..], regionOf, isTail, r, wantTail);
    }
  }

  /** B1 units only, in the order of their regions' cost, none above top. */
  ghost predicate InRegions(r: seq<Unit>, regionOf: Unit -> nat, isTail: Unit -> bool, regionCost: nat -> int, top: int)
  {
    && (forall k {:trigger r[k]} :: 0 <= k < |r| ==> !isTail(r[k]) && regionCost(regionOf(r[k])) <= top)
    && SortedBy(r, u => regionCost(regionOf(u)))
  }

  lemma GroupJoins(r: seq<Unit>, group: seq<Unit>, regionOf: Unit -> nat, isTail: Unit -> bool,
                   regionCost: nat -> int, top: int, p: nat)
    requires InRegions(r, regionOf, isTail, regionCost, top) && top <= regionCost(p)
    requires forall u {:trigger u in group} :: u in group ==> !isTail(u) && regionOf(u) == p
    ensures InRegions(r + group, regionOf, isTail, regionCost, regionCost(p))
  {
    var all := r + group;
    forall k | 0 <= k < |all|
      ensures !isTail(all[k]) && regionCost(regionOf(all[k])) <= regionCost(p)
      ensures k >= |r| ==> regionOf(all[k]) == p
    {
      if k < |r| { assert all[k] == r[k]; } else { assert all[k] == group[k - |r|] && group[k - |r|] in group; }
    }
    forall i, j | 0 <= i < j < |all|
      ensures regionCost(regionOf(all[i])) <= regionCost(regionOf(all[j]))
    {
      if j < |r| { assert all[i] == r[i] && all[j] == r[j]; }
    }
  }

  /** B1 first, its regions in the order of their cost, then the tail in the order of its units' cost; the boundary
      parts the two kinds exactly. */
  ghost predicate Arranged(r: seq<Unit>, b2Begin: nat, regionOf: Unit -> nat, isTail: Unit -> bool,
                           regionCost: nat -> int, cost: Unit -> int)
  {
    && b2Begin <= |r|
    && (forall k {:trigger r[k]} :: 0 <= k < |r| ==> (isTail(r[k]) <==> k >= b2Begin))
    && SortedBy(r[..b2Begin], u => regionCost(regionOf(u))) && SortedBy(r[b2Begin..], cost)
  }

  lemma TailAppended(r: seq<Unit>, rest: seq<Unit>, regionOf: Unit -> nat, isTail: Unit -> bool,
                     regionCost: nat -> int, cost: Unit -> int, top: int)
    requires InRegions(r, regionOf, isTail, regionCost, top) && SortedBy(rest, cost)
    requires forall k {:trigger rest[k]} :: 0 <= k < |rest| ==> isTail(rest[k])
    ensures Arranged(r + rest, |r|, regionOf, isTail, regionCost, cost)
  {
    var all := r + rest;
    assert all[..|r|] == r && all[|r|..] == rest;
    forall k | 0 <= k < |all|
      ensures isTail(all[k]) <==> k >= |r|
    {
      if k < |r| { assert all[k] == r[k]; } else { assert all[k] == rest[k - |r|]; }
    }
  }

  /** The cost of the last of the first n regions, or a bound for none. */
  function TopCost(order: seq<nat>, regionCost: nat -> int, n: nat): int
    requires n <= |order|
  {
    if n > 0 then regionCost(order[n - 1]) else if order != [] then regionCost(order[0]) else 0
  }

  lemma TailKind(pool: seq<Unit>, region: seq<nat>, tail: seq<bool>, rest: seq<Unit>, regionOf: Unit -> nat,
                 isTail: Unit -> bool)
    requires Classified(pool, region, tail, regionOf, isTail)
    requires multiset(rest) == multiset(Part(pool, region, tail, 0, true))
    ensures forall k {:trigger rest[k]} :: 0 <= k < |rest| ==> isTail(rest[k])
  {
    PartKind(pool, region, tail, regionOf, isTail, 0, true);
    forall k | 0 <= k < |rest|
      ensures isTail(rest[k])
    {
      SameMembers(rest, Part(pool, region, tail, 0, true), rest[k]);
    }
  }

  method Reorder(ghost parts: seq<Particle>, pool: seq<Unit>, region: seq<nat>, tail: seq<bool>, n: nat,
                 regionCost: nat -> int, cost: Unit -> int, ghost regionOf: Unit -> nat, ghost isTail: Unit -> bool)
    returns (r: seq<Unit>, b2Begin: nat)
    requires |pool| == |region| == |tail| && forall k :: 0 <= k < |region| ==> region[k] < n
    requires UnitsOk(parts, pool) && Classified(pool, region, tail, regionOf, isTail)
    ensures multiset(r) == multiset(pool) && b2Begin <= |r|
    ensures Arranged(r, b2Begin, regionOf, isTail, regionCost, cost)
  {
    var iota: seq<nat> := seq(n, k => k);
    var order := SortBy(iota, regionCost);
    SortedIotaFacts(order, n);
    var first := FirstRound(pool, region, tail, order, regionCost, cost, regionOf, isTail);
    var rest := SortBy(Part(pool, region, tail, 0, true), cost);
    ReorderPermutes(pool, region, tail, order);
    TailKind(pool, region, tail, rest, regionOf, isTail);
    TailAppended(first, rest, regionOf, isTail, regionCost, cost, TopCost(order, regionCost, |order|));
    r, b2Begin := first + rest, |first|;
  }

  lemma NextRegion(pool: seq<Unit>, region: seq<nat>, tail: seq<bool>, order: seq<nat>, p: nat, r: seq<Unit>,
                   group: seq<Unit>)
    requires |pool| == |region| == |tail|
    requires multiset(r) == multiset(Regions(pool, region, tail, order))
    requires multiset(group) == multiset(Part(pool, region, tail, p, false))
    ensures multiset(r + group) == multiset(Regions(pool, region, tail, order + [p]))
  {
    RegionsSnoc(pool, region, tail, order, p);
    SameJoined(r, group, Regions(pool, region, tail, order), Part(pool, region, tail, p, false));
  }

  lemma SameJoined(x: seq<Unit>, y: seq<Unit>, u: seq<Unit>, w: seq<Unit>)
    requires multiset(x) == multiset(u) && multiset(y) == multiset(w)
    ensures multiset(x + y) == multiset(u + w)
  {
    assert multiset(x + y) == multiset(x) + multiset(y);
    assert multiset(u + w) == multiset(u) + multiset(w);
  }

  method RegionGroup(pool: seq<Unit>, region: seq<nat>, tail: seq<bool>, p: nat, cost: Unit -> int,
                     ghost regionOf: Unit -> nat, ghost isTail: Unit -> bool) returns (group: seq<Unit>)
    requires Classified(pool, region, tail, regionOf, isTail)
    ensures multiset(group) == multiset(Part(pool, region, tail, p, false)) && SortedBy(group, cost)
    ensures forall u {:trigger u in group} :: u in group ==> !isTail(u) && regionOf(u) == p
  {
    group := SortBy(Part(pool, region, tail, p, false), cost);
    PartKind(pool, region, tail, regionOf, isTail, p, false);
    forall u | u in group
      ensures !isTail(u) && regionOf(u) == p
    {
      SameMembers(group, Part(pool, region, tail, p, false), u);
    }
  }

  method AddRegion(pool: seq<Unit>, region: seq<nat>, tail: seq<bool>, ghost done: seq<nat>, p: nat, r: seq<Unit>,
                   ghost top: int, ghost regionCost: nat -> int, cost: Unit -> int, ghost regionOf: Unit -> nat,
                   ghost isTail: Unit -> bool)
    returns (more: seq<Unit>)
    requires Classified(pool, region, tail, regionOf, isTail) && top <= regionCost(p)
    requires multiset(r) == multiset(Regions(pool, region, tail, done))
    requires InRegions(r, regionOf, isTail, regionCost, top)
    ensures multiset(more) == multiset(Regions(pool, region, tail, done + [p]))
    ensures InRegions(more, regionOf, isTail, regionCost, regionCost(p))
  {
    var group := RegionGroup(pool, region, tail, p, cost, regionOf, isTail);
    NextRegion(pool, region, tail, done, p, r, group);
    GroupJoins(r, group, regionOf, isTail, regionCost, top, p);
    more := r + group;
  }

  /** Region after region, each in the order of its units' cost. */
  method FirstRound(pool: seq<Unit>, region: seq<nat>, tail: seq<bool>, order: seq<nat>, ghost regionCost: nat -> int,
                    cost: Unit -> int, ghost regionOf: Unit -> nat, ghost isTail: Unit -> bool)
    returns (r: seq<Unit>)
    requires Classified(pool, region, tail, regionOf, isTail) && SortedBy(order, regionCost)
    ensures multiset(r) == multiset(Regions(pool, region, tail, order))
    ensures InRegions(r, regionOf, isTail, regionCost, TopCost(order, regionCost, |order|))
  {
    r := [];
    ghost var done: seq<nat> := [];
    for k := 0 to |order|
      invariant done == order[..k] && multiset(r) == multiset(Regions(pool, region, tail, done))
      invariant InRegions(r, regionOf, isTail, regionCost, TopCost(order, regionCost, k))
    {
      assert TopCost(order, regionCost, k) <= regionCost(order[k]) == TopCost(order, regionCost, k + 1);
      r := AddRegion(pool, region, tail, done, order[k], r, TopCost(order, regionCost, k), regionCost, cost, regionOf,
                     isTail);
      done := done + [order[k]];
    }
    assert done == order;
  }

  // ---- The whole build.

  /** The heuristics of a build, all free: split policy, unit cost, tail-split choice, partitioning. */
  datatype BuildPlan = BuildPlan(policy: SplitPolicy, cost: Unit -> int, heavy: Unit -> bool, regions: nat,
        regionOf: Unit -> nat, isTail: Unit -> bool, regionCost: nat -> int)

  /** The pieces of all PEs tile the process's particles. */
  ghost predicate Registered(pes: seq<seq<Tree>>, parts: seq<Particle>) {
    && Adjoin(Flat(pes), 0) && CountAll(Flat(pes)) == |parts|
    && forall t {:trigger t in Flat(pes)} :: t in Flat(pes) ==> Good(t, parts)
  }

  /** Every interacting pair is in exactly one unit if its particles are on different PEs, in none
      if they are on one. */
  ghost predicate CoversOnce(parts: seq<Particle>, rule: Rule, pes: seq<seq<Tree>>, pool: seq<Unit>) {
    forall i: nat, j: nat {:trigger Times(pool, i, j)} :: Interacts(parts, rule, i, j) ==>
      Times(pool, i, j) == if Home(pes, i) != Home(pes, j) then 1 else 0
  }

  lemma {:induction false} PairsOk(pes: seq<seq<Tree>>, parts: seq<Particle>)
    requires forall t {:trigger t in Flat(pes)} :: t in Flat(pes) ==> Good(t, parts)
    ensures UnitsOk(parts, AllPairs(pes))
  {
    if pes != [] {
      forall t | t in Flat(pes[1..]) ensures t in Flat(pes) { }
      PairsOk(pes[1..], parts);
      forall t | t in pes[0] ensures t in Flat(pes) { }
      AgainstOk(pes[0], pes[1..], parts);
    }
  }

  lemma {:induction false} AgainstOk(xs: seq<Tree>, pes: seq<seq<Tree>>, parts: seq<Particle>)
    requires (forall t :: t in xs ==> Good(t, parts))
    requires (forall t {:trigger t in Flat(pes)} :: t in Flat(pes) ==> Good(t, parts))
    ensures UnitsOk(parts, Against(xs, pes))
  {
    if pes != [] {
      forall t | t in Flat(pes[1..]) ensures t in Flat(pes) { }
      forall t | t in pes[0] ensures t in Flat(pes) { }
      AgainstOk(xs, pes[1..], parts);
      BlockOk(xs, pes[0], parts);
    }
  }

  lemma {:induction false} BlockOk(xs: seq<Tree>, bs: seq<Tree>, parts: seq<Particle>)
    requires (forall t :: t in xs ==> Good(t, parts)) && (forall t :: t in bs ==> Good(t, parts))
    ensures UnitsOk(parts, Block(xs, bs))
  {
    if xs != [] {
      BlockOk(xs[1..], bs, parts);
      RowOk(xs[0], bs, parts);
    }
  }

  lemma {:induction false} RowOk(a: Tree, bs: seq<Tree>, parts: seq<Particle>)
    requires Good(a, parts) && (forall t :: t in bs ==> Good(t, parts))
    ensures UnitsOk(parts, Row(a, bs))
  {
    if bs != [] { RowOk(a, bs[1..], parts); }
  }

  ghost predicate SlicesExact(parts: seq<Particle>, rule: Rule, slices: seq<seq<Unit>>, pairs: seq<Unit>, n: nat)
    requires n > 0
  {
    && UnitsOk(parts, Concat(slices))
    && forall i: nat, j: nat {:trigger Times(Concat(slices), i, j)} :: Interacts(parts, rule, i, j) ==>
         Times(Concat(slices), i, j) == StrideSum(pairs, 0, |slices|, n, i, j)
  }

  lemma {:induction false} ConcatSnoc(slices: seq<seq<Unit>>, s: seq<Unit>)
    ensures Concat(slices + [s]) == Concat(slices) + s
  {
    if slices == [] {
      assert (slices + [s])[1..] == [];
    } else {
      ConcatSnoc(slices[1..], s);
      assert (slices + [s])[1..] == slices[1..] + [s];
    }
  }

  method BuildSlices(parts: seq<Particle>, rule: Rule, plan: BuildPlan, pairs: seq<Unit>, ranks: nat)
    returns (slices: seq<seq<Unit>>)
    requires ranks > 0 && AllReached(parts, rule) && UnitsOk(parts, pairs)
    ensures |slices| == ranks && SlicesExact(parts, rule, slices, pairs, ranks)
    ensures SplitFrom(rule, plan.policy, pairs, Concat(slices))
  {
    slices := [];
    for rank := 0 to ranks
      invariant |slices| == rank && SlicesExact(parts, rule, slices, pairs, ranks)
      invariant SplitFrom(rule, plan.policy, pairs, Concat(slices))
    {
      var slice := BuildSlice(parts, rule, plan.policy, pairs, rank, ranks, plan.cost);
      ConcatSnoc(slices, slice);
      forall i: nat, j: nat | Interacts(parts, rule, i, j)
        ensures Times(Concat(slices + [slice]), i, j) == StrideSum(pairs, 0, rank + 1, ranks, i, j)
      {
        TimesConcat(Concat(slices), slice, i, j);
        assert Times(slice, i, j) == Stride(pairs, 0, rank, ranks, i, j);
      }
      slices := slices + [slice];
    }
  }

  /** Every unit comes from a piece pair by the split policy and then the tail split. */
  ghost predicate Granular(rule: Rule, plan: BuildPlan, pairs: seq<Unit>, pool: seq<Unit>) {
    forall u {:trigger u in pool} :: u in pool ==> FromPair(rule, plan, pairs, u)
  }

  ghost predicate FromPair(rule: Rule, plan: BuildPlan, pairs: seq<Unit>, u: Unit) {
    exists q {:trigger TailReaches(rule, plan.heavy, q, 0, u)} ::
      IsSplit(rule, plan.policy, pairs, q) && TailReaches(rule, plan.heavy, q, 0, u)
  }

  lemma GranularPermuted(rule: Rule, plan: BuildPlan, pairs: seq<Unit>, merged: seq<Unit>, split: seq<Unit>,
                         pool: seq<Unit>)
    requires SplitFrom(rule, plan.policy, pairs, merged) && AllFrom(rule, plan.heavy, merged, split)
    requires multiset(pool) == multiset(split)
    ensures Granular(rule, plan, pairs, pool)
  {
    forall u | u in pool
      ensures FromPair(rule, plan, pairs, u)
    {
      SameMembers(pool, split, u);
      assert TailFrom(rule, plan.heavy, merged, u);
    }
  }

  method BuildPool(parts: seq<Particle>, rule: Rule, plan: BuildPlan, pes: seq<seq<Tree>>, ranks: nat)
    returns (pool: seq<Unit>, b2Begin: nat)
    requires ranks > 0 && AllReached(parts, rule) && Registered(pes, parts)
    ensures UnitsOk(parts, pool) && CoversOnce(parts, rule, pes, pool) && b2Begin <= |pool|
    ensures Granular(rule, plan, AllPairs(pes), pool)
    ensures if plan.regions > 1 then
              Arranged(pool, b2Begin, u => plan.regionOf(u) % plan.regions, plan.isTail, plan.regionCost, plan.cost)
            else b2Begin == |pool|
  {
    var pairs := AllPairs(pes);
    PairsOk(pes, parts);
    var slices := BuildSlices(parts, rule, plan, pairs, ranks);
    var merged; ghost var turns;
    merged, turns := RoundRobin(slices);
    PermutedOk(parts, Concat(slices), merged);
    var split := TailSplit(parts, rule, merged, plan.heavy);
    if plan.regions > 1 && split != [] {
      var region := seq(|split|, k requires 0 <= k < |split| => plan.regionOf(split[k]) % plan.regions);
      var tail := seq(|split|, k requires 0 <= k < |split| => plan.isTail(split[k]));
      pool, b2Begin := Reorder(parts, split, region, tail, plan.regions, plan.regionCost, plan.cost,
                               u => plan.regionOf(u) % plan.regions, plan.isTail);
    } else {
      pool, b2Begin := split, |split|;
    }
    PermutedOk(parts, split, pool);
    SplitPermuted(rule, plan.policy, pairs, Concat(slices), merged);
    GranularPermuted(rule, plan, pairs, merged, split, pool);
    forall i: nat, j: nat | Interacts(parts, rule, i, j)
      ensures Times(pool, i, j) == if Home(pes, i) != Home(pes, j) then 1 else 0
    {
      TimesPermutes(pool, split, i, j);
      TimesPermutes(merged, Concat(slices), i, j);
      assert Times(merged, i, j) == Times(split, i, j);
      StridesCover(pairs, 0, ranks, i, j);
      TiledHolds(Flat(pes), 0, i);
      TiledHolds(Flat(pes), 0, j);
      AllPairsTimes(pes, i, j);
    }
  }
}
