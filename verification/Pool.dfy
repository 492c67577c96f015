/** The phase-B work pool.  However pairs are split, sliced, merged, tail-split, partitioned and
    claimed, every interacting cross-PE particle pair stays in exactly one unit. */
module Pool {
  import opened Geometry
  import opened Trees
  import opened Linking
  import opened PhaseAWalk
  import opened Sorting

  datatype Unit = Unit(a: Tree, b: Tree)

  function Holds(t: Tree, i: nat): nat {
    if In(t, i) then 1 else 0
  }

  /** How often the unordered pair {i, j} occurs across (a, b). */
  function Weight(a: Tree, b: Tree, i: nat, j: nat): nat {
    (if In(b, j) then Holds(a, i) else 0) + (if In(b, i) then Holds(a, j) else 0)
  }

  function Times(units: seq<Unit>, i: nat, j: nat): nat {
    if units == [] then 0 else Weight(units[0].a, units[0].b, i, j) + Times(units[1..], i, j)
  }

  lemma WeightSwaps(a: Tree, b: Tree, i: nat, j: nat)
    ensures Weight(a, b, i, j) == Weight(b, a, i, j)
  {
  }

  lemma {:induction false} TimesConcat(x: seq<Unit>, y: seq<Unit>, i: nat, j: nat)
    ensures Times(x + y, i, j) == Times(x, i, j) + Times(y, i, j)
  {
    if x == [] {
      assert x + y == y;
    } else {
      TimesConcat(x[1..], y, i, j);
      assert (x + y)[1..] == x[1..] + y;
    }
  }

  lemma TimesSnoc(x: seq<Unit>, u: Unit, i: nat, j: nat)
    ensures Times(x + [u], i, j) == Times(x, i, j) + Weight(u.a, u.b, i, j)
  {
    TimesConcat(x, [u], i, j);
    assert [u][1..] == [];
  }

  /** Reordering a pool changes no count. */
  lemma {:induction false} TimesPermutes(x: seq<Unit>, y: seq<Unit>, i: nat, j: nat)
    requires multiset(x) == multiset(y)
    ensures Times(x, i, j) == Times(y, i, j)
    decreases |x|
  {
    if x == [] {
      assert |multiset(y)| == |y|;
    } else {
      var k := FindFirst(x, y);
      Without(x, y, k);
      TimesPermutes(x[1..], y[..k] + y[k + 1..], i, j);
      TimesTakeOut(y, k, i, j);
    }
  }

  lemma Without(x: seq<Unit>, y: seq<Unit>, k: nat)
    requires multiset(x) == multiset(y) && x != [] && k < |y| && y[k] == x[0]
    ensures multiset(x[1..]) == multiset(y[..k] + y[k + 1..])
  {
    RemoveAt(y, k);
    RemoveAt(x, 0);
    assert x[..0] + x[1..] == x[1..];
  }

  lemma TimesTakeOut(y: seq<Unit>, k: nat, i: nat, j: nat)
    requires k < |y|
    ensures Times(y, i, j) == Weight(y[k].a, y[k].b, i, j) + Times(y[..k] + y[k + 1..], i, j)
  {
    TimesConcat(y[..k], y[k + 1..], i, j);
    TimesSnoc(y[..k], y[k], i, j);
    TimesConcat(y[..k] + [y[k]], y[k + 1..], i, j);
    assert y == y[..k] + [y[k]] + y[k + 1..];
  }

  // ---- Splitting a node splits its weight.

  function HoldsSum(ts: seq<Tree>, i: nat): nat {
    if ts == [] then 0 else Holds(ts[0], i) + HoldsSum(ts[1..], i)
  }

  function WeightSum(ts: seq<Tree>, b: Tree, i: nat, j: nat): nat {
    if ts == [] then 0 else Weight(ts[0], b, i, j) + WeightSum(ts[1..], b, i, j)
  }

  lemma {:induction false} WeightSumLinear(ts: seq<Tree>, b: Tree, i: nat, j: nat)
    ensures WeightSum(ts, b, i, j) == (if In(b, j) then HoldsSum(ts, i) else 0)
          + (if In(b, i) then HoldsSum(ts, j) else 0)
  {
    if ts != [] { WeightSumLinear(ts[1..], b, i, j); }
  }

  lemma {:induction false} TiledHolds(ts: seq<Tree>, at: nat, i: nat)
    requires Adjoin(ts, at)
    ensures HoldsSum(ts, i) == if at <= i < at + CountAll(ts) then 1 else 0
  {
    if ts != [] { TiledHolds(ts[1..], at + Count(ts[0]), i); }
  }

  /** A pair below (a, b) is below exactly one child of a and b. */
  lemma ChildrenShareWeight(a: Tree, b: Tree, parts: seq<Particle>, i: nat, j: nat)
    requires Good(a, parts) && a.Inner?
    ensures WeightSum(a.children, b, i, j) == Weight(a, b, i, j)
  {
    WeightSumLinear(a.children, b, i, j);
    TiledHolds(a.children, First(a), i);
    TiledHolds(a.children, First(a), j);
  }

  lemma {:induction false} WeightSumSnoc(ts: seq<Tree>, t: Tree, b: Tree, i: nat, j: nat)
    ensures WeightSum(ts + [t], b, i, j) == WeightSum(ts, b, i, j) + Weight(t, b, i, j)
  {
    if ts == [] {
      assert [t][1..] == [];
    } else {
      WeightSumSnoc(ts[1..], t, b, i, j);
      assert (ts + [t])[1..] == ts[1..] + [t];
    }
  }

  // ---- What a pool-building step must do to every linked pair.

  ghost predicate Interacts(parts: seq<Particle>, rule: Rule, i: nat, j: nat) {
    i < |parts| && j < |parts| && Linked(parts[i], parts[j], rule)
  }

  /** after holds every linked pair as often as before, plus its weight across each of ts and b. */
  ghost predicate Gains(parts: seq<Particle>, rule: Rule, before: seq<Unit>, after: seq<Unit>, ts: seq<Tree>, b: Tree) {
    forall i: nat, j: nat {:trigger Times(after, i, j)} {:trigger Times(before, i, j)} ::
          Interacts(parts, rule, i, j) ==>
      Times(after, i, j) == Times(before, i, j) + WeightSum(ts, b, i, j)
  }

  lemma FarWeightless(parts: seq<Particle>, rule: Rule, a: Tree, b: Tree, i: nat, j: nat)
    requires AllReached(parts, rule) && Good(a, parts) && Good(b, parts)
    requires MinDist2(a.box, b.box, rule.period) > rule.b2
    requires Interacts(parts, rule, i, j)
    ensures Weight(a, b, i, j) == 0
  {
    FarApart(parts, rule, a, b);
    LinkedSymmetric(parts[i], parts[j], rule);
    assert Linked(parts[i], parts[j], rule) && Linked(parts[j], parts[i], rule);
  }

  /** Units a walk may be given. */
  ghost predicate UnitsOk(parts: seq<Particle>, units: seq<Unit>) {
    forall u {:trigger u in units} :: u in units ==> Good(u.a, parts) && Good(u.b, parts)
  }

  // ---- poolPushInto.

  /** The split knobs: depth limit, and an optional size rule that may only split more. */
  datatype SplitPolicy = SplitPolicy(maxDepth: nat, sizeRule: bool, big: (Tree, Tree) -> bool)

  predicate StopsHere(a: Tree, b: Tree, depth: nat, apart: bool, policy: SplitPolicy) {
    var depthStop := depth >= policy.maxDepth || (depth == 1 && apart) || a.Leaf? || b.Leaf?;
    if policy.sizeRule && !a.Leaf? && !b.Leaf? && depth < 6 && policy.big(a, b) then false else depthStop
  }

  /** u is what splitting (a, b) comes to: boxes in reach, split level by level to where the policy stops. */
  ghost predicate Reaches(rule: Rule, policy: SplitPolicy, a: Tree, b: Tree, depth: nat, u: Unit)
    decreases Size(a), 2
  {
    && MinDist2(a.box, b.box, rule.period) <= rule.b2
    && if StopsHere(a, b, depth, MinDist2(a.box, b.box, rule.period) > 0.0, policy) then u == Unit(a, b)
       else ReachesAny(rule, policy, a, b, depth + 1, |a.children|, u)
  }

  /** ... from one of the first n children of a and some child of b. */
  ghost predicate ReachesAny(rule: Rule, policy: SplitPolicy, a: Tree, b: Tree, depth: nat, n: nat, u: Unit)
    requires a.Inner? && b.Inner? && n <= |a.children|
    decreases Size(a), 1
  {
    exists k: nat {:trigger a.children[k]} :: k < n && !a.children[k].Empty()
      && (SizeOfChild(a.children, k); ReachesRow(rule, policy, a.children[k], b, depth, |b.children|, u))
  }

  ghost predicate ReachesRow(rule: Rule, policy: SplitPolicy, a: Tree, b: Tree, depth: nat, n: nat, u: Unit)
    requires b.Inner? && n <= |b.children|
    decreases Size(a), 3
  {
    exists l: nat {:trigger b.children[l]} :: l < n && !b.children[l].Empty()
      && Reaches(rule, policy, a, b.children[l], depth, u)
  }

  /** What was added: after starts with before, and the rest is exactly the units told by `which`. */
  ghost predicate Adds(before: seq<Unit>, after: seq<Unit>, which: Unit -> bool) {
    before <= after && forall u {:trigger which(u)} {:trigger u in after[|before|..]} :: u in after[|before|..] <==>
          which(u)
  }

  lemma AddsMore(a: seq<Unit>, b: seq<Unit>, c: seq<Unit>, f: Unit -> bool, g: Unit -> bool, h: Unit -> bool)
    requires Adds(a, b, f) && Adds(b, c, g) && forall u :: h(u) <==> f(u) || g(u)
    ensures Adds(a, c, h)
  {
    assert c[|a|..] == b[|a|..] + c[|b|..];
  }

  method PushInto(parts: seq<Particle>, rule: Rule, policy: SplitPolicy, out: seq<Unit>, a: Tree, b: Tree, depth: nat)
    returns (r: seq<Unit>)
    requires AllReached(parts, rule) && Good(a, parts) && Good(b, parts) && UnitsOk(parts, out)
    ensures UnitsOk(parts, r) && Gains(parts, rule, out, r, [a], b)
    ensures Adds(out, r, u => Reaches(rule, policy, a, b, depth, u))
    decreases Size(a), 1
  {
    if MinDist2(a.box, b.box, rule.period) > rule.b2 {
      forall i: nat, j: nat | Interacts(parts, rule, i, j) { FarWeightless(parts, rule, a, b, i, j); }
      return out;
    }
    if StopsHere(a, b, depth, MinDist2(a.box, b.box, rule.period) > 0.0, policy) {
      r := out + [Unit(a, b)];
      forall i: nat, j: nat { TimesSnoc(out, Unit(a, b), i, j); }
      return;
    }
    r := out;
    GainsNothing(parts, rule, out, a.children, b);
    for k := 0 to |a.children|
      invariant UnitsOk(parts, r) && Gains(parts, rule, out, r, a.children[..k], b)
      invariant Adds(out, r, u => ReachesAny(rule, policy, a, b, depth + 1, k, u))
    {
      var before := r;
      ChildFacts(a, parts, k);
      if !a.children[k].Empty() {
        r := PushRow(parts, rule, policy, r, a.children[k], b, depth + 1);
        AddsMore(out, before, r, u => ReachesAny(rule, policy, a, b, depth + 1, k, u),
                 u => ReachesRow(rule, policy, a.children[k], b, depth + 1, |b.children|, u),
                 u => ReachesAny(rule, policy, a, b, depth + 1, k + 1, u));
      }
      GainsChain(parts, rule, out, before, r, a.children, k, b);
    }
    assert a.children[..|a.children|] == a.children;
    GainsShared(parts, rule, out, r, a, b);
  }

  method PushRow(parts: seq<Particle>, rule: Rule, policy: SplitPolicy, out: seq<Unit>, a: Tree, b: Tree, depth: nat)
    returns (r: seq<Unit>)
    requires AllReached(parts, rule) && Good(a, parts) && Good(b, parts) && b.Inner? && UnitsOk(parts, out)
    ensures UnitsOk(parts, r) && Gains(parts, rule, out, r, [a], b)
    ensures Adds(out, r, u => ReachesRow(rule, policy, a, b, depth, |b.children|, u))
    decreases Size(a), 2
  {
    r := out;
    GainsNothing(parts, rule, out, b.children, a);
    for l := 0 to |b.children|
      invariant UnitsOk(parts, r) && Gains(parts, rule, out, r, b.children[..l], a)
      invariant Adds(out, r, u => ReachesRow(rule, policy, a, b, depth, l, u))
    {
      var before := r;
      ChildFacts(b, parts, l);
      if !b.children[l].Empty() {
        r := PushInto(parts, rule, policy, r, a, b.children[l], depth);
        GainsFlips(parts, rule, before, r, a, b.children[l]);
        AddsMore(out, before, r, u => ReachesRow(rule, policy, a, b, depth, l, u),
                 u => Reaches(rule, policy, a, b.children[l], depth, u),
                 u => ReachesRow(rule, policy, a, b, depth, l + 1, u));
      }
      GainsChain(parts, rule, out, before, r, b.children, l, a);
    }
    assert b.children[..|b.children|] == b.children;
    GainsShared(parts, rule, out, r, b, a);
    GainsFlips(parts, rule, out, r, b, a);
  }

  lemma WeightOfOne(a: Tree, b: Tree, i: nat, j: nat)
    ensures WeightSum([a], b, i, j) == Weight(a, b, i, j)
  {
    assert [a][1..] == [];
  }

  lemma GainsNothing(parts: seq<Particle>, rule: Rule, out: seq<Unit>, ts: seq<Tree>, b: Tree)
    ensures Gains(parts, rule, out, out, ts[..0], b)
  {
    forall i: nat, j: nat
      ensures WeightSum(ts[..0], b, i, j) == 0
    {
      assert ts[..0] == [];
    }
  }

  lemma GainsFlips(parts: seq<Particle>, rule: Rule, before: seq<Unit>, after: seq<Unit>, a: Tree, b: Tree)
    requires Gains(parts, rule, before, after, [a], b)
    ensures Gains(parts, rule, before, after, [b], a)
  {
    forall i: nat, j: nat | Interacts(parts, rule, i, j)
      ensures Times(after, i, j) == Times(before, i, j) + WeightSum([b], a, i, j)
    {
      WeightOfOne(a, b, i, j);
      WeightOfOne(b, a, i, j);
      WeightSwaps(a, b, i, j);
    }
  }

  lemma GainsShared(parts: seq<Particle>, rule: Rule, before: seq<Unit>, after: seq<Unit>, a: Tree, b: Tree)
    requires Good(a, parts) && a.Inner? && Gains(parts, rule, before, after, a.children, b)
    ensures Gains(parts, rule, before, after, [a], b)
  {
    forall i: nat, j: nat | Interacts(parts, rule, i, j)
      ensures Times(after, i, j) == Times(before, i, j) + WeightSum([a], b, i, j)
    {
      ChildrenShareWeight(a, b, parts, i, j);
      WeightOfOne(a, b, i, j);
    }
  }

  /** One more child of a loop: an empty one is skipped, any other has just been pushed. */
  lemma GainsChain(parts: seq<Particle>, rule: Rule, out: seq<Unit>, before: seq<Unit>, after: seq<Unit>,
                   ts: seq<Tree>, k: nat, b: Tree)
    requires k < |ts| && Gains(parts, rule, out, before, ts[..k], b)
    requires if ts[k].Empty() then after == before else Gains(parts, rule, before, after, [ts[k]], b)
    ensures Gains(parts, rule, out, after, ts[..k + 1], b)
  {
    assert ts[..k + 1] == ts[..k] + [ts[k]];
    forall i: nat, j: nat | Interacts(parts, rule, i, j)
      ensures Times(after, i, j) == Times(out, i, j) + WeightSum(ts[..k + 1], b, i, j)
    {
      WeightSumSnoc(ts[..k], ts[k], b, i, j);
      assert WeightSum([ts[k]], b, i, j) == Weight(ts[k], b, i, j) by { assert [ts[k]][1..] == []; }
    }
  }
}
