/** The distributed size histogram.  Every PE deposits (label, count) pairs; a process bins the
    labels no cross-process edge touched, and routes each touched label's share to the process that
    owns its boss.  Every component must be binned once, with its full size. */
module Histogram {
  import opened Sorting
  import opened Labels

  type Pairs = seq<(int, nat)>

  function Mass(ps: Pairs, l: int): nat {
    if ps == [] then 0 else (if ps[0].0 == l then ps[0].1 else 0) + Mass(ps[1..], l)
  }

  function Total(ps: Pairs): nat {
    if ps == [] then 0 else ps[0].1 + Total(ps[1..])
  }

  function Sum(s: seq<nat>): nat {
    if s == [] then 0 else s[0] + Sum(s[1..])
  }

  ghost predicate Has(ps: Pairs, l: int) {
    exists k {:trigger ps[k]} :: 0 <= k < |ps| && ps[k].0 == l
  }

  ghost function LabelsOf(ps: Pairs): iset<int> {
    iset l | Has(ps, l)
  }

  ghost function MassOf(ps: Pairs): int -> nat {
    (l: int) => Mass(ps, l)
  }

  ghost predicate Positive(ps: Pairs) {
    forall k {:trigger ps[k]} :: 0 <= k < |ps| ==> ps[k].1 > 0
  }

  lemma {:induction false} MassConcat(x: Pairs, y: Pairs, l: int)
    ensures Mass(x + y, l) == Mass(x, l) + Mass(y, l)
  {
    if x == [] {
      assert x + y == y;
    } else {
      MassConcat(x[1..], y, l);
      assert (x + y)[1..] == x[1..] + y;
    }
  }

  lemma MassOne(p: (int, nat), l: int)
    ensures Mass([p], l) == (if p.0 == l then p.1 else 0) && Total([p]) == p.1
  {
    var none: Pairs := [p][1..];
    assert none == [];
  }

  lemma {:induction false} TotalConcat(x: Pairs, y: Pairs)
    ensures Total(x + y) == Total(x) + Total(y)
  {
    if x == [] {
      assert x + y == y;
    } else {
      TotalConcat(x[1..], y);
      assert (x + y)[1..] == x[1..] + y;
    }
  }

  lemma MassRemove(y: Pairs, k: nat, l: int)
    requires k < |y|
    ensures Mass(y, l) == Mass(y[..k] + y[k + 1..], l) + if y[k].0 == l then y[k].1 else 0
  {
    MassConcat(y[..k], y[k + 1..], l);
    MassConcat(y[..k], y[k..], l);
    assert y[k..][1..] == y[k + 1..];
    assert y == y[..k] + y[k..];
  }

  lemma {:induction false} MassPermutes(x: Pairs, y: Pairs, l: int)
    requires multiset(x) == multiset(y)
    ensures Mass(x, l) == Mass(y, l)
    decreases |x|
  {
    if x == [] {
      assert |multiset(y)| == |y|;
    } else {
      var k := FindFirst(x, y);
      var rest := y[..k] + y[k + 1..];
      RemoveAt(y, k);
      RemoveAt(x, 0);
      assert x[..0] + x[1..] == x[1..];
      MassPermutes(x[1..], rest, l);
      MassRemove(y, k, l);
    }
  }

  lemma HasPermutes(x: Pairs, y: Pairs, l: int)
    requires multiset(x) == multiset(y) && Has(x, l)
    ensures Has(y, l)
  {
    var k :| 0 <= k < |x| && x[k].0 == l;
    SameMembers(x, y, x[k]);
    var j :| 0 <= j < |y| && y[j] == x[k];
  }

  // ---- What binning must achieve.

  /** Each wanted label was binned once, with its size; nothing else was binned.  `tags` remembers
      which label each binned size was for. */
  ghost predicate Binned(tags: seq<int>, sizes: seq<nat>, want: iset<int>, size: int -> nat) {
    && |tags| == |sizes|
    && (forall a, b {:trigger tags[a], tags[b]} :: 0 <= a < b < |tags| ==> tags[a] != tags[b])
    && (forall k {:trigger tags[k]} :: 0 <= k < |tags| ==> tags[k] in want && sizes[k] == size(tags[k]))
    && (forall l {:trigger l in want} :: l in want ==> l in tags)
  }

  lemma BinnedJoin(t1: seq<int>, s1: seq<nat>, w1: iset<int>, t2: seq<int>, s2: seq<nat>, w2: iset<int>,
                   size: int -> nat)
    requires Binned(t1, s1, w1, size) && Binned(t2, s2, w2, size) && w1 !! w2
    ensures Binned(t1 + t2, s1 + s2, w1 + w2, size)
  {
    forall a, b | 0 <= a < b < |t1 + t2|
      ensures (t1 + t2)[a] != (t1 + t2)[b]
    {
      if a < |t1| <= b { assert t1[a] in w1 && t2[b - |t1|] in w2; }
    }
  }

  lemma BinnedSame(tags: seq<int>, sizes: seq<nat>, want: iset<int>, size: int -> nat, want': iset<int>,
                   size': int -> nat)
    requires Binned(tags, sizes, want, size) && want == want' && forall l :: l in want ==> size(l) == size'(l)
    ensures Binned(tags, sizes, want', size')
  {
  }

  /** Conservation: the binned sizes sum to everything deposited. */
  lemma {:induction false} BinnedConserves(tags: seq<int>, sizes: seq<nat>, ps: Pairs)
    requires Binned(tags, sizes, LabelsOf(ps), MassOf(ps))
    ensures Sum(sizes) == Total(ps)
    decreases |tags|
  {
    var want := LabelsOf(ps);
    if tags == [] {
      if ps != [] { SomeLabel(ps); }
    } else {
      var l := tags[0];
      var rest := Without(ps, l);
      WithoutSplits(ps, l, l);
      forall k | 0 <= k < |tags[1..]|
        ensures tags[1..][k] in LabelsOf(rest) && sizes[1..][k] == Mass(rest, tags[1..][k])
      {
        assert tags[k + 1] in want && tags[0] != tags[k + 1];
        WithoutSplits(ps, l, tags[k + 1]);
      }
      forall m | Has(rest, m)
        ensures m in tags[1..]
      {
        WithoutSplits(ps, l, m);
        assert m in want && m in tags && tags == [tags[0]] + tags[1..];
      }
      forall a, b | 0 <= a < b < |tags[1..]|
        ensures tags[1..][a] != tags[1..][b]
      {
        assert tags[a + 1] != tags[b + 1];
      }
      BinnedConserves(tags[1..], sizes[1..], rest);
    }
  }

  lemma SomeLabel(ps: Pairs)
    requires ps != []
    ensures Has(ps, ps[0].0) && ps[0].0 in LabelsOf(ps)
  {
  }

  function Without(ps: Pairs, l: int): Pairs {
    if ps == [] then [] else if ps[0].0 == l then Without(ps[1..], l) else [ps[0]] + Without(ps[1..], l)
  }

  lemma {:induction false} WithoutSplits(ps: Pairs, l: int, m: int)
    ensures Total(ps) == Mass(ps, l) + Total(Without(ps, l))
    ensures Mass(Without(ps, l), m) == if m == l then 0 else Mass(ps, m)
    ensures Has(Without(ps, l), m) <==> m != l && Has(ps, m)
  {
    if ps != [] {
      var t := Without(ps[1..], l);
      WithoutSplits(ps[1..], l, m);
      HasSplit(ps, m);
      if ps[0].0 != l {
        assert ([ps[0]] + t)[1..] == t;
        HasSplit([ps[0]] + t, m);
      }
    }
  }

  lemma HasSplit(ps: Pairs, m: int)
    requires ps != []
    ensures Has(ps, m) <==> ps[0].0 == m || Has(ps[1..], m)
  {
    if Has(ps[1..], m) {
      var k :| 0 <= k < |ps[1..]| && ps[1..][k].0 == m;
      assert ps[k + 1].0 == m;
    }
    if Has(ps, m) && ps[0].0 != m {
      var k :| 0 <= k < |ps| && ps[k].0 == m;
      assert ps[1..][k - 1].0 == m;
    }
  }

  lemma HasConcat(x: Pairs, y: Pairs, m: int)
    ensures Has(x + y, m) <==> Has(x, m) || Has(y, m)
  {
    if Has(x, m) { var k :| 0 <= k < |x| && x[k].0 == m; assert (x + y)[k].0 == m; }
    if Has(y, m) { var k :| 0 <= k < |y| && y[k].0 == m; assert (x + y)[|x| + k].0 == m; }
    if Has(x + y, m) {
      var k :| 0 <= k < |x + y| && (x + y)[k].0 == m;
      if k < |x| { assert x[k].0 == m; } else { assert y[k - |x|].0 == m; }
    }
  }

  lemma {:induction false} HasMass(ps: Pairs, l: int)
    requires Positive(ps)
    ensures Mass(ps, l) > 0 <==> Has(ps, l)
  {
    if ps != [] {
      forall k | 0 <= k < |ps[1..]| ensures ps[1..][k].1 > 0 { assert ps[k + 1].1 > 0; }
      HasMass(ps[1..], l);
      HasSplit(ps, l);
    }
  }

  // ---- Sort and scan: one total per label.

  /** Totals for the labels of ps, one each. */
  ghost predicate Summed(ps: Pairs, totals: Pairs) {
    && (forall a, b {:trigger totals[a], totals[b]} :: 0 <= a < b < |totals| ==> totals[a].0 < totals[b].0)
    && (forall k {:trigger totals[k]} :: 0 <= k < |totals| ==> totals[k].1 == Mass(ps, totals[k].0))
    && (forall l {:trigger Has(ps, l)} :: Has(ps, l) <==> Has(totals, l))
  }

  method SumByLabel(ps: Pairs) returns (totals: Pairs)
    ensures Summed(ps, totals)
  {
    var s := SortBy(ps, (p: (int, nat)) => p.0);
    totals := [];
    var i := 0;
    assert s[..0] == [];
    while i < |s|
      invariant 0 <= i <= |s| && Summed(s[..i], totals)
      invariant forall k {:trigger totals[k]} :: 0 <= k < |totals| && i < |s| ==> totals[k].0 < s[i].0
    {
      var l, total := s[i].0, 0;
      ghost var from := i;
      while i < |s| && s[i].0 == l
        invariant from <= i <= |s| && (forall k :: from <= k < i ==> s[k].0 == l) && total == Total(s[from..i])
      {
        assert s[from..i + 1] == s[from..i] + [s[i]];
        TotalConcat(s[from..i], [s[i]]);
        MassOne(s[i], l);
        total := total + s[i].1;
        i := i + 1;
      }
      RunSums(s, from, i, l, totals);
      totals := totals + [(l, total)];
    }
    assert s[..|s|] == s;
    forall l
      ensures Mass(ps, l) == Mass(s, l) && (Has(ps, l) <==> Has(s, l))
    {
      MassPermutes(ps, s, l);
      if Has(ps, l) { HasPermutes(ps, s, l); }
      if Has(s, l) { HasPermutes(s, ps, l); }
    }
  }

  lemma {:induction false} RunMass(run: Pairs, l: int, m: int)
    requires forall k :: 0 <= k < |run| ==> run[k].0 == l
    ensures Mass(run, m) == if m == l then Total(run) else 0
  {
    if run != [] { RunMass(run[1..], l, m); }
  }

  lemma RunSums(s: Pairs, from: nat, to: nat, l: int, totals: Pairs)
    requires from < to <= |s| && (forall k :: from <= k < to ==> s[k].0 == l)
    requires Summed(s[..from], totals) && forall k {:trigger totals[k]} :: 0 <= k < |totals| ==> totals[k].0 < l
    ensures Summed(s[..to], totals + [(l, Total(s[from..to]))])
  {
    var more := totals + [(l, Total(s[from..to]))];
    assert s[..to] == s[..from] + s[from..to];
    forall m
      ensures Mass(s[..to], m) == Mass(s[..from], m) + if m == l then Total(s[from..to]) else 0
      ensures Has(s[..to], m) <==> Has(s[..from], m) || m == l
      ensures Has(more, m) <==> Has(totals, m) || m == l
    {
      MassConcat(s[..from], s[from..to], m);
      RunMass(s[from..to], l, m);
      HasConcat(s[..from], s[from..to], m);
      assert s[from..to][0].0 == l;
      HasConcat(totals, [(l, Total(s[from..to]))], m);
      assert [(l, Total(s[from..to]))][0].0 == l;
    }
    if Mass(s[..from], l) > 0 { MassHas(s[..from], l); }
  }

  lemma {:induction false} MassHas(ps: Pairs, l: int)
    requires Mass(ps, l) > 0
    ensures Has(ps, l)
  {
    HasSplit(ps, l);
    if ps[0].0 != l { MassHas(ps[1..], l); }
  }
}
