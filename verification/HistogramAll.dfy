/** The whole histogram: all processes through stage 1, touched shares to their owners, and the
    result - every component's full size, once. */
module HistogramAll {
  import opened Labels
  import R = Representatives
  import opened Histogram
  import opened HistogramRun

  function Flatten(ps: seq<Pairs>): Pairs {
    if ps == [] then [] else ps[0] + Flatten(ps[1..])
  }

  lemma {:induction false} FlattenSnoc(ps: seq<Pairs>, p: Pairs)
    ensures Flatten(ps + [p]) == Flatten(ps) + p
  {
    if ps == [] {
      assert ps + [p] == [p];
      assert Flatten([p]) == p + Flatten([p][1..]);
    } else {
      FlattenSnoc(ps[1..], p);
      assert (ps + [p])[1..] == ps[1..] + [p];
    }
  }

  lemma {:induction false} FlattenPart(ps: seq<Pairs>, k: nat)
    requires k < |ps|
    ensures Flatten(ps[..k + 1]) == Flatten(ps[..k]) + ps[k]
    ensures exists rest :: Flatten(ps) == Flatten(ps[..k]) + ps[k] + rest
    decreases |ps| - k
  {
    assert ps[..k + 1] == ps[..k] + [ps[k]];
    FlattenSnoc(ps[..k], ps[k]);
    if k + 1 == |ps| {
      assert ps[..k + 1] == ps;
      assert Flatten(ps) == Flatten(ps[..k]) + ps[k] + [];
    } else {
      FlattenPart(ps, k + 1);
      var rest :| Flatten(ps) == Flatten(ps[..k + 1]) + ps[k + 1] + rest;
      assert Flatten(ps) == Flatten(ps[..k]) + ps[k] + (ps[k + 1] + rest);
    }
  }

  // ---- What a PE deposits.

  /** One pair per representative: its current label and its count. */
  function PairsOf(roots: seq<nat>, repLabel: seq<int>, rootCounts: seq<nat>): Pairs
    requires |repLabel| == |rootCounts| && R.Below(roots, |repLabel|)
  {
    if roots == [] then [] else [(repLabel[roots[0]], rootCounts[roots[0]])] + PairsOf(roots[1..], repLabel, rootCounts)
  }

  lemma {:induction false} PairsMass(roots: seq<nat>, repLabel: seq<int>, rootCounts: seq<nat>, l: int)
    requires |repLabel| == |rootCounts| && R.Below(roots, |repLabel|)
    ensures Mass(PairsOf(roots, repLabel, rootCounts), l) == R.Deposited(roots, repLabel, rootCounts, l)
    ensures |PairsOf(roots, repLabel, rootCounts)| == |roots|
    ensures forall k {:trigger PairsOf(roots, repLabel, rootCounts)[k]} :: 0 <= k < |roots| ==>
          PairsOf(roots, repLabel, rootCounts)[k].1 == rootCounts[roots[k]]
  {
    if roots != [] {
      PairsMass(roots[1..], repLabel, rootCounts, l);
      assert PairsOf(roots, repLabel, rootCounts)[1..] == PairsOf(roots[1..], repLabel, rootCounts);
    }
  }

  lemma {:induction false} TotalIsSize(ps: Pairs, labels: seq<int>)
    requires forall l {:trigger Mass(ps, l)} :: Mass(ps, l) == multiset(labels)[l]
    ensures Total(ps) == |labels|
    decreases |ps| + |labels|
  {
    if labels == [] {
      if Total(ps) > 0 { var l := HeavyLabel(ps); }
    } else {
      var l := labels[0];
      var c := Mass(ps, l);
      var rest := Drop(labels, l);
      DropCounts(labels, l, l);
      forall m
        ensures Mass(Without(ps, l), m) == multiset(rest)[m]
      {
        WithoutSplits(ps, l, m);
        DropCounts(labels, l, m);
      }
      WithoutSplits(ps, l, l);
      WithoutShrinks(ps, l);
      TotalIsSize(Without(ps, l), rest);
    }
  }

  lemma {:induction false} WithoutShrinks(ps: Pairs, l: int)
    ensures |Without(ps, l)| <= |ps|
  {
    if ps != [] { WithoutShrinks(ps[1..], l); }
  }

  lemma {:induction false} HeavyLabel(ps: Pairs) returns (l: int)
    requires Total(ps) > 0
    ensures Mass(ps, l) > 0
  {
    if ps[0].1 > 0 { l := ps[0].0; } else { l := HeavyLabel(ps[1..]); }
  }

  function Drop(labels: seq<int>, l: int): (r: seq<int>)
    ensures |r| <= |labels|
  {
    if labels == [] then [] else (if labels[0] == l then [] else [labels[0]]) + Drop(labels[1..], l)
  }

  lemma {:induction false} DropCounts(labels: seq<int>, l: int, m: int)
    ensures multiset(Drop(labels, l))[m] == if m == l then 0 else multiset(labels)[m]
    ensures |Drop(labels, l)| + multiset(labels)[l] == |labels|
  {
    if labels != [] {
      DropCounts(labels[1..], l, m);
      assert labels == [labels[0]] + labels[1..];
      if labels[0] != l {
        assert Drop(labels, l) == [labels[0]] + Drop(labels[1..], l);
      }
    }
  }

  /** A PE's deposits count its particles: the mass under a label is the number of particles that
      carry it, and the total is all of them. */
  lemma DepositsCountParticles(parent: seq<nat>, roots: seq<nat>, rootCounts: seq<nat>, repLabel: seq<int>,
                               groupNumber: seq<int>)
    requires R.Frozen(parent, roots, rootCounts) && R.Materialized(parent, repLabel, groupNumber)
    ensures var ps := PairsOf(roots, repLabel, rootCounts);
            && Positive(ps) && Total(ps) == |groupNumber|
            && forall l {:trigger Mass(ps, l)} :: Mass(ps, l) == multiset(groupNumber)[l]
  {
    var ps := PairsOf(roots, repLabel, rootCounts);
    forall l
      ensures Mass(ps, l) == multiset(groupNumber)[l]
    {
      PairsMass(roots, repLabel, rootCounts, l);
      R.DepositsAreSizes(parent, roots, rootCounts, repLabel, groupNumber, l);
    }
    TotalIsSize(ps, groupNumber);
    PairsMass(roots, repLabel, rootCounts, 0);
    forall k | 0 <= k < |ps|
      ensures ps[k].1 > 0
    {
      var r := roots[k];
      assert parent[r] == r && r in parent;
      assert multiset(parent)[r] > 0;
    }
  }

  // ---- A process.

  /** A process: its layout and the deposits of its PEs. */
  datatype Process = Process(y: Layout, pes: seq<Pairs>) {
    function Filed(): Pairs {
      Flatten(pes)
    }

    ghost predicate Ok() {
      y.shards > 0 && Positive(Filed()) && Faithful(y, Filed())
    }
  }

  function FiledOf(procs: seq<Process>): (r: seq<Pairs>)
    ensures |r| == |procs| && forall p {:trigger r[p]} :: 0 <= p < |r| ==> r[p] == procs[p].Filed()
  {
    seq(|procs|, p requires 0 <= p < |procs| => procs[p].Filed())
  }

  /** The sign contract: a label no cross-process edge touched lives in one process. */
  ghost predicate SignContract(procs: seq<Process>) {
    forall p, q, l {:trigger Has(procs[p].Filed(), l), Has(procs[q].Filed(), l)} ::
      0 <= p < |procs| && 0 <= q < |procs| && l >= 0 && Has(procs[p].Filed(), l) && Has(procs[q].Filed(), l) ==> p == q
  }

  // ---- Stage 1.

  ghost function UntouchedBefore(y: Layout, filed: Pairs, k: nat): iset<int>
    requires y.shards > 0
  {
    iset l | Has(filed, l) && l >= 0 && y.Before(l, k)
  }

  lemma ShardsAdd(y: Layout, filed: Pairs, k: nat)
    requires y.shards > 0
    ensures UntouchedBefore(y, filed, k + 1) == UntouchedBefore(y, filed, k) + Untouched(y, filed, k)
    ensures UntouchedBefore(y, filed, k) !! Untouched(y, filed, k)
    ensures UntouchedBefore(y, filed, 0) == iset{} && UntouchedBefore(y, filed, y.shards) == NonNegative(filed)
  {
    forall l { ShardsPartition(y, l, k); }
  }

  lemma KeepsAdd(x: Pairs, y: Layout, z: Pairs, filed: Pairs, k: nat)
    requires y.shards > 0
    requires Keeps(x, filed, (l: int) => l < 0 && y.Before(l, k))
    requires Keeps(z, filed, (l: int) => l < 0 && y.InShard(l, k))
    ensures Keeps(x + z, filed, (l: int) => l < 0 && y.Before(l, k + 1))
  {
    forall l
      ensures Mass(x + z, l) == (if l < 0 && y.Before(l, k + 1) then Mass(filed, l) else 0)
      ensures Has(x + z, l) <==> (l < 0 && y.Before(l, k + 1)) && Has(filed, l)
    {
      ShardsPartition(y, l, k);
      MassConcat(x, z, l);
      HasConcat(x, z, l);
    }
  }

  method OneProcess(p: Process) returns (sizes: seq<nat>, touched: Pairs, ghost tags: seq<int>)
    requires p.Ok()
    ensures Binned(tags, sizes, NonNegative(p.Filed()), MassOf(p.Filed()))
    ensures Keeps(touched, p.Filed(), (l: int) => l < 0)
  {
    var y := p.y;
    ghost var filed := p.Filed();
    var store := new LabelShards(y);
    assert p.pes[..0] == [];
    for k := 0 to |p.pes|
      invariant store.y == y && fresh(store) && FiledFrom(y, Flatten(p.pes[..k]), store.dense, store.shards, 0)
    {
      FlattenPart(p.pes, k);
      store.Deposit(p.pes[k], Flatten(p.pes[..k]));
    }
    assert p.pes[..|p.pes|] == p.pes;
    sizes, touched, tags := [], [], [];
    ShardsAdd(y, filed, 0);
    NothingBefore(y, filed);
    for k := 0 to y.shards
      invariant store.y == y && fresh(store) && FiledFrom(y, filed, store.dense, store.shards, k)
      invariant Binned(tags, sizes, UntouchedBefore(y, filed, k), MassOf(filed))
      invariant Keeps(touched, filed, (l: int) => l < 0 && y.Before(l, k))
    {
      var more, rest; ghost var moreTags;
      more, rest, moreTags := store.HistogramShard(k, filed);
      ShardsAdd(y, filed, k);
      BinnedJoin(tags, sizes, UntouchedBefore(y, filed, k), moreTags, more, Untouched(y, filed, k), MassOf(filed));
      KeepsAdd(touched, y, rest, filed, k);
      sizes, touched, tags := sizes + more, touched + rest, tags + moreTags;
    }
    forall l { ShardsPartition(y, l, 0); }
  }

  lemma NothingBefore(y: Layout, filed: Pairs)
    requires y.shards > 0
    ensures Keeps([], filed, (l: int) => l < 0 && y.Before(l, 0))
  {
    forall l { ShardsPartition(y, l, 0); }
  }

  // ---- Stage 3.

  /** The process that owns a touched label's boss: the low field, whatever the sign. */
  function OwnerOf(l: int): nat {
    (-l - 2) % PROC_SPAN
  }

  ghost predicate Landed(landing: seq<Pairs>, from: Pairs) {
    forall q {:trigger landing[q]} :: 0 <= q < |landing| ==> Keeps(landing[q], from, (l: int) => OwnerOf(l) == q)
  }

  /** A touched label of a tip one of the run's n processes owns. */
  ghost predicate TouchedTip(l: int, n: nat) {
    exists q: nat, t: nat {:trigger EncodeTip(q, t)} :: q < n && Encodable(q, t) && l == Touched(EncodeTip(q, t))
  }

  /** The owner read off a touched label is the owner of the boss it names. */
  lemma OwnerOfTouched(q: nat, t: nat)
    requires Encodable(q, t)
    ensures OwnerOf(Touched(EncodeTip(q, t))) == Owner(EncodeTip(q, t)) == q
  {
    EncodeRoundTrip(q, t);
  }

  /** Every touched label of a process's tip is at that process with all its count, and nowhere else. */
  ghost predicate AtOwners(landing: seq<Pairs>, from: Pairs) {
    forall p, q: nat, t: nat {:trigger landing[p], EncodeTip(q, t)} :: 0 <= p < |landing| && Encodable(q, t) ==>
      var l := Touched(EncodeTip(q, t));
      (Has(landing[p], l) <==> p == q && Has(from, l)) && Mass(landing[p], l) == if p == q then Mass(from, l) else 0
  }

  lemma LandsAtOwners(landing: seq<Pairs>, from: Pairs)
    requires Landed(landing, from)
    ensures AtOwners(landing, from)
  {
    forall p, q: nat, t: nat | 0 <= p < |landing| && Encodable(q, t)
      ensures var l := Touched(EncodeTip(q, t));
        (Has(landing[p], l) <==> p == q && Has(from, l)) && Mass(landing[p], l) == if p == q then Mass(from, l) else 0
    {
      OwnerOfTouched(q, t);
      assert Keeps(landing[p], from, (l: int) => OwnerOf(l) == p);
    }
  }

  lemma TouchedTipOwned(l: int, n: nat)
    requires TouchedTip(l, n)
    ensures OwnerOf(l) < n
  {
    var q: nat, t: nat :| q < n && Encodable(q, t) && l == Touched(EncodeTip(q, t));
    OwnerOfTouched(q, t);
  }

  lemma KeepsSnoc(kept: Pairs, from: Pairs, which: int -> bool, p: (int, nat))
    requires Keeps(kept, from, which)
    ensures Keeps(if which(p.0) then kept + [p] else kept, from + [p], which)
  {
    forall l
      ensures Mass(from + [p], l) == Mass(from, l) + (if p.0 == l then p.1 else 0)
      ensures (Has(from + [p], l) <==> Has(from, l) || p.0 == l)
      ensures Mass(kept + [p], l) == Mass(kept, l) + (if p.0 == l then p.1 else 0)
      ensures (Has(kept + [p], l) <==> Has(kept, l) || p.0 == l)
    {
      MassOne(p, l);
      MassConcat(from, [p], l);
      MassConcat(kept, [p], l);
      assert Has([p], l) <==> p.0 == l by { assert [p][0] == p; }
      HasConcat(from, [p], l);
      HasConcat(kept, [p], l);
    }
  }

  /** scatterTouchedCounts, over all processes: false where the code aborts. */
  method Scatter(touched: Pairs, n: nat) returns (ok: bool, landing: seq<Pairs>)
    ensures ok <==> forall k {:trigger touched[k]} :: 0 <= k < |touched| ==> OwnerOf(touched[k].0) < n
    ensures (forall k {:trigger touched[k]} :: 0 <= k < |touched| ==> TouchedTip(touched[k].0, n)) ==> ok
    ensures ok ==> |landing| == n && Landed(landing, touched) && AtOwners(landing, touched)
  {
    forall k | 0 <= k < |touched| && TouchedTip(touched[k].0, n)
      ensures OwnerOf(touched[k].0) < n
    {
      TouchedTipOwned(touched[k].0, n);
    }
    landing := seq(n, q => []);
    assert touched[..0] == [];
    for i := 0 to |touched|
      invariant |landing| == n && Landed(landing, touched[..i])
      invariant forall k {:trigger touched[k]} :: 0 <= k < i ==> OwnerOf(touched[k].0) < n
    {
      var p := touched[i];
      var owner := OwnerOf(p.0);
      if owner >= n { return false, []; }
      forall q | 0 <= q < n { KeepsSnoc(landing[q], touched[..i], (l: int) => OwnerOf(l) == q, p); }
      assert touched[..i + 1] == touched[..i] + [p];
      landing := landing[owner := landing[owner] + [p]];
    }
    assert touched[..|touched|] == touched;
    LandsAtOwners(landing, touched);
    ok := true;
  }

  ghost function Mine(y: Layout, landing: Pairs, me: nat): iset<int>
    requires y.shards > 0
  {
    iset l | Has(landing, l) && y.mix(l) % y.shards == me
  }

  ghost function MineBefore(y: Layout, landing: Pairs, me: nat): iset<int>
    requires y.shards > 0
  {
    iset l | Has(landing, l) && y.mix(l) % y.shards < me
  }

  ghost function OwnedBefore(touched: Pairs, q: nat): iset<int> {
    iset l | Has(touched, l) && OwnerOf(l) < q
  }

  /** binTouchedCounts: this PE's labels of what landed. */
  method BinTouched(y: Layout, landing: Pairs, me: nat) returns (sizes: seq<nat>, ghost tags: seq<int>)
    requires y.shards > 0
    ensures Binned(tags, sizes, Mine(y, landing, me), MassOf(landing))
  {
    ghost var which := (l: int) => y.mix(l) % y.shards == me;
    var mine := [];
    assert landing[..0] == [];
    for i := 0 to |landing|
      invariant Keeps(mine, landing[..i], which)
    {
      KeepsSnoc(mine, landing[..i], which, landing[i]);
      assert landing[..i + 1] == landing[..i] + [landing[i]];
      if y.mix(landing[i].0) % y.shards == me { mine := mine + [landing[i]]; }
    }
    assert landing[..|landing|] == landing;
    var totals := SumByLabel(mine);
    sizes, tags := [], [];
    for i := 0 to |totals|
      invariant |sizes| == |tags| == i
      invariant forall k {:trigger tags[k]} :: 0 <= k < i ==> tags[k] == totals[k].0 && sizes[k] == totals[k].1
    {
      sizes, tags := sizes + [totals[i].1], tags + [totals[i].0];
    }
    forall k | 0 <= k < |tags|
      ensures tags[k] in Mine(y, landing, me) && sizes[k] == Mass(landing, tags[k])
    {
      assert totals[k].0 == tags[k];
      assert Has(totals, tags[k]) && Has(mine, tags[k]);
      assert Mass(mine, tags[k]) == Mass(landing, tags[k]);
    }
    forall l | l in Mine(y, landing, me)
      ensures l in tags
    {
      assert Has(mine, l) && Has(totals, l);
      var k :| 0 <= k < |totals| && totals[k].0 == l;
      assert tags[k] == l;
    }
    forall a, b | 0 <= a < b < |tags|
      ensures tags[a] != tags[b]
    {
      assert totals[a].0 < totals[b].0;
    }
  }

  /** All of one owner's PEs. */
  method BinLanded(y: Layout, landing: Pairs) returns (sizes: seq<nat>, ghost tags: seq<int>)
    requires y.shards > 0
    ensures Binned(tags, sizes, LabelsOf(landing), MassOf(landing))
  {
    sizes, tags := [], [];
    for me := 0 to y.shards
      invariant Binned(tags, sizes, MineBefore(y, landing, me), MassOf(landing))
    {
      var more; ghost var moreTags;
      ghost var had := MineBefore(y, landing, me);
      more, moreTags := BinTouched(y, landing, me);
      BinnedJoin(tags, sizes, had, moreTags, more, Mine(y, landing, me), MassOf(landing));
      assert MineBefore(y, landing, me + 1) == had + Mine(y, landing, me);
      sizes, tags := sizes + more, tags + moreTags;
    }
    assert MineBefore(y, landing, y.shards) == LabelsOf(landing);
  }

  method BinAllTouched(procs: seq<Process>, touched: Pairs, landing: seq<Pairs>)
    returns (sizes: seq<nat>, ghost tags: seq<int>)
    requires |landing| == |procs| && Landed(landing, touched) && forall p {:trigger procs[p]} :: 0 <= p < |procs| ==>
          procs[p].y.shards > 0
    requires forall k {:trigger touched[k]} :: 0 <= k < |touched| ==> OwnerOf(touched[k].0) < |procs|
    ensures Binned(tags, sizes, LabelsOf(touched), MassOf(touched))
  {
    sizes, tags := [], [];
    for q := 0 to |procs|
      invariant Binned(tags, sizes, OwnedBefore(touched, q), MassOf(touched))
    {
      var more; ghost var moreTags;
      ghost var had := OwnedBefore(touched, q);
      more, moreTags := BinLanded(procs[q].y, landing[q]);
      assert Keeps(landing[q], touched, (l: int) => OwnerOf(l) == q);
      forall l | l in LabelsOf(landing[q])
        ensures Has(touched, l) && OwnerOf(l) == q && MassOf(landing[q])(l) == MassOf(touched)(l)
      {
        assert Has(landing[q], l);
      }
      BinnedSame(moreTags, more, LabelsOf(landing[q]), MassOf(landing[q]), LabelsOf(landing[q]), MassOf(touched));
      BinnedJoin(tags, sizes, had, moreTags, more, LabelsOf(landing[q]), MassOf(touched));
      assert OwnedBefore(touched, q + 1) == had + LabelsOf(landing[q]);
      sizes, tags := sizes + more, tags + moreTags;
    }
    forall l | Has(touched, l)
      ensures OwnerOf(l) < |procs|
    {
      var k :| 0 <= k < |touched| && touched[k].0 == l;
    }
    assert OwnedBefore(touched, |procs|) == LabelsOf(touched);
  }

  // ---- The whole run.

  /** Stage 1 on processes 0..n-1. */
  ghost predicate Stage1Done(procs: seq<Process>, n: nat, sizes: seq<nat>, touched: Pairs, tags: seq<int>)
    requires n <= |procs|
  {
    && Binned(tags, sizes, NonNegative(Flatten(FiledOf(procs)[..n])), MassOf(Flatten(FiledOf(procs)[..n])))
    && Keeps(touched, Flatten(FiledOf(procs)[..n]), (l: int) => l < 0)
  }

  lemma {:induction false} HasPart(ps: seq<Pairs>, n: nat, l: int) returns (p: nat)
    requires n <= |ps| && Has(Flatten(ps[..n]), l)
    ensures p < n && Has(ps[p], l)
  {
    if n > 0 {
      FlattenPart(ps, n - 1);
      HasConcat(Flatten(ps[..n - 1]), ps[n - 1], l);
      if Has(ps[n - 1], l) { p := n - 1; } else { p := HasPart(ps, n - 1, l); }
    }
  }

  lemma Stage1Step(procs: seq<Process>, n: nat, sizes: seq<nat>, touched: Pairs, tags: seq<int>, s: seq<nat>,
                   t: Pairs, g: seq<int>)
    requires n < |procs| && SignContract(procs) && Stage1Done(procs, n, sizes, touched, tags)
    requires Binned(g, s, NonNegative(procs[n].Filed()), MassOf(procs[n].Filed()))
    requires Keeps(t, procs[n].Filed(), (l: int) => l < 0)
    ensures Stage1Done(procs, n + 1, sizes + s, touched + t, tags + g)
  {
    var all := FiledOf(procs);
    var had, now := Flatten(all[..n]), all[n];
    FlattenPart(all, n);
    forall l
      ensures Mass(had + now, l) == Mass(had, l) + Mass(now, l) && (Has(had + now, l) <==> Has(had, l) || Has(now, l))
      ensures Mass(touched + t, l) == Mass(touched, l) + Mass(t, l)
      ensures (Has(touched + t, l) <==> Has(touched, l) || Has(t, l))
    {
      MassConcat(had, now, l);
      HasConcat(had, now, l);
      MassConcat(touched, t, l);
      HasConcat(touched, t, l);
    }
    forall l | l >= 0 && Has(had, l)
      ensures !Has(now, l) && Mass(now, l) == 0
    {
      var p := HasPart(all, n, l);
      assert Has(procs[p].Filed(), l);
      assert now == procs[n].Filed();
      if Mass(now, l) > 0 { MassHas(now, l); }
    }
    forall l | !Has(had, l)
      ensures Mass(had, l) == 0
    {
      if Mass(had, l) > 0 { MassHas(had, l); }
    }
    BinnedSame(tags, sizes, NonNegative(had), MassOf(had), NonNegative(had), MassOf(had + now));
    BinnedSame(g, s, NonNegative(now), MassOf(now), NonNegative(now), MassOf(had + now));
    BinnedJoin(tags, sizes, NonNegative(had), g, s, NonNegative(now), MassOf(had + now));
    assert NonNegative(had + now) == NonNegative(had) + NonNegative(now);
  }

  /** Under the sign contract the distributed histogram bins every component of the whole run once,
      with its full size, or aborts because a touched label names no process. */
  method Run(procs: seq<Process>) returns (ok: bool, sizes: seq<nat>, ghost tags: seq<int>)
    requires SignContract(procs) && forall p {:trigger procs[p]} :: 0 <= p < |procs| ==> procs[p].Ok()
    ensures ok <==> forall l {:trigger OwnerOf(l)} :: Has(Flatten(FiledOf(procs)), l) && l < 0 ==> OwnerOf(l) < |procs|
    ensures (forall l {:trigger TouchedTip(l, |procs|)} :: Has(Flatten(FiledOf(procs)), l) && l < 0 ==>
                TouchedTip(l, |procs|)) ==> ok
    ensures ok ==> Binned(tags, sizes, LabelsOf(Flatten(FiledOf(procs))), MassOf(Flatten(FiledOf(procs))))
    ensures ok ==> Sum(sizes) == Total(Flatten(FiledOf(procs)))
  {
    ghost var all := Flatten(FiledOf(procs));
    var touched: Pairs := [];
    sizes, tags := [], [];
    assert FiledOf(procs)[..0] == [];
    for n := 0 to |procs|
      invariant Stage1Done(procs, n, sizes, touched, tags)
    {
      var s, t; ghost var g;
      s, t, g := OneProcess(procs[n]);
      Stage1Step(procs, n, sizes, touched, tags, s, t, g);
      sizes, touched, tags := sizes + s, touched + t, tags + g;
    }
    assert FiledOf(procs)[..|procs|] == FiledOf(procs);
    var landing;
    ok, landing := Scatter(touched, |procs|);
    TouchedOwners(all, touched, |procs|);
    forall l | Has(all, l) && l < 0 && TouchedTip(l, |procs|) ensures OwnerOf(l) < |procs| {
      TouchedTipOwned(l, |procs|);
    }
    if !ok { return; }
    var more; ghost var moreTags;
    more, moreTags := BinAllTouched(procs, touched, landing);
    forall l | l in LabelsOf(touched)
      ensures l < 0 && MassOf(touched)(l) == MassOf(all)(l)
    {
      assert Has(touched, l);
    }
    BinnedSame(moreTags, more, LabelsOf(touched), MassOf(touched), LabelsOf(touched), MassOf(all));
    BinnedJoin(tags, sizes, NonNegative(all), moreTags, more, LabelsOf(touched), MassOf(all));
    assert NonNegative(all) + LabelsOf(touched) == LabelsOf(all);
    sizes, tags := sizes + more, tags + moreTags;
    BinnedConserves(tags, sizes, all);
  }

  lemma TouchedOwners(all: Pairs, touched: Pairs, n: nat)
    requires Keeps(touched, all, (l: int) => l < 0)
    ensures (forall k {:trigger touched[k]} :: 0 <= k < |touched| ==> OwnerOf(touched[k].0) < n)
       <==> (forall l {:trigger OwnerOf(l)} :: Has(all, l) && l < 0 ==> OwnerOf(l) < n)
  {
    forall k | 0 <= k < |touched|
      ensures Has(all, touched[k].0) && touched[k].0 < 0
    {
      assert Has(touched, touched[k].0);
    }
    forall l | Has(all, l) && l < 0
      ensures exists k :: 0 <= k < |touched| && touched[k].0 == l
    {
      assert Has(touched, l);
    }
  }
}
