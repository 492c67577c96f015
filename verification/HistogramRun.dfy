/** The three stages of the histogram: deposit into the dense array or a hash shard, bin the
    untouched labels shard by shard, route the touched ones to their boss's owner and bin them. */
module HistogramRun {
  import opened Arithmetic
  import opened Labels
  import opened Histogram

  /** A process: the window of its dense array, its shard count (one per PE) and the hash that picks
      a shard. */
  datatype Layout = Layout(lo: int, width: nat, shards: nat, mix: int -> nat) {
    predicate InWindow(l: int) {
      l >= 0 && lo <= Tip(l) < lo + width
    }

    function Cell(l: int): nat
      requires InWindow(l)
    {
      Tip(l) - lo
    }

    /** Where shard k's slice of the dense array begins. */
    function Slice(k: nat): nat
      requires shards > 0
    {
      width * k / shards
    }

    predicate InShard(l: int, k: nat)
      requires shards > 0
    {
      if InWindow(l) then Slice(k) <= Cell(l) < Slice(k + 1) else mix(l) % shards == k
    }

    predicate Before(l: int, k: nat)
      requires shards > 0
    {
      if InWindow(l) then Cell(l) < Slice(k) else mix(l) % shards < k
    }
  }

  lemma SlicesRise(y: Layout, k: nat)
    requires y.shards > 0
    ensures y.Slice(k) <= y.Slice(k + 1) && y.Slice(0) == 0 && y.Slice(y.shards) == y.width
    ensures k < y.shards ==> y.Slice(k + 1) <= y.width
  {
    Quotients(y.width * k, y.width * (k + 1), y.shards);
    WholeQuotient(y.width, y.shards);
    if k < y.shards {
      Products(y.width, k + 1, y.shards);
      Quotients(y.width * (k + 1), y.width * y.shards, y.shards);
    }
  }

  lemma ShardsPartition(y: Layout, l: int, k: nat)
    requires y.shards > 0
    ensures y.Before(l, k + 1) <==> y.Before(l, k) || y.InShard(l, k)
    ensures !(y.Before(l, k) && y.InShard(l, k))
    ensures !y.Before(l, 0) && y.Before(l, y.shards)
  {
    SlicesRise(y, k);
  }

  // ---- The dense array.

  function CellMass(y: Layout, ps: Pairs, c: nat): nat {
    if ps == [] then 0
    else (if y.InWindow(ps[0].0) && y.Cell(ps[0].0) == c then ps[0].1 else 0) + CellMass(y, ps[1..], c)
  }

  lemma {:induction false} CellMassSnoc(y: Layout, ps: Pairs, p: (int, nat), c: nat)
    ensures CellMass(y, ps + [p], c) == CellMass(y, ps, c) + if y.InWindow(p.0) && y.Cell(p.0) == c then p.1 else 0
  {
    if ps == [] {
      var none: Pairs := [p][1..];
      assert none == [] && ps + [p] == [p];
    } else {
      CellMassSnoc(y, ps[1..], p, c);
      assert (ps + [p])[1..] == ps[1..] + [p];
    }
  }

  /** No two labels of this process share a cell of the dense array. */
  ghost predicate Faithful(y: Layout, ps: Pairs) {
    forall l, m {:trigger Has(ps, l), Has(ps, m)} ::
      Has(ps, l) && Has(ps, m) && y.InWindow(l) && y.InWindow(m) && Tip(l) == Tip(m) ==> l == m
  }

  lemma {:induction false} CellsAdd(y: Layout, ps: Pairs, l: int, m: int)
    requires y.InWindow(l) && y.InWindow(m) && Tip(l) == Tip(m)
    ensures CellMass(y, ps, y.Cell(l)) >= Mass(ps, l) + if l != m then Mass(ps, m) else 0
  {
    if ps != [] { CellsAdd(y, ps[1..], l, m); }
  }

  lemma {:induction false} CellAlone(y: Layout, ps: Pairs, l: int)
    requires y.InWindow(l)
    requires forall k {:trigger ps[k]} :: 0 <= k < |ps| && y.InWindow(ps[k].0) && Tip(ps[k].0) == Tip(l) ==>
          ps[k].0 == l
    ensures CellMass(y, ps, y.Cell(l)) == Mass(ps, l)
  {
    if ps != [] {
      forall k | 0 <= k < |ps[1..]| && y.InWindow(ps[1..][k].0) && Tip(ps[1..][k].0) == Tip(l)
        ensures ps[1..][k].0 == l
      {
        assert ps[k + 1] == ps[1..][k];
      }
      CellAlone(y, ps[1..], l);
    }
  }

  /** The dense array holds every label's size exactly when no two of its labels share a cell. */
  lemma DenseExact(y: Layout, ps: Pairs)
    requires Positive(ps)
    ensures (forall l {:trigger Has(ps, l)} :: Has(ps, l) && y.InWindow(l) ==>
          CellMass(y, ps, y.Cell(l)) == Mass(ps, l)) <==> Faithful(y, ps)
  {
    if Faithful(y, ps) {
      forall l | Has(ps, l) && y.InWindow(l)
        ensures CellMass(y, ps, y.Cell(l)) == Mass(ps, l)
      {
        DenseCell(y, ps, l);
      }
    } else {
      var l, m :| Has(ps, l) && Has(ps, m) && y.InWindow(l) && y.InWindow(m) && Tip(l) == Tip(m) && l != m;
      CellsAdd(y, ps, l, m);
      HasMass(ps, m);
      assert CellMass(y, ps, y.Cell(l)) != Mass(ps, l);
    }
  }

  lemma DenseCell(y: Layout, ps: Pairs, l: int)
    requires Faithful(y, ps) && Has(ps, l) && y.InWindow(l)
    ensures CellMass(y, ps, y.Cell(l)) == Mass(ps, l)
  {
    forall k | 0 <= k < |ps| && y.InWindow(ps[k].0) && Tip(ps[k].0) == Tip(l)
      ensures ps[k].0 == l
    {
      assert Has(ps, ps[k].0);
    }
    CellAlone(y, ps, l);
  }

  /** Labels encoded by one process never share a cell. */
  lemma EncodedFaithful(y: Layout, ps: Pairs, process: nat)
    requires forall l {:trigger Has(ps, l)} :: Has(ps, l) && l >= 0 ==> l < LONG_SPAN && Owner(l) == process
    ensures Faithful(y, ps)
  {
    forall l, m | Has(ps, l) && Has(ps, m) && y.InWindow(l) && y.InWindow(m) && Tip(l) == Tip(m)
      ensures l == m
    {
      DecodeRoundTrip(l);
      DecodeRoundTrip(m);
    }
  }

  /** A latent hazard: bare orders would share cells, since the index drops a label's low 20 bits.  In the window
      made for orders 0 and 1, with three and four particles, they would end as one component of seven.  Every
      caller encodes first. */
  lemma BareOrdersAlias(mix: int -> nat)
    ensures var y := Layout(0, 2, 1, mix); var ps: Pairs := [(0, 3), (1, 4)];
            CellMass(y, ps, 0) == 7 && Mass(ps, 0) == 3 && Mass(ps, 1) == 4
  {
    var y := Layout(0, 2, 1, mix);
    var ps: Pairs := [(0, 3), (1, 4)];
    var none: Pairs := [];
    assert ps == none + [(0, 3)] + [(1, 4)];
    CellMassSnoc(y, none, (0, 3), 0);
    CellMassSnoc(y, none + [(0, 3)], (1, 4), 0);
    MassOne((1, 4), 0);
    MassOne((1, 4), 1);
    assert ps[1..] == [(1, 4)];
    assert y.InWindow(0) && y.InWindow(1) && y.Cell(0) == 0 && y.Cell(1) == 0;
  }

  // ---- Stage 1: deposits, and one process's shards.

  /** Cells and shards from shard k on hold what was filed; earlier ones are read and cleared. */
  ghost predicate FiledFrom(y: Layout, filed: Pairs, dense: seq<nat>, shards: seq<Pairs>, k: nat)
    requires y.shards > 0
  {
    && |dense| == y.width && |shards| == y.shards
    && (forall c {:trigger dense[c]} :: 0 <= c < y.width ==>
          dense[c] == if c >= y.Slice(k) then CellMass(y, filed, c) else 0)
    && (forall s {:trigger shards[s]} :: 0 <= s < y.shards ==>
          if s >= k then ShardHolds(y, filed, shards[s], s) else shards[s] == [])
  }

  ghost predicate ShardHolds(y: Layout, filed: Pairs, shard: Pairs, s: nat)
    requires y.shards > 0
  {
    forall l {:trigger Mass(shard, l)} {:trigger Has(shard, l)} ::
      && Mass(shard, l) == (if !y.InWindow(l) && y.mix(l) % y.shards == s then Mass(filed, l) else 0)
      && (Has(shard, l) <==> Has(filed, l) && !y.InWindow(l) && y.mix(l) % y.shards == s)
  }

  lemma ShardHoldsMore(y: Layout, filed: Pairs, shard: Pairs, s: nat, p: (int, nat))
    requires y.shards > 0 && ShardHolds(y, filed, shard, s)
    ensures ShardHolds(y, filed + [p], if !y.InWindow(p.0) && y.mix(p.0) % y.shards == s then shard + [p] else shard, s)
  {
    forall l
      ensures Mass(filed + [p], l) == Mass(filed, l) + (if p.0 == l then p.1 else 0)
      ensures (Has(filed + [p], l) <==> Has(filed, l) || p.0 == l)
      ensures Mass(shard + [p], l) == Mass(shard, l) + (if p.0 == l then p.1 else 0)
      ensures (Has(shard + [p], l) <==> Has(shard, l) || p.0 == l)
    {
      MassOne(p, l);
      MassConcat(filed, [p], l);
      MassConcat(shard, [p], l);
      assert Has([p], l) <==> p.0 == l by { assert [p][0] == p; }
      HasConcat(filed, [p], l);
      HasConcat(shard, [p], l);
    }
  }

  class LabelShards {
    const y: Layout
    var dense: seq<nat>
    var shards: seq<Pairs>

    constructor (y: Layout)
      requires y.shards > 0
      ensures this.y == y && FiledFrom(y, [], dense, shards, 0)
    {
      this.y := y;
      dense := seq(y.width, c => 0);
      shards := seq(y.shards, s => []);
      SlicesRise(y, 0);
    }

    /** depositLabelCounts: add into the dense cell, or file with the shard the hash picks. */
    method Deposit(pairs: Pairs, ghost filed: Pairs)
      requires y.shards > 0 && FiledFrom(y, filed, dense, shards, 0)
      modifies this
      ensures FiledFrom(y, filed + pairs, dense, shards, 0)
    {
      assert pairs[..0] == [] && filed + [] == filed;
      for i := 0 to |pairs|
        invariant FiledFrom(y, filed + pairs[..i], dense, shards, 0)
      {
        DepositOne(pairs[i], filed + pairs[..i]);
        assert pairs[..i + 1] == pairs[..i] + [pairs[i]];
        assert filed + pairs[..i + 1] == filed + pairs[..i] + [pairs[i]];
      }
      assert pairs[..|pairs|] == pairs;
    }

    method DepositOne(p: (int, nat), ghost filed: Pairs)
      requires y.shards > 0 && FiledFrom(y, filed, dense, shards, 0)
      modifies this
      ensures FiledFrom(y, filed + [p], dense, shards, 0)
    {
      SlicesRise(y, 0);
      forall c: nat | c < y.width { CellMassSnoc(y, filed, p, c); }
      forall s: nat | s < y.shards
        ensures ShardHolds(y, filed + [p], if !y.InWindow(p.0) && y.mix(p.0) % y.shards == s then shards[s] + [p]
              else shards[s], s)
      {
        ShardHoldsMore(y, filed, shards[s], s, p);
      }
      if y.InWindow(p.0) {
        var c := y.Cell(p.0);
        dense := dense[c := dense[c] + p.1];
      } else {
        var s := y.mix(p.0) % y.shards;
        shards := shards[s := shards[s] + [p]];
      }
    }

    /** The dense half of histogramShard: a non-zero cell of this shard's slice is a complete size;
        reading it clears it. */
    method ScanDense(k: nat, ghost filed: Pairs) returns (sizes: seq<nat>, ghost tags: seq<int>)
      requires y.shards > 0 && k < y.shards && FiledFrom(y, filed, dense, shards, k) && Faithful(y, filed)
      requires Positive(filed)
      modifies this`dense
      ensures |dense| == y.width
      ensures forall c {:trigger dense[c]} :: 0 <= c < y.width ==>
            dense[c] == if c >= y.Slice(k + 1) then CellMass(y, filed, c) else 0
      ensures Binned(tags, sizes, DenseSlice(y, filed, y.Slice(k), y.Slice(k + 1)), MassOf(filed))
    {
      SlicesRise(y, k);
      sizes, tags := [], [];
      for c := y.Slice(k) to y.Slice(k + 1)
        invariant |dense| == y.width
        invariant forall d {:trigger dense[d]} :: 0 <= d < y.width ==>
              dense[d] == if d >= c then CellMass(y, filed, d) else 0
        invariant Binned(tags, sizes, DenseSlice(y, filed, y.Slice(k), c), MassOf(filed))
      {
        ghost var had := DenseSlice(y, filed, y.Slice(k), c);
        var size := dense[c];
        if size != 0 {
          ghost var l := CellLabel(y, filed, c);
          CellBinned(y, filed, y.Slice(k), c, l);
          assert Binned([l], [size], iset{l}, MassOf(filed));
          BinnedJoin(tags, sizes, had, [l], [size], iset{l}, MassOf(filed));
          sizes, tags := sizes + [size], tags + [l];
        } else {
          CellEmpty(y, filed, y.Slice(k), c);
        }
        dense := dense[c := 0];
      }
    }

    /** histogramShard: the dense slice, then the sorted pairs; touched totals go to stage 3. */
    method HistogramShard(k: nat, ghost filed: Pairs) returns (sizes: seq<nat>, touched: Pairs, ghost tags: seq<int>)
      requires y.shards > 0 && k < y.shards && FiledFrom(y, filed, dense, shards, k) && Faithful(y, filed)
      requires Positive(filed)
      modifies this
      ensures FiledFrom(y, filed, dense, shards, k + 1)
      ensures Binned(tags, sizes, Untouched(y, filed, k), MassOf(filed))
      ensures Keeps(touched, filed, (l: int) => l < 0 && y.InShard(l, k))
    {
      sizes, tags := ScanDense(k, filed);
      var shard := shards[k];
      shards := shards[k := []];
      var totals := SumByLabel(shard);
      var more; ghost var moreTags;
      more, touched, moreTags := SplitTotals(shard, totals);
      ghost var inCells := DenseSlice(y, filed, y.Slice(k), y.Slice(k + 1));
      ghost var inPairs := Untouched(y, filed, k) - inCells;
      ShardUntouched(y, filed, shard, k);
      BinnedSame(moreTags, more, NonNegative(shard), MassOf(shard), inPairs, MassOf(filed));
      BinnedJoin(tags, sizes, inCells, moreTags, more, inPairs, MassOf(filed));
      assert inCells + inPairs == Untouched(y, filed, k);
      sizes, tags := sizes + more, tags + moreTags;
    }
  }

  /** kept holds, of ps, exactly the labels in `which`, with the same totals. */
  ghost predicate Keeps(kept: Pairs, ps: Pairs, which: int -> bool) {
    forall l {:trigger Mass(kept, l)} {:trigger Has(kept, l)} ::
      && Mass(kept, l) == (if which(l) then Mass(ps, l) else 0)
      && (Has(kept, l) <==> which(l) && Has(ps, l))
  }

  ghost function NonNegative(ps: Pairs): iset<int> {
    iset l | Has(ps, l) && l >= 0
  }

  ghost function Untouched(y: Layout, filed: Pairs, k: nat): iset<int>
    requires y.shards > 0
  {
    iset l | Has(filed, l) && l >= 0 && y.InShard(l, k)
  }

  lemma ShardUntouched(y: Layout, filed: Pairs, shard: Pairs, k: nat)
    requires y.shards > 0 && k < y.shards && ShardHolds(y, filed, shard, k)
    ensures NonNegative(shard) == Untouched(y, filed, k) - DenseSlice(y, filed, y.Slice(k), y.Slice(k + 1))
    ensures forall l :: Has(shard, l) ==> MassOf(shard)(l) == MassOf(filed)(l)
    ensures forall l :: l < 0 && y.InShard(l, k) ==>
          Mass(shard, l) == Mass(filed, l) && (Has(shard, l) <==> Has(filed, l))
    ensures forall l :: l < 0 && Has(shard, l) ==> y.InShard(l, k)
    ensures forall l :: l < 0 && !y.InShard(l, k) ==> Mass(shard, l) == 0
  {
  }

  function Negative(ps: Pairs): Pairs {
    if ps == [] then [] else (if ps[0].0 < 0 then [ps[0]] else []) + Negative(ps[1..])
  }

  lemma {:induction false} NegativeKeeps(ps: Pairs, l: int)
    ensures Mass(Negative(ps), l) == (if l < 0 then Mass(ps, l) else 0)
    ensures Has(Negative(ps), l) <==> l < 0 && Has(ps, l)
  {
    if ps != [] {
      NegativeKeeps(ps[1..], l);
      HasSplit(ps, l);
      if ps[0].0 < 0 {
        var n := Negative(ps);
        assert n[1..] == Negative(ps[1..]);
        HasSplit(n, l);
      } else {
        assert Negative(ps) == Negative(ps[1..]);
      }
    }
  }

  lemma {:induction false} NegativeSnoc(ps: Pairs, p: (int, nat))
    ensures Negative(ps + [p]) == Negative(ps) + if p.0 < 0 then [p] else []
  {
    if ps == [] {
      var none: Pairs := [p][1..];
      assert none == [] && ps + [p] == [p];
    } else {
      NegativeSnoc(ps[1..], p);
      assert (ps + [p])[1..] == ps[1..] + [p];
    }
  }

  lemma {:induction false} AloneMass(totals: Pairs, k: nat)
    requires k < |totals| && forall a, b {:trigger totals[a], totals[b]} :: 0 <= a < b < |totals| ==>
          totals[a].0 < totals[b].0
    ensures Mass(totals, totals[k].0) == totals[k].1
  {
    var rest := totals[1..];
    forall a, b | 0 <= a < b < |rest|
      ensures rest[a].0 < rest[b].0
    {
      assert totals[a + 1].0 < totals[b + 1].0;
    }
    if k == 0 {
      if Mass(rest, totals[0].0) > 0 {
        MassHas(rest, totals[0].0);
      }
    } else {
      AloneMass(rest, k - 1);
    }
  }

  lemma SummedMass(ps: Pairs, totals: Pairs, l: int)
    requires Summed(ps, totals)
    ensures Mass(totals, l) == Mass(ps, l)
  {
    if Has(totals, l) {
      var k :| 0 <= k < |totals| && totals[k].0 == l;
      AloneMass(totals, k);
    } else {
      if Mass(totals, l) > 0 { MassHas(totals, l); }
      if Mass(ps, l) > 0 { MassHas(ps, l); }
    }
  }

  lemma NonNegativeSnoc(ps: Pairs, p: (int, nat))
    ensures NonNegative(ps + [p]) == NonNegative(ps) + if p.0 < 0 then iset{} else iset{p.0}
  {
    forall l
      ensures Has(ps + [p], l) <==> Has(ps, l) || l == p.0
    {
      HasConcat(ps, [p], l);
      assert Has([p], l) <==> l == p.0 by { assert [p][0] == p; }
    }
  }

  lemma FreshLabel(totals: Pairs, i: nat)
    requires i < |totals| && forall a, b {:trigger totals[a], totals[b]} :: 0 <= a < b < |totals| ==>
          totals[a].0 < totals[b].0
    ensures totals[i].0 !in NonNegative(totals[..i])
  {
  }

  lemma BinTotal(ps: Pairs, totals: Pairs, i: nat, tags: seq<int>, sizes: seq<nat>)
    requires Summed(ps, totals) && i < |totals| && totals[i].0 >= 0
    requires Binned(tags, sizes, NonNegative(totals[..i]), MassOf(ps))
    ensures Binned(tags + [totals[i].0], sizes + [totals[i].1], NonNegative(totals[..i])
          + iset{totals[i].0}, MassOf(ps))
  {
    FreshLabel(totals, i);
    BinnedJoin(tags, sizes, NonNegative(totals[..i]), [totals[i].0], [totals[i].1], iset{totals[i].0}, MassOf(ps));
  }

  /** Bin the totals of non-negative labels, set the others aside. */
  method SplitTotals(ghost ps: Pairs, totals: Pairs) returns (sizes: seq<nat>, touched: Pairs, ghost tags: seq<int>)
    requires Summed(ps, totals)
    ensures Binned(tags, sizes, NonNegative(ps), MassOf(ps))
    ensures Keeps(touched, ps, (l: int) => l < 0)
  {
    sizes, touched, tags := [], [], [];
    assert totals[..0] == [];
    for i := 0 to |totals|
      invariant touched == Negative(totals[..i])
      invariant Binned(tags, sizes, NonNegative(totals[..i]), MassOf(ps))
    {
      assert totals[..i + 1] == totals[..i] + [totals[i]];
      NegativeSnoc(totals[..i], totals[i]);
      if totals[i].0 < 0 {
        touched := touched + [totals[i]];
      } else {
        BinTotal(ps, totals, i, tags, sizes);
        sizes, tags := sizes + [totals[i].1], tags + [totals[i].0];
      }
      NonNegativeSnoc(totals[..i], totals[i]);
    }
    assert totals[..|totals|] == totals;
    assert NonNegative(totals) == NonNegative(ps);
    forall l
      ensures Mass(touched, l) == (if l < 0 then Mass(ps, l) else 0) && (Has(touched, l) <==> l < 0 && Has(ps, l))
    {
      NegativeKeeps(totals, l);
      SummedMass(ps, totals, l);
    }
  }

  ghost function DenseSlice(y: Layout, filed: Pairs, from: nat, to: nat): iset<int> {
    iset l | Has(filed, l) && y.InWindow(l) && from <= y.Cell(l) < to
  }

  lemma {:induction false} CellLabel(y: Layout, ps: Pairs, c: nat) returns (l: int)
    requires CellMass(y, ps, c) > 0
    ensures Has(ps, l) && y.InWindow(l) && y.Cell(l) == c
  {
    if y.InWindow(ps[0].0) && y.Cell(ps[0].0) == c {
      l := ps[0].0;
    } else {
      l := CellLabel(y, ps[1..], c);
    }
    HasSplit(ps, l);
  }

  lemma CellBinned(y: Layout, filed: Pairs, from: nat, c: nat, l: int)
    requires Faithful(y, filed) && Has(filed, l) && y.InWindow(l) && y.Cell(l) == c && from <= c
    ensures CellMass(y, filed, c) == Mass(filed, l) && l !in DenseSlice(y, filed, from, c)
    ensures DenseSlice(y, filed, from, c + 1) == DenseSlice(y, filed, from, c) + iset{l}
  {
    DenseCell(y, filed, l);
    forall m | m in DenseSlice(y, filed, from, c + 1)
      ensures m in DenseSlice(y, filed, from, c) + iset{l}
    {
      if y.Cell(m) == c { assert Tip(m) == Tip(l); }
    }
  }

  lemma CellEmpty(y: Layout, filed: Pairs, from: nat, c: nat)
    requires Faithful(y, filed) && Positive(filed) && CellMass(y, filed, c) == 0
    ensures DenseSlice(y, filed, from, c + 1) == DenseSlice(y, filed, from, c)
  {
    forall m | m in DenseSlice(y, filed, from, c + 1)
      ensures m in DenseSlice(y, filed, from, c)
    {
      if y.Cell(m) == c { DenseCell(y, filed, m); HasMass(filed, m); }
    }
  }
}
