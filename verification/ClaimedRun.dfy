/** From the process-wide piece pool to exact labels: whoever wins which piece, the process ends with
    a permutation of its particles and the same label on each. */
module ClaimedRun {
  import opened Geometry
  import opened Linking
  import opened PhaseARun
  import opened PhaseAWalk
  import opened PhaseBRun
  import opened Rounds
  import opened Labels
  import opened ProcessRun
  import opened Sorting
  import Claims

  function Select(pieces: seq<Piece>, idx: seq<nat>): seq<Piece>
    requires forall k {:trigger idx[k]} :: 0 <= k < |idx| ==> idx[k] < |pieces|
  {
    if idx == [] then [] else [pieces[idx[0]]] + Select(pieces, idx[1..])
  }

  function Realize(pieces: seq<Piece>, buckets: seq<seq<nat>>): seq<seq<Piece>>
    requires forall p, k {:trigger buckets[p][k]} :: 0 <= p < |buckets| && 0 <= k < |buckets[p]| ==>
          buckets[p][k] < |pieces|
  {
    if buckets == [] then [] else
      assert forall k {:trigger buckets[0][k]} :: 0 <= k < |buckets[0]| ==> buckets[0][k] < |pieces|;
      assert forall p, k {:trigger buckets[1..][p][k]} :: 0 <= p < |buckets[1..]| && 0 <= k < |buckets[1..][p]| ==>
            buckets[1..][p][k] == buckets[p + 1][k];
      [Select(pieces, buckets[0])] + Realize(pieces, buckets[1..])
  }

  /** The blocks of the listed pieces, as a bag of particles. */
  function Bag(pieces: seq<Piece>, idx: seq<nat>): multiset<Particle>
    requires forall k {:trigger idx[k]} :: 0 <= k < |idx| ==> idx[k] < |pieces|
  {
    if idx == [] then multiset{} else multiset(pieces[idx[0]].parts) + Bag(pieces, idx[1..])
  }

  lemma {:induction false} BagConcat(pieces: seq<Piece>, x: seq<nat>, y: seq<nat>)
    requires forall k {:trigger x[k]} :: 0 <= k < |x| ==> x[k] < |pieces|
    requires forall k {:trigger y[k]} :: 0 <= k < |y| ==> y[k] < |pieces|
    ensures Bag(pieces, x + y) == Bag(pieces, x) + Bag(pieces, y)
  {
    if x == [] {
      assert x + y == y;
    } else {
      var z := x + y;
      assert z[0] == x[0] && z[1..] == x[1..] + y;
      BagConcat(pieces, x[1..], y);
      assert Bag(pieces, z) == multiset(pieces[z[0]].parts) + Bag(pieces, z[1..]);
    }
  }

  lemma BagRemove(pieces: seq<Piece>, y: seq<nat>, k: nat)
    requires k < |y| && forall k {:trigger y[k]} :: 0 <= k < |y| ==> y[k] < |pieces|
    ensures forall j {:trigger (y[..k] + y[k + 1..])[j]} :: 0 <= j < |y| - 1 ==> (y[..k] + y[k + 1..])[j] < |pieces|
    ensures Bag(pieces, y) == multiset(pieces[y[k]].parts) + Bag(pieces, y[..k] + y[k + 1..])
  {
    var pre, post := y[..k], y[k..];
    assert post[0] == y[k] && post[1..] == y[k + 1..] && y == pre + post;
    assert Bag(pieces, post) == multiset(pieces[y[k]].parts) + Bag(pieces, y[k + 1..]);
    BagConcat(pieces, pre, y[k + 1..]);
    BagConcat(pieces, pre, post);
  }

  lemma {:induction false} BagPermutes(pieces: seq<Piece>, x: seq<nat>, y: seq<nat>)
    requires multiset(x) == multiset(y)
    requires forall k {:trigger x[k]} :: 0 <= k < |x| ==> x[k] < |pieces|
    requires forall k {:trigger y[k]} :: 0 <= k < |y| ==> y[k] < |pieces|
    ensures Bag(pieces, x) == Bag(pieces, y)
    decreases |x|
  {
    if x == [] {
      assert |multiset(y)| == |y|;
    } else {
      var k := FindFirst(x, y);
      var rest := y[..k] + y[k + 1..];
      RemoveAt(y, k);
      RemoveAt(x, 0);
      assert x[..0] + x[1..] == x[1..];
      BagRemove(pieces, y, k);
      BagPermutes(pieces, x[1..], rest);
    }
  }

  lemma {:induction false} SelectBag(pieces: seq<Piece>, idx: seq<nat>)
    requires forall k {:trigger idx[k]} :: 0 <= k < |idx| ==> idx[k] < |pieces|
    ensures multiset(Blocks(Select(pieces, idx))) == Bag(pieces, idx)
    ensures |Select(pieces, idx)| == |idx| && forall k {:trigger Select(pieces, idx)[k]} :: 0 <= k < |idx| ==>
          Select(pieces, idx)[k] == pieces[idx[k]]
  {
    if idx != [] {
      SelectBag(pieces, idx[1..]);
      var s := Select(pieces, idx);
      assert s[1..] == Select(pieces, idx[1..]);
      assert Blocks(s) == pieces[idx[0]].parts + Blocks(s[1..]);
    }
  }

  lemma {:induction false} RealizeBag(pieces: seq<Piece>, buckets: seq<seq<nat>>)
    requires forall p, k {:trigger buckets[p][k]} :: 0 <= p < |buckets| && 0 <= k < |buckets[p]| ==>
          buckets[p][k] < |pieces|
    requires forall k {:trigger Claims.Concat(buckets)[k]} :: 0 <= k < |Claims.Concat(buckets)| ==>
          Claims.Concat(buckets)[k] < |pieces|
    ensures multiset(AllBlocks(Realize(pieces, buckets))) == Bag(pieces, Claims.Concat(buckets))
    ensures |Realize(pieces, buckets)| == |buckets|
    ensures forall p, k {:trigger Realize(pieces, buckets)[p][k]} ::
          0 <= p < |buckets| && 0 <= k < |Realize(pieces, buckets)[p]| ==> Realize(pieces, buckets)[p][k] in pieces
  {
    if buckets != [] {
      var head, tail := buckets[0], buckets[1..];
      var c := Claims.Concat(buckets);
      assert c == head + Claims.Concat(tail);
      forall k | 0 <= k < |head| ensures head[k] < |pieces| { assert c[k] == head[k]; }
      forall k | 0 <= k < |Claims.Concat(tail)|
        ensures Claims.Concat(tail)[k] < |pieces|
      {
        assert c[|head| + k] == Claims.Concat(tail)[k];
      }
      forall p, k | 0 <= p < |tail| && 0 <= k < |tail[p]|
        ensures tail[p][k] < |pieces|
      {
        assert tail[p][k] == buckets[p + 1][k];
      }
      RealizeBag(pieces, tail);
      SelectBag(pieces, head);
      BagConcat(pieces, head, Claims.Concat(tail));
      var r := Realize(pieces, buckets);
      assert r[0] == Select(pieces, head) && r[1..] == Realize(pieces, tail);
      assert AllBlocks(r) == Blocks(r[0]) + AllBlocks(r[1..]);
      forall p, k | 0 <= p < |buckets| && 0 <= k < |r[p]|
        ensures r[p][k] in pieces
      {
        if p > 0 { assert r[p] == r[1..][p - 1]; assert r[1..][p - 1][k] in pieces; }
      }
    }
  }

  lemma {:induction false} IotaBag(pieces: seq<Piece>, n: nat)
    requires n <= |pieces|
    ensures Bag(pieces, Identity(0, n)) == multiset(Blocks(pieces[..n]))
  {
    if n == 0 {
      assert pieces[..0] == [];
    } else {
      IotaBag(pieces, n - 1);
      assert Identity(0, n) == Identity(0, n - 1) + [n - 1];
      BagConcat(pieces, Identity(0, n - 1), [n - 1]);
      var none: seq<nat> := [n - 1][1..];
      assert none == [];
      BlocksSnoc(pieces, n - 1);
    }
  }

  // ---- What a permutation of the particles keeps.

  lemma DistinctPermutes(x: seq<Particle>, y: seq<Particle>)
    requires DistinctOrders(x) && multiset(x) == multiset(y)
    ensures DistinctOrders(y)
  {
    forall i, j | 0 <= i < j < |y|
      ensures y[i].order != y[j].order
    {
      if y[i].order == y[j].order {
        SameMembers(x, y, y[i]);
        SameMembers(x, y, y[j]);
        var k :| 0 <= k < |x| && x[k] == y[i];
        var l :| 0 <= l < |x| && x[l] == y[j];
        assert k == l;
        TwiceCounted(y, i, j);
        OnceCounted(x, k);
      }
    }
  }

  lemma OnceCounted(x: seq<Particle>, k: nat)
    requires DistinctOrders(x) && k < |x|
    ensures multiset(x)[x[k]] == 1
  {
    assert x == x[..k] + [x[k]] + x[k + 1..];
    assert x[k] !in x[..k] && x[k] !in x[k + 1..];
  }

  lemma ReachedPermutes(x: seq<Particle>, y: seq<Particle>, rule: Rule)
    requires AllReached(x, rule) && multiset(x) == multiset(y)
    ensures AllReached(y, rule)
  {
    forall i, j | 0 <= i < |y| && 0 <= j < |y|
      ensures Reached(y[i].pos, y[j].pos, rule.period)
    {
      SameMembers(x, y, y[i]);
      SameMembers(x, y, y[j]);
      var k :| 0 <= k < |x| && x[k] == y[i];
      var l :| 0 <= l < |x| && x[l] == y[j];
      assert Reached(x[k].pos, x[l].pos, rule.period);
    }
  }

  ghost predicate PoolOk(pieces: seq<Piece>, rule: Rule, cfg: GridConfig) {
    && (forall k {:trigger pieces[k]} :: 0 <= k < |pieces| ==> PieceOk(pieces[k]))
    && DistinctOrders(Blocks(pieces)) && AllReached(Blocks(pieces), rule) && GridSound(cfg, rule)
    && (forall i {:trigger Blocks(pieces)[i]} :: 0 <= i < |Blocks(pieces)| ==> Blocks(pieces)[i].order < IDX_SPAN)
  }

  lemma RealizedOk(pieces: seq<Piece>, claims: seq<seq<Piece>>, rule: Rule, cfg: GridConfig)
    requires PoolOk(pieces, rule, cfg) && multiset(AllBlocks(claims)) == multiset(Blocks(pieces))
    requires forall p, k {:trigger claims[p][k]} :: 0 <= p < |claims| && 0 <= k < |claims[p]| ==> claims[p][k] in pieces
    ensures ProcessOk(claims, rule, cfg)
  {
    DistinctPermutes(Blocks(pieces), AllBlocks(claims));
    ReachedPermutes(Blocks(pieces), AllBlocks(claims), rule);
    forall i | 0 <= i < |AllBlocks(claims)|
      ensures AllBlocks(claims)[i].order < IDX_SPAN
    {
      SameMembers(Blocks(pieces), AllBlocks(claims), AllBlocks(claims)[i]);
      var k :| 0 <= k < |Blocks(pieces)| && Blocks(pieces)[k] == AllBlocks(claims)[i];
    }
    forall p, k | 0 <= p < |claims| && 0 <= k < |claims[p]|
      ensures PieceOk(claims[p][k])
    {
      assert claims[p][k] in pieces;
      var m :| 0 <= m < |pieces| && pieces[m] == claims[p][k];
    }
  }

  lemma ClaimedIndices(pieces: seq<Piece>, buckets: seq<seq<nat>>)
    requires forall i: nat :: multiset(Claims.Concat(buckets))[i] == if i < |pieces| then 1 else 0
    ensures multiset(Claims.Concat(buckets)) == multiset(Identity(0, |pieces|))
    ensures forall k {:trigger Claims.Concat(buckets)[k]} :: 0 <= k < |Claims.Concat(buckets)| ==>
          Claims.Concat(buckets)[k] < |pieces|
  {
    var c := Claims.Concat(buckets);
    var iota := Identity(0, |pieces|);
    forall i: nat
      ensures multiset(iota)[i] == multiset(c)[i]
    {
      if i < |pieces| {
        assert iota == iota[..i] + [iota[i]] + iota[i + 1..];
        assert i !in iota[..i] && i !in iota[i + 1..];
      } else {
        assert i !in iota;
      }
    }
    forall k | 0 <= k < |c|
      ensures c[k] < |pieces|
    {
      assert c[k] in multiset(c);
    }
  }

  lemma {:induction false} BucketIn(buckets: seq<seq<nat>>, p: nat, k: nat)
    requires p < |buckets| && k < |buckets[p]|
    ensures buckets[p][k] in Claims.Concat(buckets)
  {
    if p > 0 { BucketIn(buckets[1..], p - 1, k); }
  }

  /** Phase 1 with racing claims: exact labels for a permutation of the process's particles. */
  method Phase1Claimed(pieces: seq<Piece>, rule: Rule, ch: Choices, pes: nat, schedule: seq<(nat, nat)>,
                       drainer: nat -> nat)
    returns (parts: seq<Particle>, labels: seq<nat>)
    requires PoolOk(pieces, rule, ch.cfg) && ch.ranks > 0 && ch.workers > 0 && pes > 0
    requires forall k :: 0 <= k < |schedule| ==> schedule[k].0 < pes && schedule[k].1 < |pieces|
    ensures multiset(parts) == multiset(Blocks(pieces)) && ExactTips(parts, rule, labels)
  {
    var buckets := Claims.ClaimAll(|pieces|, pes, schedule, drainer);
    ClaimedIndices(pieces, buckets);
    forall p, k | 0 <= p < |buckets| && 0 <= k < |buckets[p]|
      ensures buckets[p][k] < |pieces|
    {
      BucketIn(buckets, p, k);
    }
    RealizeBag(pieces, buckets);
    BagPermutes(pieces, Claims.Concat(buckets), Identity(0, |pieces|));
    IotaBag(pieces, |pieces|);
    assert pieces[..|pieces|] == pieces;
    var claims := Realize(pieces, buckets);
    RealizedOk(pieces, claims, rule, ch.cfg);
    parts, labels := Phase1(claims, rule, ch);
  }
}
