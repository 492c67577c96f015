/** The piece claims of phase A: PEs race compare-and-swaps over a shared pool of pieces. */
module Claims {
  function Concat(bs: seq<seq<nat>>): seq<nat> {
    if bs == [] then [] else bs[0] + Concat(bs[1..])
  }

  lemma {:induction false} ConcatGrows(bs: seq<seq<nat>>, p: nat, i: nat)
    requires p < |bs|
    ensures multiset(Concat(bs[p := bs[p] + [i]])) == multiset(Concat(bs)) + multiset{i}
  {
    var cs := bs[p := bs[p] + [i]];
    if p > 0 {
      ConcatGrows(bs[1..], p - 1, i);
      assert cs[1..] == bs[1..][p - 1 := bs[1..][p - 1] + [i]];
    } else {
      assert cs[1..] == bs[1..];
    }
  }

  ghost predicate ClaimedOnce(claimed: seq<bool>, buckets: seq<seq<nat>>) {
    forall i: nat {:trigger multiset(Concat(buckets))[i]} ::
      multiset(Concat(buckets))[i] == if i < |claimed| && claimed[i] then 1 else 0
  }

  /** steal_claimed, and per PE the pieces it won, in the order it won them. */
  class StealPool {
    var claimed: seq<bool>
    var buckets: seq<seq<nat>>

    ghost predicate Valid()
      reads this
    {
      ClaimedOnce(claimed, buckets)
    }

    constructor (pieces: nat, pes: nat)
      ensures Valid() && |claimed| == pieces && |buckets| == pes
      ensures forall i :: 0 <= i < pieces ==> !claimed[i]
    {
      claimed := seq(pieces, i => false);
      buckets := seq(pes, p => []);
      new;
      NothingClaimed(claimed, buckets);
    }

    /** One compare_exchange_strong and, if it wins, the push. */
    method Claim(pe: nat, i: nat) returns (won: bool)
      requires Valid() && pe < |buckets| && i < |claimed|
      modifies this
      ensures Valid() && claimed == old(claimed)[i := true] && |buckets| == old(|buckets|)
      ensures won <==> !old(claimed[i])
      ensures buckets == if won then old(buckets)[pe := old(buckets[pe]) + [i]] else old(buckets)
    {
      if claimed[i] { return false; }
      ConcatGrows(buckets, pe, i);
      claimed := claimed[i := true];
      buckets := buckets[pe := buckets[pe] + [i]];
      won := true;
    }

    /** A PE's scan for unclaimed work (in pool order; the nearest-first order is any order). */
    method Scan() returns (pick: nat)
      ensures pick <= |claimed| && (pick < |claimed| ==> !claimed[pick])
      ensures pick == |claimed| ==> forall i :: 0 <= i < |claimed| ==> claimed[i]
    {
      pick := 0;
      while pick < |claimed| && claimed[pick]
        invariant pick <= |claimed| && forall i :: 0 <= i < pick ==> claimed[i]
      {
        pick := pick + 1;
      }
    }
  }

  lemma {:induction false} AllEmpty(bs: seq<seq<nat>>)
    requires forall p {:trigger bs[p]} :: 0 <= p < |bs| ==> bs[p] == []
    ensures Concat(bs) == []
  {
    if bs != [] { AllEmpty(bs[1..]); }
  }

  lemma NothingClaimed(claimed: seq<bool>, buckets: seq<seq<nat>>)
    requires (forall i :: 0 <= i < |claimed| ==>
          !claimed[i]) && forall p {:trigger buckets[p]} :: 0 <= p < |buckets| ==> buckets[p] == []
    ensures ClaimedOnce(claimed, buckets)
  {
    AllEmpty(buckets);
  }

  /** Whatever compare-and-swaps the schedule interleaves first, and with PEs draining what is left
      until their scans come up empty, every piece ends in exactly one bucket, once. */
  method ClaimAll(pieces: nat, pes: nat, schedule: seq<(nat, nat)>, drainer: nat -> nat)
    returns (buckets: seq<seq<nat>>)
    requires pes > 0 && forall k :: 0 <= k < |schedule| ==> schedule[k].0 < pes && schedule[k].1 < pieces
    ensures |buckets| == pes
    ensures forall i: nat :: multiset(Concat(buckets))[i] == if i < pieces then 1 else 0
  {
    var pool := new StealPool(pieces, pes);
    for k := 0 to |schedule|
      invariant pool.Valid() && |pool.claimed| == pieces && |pool.buckets| == pes
    {
      var won := pool.Claim(schedule[k].0, schedule[k].1);
    }
    var pick: nat := pool.Scan();
    while pick < pieces
      invariant pool.Valid() && |pool.claimed| == pieces && |pool.buckets| == pes
      invariant pick <= pieces && (pick < pieces ==> !pool.claimed[pick])
      invariant pick == pieces ==> forall i :: 0 <= i < pieces ==> pool.claimed[i]
      decreases Unclaimed(pool.claimed)
    {
      ghost var before := pool.claimed;
      var won := pool.Claim(drainer(pick) % pes, pick);
      ClaimShrinks(before, pick);
      pick := pool.Scan();
    }
    buckets := pool.buckets;
  }

  function Unclaimed(claimed: seq<bool>): nat {
    if claimed == [] then 0 else (if claimed[0] then 0 else 1) + Unclaimed(claimed[1..])
  }

  lemma {:induction false} ClaimShrinks(claimed: seq<bool>, i: nat)
    requires i < |claimed| && !claimed[i]
    ensures Unclaimed(claimed[i := true]) < Unclaimed(claimed)
  {
    if i > 0 {
      ClaimShrinks(claimed[1..], i - 1);
      assert claimed[i := true][1..] == claimed[1..][i - 1 := true];
    } else {
      assert claimed[i := true][1..] == claimed[1..];
    }
  }
}
