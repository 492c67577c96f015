/** The starter pack: canopies sorted with the newest kept, cut into chunks, and installed in key
    order by whichever PE holds the turn, in any order of arrival. */
module StarterPack {
  import opened Arithmetic
  import opened Sorting

  type Key = nat

  // ---- sortStorage.

  /** The last entry stored under its key. */
  ghost predicate Newest<V>(storage: seq<(Key, V)>, j: nat) {
    j < |storage| && forall i {:trigger storage[i]} :: j < i < |storage| ==> storage[i].0 != storage[j].0
  }

  ghost predicate Rising<V>(pack: seq<(Key, V)>) {
    forall i, j {:trigger pack[i], pack[j]} :: 0 <= i < j < |pack| ==> pack[i].0 < pack[j].0
  }

  /** pack holds, in key order, the newest entry of every stored key and nothing else. */
  ghost predicate KeepsNewest<V>(storage: seq<(Key, V)>, pack: seq<(Key, V)>) {
    && Rising(pack)
    && (forall i {:trigger pack[i]} :: 0 <= i < |pack| ==> IsNewest(storage, pack[i]))
    && (forall j {:trigger storage[j]} :: 0 <= j < |storage| ==> HasKey(pack, storage[j].0))
  }

  type Place = (Key, nat)

  /** std::sort's order on (key, position) pairs, as one number. */
  function Rank(n: nat, p: Place): int {
    p.0 * n + p.1
  }

  lemma RankOrders(n: nat, p: Place, q: Place)
    requires p.1 < n && q.1 < n
    ensures Rank(n, p) <= Rank(n, q) <==> p.0 < q.0 || (p.0 == q.0 && p.1 <= q.1)
  {
    if p.0 < q.0 { NextMultiple(p.0, q.0, n); }
    if q.0 < p.0 { NextMultiple(q.0, p.0, n); }
  }

  ghost predicate HasPlace(order: seq<Place>, j: nat) {
    exists i {:trigger order[i]} :: 0 <= i < |order| && order[i].1 == j
  }

  /** order lists every position of storage, by key and then by age. */
  ghost predicate Ordered<V>(storage: seq<(Key, V)>, order: seq<Place>) {
    && (forall i {:trigger order[i]} :: 0 <= i < |order| ==>
          order[i].1 < |storage| && order[i].0 == storage[order[i].1].0)
    && (forall i, j {:trigger order[i], order[j]} :: 0 <= i < j < |order| ==>
          order[i].0 < order[j].0 || (order[i].0 == order[j].0 && order[i].1 <= order[j].1))
    && (forall j: nat {:trigger HasPlace(order, j)} :: j < |storage| ==> HasPlace(order, j))
  }

  method SortStorage<V>(storage: seq<(Key, V)>) returns (pack: seq<(Key, V)>)
    ensures KeepsNewest(storage, pack)
  {
    var places: seq<Place> := seq(|storage|, i requires 0 <= i < |storage| => (storage[i].0, i));
    var order := SortBy(places, (p: Place) => Rank(|storage|, p));
    PlacesOrdered(storage, places, order);
    pack := [];
    for i := 0 to |order|
      invariant Scanned(storage, order, pack, i)
    {
      if i + 1 < |order| && order[i + 1].0 == order[i].0 {
        PassOver(storage, order, pack, i);
      } else {
        TakeNewest(storage, order, pack, i);
        pack := pack + [storage[order[i].1]];
      }
    }
    ScannedAll(storage, order, pack);
  }

  ghost predicate IsNewest<V>(storage: seq<(Key, V)>, x: (Key, V)) {
    exists j {:trigger storage[j]} :: 0 <= j < |storage| && storage[j] == x && Newest(storage, j)
  }

  ghost predicate HasKey<V>(pack: seq<(Key, V)>, k: Key) {
    exists i {:trigger pack[i]} :: 0 <= i < |pack| && pack[i].0 == k
  }

  /** The first i places are done; a run of equal keys is still open while the next place has its key. */
  ghost predicate Scanned<V>(storage: seq<(Key, V)>, order: seq<Place>, pack: seq<(Key, V)>, i: nat) {
    && Rising(pack)
    && (forall k {:trigger pack[k]} :: 0 <= k < |pack| ==> IsNewest(storage, pack[k]))
    && (forall k {:trigger pack[k]} :: 0 <= k < |pack| && i < |order| ==> pack[k].0 < order[i].0)
    && (forall h {:trigger order[h]} :: 0 <= h < i && h < |order| ==>
          (i < |order| && order[h].0 == order[i].0) || HasKey(pack, order[h].0))
  }

  lemma PassOver<V>(storage: seq<(Key, V)>, order: seq<Place>, pack: seq<(Key, V)>, i: nat)
    requires i + 1 < |order| && Scanned(storage, order, pack, i) && order[i + 1].0 == order[i].0
    ensures Scanned(storage, order, pack, i + 1)
  {
  }

  lemma TakeNewest<V>(storage: seq<(Key, V)>, order: seq<Place>, pack: seq<(Key, V)>, i: nat)
    requires i < |order| && Ordered(storage, order) && Scanned(storage, order, pack, i)
    requires (i + 1 < |order| ==> order[i + 1].0 != order[i].0)
    ensures Scanned(storage, order, pack + [storage[order[i].1]], i + 1)
  {
    var x := storage[order[i].1];
    var more := pack + [x];
    NewestAt(storage, order, i);
    assert IsNewest(storage, x);
    forall k | 0 <= k < |more| && i + 1 < |order|
      ensures more[k].0 < order[i + 1].0
    {
      assert order[i].0 < order[i + 1].0;
      if k < |pack| { assert more[k] == pack[k]; }
    }
    forall k | 0 <= k < |more|
      ensures IsNewest(storage, more[k])
    {
      if k < |pack| { assert more[k] == pack[k]; }
    }
    forall h | 0 <= h < i + 1
      ensures HasKey(more, order[h].0)
    {
      if order[h].0 == x.0 {
        assert more[|pack|] == x;
      } else {
        var k :| 0 <= k < |pack| && pack[k].0 == order[h].0;
        assert more[k] == pack[k];
      }
    }
  }

  lemma ScannedAll<V>(storage: seq<(Key, V)>, order: seq<Place>, pack: seq<(Key, V)>)
    requires Ordered(storage, order) && Scanned(storage, order, pack, |order|)
    ensures KeepsNewest(storage, pack)
  {
    forall j: nat {:trigger storage[j]} | j < |storage|
      ensures HasKey(pack, storage[j].0)
    {
      assert HasPlace(order, j);
      var i :| 0 <= i < |order| && order[i].1 == j;
    }
  }

  lemma PlacesOrdered<V>(storage: seq<(Key, V)>, places: seq<Place>, order: seq<Place>)
    requires |places| == |storage| && forall i {:trigger places[i]} :: 0 <= i < |storage| ==>
          places[i] == (storage[i].0, i)
    requires multiset(order) == multiset(places) && SortedBy(order, (p: Place) => Rank(|storage|, p))
    ensures Ordered(storage, order)
  {
    forall i | 0 <= i < |order|
      ensures order[i].1 < |storage| && order[i].0 == storage[order[i].1].0
    {
      SameMembers(order, places, order[i]);
      var k :| 0 <= k < |places| && places[k] == order[i];
    }
    forall i, j | 0 <= i < j < |order|
      ensures order[i].0 < order[j].0 || (order[i].0 == order[j].0 && order[i].1 <= order[j].1)
    {
      RankOrders(|storage|, order[i], order[j]);
    }
    forall j: nat | j < |storage|
      ensures HasPlace(order, j)
    {
      SameMembers(order, places, places[j]);
      var i :| 0 <= i < |order| && order[i] == places[j];
    }
  }

  /** The last place of a run of equal keys is the newest entry. */
  lemma NewestAt<V>(storage: seq<(Key, V)>, order: seq<Place>, i: nat)
    requires Ordered(storage, order) && i < |order| && (i + 1 < |order| ==> order[i + 1].0 != order[i].0)
    ensures Newest(storage, order[i].1)
  {
    forall k | order[i].1 < k < |storage|
      ensures storage[k].0 != storage[order[i].1].0
    {
      assert HasPlace(order, k);
      var h :| 0 <= h < |order| && order[h].1 == k;
      if h > i + 1 { assert order[i].0 < order[i + 1].0 && order[i + 1].0 <= order[h].0; }
    }
  }

  // ---- Chunks: contiguous ranges [size*k/n, size*(k+1)/n) of the starter pack.

  function Bound(size: nat, n: nat, k: nat): nat
    requires n > 0
  {
    size * k / n
  }

  lemma BoundsRise(size: nat, n: nat, k: nat)
    requires n > 0 && k < n
    ensures Bound(size, n, k) <= Bound(size, n, k + 1) <= size && Bound(size, n, 0) == 0 && Bound(size, n, n) == size
  {
    WholeQuotient(size, n);
    Products(size, k, k + 1);
    Quotients(size * k, size * (k + 1), n);
    Products(size, k + 1, n);
    Quotients(size * (k + 1), size * n, n);
  }

  function Chunk<V>(pack: seq<(Key, V)>, n: nat, k: nat): seq<(Key, V)>
    requires n > 0 && k < n
  {
    BoundsRise(|pack|, n, k);
    pack[Bound(|pack|, n, k)..Bound(|pack|, n, k + 1)]
  }

  function Chunks<V>(pack: seq<(Key, V)>, n: nat, upTo: nat): seq<(Key, V)>
    requires n > 0 && upTo <= n
  {
    if upTo == 0 then [] else Chunks(pack, n, upTo - 1) + Chunk(pack, n, upTo - 1)
  }

  /** The chunks in order are the starter pack. */
  lemma {:induction false} ChunksTile<V>(pack: seq<(Key, V)>, n: nat, upTo: nat)
    requires n > 0 && upTo <= n
    ensures Bound(|pack|, n, upTo) <= |pack| && Chunks(pack, n, upTo) == pack[..Bound(|pack|, n, upTo)]
  {
    if upTo == 0 {
      BoundsRise(|pack|, n, 0);
    } else {
      ChunksTile(pack, n, upTo - 1);
      BoundsRise(|pack|, n, upTo - 1);
    }
  }

  /** Two chunks differ by at most one entry. */
  lemma ChunksEven<V>(pack: seq<(Key, V)>, n: nat, k: nat)
    requires n > 0 && k < n
    ensures |pack| / n <= |Chunk(pack, n, k)| <= |pack| / n + 1
  {
    var size := |pack|;
    BoundsRise(size, n, k);
    QuotientStep(size * k, size, n);
    assert size * (k + 1) == size * k + size;
  }
}
