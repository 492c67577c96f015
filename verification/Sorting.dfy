/** std::sort seen through its contract: the result is ordered by key and holds the same elements.
    Callers rely on nothing else, so they hold for any order among equal keys. */
module Sorting {

  ghost predicate SortedBy<T(!new)>(s: seq<T>, key: T -> int) {
    forall i, j {:trigger s[i], s[j]} :: 0 <= i < j < |s| ==> key(s[i]) <= key(s[j])
  }

  function Insert<T>(r: seq<T>, x: T, key: T -> int): (s: seq<T>) {
    if r == [] || key(x) <= key(r[0]) then [x] + r else [r[0]] + Insert(r[1..], x, key)
  }

  lemma {:induction false} InsertMembers<T(!new)>(r: seq<T>, x: T, key: T -> int)
    ensures multiset(Insert(r, x, key)) == multiset(r) + multiset{x}
    ensures |Insert(r, x, key)| == |r| + 1
  {
    if r != [] && key(x) > key(r[0]) {
      InsertMembers(r[1..], x, key);
      assert r == [r[0]] + r[1..];
    }
  }

  lemma {:induction false} InsertKeeps<T(!new)>(r: seq<T>, x: T, key: T -> int)
    requires SortedBy(r, key)
    ensures SortedBy(Insert(r, x, key), key)
  {
    if r != [] && key(x) > key(r[0]) {
      var t := Insert(r[1..], x, key);
      InsertKeeps(r[1..], x, key);
      InsertMembers(r[1..], x, key);
      forall j | 0 <= j < |t|
        ensures key(r[0]) <= key(t[j])
      {
        assert t[j] in multiset(t);
        if t[j] != x { assert t[j] in multiset(r[1..]) && t[j] in r[1..]; }
      }
    }
  }

  method SortBy<T(!new)>(s: seq<T>, key: T -> int) returns (r: seq<T>)
    ensures SortedBy(r, key) && multiset(r) == multiset(s) && |r| == |s|
  {
    r := [];
    for i := 0 to |s|
      invariant SortedBy(r, key) && multiset(r) == multiset(s[..i]) && |r| == i
    {
      InsertKeeps(r, s[i], key);
      InsertMembers(r, s[i], key);
      r := Insert(r, s[i], key);
      assert s[..i + 1] == s[..i] + [s[i]];
    }
    assert s[..|s|] == s;
  }

  lemma SameMembers<T>(r: seq<T>, s: seq<T>, x: T)
    requires multiset(r) == multiset(s)
    ensures x in r <==> x in s
  {
    assert x in r <==> x in multiset(r);
    assert x in s <==> x in multiset(s);
  }

  /** Taking out the element at k takes one copy out of the multiset. */
  lemma RemoveAt<T>(s: seq<T>, k: nat)
    requires k < |s|
    ensures multiset(s[..k] + s[k + 1..]) == multiset(s) - multiset{s[k]}
  {
    assert s == s[..k] + [s[k]] + s[k + 1..];
  }

  lemma TwiceCounted<T>(s: seq<T>, i: nat, j: nat)
    requires i < j < |s| && s[i] == s[j]
    ensures multiset(s)[s[i]] >= 2
  {
    assert s == s[..j] + s[j..];
    assert s[i] in s[..j] && s[j] in s[j..];
  }

  /** Where the first element of x stands in a permutation of x. */
  lemma FindFirst<T>(x: seq<T>, y: seq<T>) returns (k: nat)
    requires x != [] && multiset(x) == multiset(y)
    ensures k < |y| && y[k] == x[0]
  {
    assert x[0] in multiset(x);
    SameMembers(x, y, x[0]);
    k :| 0 <= k < |y| && y[k] == x[0];
  }

  ghost predicate NoRepeats(s: seq<nat>) {
    forall a, b {:trigger s[a], s[b]} :: 0 <= a < b < |s| ==> s[a] != s[b]
  }
}
