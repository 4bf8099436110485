/**
 * Python's `list.sort(key=key, reverse=True)`: a stable sort that puts larger
 * keys first and keeps elements with equal keys in their original order.
 *
 * The interpreter's sort algorithm (timsort) is not modelled. `SortDescending`
 * is an insertion sort, and `SortDescendingIsUnique` shows that every stable,
 * descending result of the same input is this one list.
 */
module StableSort {

  /** Keys never increase from left to right. */
  predicate NonIncreasing<T>(s: seq<T>, key: T -> int)
  {
    forall i, j :: 0 <= i < j < |s| ==> key(s[i]) >= key(s[j])
  }

  /** The elements of `s` whose key is `k`, in their order in `s`. */
  function WithKey<T>(s: seq<T>, key: T -> int, k: int): (r: seq<T>)
    ensures |r| <= |s|
    ensures forall x :: x in r ==> x in s && key(x) == k
  {
    if s == [] then []
    else (if key(s[0]) == k then [s[0]] else []) + WithKey(s[1..], key, k)
  }

  /** Puts `x` in front of the first element whose key is not greater than its own. */
  function Insert<T>(x: T, s: seq<T>, key: T -> int): (r: seq<T>)
    ensures |r| == |s| + 1
  {
    if s == [] || key(x) >= key(s[0]) then [x] + s
    else [s[0]] + Insert(x, s[1..], key)
  }

  /** Sorts by descending key, keeping the original order among equal keys. */
  function SortDescending<T>(s: seq<T>, key: T -> int): (r: seq<T>)
    ensures |r| == |s|
  {
    if s == [] then [] else Insert(s[0], SortDescending(s[1..], key), key)
  }

  lemma {:induction false} InsertKeepsOrder<T>(x: T, s: seq<T>, key: T -> int)
    requires NonIncreasing(s, key)
    ensures NonIncreasing(Insert(x, s, key), key)
    ensures Insert(x, s, key)[0] == x || (s != [] && Insert(x, s, key)[0] == s[0])
  {
    if s == [] || key(x) >= key(s[0]) {
    } else {
      var rest := Insert(x, s[1..], key);
      assert NonIncreasing(s[1..], key);
      InsertKeepsOrder(x, s[1..], key);
      var r := [s[0]] + rest;
      forall i, j | 0 <= i < j < |r|
        ensures key(r[i]) >= key(r[j])
      {
        if i == 0 {
          if rest[j - 1] == x {
          } else {
            assert rest[j - 1] in s[1..] by {
              InsertMembers(x, s[1..], key);
            }
          }
        }
      }
    }
  }

  lemma {:induction false} InsertMembers<T>(x: T, s: seq<T>, key: T -> int)
    ensures forall y :: y in Insert(x, s, key) ==> y == x || y in s
  {
    InsertPermutation(x, s, key);
    forall y | y in Insert(x, s, key)
      ensures y == x || y in s
    {
      assert y in multiset(Insert(x, s, key));
    }
  }

  lemma {:induction false} InsertPermutation<T>(x: T, s: seq<T>, key: T -> int)
    ensures multiset(Insert(x, s, key)) == multiset([x] + s)
  {
    if s == [] || key(x) >= key(s[0]) {
    } else {
      InsertPermutation(x, s[1..], key);
      assert s == [s[0]] + s[1..];
    }
  }

  /** Filtering by key distributes over concatenation. */
  lemma {:induction false} WithKeyAppend<T>(s: seq<T>, t: seq<T>, key: T -> int, k: int)
    ensures WithKey(s + t, key, k) == WithKey(s, key, k) + WithKey(t, key, k)
  {
    if s == [] {
      assert s + t == t;
    } else {
      assert (s + t)[1..] == s[1..] + t;
      WithKeyAppend(s[1..], t, key, k);
    }
  }

  /** `x` only moves past elements with strictly larger keys, so no run of equal keys is reordered. */
  lemma {:induction false} InsertStable<T>(x: T, s: seq<T>, key: T -> int, k: int)
    ensures WithKey(Insert(x, s, key), key, k) == WithKey([x] + s, key, k)
  {
    if s == [] || key(x) >= key(s[0]) {
    } else {
      var rest := s[1..];
      InsertStable(x, rest, key, k);
      assert ([s[0]] + Insert(x, rest, key))[1..] == Insert(x, rest, key);
      assert ([x] + s)[1..] == s;
      assert ([x] + rest)[1..] == rest;
      assert ([s[0]] + rest)[1..] == rest;
      assert s == [s[0]] + rest;
    }
  }

  /** The result is ordered by descending key. */
  lemma {:induction false} SortDescendingOrdered<T>(s: seq<T>, key: T -> int)
    ensures NonIncreasing(SortDescending(s, key), key)
  {
    if s != [] {
      SortDescendingOrdered(s[1..], key);
      InsertKeepsOrder(s[0], SortDescending(s[1..], key), key);
    }
  }

  /** The result is a permutation of the input. */
  lemma {:induction false} SortDescendingPermutation<T>(s: seq<T>, key: T -> int)
    ensures multiset(SortDescending(s, key)) == multiset(s)
  {
    if s != [] {
      SortDescendingPermutation(s[1..], key);
      InsertPermutation(s[0], SortDescending(s[1..], key), key);
      assert s == [s[0]] + s[1..];
    }
  }

  /** Stability: for every key, the elements with that key keep their relative order. */
  lemma {:induction false} SortDescendingStable<T>(s: seq<T>, key: T -> int, k: int)
    ensures WithKey(SortDescending(s, key), key, k) == WithKey(s, key, k)
  {
    if s != [] {
      var sorted := SortDescending(s[1..], key);
      InsertStable(s[0], sorted, key, k);
      SortDescendingStable(s[1..], key, k);
      assert ([s[0]] + sorted)[1..] == sorted;
    }
  }

  lemma {:induction false} HeadIsMaximal<T>(t: seq<T>, key: T -> int, x: T)
    requires NonIncreasing(t, key) && x in t
    ensures key(x) <= key(t[0])
  {
    var i :| 0 <= i < |t| && t[i] == x;
    if i > 0 {
      assert key(t[0]) >= key(t[i]);
    }
  }

  lemma {:induction false} InWithKey<T>(s: seq<T>, key: T -> int, x: T)
    requires x in s
    ensures x in WithKey(s, key, key(x))
  {
    if s[0] != x {
      assert x in s[1..];
      InWithKey(s[1..], key, x);
      WithKeyAppend([s[0]], s[1..], key, key(x));
      assert s == [s[0]] + s[1..];
    }
  }

  lemma HeadHasRun<T>(s: seq<T>, key: T -> int)
    requires s != []
    ensures WithKey(s, key, key(s[0])) != []
  {
  }

  /** Two ordered lists with the same elements per key start with the same element. */
  lemma {:induction false} SameRunsSameHead<T>(t: seq<T>, u: seq<T>, key: T -> int)
    requires NonIncreasing(t, key) && NonIncreasing(u, key)
    requires forall k :: WithKey(t, key, k) == WithKey(u, key, k)
    requires t != [] && u != []
    ensures t[0] == u[0]
  {
    InWithKey(t, key, t[0]);
    assert t[0] in WithKey(u, key, key(t[0]));
    HeadIsMaximal(u, key, t[0]);
    InWithKey(u, key, u[0]);
    assert u[0] in WithKey(t, key, key(u[0]));
    HeadIsMaximal(t, key, u[0]);
    var m := key(t[0]);
    assert WithKey(t, key, m)[0] == t[0];
    assert WithKey(u, key, m)[0] == u[0];
  }

  /** Dropping a common head from two lists with the same run for `k` leaves the same run. */
  lemma SameHeadSameTailRuns<T>(t: seq<T>, u: seq<T>, key: T -> int, k: int)
    requires t != [] && u != [] && t[0] == u[0]
    requires WithKey(t, key, k) == WithKey(u, key, k)
    ensures WithKey(t[1..], key, k) == WithKey(u[1..], key, k)
  {
    var head := if key(t[0]) == k then [t[0]] else [];
    assert WithKey(t[1..], key, k) == WithKey(t, key, k)[|head|..];
    assert WithKey(u[1..], key, k) == WithKey(u, key, k)[|head|..];
  }

  /** Two ordered lists with the same elements per key, in the same order per key, are equal. */
  lemma {:induction false} OrderedRunsDetermineList<T>(t: seq<T>, u: seq<T>, key: T -> int)
    requires NonIncreasing(t, key) && NonIncreasing(u, key)
    requires forall k :: WithKey(t, key, k) == WithKey(u, key, k)
    ensures t == u
    decreases |t|
  {
    if t == [] || u == [] {
      // A non-empty list has a non-empty run for its head's key; an empty one has none.
      if t != [] {
        HeadHasRun(t, key);
        assert false;
      } else if u != [] {
        HeadHasRun(u, key);
        assert false;
      }
    } else {
      SameRunsSameHead(t, u, key);
      forall k
        ensures WithKey(t[1..], key, k) == WithKey(u[1..], key, k)
      {
        SameHeadSameTailRuns(t, u, key, k);
      }
      assert NonIncreasing(t[1..], key) && NonIncreasing(u[1..], key);
      OrderedRunsDetermineList(t[1..], u[1..], key);
      assert t == [t[0]] + t[1..] && u == [u[0]] + u[1..];
    }
  }

  /**
   * Any ordering of `s` that is descending by key and stable is exactly
   * `SortDescending(s, key)`: the choice of sort algorithm does not matter.
   */
  lemma SortDescendingIsUnique<T>(s: seq<T>, t: seq<T>, key: T -> int)
    requires NonIncreasing(t, key)
    requires forall k :: WithKey(t, key, k) == WithKey(s, key, k)
    ensures t == SortDescending(s, key)
  {
    SortDescendingOrdered(s, key);
    forall k
      ensures WithKey(t, key, k) == WithKey(SortDescending(s, key), key, k)
    {
      SortDescendingStable(s, key, k);
    }
    OrderedRunsDetermineList(t, SortDescending(s, key), key);
  }
}
