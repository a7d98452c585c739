/**
 * Ordering and selection helpers shared by the analyzers: Python's stable
 * `sorted(..., key=k, reverse=True)`, the slice `[:n]` that keeps the top `n`,
 * and list comprehensions with a filter.
 */
module Ranking {
  import opened Wrappers

  /** `s` is ordered by `key`, largest first. */
  ghost predicate SortedDesc<T>(s: seq<T>, key: T -> real) {
    forall i, j :: 0 <= i < j < |s| ==> key(s[i]) >= key(s[j])
  }

  /**
   * `r` is `sorted(s, key=key, reverse=True)`: a permutation of `s`, largest
   * key first, in which the elements of each key keep their order in `s`.
   */
  ghost predicate IsStableSortOf<T>(r: seq<T>, s: seq<T>, key: T -> real) {
    && multiset(r) == multiset(s)
    && SortedDesc(r, key)
    && forall k :: WithKey(r, key, k) == WithKey(s, key, k)
  }

  /**
   * `r` is `sorted(s, key=key, reverse=True)[:n]`: `min(n, len(s))` elements
   * of `s`, largest key first, none left out outranking one kept, and the
   * kept elements of each key are the first ones of that key in `s`, in order.
   */
  ghost predicate IsTopOf<T>(r: seq<T>, s: seq<T>, key: T -> real, n: nat) {
    && |r| == (if |s| <= n then |s| else n)
    && multiset(r) <= multiset(s)
    && SortedDesc(r, key)
    && (forall i, y :: 0 <= i < |r| && y in multiset(s) - multiset(r) ==> key(y) <= key(r[i]))
    && forall k :: WithKey(r, key, k) <= WithKey(s, key, k)
  }

  /** `r` is `s` with some elements left out and the others in their order in `s`. */
  ghost predicate IsSubsequence<T>(r: seq<T>, s: seq<T>)
    decreases |s|
  {
    if s == [] then r == []
    else
      || IsSubsequence(r, s[..|s| - 1])
      || (r != [] && r[|r| - 1] == s[|s| - 1] && IsSubsequence(r[..|r| - 1], s[..|s| - 1]))
  }

  /** The elements of `s` whose key is `k`, in the order they have in `s`. */
  function WithKey<T>(s: seq<T>, key: T -> real, k: real): seq<T> {
    if s == [] then []
    else (if key(s[0]) == k then [s[0]] else []) + WithKey(s[1..], key, k)
  }

  /** Places `x` in front of the first element whose key is not larger than its own. */
  function Insert<T>(x: T, s: seq<T>, key: T -> real): seq<T> {
    if s == [] || key(s[0]) <= key(x) then [x] + s
    else [s[0]] + Insert(x, s[1..], key)
  }

  /** Inserting adds exactly `x`. */
  lemma {:induction false} InsertPermutes<T>(x: T, s: seq<T>, key: T -> real)
    ensures |Insert(x, s, key)| == |s| + 1
    ensures multiset(Insert(x, s, key)) == multiset(s) + multiset{x}
  {
    if s != [] && key(s[0]) > key(x) {
      InsertPermutes(x, s[1..], key);
      assert s == [s[0]] + s[1..];
    }
  }

  lemma {:induction false} InsertSorted<T>(x: T, s: seq<T>, key: T -> real)
    requires SortedDesc(s, key)
    ensures SortedDesc(Insert(x, s, key), key)
  {
    if s == [] || key(s[0]) <= key(x) {
      var r := [x] + s;
      forall i, j | 0 <= i < j < |r| ensures key(r[i]) >= key(r[j]) {
        if i > 0 {
          assert r[i] == s[i - 1] && r[j] == s[j - 1];
        } else {
          assert r[j] == s[j - 1];
        }
      }
    } else {
      var tail := Insert(x, s[1..], key);
      assert SortedDesc(s[1..], key) by {
        forall i, j | 0 <= i < j < |s[1..]| ensures key(s[1..][i]) >= key(s[1..][j]) {
          assert s[1..][i] == s[i + 1] && s[1..][j] == s[j + 1];
        }
      }
      InsertSorted(x, s[1..], key);
      InsertPermutes(x, s[1..], key);
      forall j | 0 <= j < |tail| ensures key(tail[j]) <= key(s[0]) {
        assert tail[j] in multiset(tail);
        if tail[j] != x {
          assert tail[j] in multiset(s[1..]);
          var k :| 0 <= k < |s[1..]| && s[1..][k] == tail[j];
          assert s[1..][k] == s[k + 1];
        }
      }
      var r := [s[0]] + tail;
      forall i, j | 0 <= i < j < |r| ensures key(r[i]) >= key(r[j]) {
        assert r[j] == tail[j - 1];
        if i > 0 {
          assert r[i] == tail[i - 1];
        }
      }
    }
  }

  /**
   * Inserting `x` adds it in front of the elements with its key: the ones it
   * passes all have a larger key.
   */
  lemma {:induction false} InsertWithKey<T>(x: T, s: seq<T>, key: T -> real, k: real)
    ensures WithKey(Insert(x, s, key), key, k) == (if key(x) == k then [x] else []) + WithKey(s, key, k)
  {
    if s == [] || key(s[0]) <= key(x) {
      assert ([x] + s)[1..] == s;
    } else {
      InsertWithKey(x, s[1..], key, k);
      var tail := Insert(x, s[1..], key);
      var r := [s[0]] + tail;
      assert r[0] == s[0] && r[1..] == tail;
      var head := if key(s[0]) == k then [s[0]] else [];
      assert WithKey(r, key, k) == head + WithKey(tail, key, k);
      assert WithKey(s, key, k) == head + WithKey(s[1..], key, k);
      if key(x) == k {
        assert head == [];
      }
    }
  }

  /**
   * Python's `sorted(s, key=key, reverse=True)`: a permutation of `s`,
   * largest key first, and stable (elements with equal keys keep the
   * order they have in `s`).
   */
  function SortDesc<T>(s: seq<T>, key: T -> real): seq<T> {
    if s == [] then [] else Insert(s[0], SortDesc(s[1..], key), key)
  }

  /**
   * The sort is a permutation, largest key first, and stable: the elements
   * with any one key keep the order they have in `s`.
   */
  lemma {:induction false} SortDescIsStableSort<T>(s: seq<T>, key: T -> real)
    ensures |SortDesc(s, key)| == |s|
    ensures IsStableSortOf(SortDesc(s, key), s, key)
  {
    if s != [] {
      var rest := SortDesc(s[1..], key);
      SortDescIsStableSort(s[1..], key);
      assert s == [s[0]] + s[1..];
      InsertSorted(s[0], rest, key);
      InsertPermutes(s[0], rest, key);
      forall k ensures WithKey(Insert(s[0], rest, key), key, k) == WithKey(s, key, k) {
        InsertWithKey(s[0], rest, key, k);
      }
    }
  }

  /** A prefix one longer is the prefix with the next element appended. */
  lemma PrefixGrows<T>(s: seq<T>, i: nat)
    requires i < |s|
    ensures s[..i + 1] == s[..i] + [s[i]]
  {
  }

  /** Python's slice `s[:n]`. */
  function Take<T>(s: seq<T>, n: nat): (r: seq<T>)
    ensures |r| == if |s| <= n then |s| else n
    ensures r == s[..|r|]
  {
    if |s| <= n then s else s[..n]
  }

  /** In a sequence sorted largest first, no element after position `m` outranks one before it. */
  lemma PrefixDominates<T>(sorted: seq<T>, key: T -> real, m: nat)
    requires m <= |sorted| && SortedDesc(sorted, key)
    ensures multiset(sorted[..m]) <= multiset(sorted)
    ensures SortedDesc(sorted[..m], key)
    ensures forall i, y :: 0 <= i < m && y in multiset(sorted) - multiset(sorted[..m]) ==> key(y) <= key(sorted[i])
  {
    var kept, rest := sorted[..m], sorted[m..];
    assert sorted == kept + rest;
    assert multiset(sorted) - multiset(kept) == multiset(rest);
    forall i, y | 0 <= i < m && y in multiset(rest) ensures key(y) <= key(sorted[i]) {
      var j :| 0 <= j < |rest| && rest[j] == y;
      assert sorted[m + j] == y;
    }
  }

  /** Cutting a sequence short keeps, for each key, a prefix of the elements with that key. */
  lemma {:induction false} WithKeyOfPrefix<T>(s: seq<T>, key: T -> real, k: real, m: nat)
    requires m <= |s|
    ensures WithKey(s[..m], key, k) <= WithKey(s, key, k)
  {
    if m > 0 {
      WithKeyOfPrefix(s[1..], key, k, m - 1);
      assert s[..m][0] == s[0] && s[..m][1..] == s[1..][..m - 1];
      var head := if key(s[0]) == k then [s[0]] else [];
      var front, all := WithKey(s[1..][..m - 1], key, k), WithKey(s[1..], key, k);
      assert head + front == (head + all)[..|head| + |front|];
    } else {
      assert s[..m] == [];
    }
  }

  /** The first `m` elements of the stable sort keep, for each key, the first elements of that key in `s`. */
  lemma SortedPrefixKeepsKeyOrder<T>(s: seq<T>, key: T -> real, m: nat)
    requires m <= |SortDesc(s, key)|
    ensures forall k :: WithKey(SortDesc(s, key)[..m], key, k) <= WithKey(s, key, k)
  {
    SortDescIsStableSort(s, key);
    forall k ensures WithKey(SortDesc(s, key)[..m], key, k) <= WithKey(s, key, k) {
      WithKeyOfPrefix(SortDesc(s, key), key, k, m);
    }
  }

  /** `sorted(s, key=key, reverse=True)[:n]`. */
  function Top<T>(s: seq<T>, key: T -> real, n: nat): (r: seq<T>)
    ensures IsTopOf(r, s, key, n)
  {
    var sorted := SortDesc(s, key);
    SortDescIsStableSort(s, key);
    var r := Take(sorted, n);
    PrefixDominates(sorted, key, |r|);
    SortedPrefixKeepsKeyOrder(s, key, |r|);
    r
  }

  /**
   * Python's `max(s, key=key)`: the position of the first element with the
   * largest key (a later element replaces the maximum only when strictly larger).
   */
  function FirstMaxIndex<T>(s: seq<T>, key: T -> real): (i: nat)
    requires |s| > 0
    ensures i < |s|
    ensures forall j :: 0 <= j < |s| ==> key(s[j]) <= key(s[i])
    ensures forall j :: 0 <= j < i ==> key(s[j]) < key(s[i])
  {
    if |s| == 1 then 0
    else
      var front := s[..|s| - 1];
      var i := FirstMaxIndex(front, key);
      assert forall j :: 0 <= j < |front| ==> front[j] == s[j];
      if key(s[|s| - 1]) > key(s[i]) then |s| - 1 else i
  }

  /** The first element kept by `Top` has the largest key of all. */
  lemma TopLeads<T>(s: seq<T>, key: T -> real, n: nat)
    requires |s| > 0 && n > 0
    ensures |Top(s, key, n)| > 0
    ensures forall y :: y in s ==> key(y) <= key(Top(s, key, n)[0])
  {
    var r := Top(s, key, n);
    forall y | y in s ensures key(y) <= key(r[0]) {
      if y in multiset(r) {
        var j :| 0 <= j < |r| && r[j] == y;
      } else {
        assert y in multiset(s) - multiset(r);
      }
    }
  }

  /** Python's `[x for x in s if p(x)]`. */
  function Filter<T>(s: seq<T>, p: T -> bool): (r: seq<T>)
    ensures |r| <= |s|
    ensures multiset(r) <= multiset(s)
    ensures forall j :: 0 <= j < |r| ==> p(r[j])
    ensures forall i :: 0 <= i < |s| && p(s[i]) ==> s[i] in r
  {
    if s == [] then []
    else
      var front, last := s[..|s| - 1], s[|s| - 1];
      assert s == front + [last];
      assert forall i :: 0 <= i < |front| ==> front[i] == s[i];
      Filter(front, p) + if p(last) then [last] else []
  }

  /**
   * The comprehension keeps every element that satisfies `p`, as often as
   * `s` holds it, drops every other element, and keeps the order of `s`.
   */
  lemma FilterIsComprehension<T>(s: seq<T>, p: T -> bool)
    ensures forall x :: multiset(Filter(s, p))[x] == if p(x) then multiset(s)[x] else 0
    ensures IsSubsequence(Filter(s, p), s)
  {
    FilterCounts(s, p);
    FilterKeepsOrder(s, p);
  }

  lemma {:induction false} FilterCounts<T>(s: seq<T>, p: T -> bool)
    ensures forall x :: multiset(Filter(s, p))[x] == if p(x) then multiset(s)[x] else 0
  {
    if s != [] {
      var front, last := s[..|s| - 1], s[|s| - 1];
      FilterCounts(front, p);
      assert s == front + [last];
      assert multiset(s) == multiset(front) + multiset{last};
      var kept := if p(last) then [last] else [];
      assert Filter(s, p) == Filter(front, p) + kept;
      assert multiset(Filter(s, p)) == multiset(Filter(front, p)) + multiset(kept);
    }
  }

  lemma {:induction false} FilterKeepsOrder<T>(s: seq<T>, p: T -> bool)
    ensures IsSubsequence(Filter(s, p), s)
  {
    if s != [] {
      var front, last := s[..|s| - 1], s[|s| - 1];
      FilterKeepsOrder(front, p);
      var r := Filter(s, p);
      if p(last) {
        assert r[..|r| - 1] == Filter(front, p);
      } else {
        assert r == Filter(front, p);
      }
    }
  }
}
