/** The shape shared by every SQL listing in the controller:
    `SELECT * WHERE <pred> ORDER BY <key> [LIMIT n]`. SQL leaves the order of rows with
    equal keys open, so a listing is specified by what it contains and by its order on the
    key, and computed here by an insertion sort. */
module Sorting {
  import opened Base

  /** A sort key compared lexicographically: first `major`, then `minor`, both ascending. */
  datatype SortKey = SortKey(major: int, minor: int)

  predicate KeyLe(a: SortKey, b: SortKey) {
    a.major < b.major || (a.major == b.major && a.minor <= b.minor)
  }

  ghost predicate SortedBy<T>(s: seq<T>, key: T -> SortKey) {
    forall i, j :: 0 <= i < j < |s| ==> KeyLe(key(s[i]), key(s[j]))
  }

  /** Insert `x` into a sorted sequence, keeping it sorted. */
  function Insert<T>(x: T, s: seq<T>, key: T -> SortKey): (r: seq<T>)
    requires SortedBy(s, key)
    ensures SortedBy(r, key)
    ensures multiset(r) == multiset(s) + multiset{x}
    decreases |s|
  {
    if s == [] then [x]
    else if KeyLe(key(x), key(s[0])) then [x] + s
    else
      var tail := Insert(x, s[1..], key);
      assert s == [s[0]] + s[1..];
      forall y | y in tail ensures KeyLe(key(s[0]), key(y)) {
        assert y in multiset(tail);
        if y != x {
          assert y in multiset(s[1..]);
          var k :| 0 <= k < |s[1..]| && s[1..][k] == y;
          assert s[k + 1] == y;
        }
      }
      [s[0]] + tail
  }

  /** A sorted permutation of `s`. */
  function SortBy<T>(s: seq<T>, key: T -> SortKey): (r: seq<T>)
    ensures SortedBy(r, key)
    ensures multiset(r) == multiset(s)
    decreases |s|
  {
    if s == [] then []
    else
      assert s == [s[0]] + s[1..];
      Insert(s[0], SortBy(s[1..], key), key)
  }

  /** The rows satisfying `p`, in their original order. */
  function Filter<T(!new)>(s: seq<T>, p: T -> bool): (r: seq<T>)
    ensures |r| <= |s|
    ensures forall x :: multiset(r)[x] == if p(x) then multiset(s)[x] else 0
    decreases |s|
  {
    if s == [] then []
    else
      assert s == s[..|s| - 1] + [s[|s| - 1]];
      Filter(s[..|s| - 1], p) + (if p(s[|s| - 1]) then [s[|s| - 1]] else [])
  }

  /** SELECT ... WHERE p ORDER BY key LIMIT n (no LIMIT when `limit` is None). */
  function Select<T(!new)>(rows: seq<T>, p: T -> bool, key: T -> SortKey, limit: Option<nat>): (r: seq<T>)
    ensures SortedBy(r, key)
    ensures forall x :: x in r ==> p(x) && x in rows
    ensures multiset(r) <= multiset(rows)
    ensures limit.None? ==> forall x :: multiset(r)[x] == if p(x) then multiset(rows)[x] else 0
    ensures limit.Some? ==> |r| == Min(limit.value, |Filter(rows, p)|)
    ensures limit.Some? && |Filter(rows, p)| <= limit.value ==>
      forall x :: multiset(r)[x] == if p(x) then multiset(rows)[x] else 0
  {
    var sorted := SortBy(Filter(rows, p), key);
    MatchingRows(rows, p, sorted);
    if limit.None? then sorted
    else
      var n := Min(limit.value, |sorted|);
      SortedPrefix(sorted, key, n);
      PrefixWithin(sorted, n, rows);
      assert n == |sorted| ==> sorted[..n] == sorted;
      sorted[..n]
  }

  /** A prefix of a sorted sequence is sorted. */
  lemma SortedPrefix<T>(s: seq<T>, key: T -> SortKey, n: nat)
    requires SortedBy(s, key) && n <= |s|
    ensures SortedBy(s[..n], key)
  {
  }

  /** A prefix draws on the elements of the whole, hence on any multiset containing it. */
  lemma PrefixWithin<T>(s: seq<T>, n: nat, rows: seq<T>)
    requires n <= |s| && multiset(s) <= multiset(rows)
    ensures multiset(s[..n]) <= multiset(rows)
    ensures forall x :: x in s[..n] ==> x in multiset(s)
  {
    assert s == s[..n] + s[n..];
    assert multiset(s) == multiset(s[..n]) + multiset(s[n..]);
  }

  /** What a permutation of the matching rows holds. */
  lemma MatchingRows<T(!new)>(rows: seq<T>, p: T -> bool, sorted: seq<T>)
    requires multiset(sorted) == multiset(Filter(rows, p))
    ensures |sorted| == |Filter(rows, p)|
    ensures multiset(sorted) <= multiset(rows)
    ensures forall x :: multiset(sorted)[x] == if p(x) then multiset(rows)[x] else 0
    ensures forall x :: x in multiset(sorted) ==> p(x) && x in rows
  {
    assert |sorted| == |multiset(sorted)|;
  }

  /** LIMIT keeps the first rows of the order: every matching row that was left out ranks
      no earlier than every row returned. */
  lemma SelectKeepsTheTop<T(!new)>(rows: seq<T>, p: T -> bool, key: T -> SortKey, n: nat, x: T, y: T)
    requires x in Select(rows, p, key, Some(n))
    requires p(y) && multiset(Select(rows, p, key, Some(n)))[y] < multiset(rows)[y]
    ensures KeyLe(key(x), key(y))
  {
    var sorted := SortBy(Filter(rows, p), key);
    MatchingRows(rows, p, sorted);
    var k := Min(n, |sorted|);
    assert Select(rows, p, key, Some(n)) == sorted[..k];
    assert multiset(sorted)[y] == multiset(rows)[y];
    SplitCount(sorted, k, y);
    HeadBeforeTail(sorted, key, k, x, y);
  }

  /** Cutting a sequence in two splits the occurrences of each value between the parts. */
  lemma SplitCount<T>(s: seq<T>, k: nat, y: T)
    requires k <= |s|
    ensures multiset(s)[y] == multiset(s[..k])[y] + multiset(s[k..])[y]
  {
    assert s == s[..k] + s[k..];
  }

  /** In a sorted sequence, an element before position k is no greater than one after it. */
  lemma HeadBeforeTail<T>(s: seq<T>, key: T -> SortKey, k: nat, x: T, y: T)
    requires SortedBy(s, key) && k <= |s|
    requires x in s[..k] && y in multiset(s[k..])
    ensures KeyLe(key(x), key(y))
  {
    var j :| 0 <= j < |s[k..]| && s[k..][j] == y;
    var i :| 0 <= i < k && s[..k][i] == x;
    assert s[i] == x && s[k + j] == y;
  }
}
