/** Python's `sorted(s, key=...)` / `list.sort(key=...)`: a stable sort by a
    key. A sort with `reverse=True` keeps equal elements in their original
    order too, so it is the same stable sort on the negated key. */
module Sorting {

  predicate SortedBy<T>(s: seq<T>, rank: T -> real) {
    forall i, j :: 0 <= i < j < |s| ==> rank(s[i]) <= rank(s[j])
  }

  /** Inserts `x` before the first element whose rank is not below its own. */
  function Insert<T>(x: T, s: seq<T>, rank: T -> real): (r: seq<T>)
    ensures |r| == |s| + 1
    ensures multiset(r) == multiset(s) + multiset{x}
  {
    if s == [] || rank(x) <= rank(s[0]) then [x] + s
    else
      assert s == [s[0]] + s[1..];
      [s[0]] + Insert(x, s[1..], rank)
  }

  lemma {:induction false} InsertSorted<T>(x: T, s: seq<T>, rank: T -> real)
    requires SortedBy(s, rank)
    ensures SortedBy(Insert(x, s, rank), rank)
  {
    if s != [] && rank(x) > rank(s[0]) {
      var rest := s[1..];
      forall i, j | 0 <= i < j < |rest| ensures rank(rest[i]) <= rank(rest[j]) {
        assert rest[i] == s[i + 1] && rest[j] == s[j + 1];
      }
      forall i | 0 <= i < |rest| ensures rank(s[0]) <= rank(rest[i]) {
        assert rest[i] == s[i + 1];
      }
      var tail := Insert(x, rest, rank);
      InsertSorted(x, rest, rank);
      InsertLowerBound(x, rest, rank, rank(s[0]));
      var r := [s[0]] + tail;
      assert Insert(x, s, rank) == r;
      forall i, j | 0 <= i < j < |r| ensures rank(r[i]) <= rank(r[j]) {
        assert r[j] == tail[j - 1];
        if i > 0 {
          assert r[i] == tail[i - 1];
        }
      }
    }
  }

  /** A bound below `x` and every element of `s` is below every element of
      the insertion. */
  lemma {:induction false} InsertLowerBound<T>(x: T, s: seq<T>, rank: T -> real, b: real)
    requires b <= rank(x)
    requires forall i :: 0 <= i < |s| ==> b <= rank(s[i])
    ensures forall k :: 0 <= k < |Insert(x, s, rank)| ==> b <= rank(Insert(x, s, rank)[k])
  {
    if s != [] && rank(x) > rank(s[0]) {
      assert forall i :: 0 <= i < |s[1..]| ==> s[1..][i] == s[i + 1];
      InsertLowerBound(x, s[1..], rank, b);
      var tail := Insert(x, s[1..], rank);
      assert Insert(x, s, rank) == [s[0]] + tail;
      forall k | 0 <= k < |Insert(x, s, rank)| ensures b <= rank(Insert(x, s, rank)[k]) {
        if k > 0 {
          assert Insert(x, s, rank)[k] == tail[k - 1];
        }
      }
    }
  }

  /** The stable sort ascending by `rank`. */
  function SortBy<T>(s: seq<T>, rank: T -> real): (r: seq<T>)
    ensures |r| == |s|
    ensures multiset(r) == multiset(s)
  {
    if s == [] then []
    else
      assert s == [s[0]] + s[1..];
      Insert(s[0], SortBy(s[1..], rank), rank)
  }

  /** The result of the sort is ordered by `rank`. */
  lemma {:induction false} SortBySorted<T>(s: seq<T>, rank: T -> real)
    ensures SortedBy(SortBy(s, rank), rank)
  {
    if s != [] {
      SortBySorted(s[1..], rank);
      InsertSorted(s[0], SortBy(s[1..], rank), rank);
    }
  }

  /** The elements of `s` whose rank is `v`, in their order in `s`. */
  function WithRank<T>(s: seq<T>, rank: T -> real, v: real): (r: seq<T>)
    ensures |r| <= |s|
  {
    if s == [] then []
    else (if rank(s[0]) == v then [s[0]] else []) + WithRank(s[1..], rank, v)
  }

  lemma WithRankCons<T>(y: T, t: seq<T>, rank: T -> real, v: real)
    ensures WithRank([y] + t, rank, v) == (if rank(y) == v then [y] else []) + WithRank(t, rank, v)
  {
    assert ([y] + t)[0] == y && ([y] + t)[1..] == t;
  }

  /** Inserting `x` puts it before every element of equal rank and moves
      nothing else. */
  lemma {:induction false} InsertWithRank<T>(x: T, s: seq<T>, rank: T -> real, v: real)
    ensures WithRank(Insert(x, s, rank), rank, v) == (if rank(x) == v then [x] else []) + WithRank(s, rank, v)
  {
    if s == [] || rank(x) <= rank(s[0]) {
      WithRankCons(x, s, rank, v);
    } else {
      var y, rest := s[0], s[1..];
      var head := if rank(y) == v then [y] else [];
      var mine := if rank(x) == v then [x] else [];
      assert rank(y) < rank(x);
      assert head == [] || mine == [];
      calc {
        WithRank(Insert(x, s, rank), rank, v);
        { assert Insert(x, s, rank) == [y] + Insert(x, rest, rank);
          WithRankCons(y, Insert(x, rest, rank), rank, v); }
        head + WithRank(Insert(x, rest, rank), rank, v);
        { InsertWithRank(x, rest, rank, v); }
        head + (mine + WithRank(rest, rank, v));
        mine + (head + WithRank(rest, rank, v));
        { assert s == [y] + rest; WithRankCons(y, rest, rank, v); }
        mine + WithRank(s, rank, v);
      }
    }
  }

  /** The sort is stable: the elements of any one rank come out in the
      order they went in. */
  lemma {:induction false} SortByStable<T>(s: seq<T>, rank: T -> real, v: real)
    ensures WithRank(SortBy(s, rank), rank, v) == WithRank(s, rank, v)
  {
    if s != [] {
      SortByStable(s[1..], rank, v);
      InsertWithRank(s[0], SortBy(s[1..], rank), rank, v);
    }
  }

  /** Python's `max` of a non-empty list. */
  function MaxOf(xs: seq<real>): (m: real)
    requires |xs| > 0
    ensures m in xs
    ensures forall i :: 0 <= i < |xs| ==> xs[i] <= m
  {
    if |xs| == 1 then xs[0]
    else
      var t := MaxOf(xs[1..]);
      if xs[0] >= t then xs[0] else t
  }

  /** Python's `min` of a non-empty list. */
  function MinOf(xs: seq<real>): (m: real)
    requires |xs| > 0
    ensures m in xs
    ensures forall i :: 0 <= i < |xs| ==> m <= xs[i]
  {
    if |xs| == 1 then xs[0]
    else
      var t := MinOf(xs[1..]);
      if xs[0] <= t then xs[0] else t
  }
}
