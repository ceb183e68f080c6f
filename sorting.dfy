/**
 * A stable insertion sort over sequences, parameterised by a "less or equal" test.
 * It stands for JavaScript's `Array.prototype.sort`, which is stable.
 */
module Sorting {

  /** `s` is ordered by `le` between neighbours. */
  predicate Sorted<T>(s: seq<T>, le: (T, T) -> bool)
  {
    forall i :: 0 <= i < |s| - 1 ==> le(s[i], s[i + 1])
  }

  /** `le` compares every pair one way or the other. */
  ghost predicate Total<T(!new)>(le: (T, T) -> bool)
  {
    forall a, b :: le(a, b) || le(b, a)
  }

  /** Places `x` in front of the first element it does not exceed. */
  function InsertBy<T>(x: T, s: seq<T>, le: (T, T) -> bool): (r: seq<T>)
    ensures |r| == |s| + 1
    ensures multiset(r) == multiset(s) + multiset{x}
  {
    if s == [] || le(x, s[0]) then [x] + s
    else
      assert s == [s[0]] + s[1..];
      [s[0]] + InsertBy(x, s[1..], le)
  }

  /** Sorts by inserting each element, from the last one backwards, into the sorted rest. */
  function SortBy<T>(s: seq<T>, le: (T, T) -> bool): (r: seq<T>)
  {
    if s == [] then [] else InsertBy(s[0], SortBy(s[1..], le), le)
  }

  lemma {:induction false} SortByPermutes<T>(s: seq<T>, le: (T, T) -> bool)
    ensures |SortBy(s, le)| == |s|
    ensures multiset(SortBy(s, le)) == multiset(s)
  {
    if s != [] {
      SortByPermutes(s[1..], le);
      assert s == [s[0]] + s[1..];
    }
  }

  lemma {:induction false} InsertBySorted<T(!new)>(x: T, s: seq<T>, le: (T, T) -> bool)
    requires Total(le)
    requires Sorted(s, le)
    ensures Sorted(InsertBy(x, s, le), le)
  {
    if s != [] && !le(x, s[0]) {
      InsertBySorted(x, s[1..], le);
      var t := InsertBy(x, s[1..], le);
      assert le(s[0], x);
      assert |s| > 1 ==> le(s[0], s[1]);
      assert t[0] == x || (|s| > 1 && t[0] == s[1]) by {
        if |s| > 1 && !le(x, s[1]) {
          assert s[1..] == [s[1]] + s[2..];
        }
      }
    }
  }

  lemma {:induction false} SortBySorted<T(!new)>(s: seq<T>, le: (T, T) -> bool)
    requires Total(le)
    ensures Sorted(SortBy(s, le), le)
  {
    if s != [] {
      SortBySorted(s[1..], le);
      InsertBySorted(s[0], SortBy(s[1..], le), le);
    }
  }

  /** The value stored under `k`, or 0 when `k` has none (a missing dictionary entry). */
  function Lookup<K>(m: map<K, real>, k: K): real
  {
    if k in m then m[k] else 0.0
  }

  /** The sum of the values stored under `keys`, left to right. */
  function SumOver<K>(keys: seq<K>, m: map<K, real>): real
  {
    if keys == [] then 0.0 else SumOver(keys[..|keys| - 1], m) + Lookup(m, keys[|keys| - 1])
  }

  /** Two elements: sorted as given when the first goes first, swapped when `le` puts the second strictly first. */
  lemma SortByPair<T>(x: T, y: T, le: (T, T) -> bool)
    ensures le(x, y) ==> SortBy([x, y], le) == [x, y]
    ensures !le(x, y) ==> SortBy([x, y], le) == [y, x]
  {
    assert [x, y][1..] == [y];
    assert [y][1..] == [];
    assert SortBy([y], le) == [y];
    assert [y][0] == y;
  }

  lemma {:induction false} SumOverAppend<K>(a: seq<K>, b: seq<K>, m: map<K, real>)
    ensures SumOver(a + b, m) == SumOver(a, m) + SumOver(b, m)
  {
    if b == [] {
      assert a + b == a;
    } else {
      assert (a + b)[..|a + b| - 1] == a + b[..|b| - 1];
      SumOverAppend(a, b[..|b| - 1], m);
    }
  }

  lemma SumOverSingle<K>(k: K, m: map<K, real>)
    ensures SumOver([k], m) == Lookup(m, k)
  {
    assert [k][..0] == [];
  }

  lemma {:induction false} SumOverInsertBy<K>(x: K, s: seq<K>, le: (K, K) -> bool, m: map<K, real>)
    ensures SumOver(InsertBy(x, s, le), m) == Lookup(m, x) + SumOver(s, m)
  {
    if s == [] || le(x, s[0]) {
      SumOverAppend([x], s, m);
      SumOverSingle(x, m);
    } else {
      SumOverInsertBy(x, s[1..], le, m);
      SumOverAppend([s[0]], InsertBy(x, s[1..], le), m);
      SumOverAppend([s[0]], s[1..], m);
      assert [s[0]] + s[1..] == s;
      SumOverSingle(s[0], m);
    }
  }

  /** Sorting the keys does not change their sum: addition is commutative. */
  lemma {:induction false} SumOverSortBy<K>(s: seq<K>, le: (K, K) -> bool, m: map<K, real>)
    ensures SumOver(SortBy(s, le), m) == SumOver(s, m)
  {
    if s != [] {
      SumOverSortBy(s[1..], le, m);
      SumOverInsertBy(s[0], SortBy(s[1..], le), le, m);
      SumOverAppend([s[0]], s[1..], m);
      assert [s[0]] + s[1..] == s;
      SumOverSingle(s[0], m);
    }
  }
}
