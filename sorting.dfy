/**
 * Python's `sorted(xs, key=k)` and `list.sort(key=k)`: a stable sort, ascending by a key.
 * The source's `reverse=True` sorts are this sort on the negated key: Python keeps
 * equal elements in their original order in both directions.
 */
module Sorting {

  /** Keys ascend along `s`. */
  predicate SortedBy<T>(s: seq<T>, key: T -> real) {
    forall i, j :: 0 <= i < j < |s| ==> key(s[i]) <= key(s[j])
  }

  /** The elements of `s` whose key is `v`, in their order in `s`. */
  function WithKey<T>(s: seq<T>, key: T -> real, v: real): seq<T> {
    if s == [] then []
    else WithKey(s[..|s| - 1], key, v) + (if key(s[|s| - 1]) == v then [s[|s| - 1]] else [])
  }

  /** Inserts `x` after every element whose key is not above `x`'s. */
  function InsertBy<T>(x: T, t: seq<T>, key: T -> real): (r: seq<T>)
    ensures multiset(r) == multiset(t) + multiset{x} && |r| == |t| + 1
  {
    if t == [] then [x]
    else if key(x) < key(t[|t| - 1]) then
      assert t[..|t| - 1] + [t[|t| - 1]] == t;
      InsertBy(x, t[..|t| - 1], key) + [t[|t| - 1]]
    else
      t + [x]
  }

  lemma {:induction false} InsertBySorted<T>(x: T, t: seq<T>, key: T -> real)
    requires SortedBy(t, key)
    ensures SortedBy(InsertBy(x, t, key), key)
    decreases |t|
  {
    if t != [] && key(x) < key(t[|t| - 1]) {
      var init, last := t[..|t| - 1], t[|t| - 1];
      var ins := InsertBy(x, init, key);
      InsertBySorted(x, init, key);
      forall y | y in ins ensures key(y) <= key(last) {
        assert y in multiset(ins);
        if y != x {
          assert y in init;
        }
      }
      var r := ins + [last];
      forall i, j | 0 <= i < j < |r| ensures key(r[i]) <= key(r[j]) {
        if j == |r| - 1 {
          assert r[i] in ins;
        }
      }
    }
  }

  /** Python's stable `sorted`, ascending by `key`: a permutation whose keys ascend. */
  function SortBy<T>(s: seq<T>, key: T -> real): (r: seq<T>)
    ensures multiset(r) == multiset(s) && |r| == |s|
    ensures SortedBy(r, key)
  {
    if s == [] then []
    else
      assert s[..|s| - 1] + [s[|s| - 1]] == s;
      var t := SortBy(s[..|s| - 1], key);
      InsertBySorted(s[|s| - 1], t, key);
      InsertBy(s[|s| - 1], t, key)
  }

  lemma {:induction false} WithKeyInsert<T>(x: T, t: seq<T>, key: T -> real, v: real)
    requires SortedBy(t, key)
    ensures WithKey(InsertBy(x, t, key), key, v)
         == WithKey(t, key, v) + (if key(x) == v then [x] else [])
    decreases |t|
  {
    if t == [] {
      assert [x][..0] == [];
    } else if key(x) < key(t[|t| - 1]) {
      var init, last := t[..|t| - 1], t[|t| - 1];
      var ins := InsertBy(x, init, key);
      WithKeyInsert(x, init, key, v);
      var tail := if key(last) == v then [last] else [];
      assert (ins + [last])[..|ins + [last]| - 1] == ins;
      assert WithKey(ins + [last], key, v) == WithKey(ins, key, v) + tail;
      assert WithKey(t, key, v) == WithKey(init, key, v) + tail;
      if key(x) == v {
        assert tail == [];
        assert WithKey(ins, key, v) == WithKey(init, key, v) + [x];
      } else {
        assert WithKey(ins, key, v) == WithKey(init, key, v) + [];
      }
    } else {
      assert (t + [x])[..|t + [x]| - 1] == t;
    }
  }

  /**
   * Stability: for every key value, the elements carrying it come out of the sort in the
   * order they went in.
   */
  lemma {:induction false} SortByStable<T>(s: seq<T>, key: T -> real, v: real)
    ensures WithKey(SortBy(s, key), key, v) == WithKey(s, key, v)
  {
    if s != [] {
      SortByStable(s[..|s| - 1], key, v);
      WithKeyInsert(s[|s| - 1], SortBy(s[..|s| - 1], key), key, v);
    }
  }

  /** The first element of a non-empty list comes first among those sharing its key. */
  lemma {:induction false} WithKeyFirst<T>(s: seq<T>, key: T -> real)
    requires s != []
    ensures WithKey(s, key, key(s[0])) != [] && WithKey(s, key, key(s[0]))[0] == s[0]
  {
    if |s| > 1 {
      WithKeyFirst(s[..|s| - 1], key);
    }
  }

  /** The last element of a non-empty list comes last among those sharing its key. */
  lemma {:induction false} WithKeyLast<T>(s: seq<T>, key: T -> real)
    requires s != []
    ensures var w := WithKey(s, key, key(s[|s| - 1])); w != [] && w[|w| - 1] == s[|s| - 1]
  {
  }

  /**
   * The ends of a stable sort: the first element is the earliest listed of those with the
   * smallest key, the last element the latest listed of those with the largest key.
   */
  lemma {:induction false} SortByEnds<T>(s: seq<T>, key: T -> real)
    requires s != []
    ensures var r := SortBy(s, key);
      var low := WithKey(s, key, key(r[0]));
      var high := WithKey(s, key, key(r[|r| - 1]));
      low != [] && low[0] == r[0] && high != [] && high[|high| - 1] == r[|r| - 1]
  {
    var r := SortBy(s, key);
    SortByStable(s, key, key(r[0]));
    SortByStable(s, key, key(r[|r| - 1]));
    WithKeyFirst(r, key);
    WithKeyLast(r, key);
  }

  /** The first `n` elements, Python's `s[:n]` for a non-negative `n`. */
  function Take<T>(s: seq<T>, n: nat): (r: seq<T>)
    ensures |r| <= n && |r| <= |s|
    ensures r == s[..|r|]
    ensures |s| <= n ==> r == s
  {
    if |s| <= n then s else s[..n]
  }
  /** `[f(x) for x in s]`. */
  function MapSeq<A, B>(s: seq<A>, f: A -> B): (r: seq<B>)
    ensures |r| == |s| && forall i :: 0 <= i < |s| ==> r[i] == f(s[i])
  {
    seq(|s|, i requires 0 <= i < |s| => f(s[i]))
  }

  lemma {:induction false} InsertByMap<A, B>(x: A, t: seq<A>, f: A -> B, ka: A -> real, kb: B -> real)
    requires forall a :: kb(f(a)) == ka(a)
    ensures InsertBy(f(x), MapSeq(t, f), kb) == MapSeq(InsertBy(x, t, ka), f)
    decreases |t|
  {
    var mt := MapSeq(t, f);
    if t == [] {
      assert MapSeq([x], f) == [f(x)];
    } else {
      var init, last := t[..|t| - 1], t[|t| - 1];
      assert mt[|mt| - 1] == f(last);
      assert kb(f(x)) == ka(x) && kb(f(last)) == ka(last);
      if ka(x) < ka(last) {
        InsertByMap(x, init, f, ka, kb);
        assert mt[..|mt| - 1] == MapSeq(init, f);
        var ins := InsertBy(x, init, ka);
        assert MapSeq(ins + [last], f) == MapSeq(ins, f) + [f(last)];
      } else {
        assert MapSeq(t + [x], f) == mt + [f(x)];
      }
    }
  }

  /** The last step of the sort: the last element inserted into the sorted rest. */
  lemma {:induction false} SortByLast<T>(s: seq<T>, key: T -> real)
    requires s != []
    ensures SortBy(s, key) == InsertBy(s[|s| - 1], SortBy(s[..|s| - 1], key), key)
  {
  }

  /**
   * Sorting commutes with a map that keeps the key: sorting the images gives the images
   * of the sorted list.
   */
  lemma {:induction false} SortByMap<A, B>(s: seq<A>, f: A -> B, ka: A -> real, kb: B -> real)
    requires forall a :: kb(f(a)) == ka(a)
    ensures SortBy(MapSeq(s, f), kb) == MapSeq(SortBy(s, ka), f)
  {
    if s != [] {
      var init, last := s[..|s| - 1], s[|s| - 1];
      var ms := MapSeq(s, f);
      assert ms[..|ms| - 1] == MapSeq(init, f);
      assert ms[|ms| - 1] == f(last);
      calc {
        SortBy(ms, kb);
        { SortByLast(ms, kb); }
        InsertBy(f(last), SortBy(MapSeq(init, f), kb), kb);
        { SortByMap(init, f, ka, kb); }
        InsertBy(f(last), MapSeq(SortBy(init, ka), f), kb);
        { InsertByMap(last, SortBy(init, ka), f, ka, kb); }
        MapSeq(InsertBy(last, SortBy(init, ka), ka), f);
        { SortByLast(s, ka); }
        MapSeq(SortBy(s, ka), f);
      }
    }
  }

  /** `r` is `s` with some elements dropped, the rest in their original order. */
  predicate SubsequenceOf<T(==)>(r: seq<T>, s: seq<T>)
    decreases |s|
  {
    if r == [] then true
    else if s == [] then false
    else if r[|r| - 1] == s[|s| - 1] then SubsequenceOf(r[..|r| - 1], s[..|s| - 1])
    else SubsequenceOf(r, s[..|s| - 1])
  }

  /** `[x for x in s if keep(x)]`. */
  function Filter<T>(s: seq<T>, keep: T -> bool): (r: seq<T>)
    ensures forall k :: 0 <= k < |r| ==> r[k] in s && keep(r[k])
    ensures forall k :: 0 <= k < |s| && keep(s[k]) ==> s[k] in r
    ensures SubsequenceOf(r, s)
  {
    if s == [] then []
    else
      var init, x := s[..|s| - 1], s[|s| - 1];
      assert s == init + [x];
      var r0 := Filter(init, keep);
      if keep(x) then
        assert (r0 + [x])[..|r0|] == r0;
        r0 + [x]
      else r0
  }

  /** An element is kept exactly when it is in the list and passes the test. */
  lemma FilterMembers<T>(s: seq<T>, keep: T -> bool)
    ensures forall x :: x in Filter(s, keep) <==> x in s && keep(x)
  {
    var r := Filter(s, keep);
    forall x ensures x in r <==> x in s && keep(x) {
      if x in r {
        var k :| 0 <= k < |r| && r[k] == x;
      }
      if x in s && keep(x) {
        var k :| 0 <= k < |s| && s[k] == x;
      }
    }
  }

  /** Both tests at once. */
  function Both<T>(p: T -> bool, q: T -> bool): T -> bool {
    x => p(x) && q(x)
  }

  /** Two filters in a row are one filter by both tests. */
  lemma {:induction false} FilterTwice<T>(s: seq<T>, p: T -> bool, q: T -> bool)
    ensures Filter(Filter(s, p), q) == Filter(s, Both(p, q))
  {
    if s != [] {
      var init, x := s[..|s| - 1], s[|s| - 1];
      FilterTwice(init, p, q);
      var a := Filter(init, p);
      if p(x) {
        assert Filter(s, p) == a + [x];
        assert (a + [x])[..|a|] == a;
      } else {
        assert Filter(s, p) == a;
      }
    }
  }

  /** Filtering a list ordered by a key keeps it ordered. */
  lemma {:induction false} FilterKeepsOrder<T>(s: seq<T>, keep: T -> bool, key: T -> int)
    requires forall i, j :: 0 <= i < j < |s| ==> key(s[i]) >= key(s[j])
    ensures var r := Filter(s, keep); forall i, j :: 0 <= i < j < |r| ==> key(r[i]) >= key(r[j])
  {
    if s != [] {
      var init, x := s[..|s| - 1], s[|s| - 1];
      FilterKeepsOrder(init, keep, key);
      var r0 := Filter(init, keep);
      if keep(x) {
        assert Filter(s, keep) == r0 + [x];
        forall i | 0 <= i < |r0| ensures key(r0[i]) >= key(x) {
          FilterAbove(init, keep, key, x, i);
        }
      } else {
        assert Filter(s, keep) == r0;
      }
    }
  }

  lemma FilterAbove<T>(init: seq<T>, keep: T -> bool, key: T -> int, x: T, i: int)
    requires forall k :: 0 <= k < |init| ==> key(init[k]) >= key(x)
    requires 0 <= i < |Filter(init, keep)|
    ensures key(Filter(init, keep)[i]) >= key(x)
  {
    var k :| 0 <= k < |init| && init[k] == Filter(init, keep)[i];
  }

  /** A prefix one longer is the prefix with the next element appended. */
  lemma PrefixExtends<T>(s: seq<T>, i: nat)
    requires i < |s|
    ensures s[..i + 1] == s[..i] + [s[i]]
  {
  }

  /** No element of `s` appears twice. */
  predicate Distinct<T(==)>(s: seq<T>) {
    forall i, j :: 0 <= i < j < |s| ==> s[i] != s[j]
  }

  lemma {:induction false} DistinctOnce<T>(s: seq<T>)
    requires Distinct(s)
    ensures forall x :: multiset(s)[x] <= 1
  {
    if s != [] {
      var init, last := s[..|s| - 1], s[|s| - 1];
      assert s == init + [last];
      assert Distinct(init);
      DistinctOnce(init);
      assert last !in init;
    }
  }

  /** A permutation of a list without repeats has none either. */
  lemma {:induction false} PermutationDistinct<T>(s: seq<T>, t: seq<T>)
    requires Distinct(s) && multiset(s) == multiset(t)
    ensures Distinct(t)
  {
    DistinctOnce(s);
    forall i, j | 0 <= i < j < |t| ensures t[i] != t[j] {
      RepeatCounts(t, i, j);
    }
  }

  lemma RepeatCounts<T>(t: seq<T>, i: int, j: int)
    requires 0 <= i < j < |t|
    ensures t[i] == t[j] ==> multiset(t)[t[j]] >= 2
  {
    assert t == t[..j] + [t[j]] + t[j + 1..];
    assert t[i] in multiset(t[..j]);
  }
}
