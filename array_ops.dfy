/** The array operations the client chains: `filter`, `reduce` (sums) and
    `sort(compare)`. Every comparator
    the client passes is a difference of numeric keys (`a.k - b.k` for
    ascending, `b.k - a.k` for descending), and ECMAScript 2019 requires the
    sort to be stable, so each call is modelled by a stable insertion sort
    on a real-valued key; a descending sort is an ascending sort on the
    negated key. */
module ArrayOps {

  /** `s.filter(p)`: the elements satisfying `p`, each as often as in `s`. */
  function Keep<T(!new)>(s: seq<T>, p: T -> bool): (r: seq<T>)
    ensures |r| <= |s|
    ensures forall x :: multiset(r)[x] == if p(x) then multiset(s)[x] else 0
    ensures forall x :: x in r ==> p(x)
  {
    if s == [] then []
    else
      assert s == [s[0]] + s[1..];
      (if p(s[0]) then [s[0]] else []) + Keep(s[1..], p)
  }

  /** Two filters in a row keep what both predicates accept. */
  lemma {:induction false} KeepKeep<T(!new)>(s: seq<T>, p: T -> bool, q: T -> bool)
    ensures Keep(Keep(s, p), q) == Keep(s, x => p(x) && q(x))
  {
    if s != [] {
      KeepKeep(s[1..], p, q);
      var k := Keep(s, p);
      if p(s[0]) {
        assert k == [s[0]] + Keep(s[1..], p);
        assert k[1..] == Keep(s[1..], p);
      } else {
        assert k == Keep(s[1..], p);
      }
    }
  }

  /** `r` is `s` with some elements dropped and the rest in their order. */
  predicate IsSubsequence<T(==)>(r: seq<T>, s: seq<T>) {
    if r == [] then true
    else if s == [] then false
    else if r[0] == s[0] then IsSubsequence(r[1..], s[1..])
    else IsSubsequence(r, s[1..])
  }

  /** A filter keeps the surviving elements in their original order. */
  lemma {:induction false} KeepIsSubsequence<T(!new)>(s: seq<T>, p: T -> bool)
    ensures IsSubsequence(Keep(s, p), s)
  {
    if s != [] {
      KeepIsSubsequence(s[1..], p);
      var r := Keep(s, p);
      if p(s[0]) {
        assert r == [s[0]] + Keep(s[1..], p);
        assert r[1..] == Keep(s[1..], p);
      } else {
        assert r == Keep(s[1..], p);
        assert r != [] ==> p(r[0]);
      }
    }
  }

  /** A filter whose predicate every element meets changes nothing. */
  lemma {:induction false} KeepAll<T(!new)>(s: seq<T>, p: T -> bool)
    requires forall i :: 0 <= i < |s| ==> p(s[i])
    ensures Keep(s, p) == s
  {
    if s != [] {
      KeepAll(s[1..], p);
      assert s == [s[0]] + s[1..];
    }
  }

  /** Two complementary filters split the elements between them. */
  lemma {:induction false} KeepPartition<T(!new)>(s: seq<T>, p: T -> bool, q: T -> bool)
    requires forall x :: p(x) != q(x)
    ensures multiset(Keep(s, p)) + multiset(Keep(s, q)) == multiset(s)
  {
    if s != [] {
      var t := s[1..];
      KeepPartition(t, p, q);
      assert s == [s[0]] + t;
      assert Keep(s, p) == (if p(s[0]) then [s[0]] else []) + Keep(t, p);
      assert Keep(s, q) == (if q(s[0]) then [s[0]] else []) + Keep(t, q);
    }
  }

  /** Insert `x` before the first element whose key is not smaller. */
  function Insert<T>(x: T, s: seq<T>, key: T -> real): (r: seq<T>)
    ensures multiset(r) == multiset(s) + multiset{x}
    ensures |r| == |s| + 1
  {
    if s == [] || key(x) <= key(s[0]) then [x] + s
    else
      assert s == [s[0]] + s[1..];
      [s[0]] + Insert(x, s[1..], key)
  }

  lemma {:induction false} InsertSorted<T>(x: T, s: seq<T>, key: T -> real)
    requires Sorted(s, key)
    ensures Sorted(Insert(x, s, key), key)
  {
    if s != [] && key(x) > key(s[0]) {
      var t := Insert(x, s[1..], key);
      InsertSorted(x, s[1..], key);
      forall k | 0 <= k < |t| ensures key(s[0]) <= key(t[k]) {
        assert t[k] in multiset(t);
        assert t[k] == x || t[k] in multiset(s[1..]);
        if t[k] != x {
          var m :| 0 <= m < |s[1..]| && s[1..][m] == t[k];
          assert s[m + 1] == t[k];
        }
      }
      assert Insert(x, s, key) == [s[0]] + t;
    }
  }

  /** Stable sort, ascending by `key`. */
  function SortBy<T>(s: seq<T>, key: T -> real): (r: seq<T>)
    ensures Sorted(r, key)
    ensures multiset(r) == multiset(s)
    ensures |r| == |s|
  {
    if s == [] then []
    else
      assert s == [s[0]] + s[1..];
      InsertSorted(s[0], SortBy(s[1..], key), key);
      Insert(s[0], SortBy(s[1..], key), key)
  }

  /** The filter of a two-element list. */
  lemma KeepPair<T(!new)>(a: T, b: T, p: T -> bool)
    ensures Keep([a, b], p) == (if p(a) then [a] else []) + (if p(b) then [b] else [])
  {
    assert [a, b][1..] == [b] && [b][1..] == [];
    assert Keep([b], p) == (if p(b) then [b] else []) + Keep([], p);
  }

  /** A one-element list is already sorted. */
  lemma SortBySingle<T>(x: T, key: T -> real)
    ensures SortBy([x], key) == [x]
  {
    assert [x][1..] == [];
    assert Insert(x, [], key) == [x];
  }

  /** Sorting keeps exactly the elements there were. */
  lemma SortByMembers<T>(s: seq<T>, key: T -> real, x: T)
    ensures x in SortBy(s, key) <==> x in s
  {
    assert x in SortBy(s, key) <==> x in multiset(SortBy(s, key));
    assert x in s <==> x in multiset(s);
  }

  /** Stable sort, descending by `key` (comparator `b.k - a.k`). */
  function SortDescBy<T>(s: seq<T>, key: T -> real): (r: seq<T>)
    ensures SortedDesc(r, key)
    ensures multiset(r) == multiset(s)
    ensures |r| == |s|
  {
    var r := SortBy(s, x => -key(x));
    assert forall i, j :: 0 <= i < j < |r| ==> -key(r[i]) <= -key(r[j]);
    r
  }

  ghost predicate Sorted<T>(s: seq<T>, key: T -> real) {
    forall i, j :: 0 <= i < j < |s| ==> key(s[i]) <= key(s[j])
  }

  ghost predicate SortedDesc<T>(s: seq<T>, key: T -> real) {
    forall i, j :: 0 <= i < j < |s| ==> key(s[i]) >= key(s[j])
  }

  /** The elements of `s` whose key equals `v`, in their order in `s`. */
  function KeyClass<T>(s: seq<T>, key: T -> real, v: real): seq<T> {
    if s == [] then []
    else (if key(s[0]) == v then [s[0]] else []) + KeyClass(s[1..], key, v)
  }

  /** Of two sequences at least one of which is empty, either may come
      first. */
  lemma SwapEmpty<T>(a: seq<T>, b: seq<T>, rest: seq<T>)
    requires a == [] || b == []
    ensures a + (b + rest) == b + (a + rest)
  {
    if a == [] {
      assert a + (b + rest) == b + rest;
      assert b + (a + rest) == b + rest;
    } else {
      assert a + (b + rest) == a + rest;
      assert b + (a + rest) == a + rest;
    }
  }

  lemma {:induction false} KeyClassInsert<T>(x: T, s: seq<T>, key: T -> real, v: real)
    ensures KeyClass(Insert(x, s, key), key, v)
         == (if key(x) == v then [x] else []) + KeyClass(s, key, v)
  {
    var r := Insert(x, s, key);
    if s == [] || key(x) <= key(s[0]) {
      assert r == [x] + s;
      assert r[1..] == s;
    } else {
      var t := Insert(x, s[1..], key);
      assert r == [s[0]] + t;
      assert r[1..] == t;
      KeyClassInsert(x, s[1..], key, v);
      var a := if key(s[0]) == v then [s[0]] else [];
      var b := if key(x) == v then [x] else [];
      assert KeyClass(r, key, v) == a + KeyClass(t, key, v);
      assert KeyClass(t, key, v) == b + KeyClass(s[1..], key, v);
      assert KeyClass(s, key, v) == a + KeyClass(s[1..], key, v);
      SwapEmpty(a, b, KeyClass(s[1..], key, v));
    }
  }

  /** Stability: elements with equal keys keep their relative order. */
  lemma {:induction false} SortIsStable<T>(s: seq<T>, key: T -> real, v: real)
    ensures KeyClass(SortBy(s, key), key, v) == KeyClass(s, key, v)
  {
    if s != [] {
      SortIsStable(s[1..], key, v);
      KeyClassInsert(s[0], SortBy(s[1..], key), key, v);
    }
  }

  /** Sorting an already sorted sequence changes nothing. */
  lemma {:induction false} SortOfSorted<T>(s: seq<T>, key: T -> real)
    requires Sorted(s, key)
    ensures SortBy(s, key) == s
  {
    if s != [] {
      assert Sorted(s[1..], key);
      SortOfSorted(s[1..], key);
    }
  }

  /** `s.reduce((sum, x) => sum + f(x), 0)`. */
  function SumBy<T>(s: seq<T>, f: T -> real): real {
    if s == [] then 0.0 else f(s[0]) + SumBy(s[1..], f)
  }

  lemma {:induction false} SumByAppend<T>(a: seq<T>, b: seq<T>, f: T -> real)
    ensures SumBy(a + b, f) == SumBy(a, f) + SumBy(b, f)
  {
    if a != [] {
      assert (a + b)[1..] == a[1..] + b;
      SumByAppend(a[1..], b, f);
    } else {
      assert a + b == b;
    }
  }

  lemma {:induction false} SumByInsert<T>(x: T, s: seq<T>, key: T -> real, f: T -> real)
    ensures SumBy(Insert(x, s, key), f) == f(x) + SumBy(s, f)
  {
    if s == [] || key(x) <= key(s[0]) {
      assert Insert(x, s, key)[1..] == s;
    } else {
      assert Insert(x, s, key)[1..] == Insert(x, s[1..], key);
      SumByInsert(x, s[1..], key, f);
    }
  }

  /** Sorting does not change any sum over the elements. */
  lemma {:induction false} SortPreservesSum<T>(s: seq<T>, key: T -> real, f: T -> real)
    ensures SumBy(SortBy(s, key), f) == SumBy(s, f)
  {
    if s != [] {
      SortPreservesSum(s[1..], key, f);
      SumByInsert(s[0], SortBy(s[1..], key), key, f);
    }
  }

  lemma SortDescPreservesSum<T>(s: seq<T>, key: T -> real, f: T -> real)
    ensures SumBy(SortDescBy(s, key), f) == SumBy(s, f)
  {
    SortPreservesSum(s, x => -key(x), f);
  }

  /** Any prefix of a descending sort holds keys at least as large as every
      key left after it: the "top n" really are the largest. */
  lemma TopAreLargest<T>(s: seq<T>, key: T -> real, n: nat, i: int, j: int)
    requires SortedDesc(s, key)
    requires 0 <= i < n <= j < |s|
    ensures key(s[i]) >= key(s[j])
  {
  }
}
