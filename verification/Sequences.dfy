/** Sorting, filtering and summing of sequences, as the source's `sorted`, boolean masks and
    `sum` use them.  Sorting is stable: equal keys keep their order. */
module Sequences {

  // ----- Orders

  ghost predicate TotalPreorder<T(!new)>(leq: (T, T) -> bool) {
    && (forall a, b :: leq(a, b) || leq(b, a))
    && (forall a, b, c :: leq(a, b) && leq(b, c) ==> leq(a, c))
  }

  ghost predicate TotalOrder<T(!new)>(leq: (T, T) -> bool) {
    && TotalPreorder(leq)
    && (forall a, b :: leq(a, b) && leq(b, a) ==> a == b)
  }

  ghost predicate Sorted<T>(leq: (T, T) -> bool, s: seq<T>) {
    forall i, j :: 0 <= i < j < |s| ==> leq(s[i], s[j])
  }

  predicate Distinct<T(==)>(s: seq<T>) {
    forall i, j :: 0 <= i < j < |s| ==> s[i] != s[j]
  }

  // ----- Stable insertion sort

  function InsertSorted<T>(leq: (T, T) -> bool, x: T, s: seq<T>): seq<T> {
    if s == [] || leq(x, s[0]) then [x] + s else [s[0]] + InsertSorted(leq, x, s[1..])
  }

  function SortBy<T>(leq: (T, T) -> bool, s: seq<T>): seq<T> {
    if s == [] then [] else InsertSorted(leq, s[0], SortBy(leq, s[1..]))
  }

  lemma {:induction false} InsertSortedMultiset<T>(leq: (T, T) -> bool, x: T, s: seq<T>)
    ensures multiset(InsertSorted(leq, x, s)) == multiset{x} + multiset(s)
  {
    if s != [] && !leq(x, s[0]) {
      InsertSortedMultiset(leq, x, s[1..]);
      assert s == [s[0]] + s[1..];
    }
  }

  lemma {:induction false} SortByMultiset<T>(leq: (T, T) -> bool, s: seq<T>)
    ensures multiset(SortBy(leq, s)) == multiset(s)
  {
    if s != [] {
      SortByMultiset(leq, s[1..]);
      InsertSortedMultiset(leq, s[0], SortBy(leq, s[1..]));
      assert s == [s[0]] + s[1..];
    }
  }

  lemma SortByElements<T(!new)>(leq: (T, T) -> bool, s: seq<T>)
    ensures |SortBy(leq, s)| == |s|
    ensures forall x :: x in SortBy(leq, s) <==> x in s
  {
    SortByMultiset(leq, s);
    assert |SortBy(leq, s)| == |multiset(SortBy(leq, s))| == |multiset(s)| == |s|;
    assert forall x :: x in SortBy(leq, s) <==> x in multiset(SortBy(leq, s));
    assert forall x :: x in s <==> x in multiset(s);
  }

  lemma {:induction false} InsertSortedSorted<T(!new)>(leq: (T, T) -> bool, x: T, s: seq<T>)
    requires TotalPreorder(leq) && Sorted(leq, s)
    ensures Sorted(leq, InsertSorted(leq, x, s))
  {
    if s == [] || leq(x, s[0]) {
      forall i, j | 0 <= i < j < |[x] + s| ensures leq(([x] + s)[i], ([x] + s)[j]) {
        if i == 0 { assert leq(x, s[0]) && (j == 1 || leq(s[0], s[j - 1])); }
      }
    } else {
      InsertSortedSorted(leq, x, s[1..]);
      InsertSortedMultiset(leq, x, s[1..]);
      var r := InsertSorted(leq, x, s[1..]);
      forall y | y in r ensures leq(s[0], y) {
        assert y in multiset(r);
        if y != x { assert y in s[1..]; }
      }
    }
  }

  lemma {:induction false} SortBySorted<T(!new)>(leq: (T, T) -> bool, s: seq<T>)
    requires TotalPreorder(leq)
    ensures Sorted(leq, SortBy(leq, s))
  {
    if s != [] {
      SortBySorted(leq, s[1..]);
      InsertSortedSorted(leq, s[0], SortBy(leq, s[1..]));
    }
  }

  /** Sorting a sorted sequence changes nothing; this is what makes every normaliser that ends
      in a sort a fixed point on its own output. */
  lemma {:induction false} SortByFixedPoint<T>(leq: (T, T) -> bool, s: seq<T>)
    requires Sorted(leq, s)
    ensures SortBy(leq, s) == s
  {
    if s != [] {
      SortByFixedPoint(leq, s[1..]);
      assert s == [s[0]] + s[1..];
    }
  }

  lemma {:induction false} SortByDistinct<T(!new), K>(leq: (T, T) -> bool, key: T -> K, s: seq<T>)
    requires forall i, j :: 0 <= i < j < |s| ==> key(s[i]) != key(s[j])
    ensures forall i, j :: 0 <= i < j < |SortBy(leq, s)| ==> key(SortBy(leq, s)[i]) != key(SortBy(leq, s)[j])
  {
    if s != [] {
      SortByDistinct(leq, key, s[1..]);
      SortByElements(leq, s[1..]);
      var t := SortBy(leq, s[1..]);
      forall y | y in t ensures key(s[0]) != key(y) {
        assert y in s[1..];
      }
      InsertSortedDistinct(leq, key, s[0], t);
    }
  }

  lemma {:induction false} InsertSortedDistinct<T(!new), K>(leq: (T, T) -> bool, key: T -> K, x: T, s: seq<T>)
    requires forall i, j :: 0 <= i < j < |s| ==> key(s[i]) != key(s[j])
    requires forall y :: y in s ==> key(x) != key(y)
    ensures forall i, j :: 0 <= i < j < |InsertSorted(leq, x, s)|
              ==> key(InsertSorted(leq, x, s)[i]) != key(InsertSorted(leq, x, s)[j])
  {
    if s == [] || leq(x, s[0]) {
      forall j | 0 <= j < |s| ensures key(x) != key(s[j]) { assert s[j] in s; }
    } else {
      InsertSortedDistinct(leq, key, x, s[1..]);
      var r := InsertSorted(leq, x, s[1..]);
      InsertSortedMultiset(leq, x, s[1..]);
      forall y | y in r ensures key(s[0]) != key(y) {
        assert y in multiset(r);
        if y != x { assert y in s[1..]; }
      }
    }
  }

  // ----- Dictionary comprehensions

  /** `{key(v): v for v in s}`: a later row replaces an earlier one with the same key. */
  function Index<K(==), V>(key: V -> K, s: seq<V>): map<K, V> {
    if s == [] then map[]
    else Index(key, s[..|s| - 1])[key(s[|s| - 1]) := s[|s| - 1]]
  }

  lemma {:induction false} IndexKeys<K(!new), V(!new)>(key: V -> K, s: seq<V>)
    ensures forall k :: k in Index(key, s) <==> exists v :: v in s && key(v) == k
    ensures forall k :: k in Index(key, s) ==> Index(key, s)[k] in s && key(Index(key, s)[k]) == k
  {
    if s != [] {
      var front := s[..|s| - 1];
      IndexKeys(key, front);
      assert s == front + [s[|s| - 1]];
      forall k ensures k in Index(key, s) <==> exists v :: v in s && key(v) == k {
        if k in Index(key, s) {
          assert Index(key, s)[k] in s && key(Index(key, s)[k]) == k;
        }
        if v :| v in s && key(v) == k {
          assert v in front || v == s[|s| - 1];
        }
      }
    }
  }

  lemma IndexValue<K(!new), V(!new)>(key: V -> K, s: seq<V>, i: nat)
    requires i < |s|
    requires forall i, j :: 0 <= i < j < |s| ==> key(s[i]) != key(s[j])
    ensures key(s[i]) in Index(key, s) && Index(key, s)[key(s[i])] == s[i]
  {
    IndexKeys(key, s);
    assert s[i] in s;
    var v := Index(key, s)[key(s[i])];
    var j :| 0 <= j < |s| && s[j] == v;
    assert key(s[j]) == key(s[i]);
  }

  // ----- Filtering

  function Filter<T>(keep: T -> bool, s: seq<T>): seq<T> {
    if s == [] then []
    else if keep(s[0]) then [s[0]] + Filter(keep, s[1..])
    else Filter(keep, s[1..])
  }

  lemma {:induction false} FilterElements<T(!new)>(keep: T -> bool, s: seq<T>)
    ensures forall x :: x in Filter(keep, s) <==> x in s && keep(x)
    ensures |Filter(keep, s)| <= |s|
  {
    if s != [] {
      FilterElements(keep, s[1..]);
      assert s == [s[0]] + s[1..];
    }
  }

  lemma {:induction false} FilterAppend<T>(keep: T -> bool, s: seq<T>, t: seq<T>)
    ensures Filter(keep, s + t) == Filter(keep, s) + Filter(keep, t)
  {
    if s == [] {
      assert s + t == t;
    } else {
      assert (s + t)[1..] == s[1..] + t;
      FilterAppend(keep, s[1..], t);
    }
  }

  lemma {:induction false} FilterAll<T>(keep: T -> bool, s: seq<T>)
    requires forall i :: 0 <= i < |s| ==> keep(s[i])
    ensures Filter(keep, s) == s
  {
    if s != [] {
      FilterAll(keep, s[1..]);
      assert s == [s[0]] + s[1..];
    }
  }

  lemma {:induction false} FilterNone<T>(keep: T -> bool, s: seq<T>)
    requires forall i :: 0 <= i < |s| ==> !keep(s[i])
    ensures Filter(keep, s) == []
  {
    if s != [] { FilterNone(keep, s[1..]); }
  }

  lemma {:induction false} FilterSorted<T(!new)>(leq: (T, T) -> bool, keep: T -> bool, s: seq<T>)
    requires Sorted(leq, s)
    ensures Sorted(leq, Filter(keep, s))
  {
    if s != [] {
      FilterSorted(leq, keep, s[1..]);
      FilterElements(keep, s[1..]);
      forall x | x in Filter(keep, s[1..]) ensures leq(s[0], x) {
        assert x in s[1..];
      }
    }
  }

  lemma {:induction false} FilterCompose<T>(f: T -> bool, g: T -> bool, h: T -> bool, s: seq<T>)
    requires forall x :: x in s ==> (h(x) <==> f(x) && g(x))
    ensures Filter(f, Filter(g, s)) == Filter(h, s)
  {
    if s != [] {
      FilterCompose(f, g, h, s[1..]);
    }
  }

  lemma {:induction false} FilterInsert<T(!new)>(leq: (T, T) -> bool, keep: T -> bool, x: T, s: seq<T>)
    requires TotalPreorder(leq) && Sorted(leq, s)
    ensures Filter(keep, InsertSorted(leq, x, s))
         == if keep(x) then InsertSorted(leq, x, Filter(keep, s)) else Filter(keep, s)
  {
    if s == [] {
    } else if leq(x, s[0]) {
      assert ([x] + s)[1..] == s;
      FilterElements(keep, s);
      var f := Filter(keep, s);
      if f != [] {
        assert f[0] in s;
        assert leq(x, f[0]);
      }
    } else {
      FilterInsert(leq, keep, x, s[1..]);
      assert ([s[0]] + InsertSorted(leq, x, s[1..]))[1..] == InsertSorted(leq, x, s[1..]);
    }
  }

  /** A stable sort commutes with every filter: masking a sorted table gives the sort of the
      masked table, ties included. */
  lemma {:induction false} FilterSortCommute<T(!new)>(leq: (T, T) -> bool, keep: T -> bool, s: seq<T>)
    requires TotalPreorder(leq)
    ensures Filter(keep, SortBy(leq, s)) == SortBy(leq, Filter(keep, s))
  {
    if s != [] {
      SortBySorted(leq, s[1..]);
      FilterSortCommute(leq, keep, s[1..]);
      FilterInsert(leq, keep, s[0], SortBy(leq, s[1..]));
    }
  }

  // ----- sorted(set(...))

  function InsertUnique<T(==)>(leq: (T, T) -> bool, x: T, s: seq<T>): seq<T> {
    if s == [] then [x]
    else if x == s[0] then s
    else if leq(x, s[0]) then [x] + s
    else [s[0]] + InsertUnique(leq, x, s[1..])
  }

  /** The elements of `s` in increasing order, each once. */
  function SortedUnique<T(==)>(leq: (T, T) -> bool, s: seq<T>): seq<T> {
    if s == [] then [] else InsertUnique(leq, s[0], SortedUnique(leq, s[1..]))
  }

  ghost predicate Increasing<T>(leq: (T, T) -> bool, s: seq<T>) {
    forall i, j :: 0 <= i < j < |s| ==> leq(s[i], s[j]) && s[i] != s[j]
  }

  lemma IncreasingCons<T(!new)>(leq: (T, T) -> bool, x: T, s: seq<T>)
    requires Increasing(leq, s)
    requires forall y :: y in s ==> leq(x, y) && x != y
    ensures Increasing(leq, [x] + s)
  {
    forall j | 0 <= j < |s| ensures leq(x, s[j]) && x != s[j] { assert s[j] in s; }
  }

  lemma IncreasingHead<T(!new)>(leq: (T, T) -> bool, s: seq<T>)
    requires Increasing(leq, s) && s != []
    ensures Increasing(leq, s[1..])
    ensures forall y :: y in s[1..] ==> leq(s[0], y) && s[0] != y
    ensures forall y :: y in s <==> y == s[0] || y in s[1..]
  {
    assert s == [s[0]] + s[1..];
  }

  lemma {:induction false} InsertUniqueIncreasing<T(!new)>(leq: (T, T) -> bool, x: T, s: seq<T>)
    requires TotalOrder(leq) && Increasing(leq, s)
    ensures Increasing(leq, InsertUnique(leq, x, s))
    ensures forall y :: y in InsertUnique(leq, x, s) <==> y == x || y in s
  {
    if s != [] && x != s[0] {
      IncreasingHead(leq, s);
      if leq(x, s[0]) {
        IncreasingCons(leq, x, s);
      } else {
        InsertUniqueIncreasing(leq, x, s[1..]);
        IncreasingCons(leq, s[0], InsertUnique(leq, x, s[1..]));
      }
    }
  }

  lemma {:induction false} SortedUniqueIncreasing<T(!new)>(leq: (T, T) -> bool, s: seq<T>)
    requires TotalOrder(leq)
    ensures Increasing(leq, SortedUnique(leq, s))
    ensures forall y :: y in SortedUnique(leq, s) <==> y in s
  {
    if s != [] {
      SortedUniqueIncreasing(leq, s[1..]);
      InsertUniqueIncreasing(leq, s[0], SortedUnique(leq, s[1..]));
      assert s == [s[0]] + s[1..];
    }
  }

  lemma {:induction false} SortedUniqueFixedPoint<T>(leq: (T, T) -> bool, s: seq<T>)
    requires Increasing(leq, s)
    ensures SortedUnique(leq, s) == s
  {
    if s != [] {
      SortedUniqueFixedPoint(leq, s[1..]);
      assert s == [s[0]] + s[1..];
    }
  }

  /** Increasing sequences with the same elements are equal. */
  lemma {:induction false} IncreasingUnique<T(!new)>(leq: (T, T) -> bool, a: seq<T>, b: seq<T>)
    requires TotalOrder(leq) && Increasing(leq, a) && Increasing(leq, b)
    requires forall x :: x in a <==> x in b
    ensures a == b
  {
    assert a != [] ==> a[0] in a;
    assert b != [] ==> b[0] in b;
    if a != [] {
      assert a[0] in b && b[0] in a;
      IncreasingHead(leq, a);
      IncreasingHead(leq, b);
      assert a[0] == b[0];
      IncreasingUnique(leq, a[1..], b[1..]);
      assert a == [a[0]] + a[1..] && b == [b[0]] + b[1..];
    }
  }

  // ----- Sums

  function Sum(s: seq<real>): real {
    if s == [] then 0.0 else s[0] + Sum(s[1..])
  }

  lemma {:induction false} SumAppend(s: seq<real>, t: seq<real>)
    ensures Sum(s + t) == Sum(s) + Sum(t)
  {
    if s == [] {
      assert s + t == t;
    } else {
      assert (s + t)[1..] == s[1..] + t;
      SumAppend(s[1..], t);
    }
  }

  lemma SumSnoc(s: seq<real>, k: nat)
    requires k < |s|
    ensures Sum(s[..k + 1]) == Sum(s[..k]) + s[k]
  {
    assert s[..k + 1] == s[..k] + [s[k]];
    SumAppend(s[..k], [s[k]]);
  }

  function Map<A, B>(f: A -> B, s: seq<A>): (r: seq<B>)
    ensures |r| == |s| && forall i :: 0 <= i < |s| ==> r[i] == f(s[i])
  {
    seq(|s|, i requires 0 <= i < |s| => f(s[i]))
  }

  // ----- Least and greatest

  /** The last element of the stable sort of a nonempty table: greatest key and, among equal
      keys, latest in the table. */
  ghost predicate IsLatest<T>(leq: (T, T) -> bool, s: seq<T>, x: T) {
    exists i :: 0 <= i < |s| && s[i] == x
      && (forall j :: 0 <= j < |s| ==> leq(s[j], x))
      && (forall j :: i < j < |s| ==> !leq(x, s[j]))
  }

  lemma {:induction false} LastOfSortIsLatest<T(!new)>(leq: (T, T) -> bool, s: seq<T>)
    requires TotalPreorder(leq) && s != []
    ensures SortBy(leq, s) != [] && IsLatest(leq, s, SortBy(leq, s)[|SortBy(leq, s)| - 1])
  {
    var x, rest := s[0], s[1..];
    if rest != [] {
      LastOfSortIsLatest(leq, rest);
      var t := SortBy(leq, rest);
      var m := t[|t| - 1];
      var i :| 0 <= i < |rest| && rest[i] == m
        && (forall j :: 0 <= j < |rest| ==> leq(rest[j], m))
        && (forall j :: i < j < |rest| ==> !leq(m, rest[j]));
      SortBySorted(leq, rest);
      LastOfInsert(leq, x, t);
      if leq(x, m) {
        assert s[i + 1] == m;
        assert forall j :: i + 1 < j < |s| ==> s[j] == rest[j - 1];
        assert forall j :: 0 <= j < |s| ==> s[j] == if j == 0 then x else rest[j - 1];
      } else {
        assert s[0] == x;
        forall j | 0 < j < |s| ensures leq(s[j], x) && !leq(x, s[j]) {
          assert s[j] == rest[j - 1];
        }
        assert leq(x, x);
      }
    } else {
      assert s[0] == x && leq(x, x);
    }
  }

  lemma {:induction false} LastOfInsert<T(!new)>(leq: (T, T) -> bool, x: T, s: seq<T>)
    requires TotalPreorder(leq) && Sorted(leq, s) && s != []
    ensures InsertSorted(leq, x, s) != []
    ensures var r := InsertSorted(leq, x, s); var m := s[|s| - 1];
            r[|r| - 1] == if leq(x, m) then m else x
  {
    if leq(x, s[0]) {
      if |s| > 1 { assert leq(s[0], s[|s| - 1]); }
    } else if |s| > 1 {
      LastOfInsert(leq, x, s[1..]);
    }
  }
}
