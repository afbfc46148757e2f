// Python's `list.sort` / `sorted`: a stable sort under a key comparison.
// It is given here as insertion sort on values; the facts the application
// relies on (a permutation, ordered, stable, sums and distinct keys kept)
// are proved once for every comparison that is a total preorder.

module Sorting {
  import opened Common

  ghost predicate IsTotalPreorder<T(!new)>(leq: (T, T) -> bool)
  {
    (forall a, b :: leq(a, b) || leq(b, a)) &&
    (forall a, b, c :: leq(a, b) && leq(b, c) ==> leq(a, c))
  }

  ghost predicate SortedBy<T>(s: seq<T>, leq: (T, T) -> bool)
  {
    forall i, j :: 0 <= i < j < |s| ==> leq(s[i], s[j])
  }

  /**
   * Ordered by `leq1`, and among elements `leq1` ranks equal, ordered by
   * `leq2`: the outcome of sorting by `leq2` and then stably by `leq1`.
   */
  ghost predicate LexSorted<T>(s: seq<T>, leq1: (T, T) -> bool, leq2: (T, T) -> bool)
  {
    forall i, j :: 0 <= i < j < |s| ==> leq1(s[i], s[j]) && (leq1(s[j], s[i]) ==> leq2(s[i], s[j]))
  }

  /** Puts `x` after every element of `r` that is not ranked after it. */
  function Insert<T>(x: T, r: seq<T>, leq: (T, T) -> bool): (o: seq<T>)
    ensures multiset(o) == multiset(r) + multiset{x}
    ensures |o| == |r| + 1
  {
    if r == [] then [x]
    else if leq(r[|r| - 1], x) then r + [x]
    else
      assert r == r[..|r| - 1] + [r[|r| - 1]];
      Insert(x, r[..|r| - 1], leq) + [r[|r| - 1]]
  }

  /** The stable sort of `s` under `leq`. */
  function Sort<T>(s: seq<T>, leq: (T, T) -> bool): (o: seq<T>)
    ensures multiset(o) == multiset(s)
    ensures |o| == |s|
  {
    if s == [] then []
    else
      assert s == s[..|s| - 1] + [s[|s| - 1]];
      Insert(s[|s| - 1], Sort(s[..|s| - 1], leq), leq)
  }

  lemma {:induction false} InsertLex<T(!new)>(x: T, r: seq<T>, leq1: (T, T) -> bool, leq2: (T, T) -> bool)
    requires IsTotalPreorder(leq1)
    requires LexSorted(r, leq1, leq2)
    requires forall e :: e in r ==> leq2(e, x)
    ensures LexSorted(Insert(x, r, leq1), leq1, leq2)
  {
    if r == [] {
    } else if leq1(r[|r| - 1], x) {
      forall e | e in r ensures leq1(e, x) && (leq1(x, e) ==> leq2(e, x)) {
        var k :| 0 <= k < |r| && r[k] == e;
        if k < |r| - 1 { assert leq1(r[k], r[|r| - 1]); }
      }
      LexSnoc(r, x, leq1, leq2);
    } else {
      var last := r[|r| - 1];
      var init := r[..|r| - 1];
      assert forall e :: e in init ==> e in r;
      InsertLex(x, init, leq1, leq2);
      InsertedBelowLast(x, r, leq1, leq2);
      LexSnoc(Insert(x, init, leq1), last, leq1, leq2);
    }
  }

  /** Every element of `x` inserted into all of `r` but its last is ranked no later than that last element. */
  lemma InsertedBelowLast<T(!new)>(x: T, r: seq<T>, leq1: (T, T) -> bool, leq2: (T, T) -> bool)
    requires IsTotalPreorder(leq1)
    requires LexSorted(r, leq1, leq2)
    requires r != [] && !leq1(r[|r| - 1], x)
    ensures var last := r[|r| - 1];
            forall e :: e in Insert(x, r[..|r| - 1], leq1) ==> leq1(e, last) && (leq1(last, e) ==> leq2(e, last))
  {
    var last := r[|r| - 1];
    var init := r[..|r| - 1];
    var m := Insert(x, init, leq1);
    assert leq1(x, last);
    forall e | e in m ensures leq1(e, last) && (leq1(last, e) ==> leq2(e, last)) {
      assert e in multiset(init) + multiset{x} by { assert e in multiset(m); }
      if e != x {
        assert e in init;
        var k :| 0 <= k < |init| && init[k] == e;
        assert r[k] == e;
      }
    }
  }

  /** A lexicographically sorted sequence stays so with an element appended that is ranked after all of it. */
  lemma LexSnoc<T>(m: seq<T>, y: T, leq1: (T, T) -> bool, leq2: (T, T) -> bool)
    requires LexSorted(m, leq1, leq2)
    requires forall e :: e in m ==> leq1(e, y) && (leq1(y, e) ==> leq2(e, y))
    ensures LexSorted(m + [y], leq1, leq2)
  {
    var o := m + [y];
    forall i, j | 0 <= i < j < |o| ensures leq1(o[i], o[j]) && (leq1(o[j], o[i]) ==> leq2(o[i], o[j])) {
      if j == |m| {
        assert o[i] == m[i] && m[i] in m;
      } else {
        assert o[i] == m[i] && o[j] == m[j];
      }
    }
  }

  /**
   * Sorting a sequence already ordered by `leq2` stably by `leq1` leaves it
   * ordered by `leq1` first and by `leq2` among ties.
   */
  lemma {:induction false} SortLex<T(!new)>(s: seq<T>, leq1: (T, T) -> bool, leq2: (T, T) -> bool)
    requires IsTotalPreorder(leq1)
    requires SortedBy(s, leq2)
    ensures LexSorted(Sort(s, leq1), leq1, leq2)
  {
    if s != [] {
      var init := s[..|s| - 1];
      var x := s[|s| - 1];
      SortLex(init, leq1, leq2);
      var r := Sort(init, leq1);
      forall e | e in r ensures leq2(e, x) {
        assert e in multiset(init);
        var k :| 0 <= k < |init| && init[k] == e;
        assert s[k] == e;
      }
      InsertLex(x, r, leq1, leq2);
    }
  }

  function TrueOrder<T>(a: T, b: T): bool
  {
    true
  }

  /** The stable sort orders its output. */
  lemma SortSorted<T(!new)>(s: seq<T>, leq: (T, T) -> bool)
    requires IsTotalPreorder(leq)
    ensures SortedBy(Sort(s, leq), leq)
  {
    SortLex(s, leq, TrueOrder);
  }

  /** Sorting what is already ordered changes nothing. */
  lemma {:induction false} SortOfSorted<T>(s: seq<T>, leq: (T, T) -> bool)
    requires SortedBy(s, leq)
    ensures Sort(s, leq) == s
  {
    if s != [] {
      var init := s[..|s| - 1];
      assert SortedBy(init, leq);
      SortOfSorted(init, leq);
      if |init| > 0 {
        assert leq(init[|init| - 1], s[|s| - 1]);
      }
    }
  }

  lemma {:induction false} InsertSum<T>(x: T, r: seq<T>, leq: (T, T) -> bool, val: T -> real)
    ensures SumBy(Insert(x, r, leq), val) == SumBy(r, val) + val(x)
  {
    if r == [] {
      SumBySnoc(r, x, val);
    } else if leq(r[|r| - 1], x) {
      SumBySnoc(r, x, val);
    } else {
      var init := r[..|r| - 1];
      InsertSum(x, init, leq, val);
      SumBySnoc(Insert(x, init, leq), r[|r| - 1], val);
    }
  }

  lemma SumBySnoc<T>(m: seq<T>, y: T, val: T -> real)
    ensures SumBy(m + [y], val) == SumBy(m, val) + val(y)
  {
    assert (m + [y])[..|m|] == m;
  }

  /** Sorting does not change a sum over the sequence. */
  lemma {:induction false} SortSum<T>(s: seq<T>, leq: (T, T) -> bool, val: T -> real)
    ensures SumBy(Sort(s, leq), val) == SumBy(s, val)
  {
    if s != [] {
      SortSum(s[..|s| - 1], leq, val);
      InsertSum(s[|s| - 1], Sort(s[..|s| - 1], leq), leq, val);
    }
  }

  /** Inserting the image of `x` among images is the image of inserting `x`, for an order the map reflects. */
  lemma {:induction false} InsertMap<A, B>(x: A, r: seq<A>, f: A -> B, leqA: (A, A) -> bool, leqB: (B, B) -> bool)
    requires forall a, b :: leqB(f(a), f(b)) == leqA(a, b)
    ensures Insert(f(x), MapSeq(r, f), leqB) == MapSeq(Insert(x, r, leqA), f)
  {
    if r == [] {
      MapSeqPush(r, x, f);
    } else {
      var init := r[..|r| - 1];
      var last := r[|r| - 1];
      assert init + [last] == r;
      MapSeqPush(init, last, f);
      if !leqA(last, x) {
        InsertMap(x, init, f, leqA, leqB);
        MapSeqPush(Insert(x, init, leqA), last, f);
      } else {
        MapSeqPush(r, x, f);
      }
    }
  }

  lemma MapSeqPush<A, B>(m: seq<A>, y: A, f: A -> B)
    ensures MapSeq(m + [y], f) == MapSeq(m, f) + [f(y)]
  {
    assert (m + [y])[..|m|] == m;
  }

  /** Sorting images under an order the map reflects is mapping the sorted sequence. */
  lemma {:induction false} SortMap<A, B>(s: seq<A>, f: A -> B, leqA: (A, A) -> bool, leqB: (B, B) -> bool)
    requires forall a, b :: leqB(f(a), f(b)) == leqA(a, b)
    ensures Sort(MapSeq(s, f), leqB) == MapSeq(Sort(s, leqA), f)
  {
    if s != [] {
      var init := s[..|s| - 1];
      assert MapSeq(s, f)[..|s| - 1] == MapSeq(init, f);
      SortMap(init, f, leqA, leqB);
      InsertMap(s[|s| - 1], Sort(init, leqA), f, leqA, leqB);
    }
  }

  ghost predicate DistinctBy<T, K>(s: seq<T>, key: T -> K)
  {
    forall i, j :: 0 <= i < j < |s| ==> key(s[i]) != key(s[j])
  }

  lemma {:induction false} InsertDistinct<T, K>(x: T, r: seq<T>, leq: (T, T) -> bool, key: T -> K)
    requires DistinctBy(r, key)
    requires forall e :: e in r ==> key(e) != key(x)
    ensures DistinctBy(Insert(x, r, leq), key)
  {
    if r == [] {
    } else if leq(r[|r| - 1], x) {
      DistinctSnoc(r, x, key);
    } else {
      var last := r[|r| - 1];
      var init := r[..|r| - 1];
      assert forall e :: e in init ==> e in r;
      InsertDistinct(x, init, leq, key);
      InsertedKeysBeforeLast(x, r, leq, key);
      DistinctSnoc(Insert(x, init, leq), last, key);
    }
  }

  /** No element of `x` inserted into all of `r` but its last shares that last element's key. */
  lemma InsertedKeysBeforeLast<T, K>(x: T, r: seq<T>, leq: (T, T) -> bool, key: T -> K)
    requires DistinctBy(r, key)
    requires forall e :: e in r ==> key(e) != key(x)
    requires r != []
    ensures forall e :: e in Insert(x, r[..|r| - 1], leq) ==> key(e) != key(r[|r| - 1])
  {
    var init := r[..|r| - 1];
    var m := Insert(x, init, leq);
    forall e | e in m ensures key(e) != key(r[|r| - 1]) {
      assert e in multiset(init) + multiset{x} by { assert e in multiset(m); }
      if e != x {
        var k :| 0 <= k < |init| && init[k] == e;
        assert r[k] == e;
      } else {
        assert r[|r| - 1] in r;
      }
    }
  }

  /** Appending an element whose key no element has keeps the keys distinct. */
  lemma DistinctSnoc<T, K>(m: seq<T>, y: T, key: T -> K)
    requires DistinctBy(m, key)
    requires forall e :: e in m ==> key(e) != key(y)
    ensures DistinctBy(m + [y], key)
  {
    var o := m + [y];
    forall i, j | 0 <= i < j < |o| ensures key(o[i]) != key(o[j]) {
      if j == |m| {
        assert o[i] == m[i] && m[i] in m;
      } else {
        assert o[i] == m[i] && o[j] == m[j];
      }
    }
  }

  /** Sorting keeps keys that were distinct distinct. */
  lemma {:induction false} SortDistinct<T, K>(s: seq<T>, leq: (T, T) -> bool, key: T -> K)
    requires DistinctBy(s, key)
    ensures DistinctBy(Sort(s, leq), key)
  {
    if s != [] {
      var init := s[..|s| - 1];
      var x := s[|s| - 1];
      SortDistinct(init, leq, key);
      var r := Sort(init, leq);
      forall e | e in r ensures key(e) != key(x) {
        assert e in multiset(init);
        var k :| 0 <= k < |init| && init[k] == e;
        assert s[k] == e;
      }
      InsertDistinct(x, r, leq, key);
    }
  }
}
