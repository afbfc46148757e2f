// Shared vocabulary of the accounting model: optional values, results,
// nullable amounts, clamping, cent rounding and sums over sequences.

module Common {

  datatype Option<T> = None | Some(value: T)
  {
    function GetOr(default: T): T
    {
      if Some? then value else default
    }
  }

  datatype Result<T, E> = Ok(value: T) | Err(error: E)

  /** Python's `x or 0.0` for a nullable amount column. */
  function OrZero(x: Option<real>): real
  {
    if x.Some? then x.value else 0.0
  }

  function Abs(x: real): real
  {
    if x < 0.0 then -x else x
  }

  function Max(a: real, b: real): real
  {
    if a < b then b else a
  }

  /** `min(max(x, 0.0), 1.0)`: a fraction forced into the unit interval. */
  function Clamp01(x: real): (r: real)
    ensures 0.0 <= r <= 1.0
    ensures 0.0 <= x <= 1.0 ==> r == x
    ensures x < 0.0 ==> r == 0.0
    ensures 1.0 < x ==> r == 1.0
  {
    if x < 0.0 then 0.0 else if 1.0 < x then 1.0 else x
  }

  /**
   * Python's `round(x, 2)` on an exact value: the nearest whole cent, a tie
   * going to the even cent. Binary floating point is not modelled, so the
   * rest of the model only relies on the facts proved below.
   */
  function Round2(x: real): real
  {
    var c := x * 100.0;
    var f := c.Floor;
    var d := c - f as real;
    var n := if d < 0.5 then f
             else if 0.5 < d then f + 1
             else if f % 2 == 0 then f else f + 1;
    n as real / 100.0
  }

  /** An amount that already is a whole number of cents is not changed by rounding. */
  lemma Round2OfCents(n: int)
    ensures Round2(n as real / 100.0) == n as real / 100.0
  {
    var x := n as real / 100.0;
    assert x * 100.0 == n as real;
    assert (x * 100.0).Floor == n;
  }

  lemma Round2Idempotent(x: real)
    ensures Round2(Round2(x)) == Round2(x)
  {
    var c := x * 100.0;
    var f := c.Floor;
    var d := c - f as real;
    var n := if d < 0.5 then f
             else if 0.5 < d then f + 1
             else if f % 2 == 0 then f else f + 1;
    assert Round2(x) == n as real / 100.0;
    Round2OfCents(n);
  }

  /** Rounding moves an amount by at most half a cent. */
  lemma Round2Error(x: real)
    ensures Abs(Round2(x) - x) <= 0.005
  {
    var c := x * 100.0;
    var f := c.Floor;
    var d := c - f as real;
    assert 0.0 <= d < 1.0;
    var n := if d < 0.5 then f
             else if 0.5 < d then f + 1
             else if f % 2 == 0 then f else f + 1;
    assert Abs(n as real - c) <= 0.5;
    assert Round2(x) - x == (n as real - c) / 100.0;
  }

  lemma Round2Zero()
    ensures Round2(0.0) == 0.0
  {
    Round2OfCents(0);
  }

  /** The sum of `val` over a sequence, accumulated from the front as a loop does. */
  function SumBy<T>(s: seq<T>, val: T -> real): real
  {
    if s == [] then 0.0 else SumBy(s[..|s| - 1], val) + val(s[|s| - 1])
  }

  lemma {:induction false} SumByConcat<T>(a: seq<T>, b: seq<T>, val: T -> real)
    ensures SumBy(a + b, val) == SumBy(a, val) + SumBy(b, val)
  {
    if b == [] {
      assert a + b == a;
    } else {
      assert (a + b)[..|a + b| - 1] == a + b[..|b| - 1];
      SumByConcat(a, b[..|b| - 1], val);
    }
  }

  /** `[f(x) for x in s]` */
  function MapSeq<A, B>(s: seq<A>, f: A -> B): (r: seq<B>)
    ensures |r| == |s|
  {
    if s == [] then [] else MapSeq(s[..|s| - 1], f) + [f(s[|s| - 1])]
  }

  /** Each element of the image is the image of the element at the same place. */
  lemma {:induction false} MapSeqAt<A, B>(s: seq<A>, f: A -> B)
    ensures forall i :: 0 <= i < |s| ==> MapSeq(s, f)[i] == f(s[i])
  {
    if s != [] {
      MapSeqAt(s[..|s| - 1], f);
    }
  }

  /** A sequence holding the image of each element at its place is the image of the sequence. */
  lemma MapSeqOf<A, B>(s: seq<A>, r: seq<B>, f: A -> B)
    requires |r| == |s| && forall i :: 0 <= i < |s| ==> r[i] == f(s[i])
    ensures r == MapSeq(s, f)
  {
    MapSeqAt(s, f);
  }

  lemma MapSeqSnoc<A, B>(s: seq<A>, i: nat, f: A -> B)
    requires i < |s|
    ensures MapSeq(s[..i + 1], f) == MapSeq(s[..i], f) + [f(s[i])]
  {
    assert s[..i + 1][..i] == s[..i];
  }

  /** The elements of `s` that satisfy `keep`, in their order (a list comprehension with a condition). */
  function Filter<T>(s: seq<T>, keep: T -> bool): (r: seq<T>)
    ensures |r| <= |s|
    ensures forall i :: 0 <= i < |r| ==> keep(r[i])
  {
    if s == [] then []
    else Filter(s[..|s| - 1], keep) + (if keep(s[|s| - 1]) then [s[|s| - 1]] else [])
  }

  /** `a` is `b` with some elements left out and the rest kept in order. */
  predicate IsSubsequence<T(==)>(a: seq<T>, b: seq<T>)
  {
    if a == [] then true
    else if b == [] then false
    else if a[|a| - 1] == b[|b| - 1] then IsSubsequence(a[..|a| - 1], b[..|b| - 1])
    else IsSubsequence(a, b[..|b| - 1])
  }

  lemma {:induction false} FilterSubsequence<T>(s: seq<T>, keep: T -> bool)
    ensures IsSubsequence(Filter(s, keep), s)
  {
    if s != [] {
      var init := s[..|s| - 1];
      FilterSubsequence(init, keep);
      SubsequenceExtend(Filter(init, keep), init, s[|s| - 1]);
      assert init + [s[|s| - 1]] == s;
      var r := Filter(s, keep);
      if keep(s[|s| - 1]) {
        assert r[..|r| - 1] == Filter(init, keep);
      } else {
        assert r == Filter(init, keep);
      }
    }
  }

  /** A subsequence of `b` is a subsequence of `b` with one more element. */
  lemma {:induction false} SubsequenceRefl<T>(s: seq<T>)
    ensures IsSubsequence(s, s)
  {
    if s != [] {
      SubsequenceRefl(s[..|s| - 1]);
    }
  }

  lemma {:induction false} SubsequenceExtend<T>(a: seq<T>, b: seq<T>, x: T)
    requires IsSubsequence(a, b)
    ensures IsSubsequence(a, b + [x])
    decreases |b|, 1
  {
    assert (b + [x])[..|b|] == b;
    if a != [] && a[|a| - 1] == x {
      SubsequenceDropLast(a, b);
    }
  }

  lemma {:induction false} SubsequenceDropLast<T>(a: seq<T>, b: seq<T>)
    requires a != [] && IsSubsequence(a, b)
    ensures IsSubsequence(a[..|a| - 1], b)
    decreases |b|, 0
  {
    var init := b[..|b| - 1];
    assert init + [b[|b| - 1]] == b;
    if a[|a| - 1] == b[|b| - 1] {
      SubsequenceExtend(a[..|a| - 1], init, b[|b| - 1]);
    } else {
      SubsequenceDropLast(a, init);
      SubsequenceExtend(a[..|a| - 1], init, b[|b| - 1]);
    }
  }

  /** An element is kept exactly when it occurs in the input and satisfies the condition. */
  lemma {:induction false} FilterMembership<T>(s: seq<T>, keep: T -> bool, x: T)
    ensures x in Filter(s, keep) <==> x in s && keep(x)
  {
    if s != [] {
      FilterMembership(s[..|s| - 1], keep, x);
      assert s == s[..|s| - 1] + [s[|s| - 1]];
    }
  }

  lemma {:induction false} FilterAll<T>(s: seq<T>, keep: T -> bool)
    requires forall i :: 0 <= i < |s| ==> keep(s[i])
    ensures Filter(s, keep) == s
  {
    if s != [] {
      FilterAll(s[..|s| - 1], keep);
      assert s[..|s| - 1] + [s[|s| - 1]] == s;
    }
  }

  /** Filtering twice is filtering once by both conditions. */
  lemma {:induction false} FilterFilter<T>(s: seq<T>, p: T -> bool, q: T -> bool, pq: T -> bool)
    requires forall x :: pq(x) == (p(x) && q(x))
    ensures Filter(Filter(s, p), q) == Filter(s, pq)
  {
    if s != [] {
      var init := s[..|s| - 1];
      var x := s[|s| - 1];
      FilterFilter(init, p, q, pq);
      assert pq(x) == (p(x) && q(x));
      assert s[..|s| - 1] == init;
      if p(x) {
        var a := Filter(init, p) + [x];
        assert Filter(s, p) == a;
        assert a[..|a| - 1] == Filter(init, p);
        assert Filter(a, q) == Filter(Filter(init, p), q) + (if q(x) then [x] else []);
      } else {
        assert Filter(s, p) == Filter(init, p) + [];
        assert Filter(init, p) + [] == Filter(init, p);
      }
    }
  }

  /** Two conditions that agree on every element keep the same elements. */
  lemma {:induction false} FilterCongruent<T>(s: seq<T>, keep: T -> bool, keep': T -> bool)
    requires forall i :: 0 <= i < |s| ==> keep(s[i]) == keep'(s[i])
    ensures Filter(s, keep) == Filter(s, keep')
  {
    if s != [] {
      FilterCongruent(s[..|s| - 1], keep, keep');
    }
  }

  /** A sum of terms each no larger than the matching term of another sum is no larger. */
  lemma {:induction false} SumByMonotone<T>(s: seq<T>, f: T -> real, g: T -> real)
    requires forall i :: 0 <= i < |s| ==> f(s[i]) <= g(s[i])
    ensures SumBy(s, f) <= SumBy(s, g)
  {
    if s != [] {
      SumByMonotone(s[..|s| - 1], f, g);
    }
  }

  lemma {:induction false} SumByNonNegative<T>(s: seq<T>, f: T -> real)
    requires forall i :: 0 <= i < |s| ==> 0.0 <= f(s[i])
    ensures 0.0 <= SumBy(s, f)
  {
    if s != [] {
      SumByNonNegative(s[..|s| - 1], f);
    }
  }

  /** Summing differences is taking the difference of the sums. */
  lemma {:induction false} SumByDifference<T>(s: seq<T>, f: T -> real, g: T -> real, h: T -> real)
    requires forall i :: 0 <= i < |s| ==> h(s[i]) == f(s[i]) - g(s[i])
    ensures SumBy(s, h) == SumBy(s, f) - SumBy(s, g)
  {
    if s != [] {
      SumByDifference(s[..|s| - 1], f, g, h);
    }
  }

  lemma {:induction false} SumByZero<T>(s: seq<T>, f: T -> real)
    requires forall i :: 0 <= i < |s| ==> f(s[i]) == 0.0
    ensures SumBy(s, f) == 0.0
  {
    if s != [] {
      SumByZero(s[..|s| - 1], f);
    }
  }
  /** `val` on the elements that satisfy `keep`, nothing on the others. */
  function Masked<T>(keep: T -> bool, val: T -> real): T -> real
  {
    x => if keep(x) then val(x) else 0.0
  }

  /** Summing over the kept elements is summing the masked value over all of them. */
  lemma {:induction false} FilterSum<T>(s: seq<T>, keep: T -> bool, val: T -> real)
    ensures SumBy(Filter(s, keep), val) == SumBy(s, Masked(keep, val))
  {
    if s != [] {
      var init := s[..|s| - 1];
      var x := s[|s| - 1];
      FilterSum(init, keep, val);
      SumByConcat(Filter(init, keep), if keep(x) then [x] else [], val);
      assert [x][..0] == [];
    }
  }

  lemma {:induction false} SumByCongruent<T>(s: seq<T>, f: T -> real, g: T -> real)
    requires forall i :: 0 <= i < |s| ==> f(s[i]) == g(s[i])
    ensures SumBy(s, f) == SumBy(s, g)
  {
    if s != [] {
      SumByCongruent(s[..|s| - 1], f, g);
    }
  }
}
