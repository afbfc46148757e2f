// Grouped sums, as the SQL `GROUP BY` queries and the dictionary
// accumulators of the application compute them, and the law that the group
// sums over a set of keys add up to the sum over the rows they group.

module Grouping {
  import opened Common

  /** The sum of `val` over the rows whose key is `k`. */
  function GroupSum<R, K(==)>(rows: seq<R>, key: R -> K, val: R -> real, k: K): real
  {
    if rows == [] then 0.0
    else GroupSum(rows[..|rows| - 1], key, val, k)
         + (if key(rows[|rows| - 1]) == k then val(rows[|rows| - 1]) else 0.0)
  }

  /** The sum of `val` over the rows whose key satisfies `q`. */
  function SumWhere<R, K>(rows: seq<R>, key: R -> K, val: R -> real, q: K -> bool): real
  {
    if rows == [] then 0.0
    else SumWhere(rows[..|rows| - 1], key, val, q)
         + (if q(key(rows[|rows| - 1])) then val(rows[|rows| - 1]) else 0.0)
  }

  /** The sum, over the keys of `ks` satisfying `q`, of their group sums. */
  function SumOverKeys<R, K(==)>(ks: seq<K>, rows: seq<R>, key: R -> K, val: R -> real, q: K -> bool): real
  {
    if ks == [] then 0.0
    else SumOverKeys(ks[..|ks| - 1], rows, key, val, q)
         + (if q(ks[|ks| - 1]) then GroupSum(rows, key, val, ks[|ks| - 1]) else 0.0)
  }

  predicate Distinct<K(==)>(ks: seq<K>)
  {
    forall i, j :: 0 <= i < j < |ks| ==> ks[i] != ks[j]
  }

  /** A key no row carries has an empty group. */
  lemma {:induction false} GroupSumAbsent<R, K>(rows: seq<R>, key: R -> K, val: R -> real, k: K)
    requires forall i :: 0 <= i < |rows| ==> key(rows[i]) != k
    ensures GroupSum(rows, key, val, k) == 0.0
  {
    if rows != [] {
      GroupSumAbsent(rows[..|rows| - 1], key, val, k);
    }
  }

  /** Group sums are additive in the summed column. */
  lemma {:induction false} GroupSumAdd<R, K>(rows: seq<R>, key: R -> K, f: R -> real, g: R -> real, h: R -> real, k: K)
    requires forall r :: h(r) == f(r) + g(r)
    ensures GroupSum(rows, key, h, k) == GroupSum(rows, key, f, k) + GroupSum(rows, key, g, k)
  {
    if rows != [] {
      GroupSumAdd(rows[..|rows| - 1], key, f, g, h, k);
    }
  }

  lemma {:induction false} SumOverKeysEmpty<R, K>(ks: seq<K>, key: R -> K, val: R -> real, q: K -> bool)
    ensures SumOverKeys(ks, [], key, val, q) == 0.0
  {
    if ks != [] {
      SumOverKeysEmpty(ks[..|ks| - 1], key, val, q);
    }
  }

  /** Appending one row adds its value to exactly the one group it belongs to. */
  lemma {:induction false} SumOverKeysSnoc<R, K>(ks: seq<K>, rows: seq<R>, r: R, key: R -> K, val: R -> real, q: K -> bool)
    requires Distinct(ks)
    ensures SumOverKeys(ks, rows + [r], key, val, q)
            == SumOverKeys(ks, rows, key, val, q) + (if key(r) in ks && q(key(r)) then val(r) else 0.0)
  {
    if ks != [] {
      var init := ks[..|ks| - 1];
      var k := ks[|ks| - 1];
      assert Distinct(init);
      SumOverKeysSnoc(init, rows, r, key, val, q);
      assert (rows + [r])[..|rows + [r]| - 1] == rows;
      assert key(r) in ks <==> key(r) in init || key(r) == k;
      assert key(r) == k ==> key(r) !in init;
    }
  }

  /**
   * When `ks` lists every key of the rows once, the group sums of the keys
   * satisfying `q` add up to the sum over the rows whose key satisfies `q`.
   */
  lemma {:induction false} Partition<R, K>(ks: seq<K>, rows: seq<R>, key: R -> K, val: R -> real, q: K -> bool)
    requires Distinct(ks)
    requires forall i :: 0 <= i < |rows| ==> key(rows[i]) in ks
    ensures SumOverKeys(ks, rows, key, val, q) == SumWhere(rows, key, val, q)
  {
    if rows == [] {
      SumOverKeysEmpty(ks, key, val, q);
    } else {
      var init := rows[..|rows| - 1];
      var r := rows[|rows| - 1];
      Partition(ks, init, key, val, q);
      SumOverKeysSnoc(ks, init, r, key, val, q);
      assert init + [r] == rows;
    }
  }

  function AnyKey<K>(k: K): bool
  {
    true
  }

  lemma {:induction false} SumWhereAll<R, K>(rows: seq<R>, key: R -> K, val: R -> real)
    ensures SumWhere(rows, key, val, AnyKey) == SumBy(rows, val)
  {
    if rows != [] {
      SumWhereAll(rows[..|rows| - 1], key, val);
    }
  }

  /** Summed group by group, the rows keep their grand total. */
  lemma GroupsConserveTotal<R, K>(ks: seq<K>, rows: seq<R>, key: R -> K, val: R -> real)
    requires Distinct(ks)
    requires forall i :: 0 <= i < |rows| ==> key(rows[i]) in ks
    ensures SumOverKeys(ks, rows, key, val, AnyKey) == SumBy(rows, val)
  {
    Partition(ks, rows, key, val, AnyKey);
    SumWhereAll(rows, key, val);
  }
  /** A value masked by "the key is `k`" sums to the group sum of `k`. */
  lemma {:induction false} MaskedGroupSum<R, K>(rows: seq<R>, key: R -> K, keep: R -> bool, val: R -> real, k: K)
    requires forall i :: 0 <= i < |rows| ==> keep(rows[i]) == (key(rows[i]) == k)
    ensures SumBy(rows, Masked(keep, val)) == GroupSum(rows, key, val, k)
  {
    if rows != [] {
      MaskedGroupSum(rows[..|rows| - 1], key, keep, val, k);
    }
  }

  /** Where every row has a key of its own, the group of a row's key is that row alone. */
  lemma {:induction false} GroupSumUnique<R, K>(rows: seq<R>, key: R -> K, val: R -> real, i: nat)
    requires i < |rows| && Distinct(MapSeq(rows, key))
    ensures GroupSum(rows, key, val, key(rows[i])) == val(rows[i])
  {
    var init := rows[..|rows| - 1];
    var x := rows[|rows| - 1];
    var ks := MapSeq(rows, key);
    assert ks == MapSeq(init, key) + [key(x)];
    MapSeqAt(init, key);
    assert forall j :: 0 <= j < |init| ==> key(init[j]) == ks[j];
    if i == |rows| - 1 {
      forall j | 0 <= j < |init| ensures key(init[j]) != key(x) {
        assert ks[j] != ks[|rows| - 1];
      }
      GroupSumAbsent(init, key, val, key(x));
    } else {
      assert key(x) != key(rows[i]) by {
        assert ks[|rows| - 1] != ks[i];
      }
      assert Distinct(MapSeq(init, key));
      GroupSumUnique(init, key, val, i);
    }
  }
  /** Keys none of which satisfies `q` contribute nothing. */
  lemma {:induction false} SumOverKeysNone<R, K>(ks: seq<K>, rows: seq<R>, key: R -> K, val: R -> real, q: K -> bool)
    requires forall m :: 0 <= m < |ks| ==> !q(ks[m])
    ensures SumOverKeys(ks, rows, key, val, q) == 0.0
  {
    if ks != [] {
      SumOverKeysNone(ks[..|ks| - 1], rows, key, val, q);
    }
  }

  /** A list with one line per key, each carrying its key's group sum, adds up to the group sums over the keys. */
  lemma {:induction false} SumOverKeysLines<R, K, T>(ks: seq<K>, lines: seq<T>, rows: seq<R>, key: R -> K, val: R -> real, lineVal: T -> real)
    requires |lines| == |ks|
    requires forall i :: 0 <= i < |ks| ==> lineVal(lines[i]) == GroupSum(rows, key, val, ks[i])
    ensures SumBy(lines, lineVal) == SumOverKeys(ks, rows, key, val, AnyKey)
  {
    if ks != [] {
      SumOverKeysLines(ks[..|ks| - 1], lines[..|lines| - 1], rows, key, val, lineVal);
    }
  }
}
