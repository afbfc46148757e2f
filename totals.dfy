// Totals by (period, operation): the accumulator dictionaries of the ARCA
// reports, which add each row's amounts into the entry of its key, creating
// the entry on first sight (a Python dictionary remembers that order), and
// the ascending order on keys the reports sort by.

module Totals {
  import opened Common
  import opened Text
  import opened Grouping
  import opened Sorting

  /** (YM, tipo_operacion) */
  type Key = (string, string)

  /** The four money columns the reports add up. */
  datatype Sums = Sums(net: real, vat21: real, vat105: real, total: real)

  const NoSums: Sums := Sums(0.0, 0.0, 0.0, 0.0)

  function Plus(a: Sums, b: Sums): Sums
  {
    Sums(a.net + b.net, a.vat21 + b.vat21, a.vat105 + b.vat105, a.total + b.total)
  }

  /** The keys of the rows, each once, in the order they first occur. */
  function KeysInOrder<R, K(==,!new)>(rows: seq<R>, key: R -> K): (ks: seq<K>)
    ensures Distinct(ks)
    ensures forall k :: k in ks <==> k in MapSeq(rows, key)
  {
    if rows == [] then []
    else
      var ks := KeysInOrder(rows[..|rows| - 1], key);
      var k := key(rows[|rows| - 1]);
      assert MapSeq(rows, key) == MapSeq(rows[..|rows| - 1], key) + [k];
      if k in ks then ks else ks + [k]
  }

  function NetOf<R>(vals: R -> Sums): R -> real { r => vals(r).net }
  function Vat21Of<R>(vals: R -> Sums): R -> real { r => vals(r).vat21 }
  function Vat105Of<R>(vals: R -> Sums): R -> real { r => vals(r).vat105 }
  function TotalOf<R>(vals: R -> Sums): R -> real { r => vals(r).total }

  /** The sums of the rows whose key is `k`, column by column. */
  function GroupSums<R>(rows: seq<R>, key: R -> Key, vals: R -> Sums, k: Key): Sums
  {
    Sums(GroupSum(rows, key, NetOf(vals), k), GroupSum(rows, key, Vat21Of(vals), k),
         GroupSum(rows, key, Vat105Of(vals), k), GroupSum(rows, key, TotalOf(vals), k))
  }

  /** One more row adds its sums to its own group and to no other. */
  lemma GroupSumsSnoc<R>(rows: seq<R>, i: nat, key: R -> Key, vals: R -> Sums, k: Key)
    requires i < |rows|
    ensures GroupSums(rows[..i + 1], key, vals, k)
            == Plus(GroupSums(rows[..i], key, vals, k), if key(rows[i]) == k then vals(rows[i]) else NoSums)
  {
    assert rows[..i + 1][..i] == rows[..i];
  }

  lemma GroupSumsAbsent<R>(rows: seq<R>, key: R -> Key, vals: R -> Sums, k: Key)
    requires k !in MapSeq(rows, key)
    ensures GroupSums(rows, key, vals, k) == NoSums
  {
    MapSeqAt(rows, key);
    GroupSumAbsent(rows, key, NetOf(vals), k);
    GroupSumAbsent(rows, key, Vat21Of(vals), k);
    GroupSumAbsent(rows, key, Vat105Of(vals), k);
    GroupSumAbsent(rows, key, TotalOf(vals), k);
  }

  /** The accumulator after the first `i` rows. */
  ghost predicate Accumulated<R>(rows: seq<R>, i: nat, key: R -> Key, vals: R -> Sums, agg: map<Key, Sums>, order: seq<Key>)
    requires i <= |rows|
  {
    && order == KeysInOrder(rows[..i], key)
    && (forall k :: k in agg <==> k in order)
    && (forall k :: k in agg ==> agg[k] == GroupSums(rows[..i], key, vals, k))
  }

  lemma AccumulateStep<R>(rows: seq<R>, i: nat, key: R -> Key, vals: R -> Sums, agg: map<Key, Sums>, order: seq<Key>)
    requires i < |rows| && Accumulated(rows, i, key, vals, agg, order)
    ensures var k := key(rows[i]);
            var current := if k in agg then agg[k] else NoSums;
            Accumulated(rows, i + 1, key, vals, agg[k := Plus(current, vals(rows[i]))],
                        if k in agg then order else order + [k])
  {
    var k := key(rows[i]);
    var current := if k in agg then agg[k] else NoSums;
    OrderStep(rows, i, key, agg, order, Plus(current, vals(rows[i])));
    SumsStep(rows, i, key, vals, agg);
  }

  /** A key seen for the first time goes to the end of the order. */
  lemma OrderStep<R>(rows: seq<R>, i: nat, key: R -> Key, agg: map<Key, Sums>, order: seq<Key>, v: Sums)
    requires i < |rows| && order == KeysInOrder(rows[..i], key)
    requires forall k :: k in agg <==> k in order
    ensures var k := key(rows[i]);
            var order' := if k in agg then order else order + [k];
            order' == KeysInOrder(rows[..i + 1], key)
            && (forall k' :: k' in agg[k := v] <==> k' in order')
            && (k !in agg ==> k !in MapSeq(rows[..i], key))
  {
    assert rows[..i + 1][..i] == rows[..i];
  }

  /** Adding a row's sums to its key's entry keeps every entry the sums of its rows so far. */
  lemma SumsStep<R>(rows: seq<R>, i: nat, key: R -> Key, vals: R -> Sums, agg: map<Key, Sums>)
    requires i < |rows|
    requires forall k :: k in agg ==> agg[k] == GroupSums(rows[..i], key, vals, k)
    requires key(rows[i]) !in agg ==> key(rows[i]) !in MapSeq(rows[..i], key)
    ensures var k := key(rows[i]);
            var agg' := agg[k := Plus(if k in agg then agg[k] else NoSums, vals(rows[i]))];
            forall k' :: k' in agg' ==> agg'[k'] == GroupSums(rows[..i + 1], key, vals, k')
  {
    var k := key(rows[i]);
    forall k' ensures GroupSums(rows[..i + 1], key, vals, k')
                      == Plus(GroupSums(rows[..i], key, vals, k'), if k == k' then vals(rows[i]) else NoSums) {
      GroupSumsSnoc(rows, i, key, vals, k');
    }
    if k !in agg {
      GroupSumsAbsent(rows[..i], key, vals, k);
    }
  }

  /** The accumulating loop: one entry per key, created on first sight, holding its rows' sums. */
  method Accumulate<R>(rows: seq<R>, key: R -> Key, vals: R -> Sums) returns (agg: map<Key, Sums>, order: seq<Key>)
    ensures order == KeysInOrder(rows, key)
    ensures forall k :: k in agg <==> k in order
    ensures forall k :: k in agg ==> agg[k] == GroupSums(rows, key, vals, k)
  {
    agg := map[];
    order := [];
    for i := 0 to |rows|
      invariant Accumulated(rows, i, key, vals, agg, order)
    {
      var k := key(rows[i]);
      var current := if k in agg then agg[k] else NoSums;
      AccumulateStep(rows, i, key, vals, agg, order);
      if k !in agg {
        order := order + [k];
      }
      agg := agg[k := Plus(current, vals(rows[i]))];
    }
    assert rows[..|rows|] == rows;
  }

  /** Python's order on `(YM, tipo_operacion)` tuples. */
  predicate KeyLe(a: Key, b: Key)
  {
    StrLt(a.0, b.0) || (a.0 == b.0 && StrLe(a.1, b.1))
  }

  lemma KeyLeTotal(a: Key, b: Key)
    ensures KeyLe(a, b) || KeyLe(b, a)
  {
    StrLtTotal(a.0, b.0);
    StrLtTotal(a.1, b.1);
  }

  lemma KeyLeTransitive(a: Key, b: Key, c: Key)
    requires KeyLe(a, b) && KeyLe(b, c)
    ensures KeyLe(a, c)
  {
    if StrLt(a.0, b.0) && StrLt(b.0, c.0) {
      StrLtTransitive(a.0, b.0, c.0);
    }
    if a.0 == b.0 && b.0 == c.0 && StrLt(a.1, b.1) && StrLt(b.1, c.1) {
      StrLtTransitive(a.1, b.1, c.1);
    }
  }

  /** Two keys each ordered before the other are the same key. */
  lemma KeyLeAntisymmetric(a: Key, b: Key)
    requires KeyLe(a, b) && KeyLe(b, a)
    ensures a == b
  {
    if StrLt(a.0, b.0) {
      StrLtAsymmetric(a.0, b.0);
    } else if StrLt(a.1, b.1) {
      StrLtAsymmetric(a.1, b.1);
    }
  }

  lemma KeyLePreorder()
    ensures IsTotalPreorder(KeyLe)
  {
    forall a, b ensures KeyLe(a, b) || KeyLe(b, a) {
      KeyLeTotal(a, b);
    }
    forall a, b, c | KeyLe(a, b) && KeyLe(b, c) ensures KeyLe(a, c) {
      KeyLeTransitive(a, b, c);
    }
  }

  lemma StrLePreorder()
    ensures IsTotalPreorder(StrLe)
  {
    forall a, b ensures StrLe(a, b) || StrLe(b, a) {
      StrLtTotal(a, b);
    }
    forall a, b, c | StrLe(a, b) && StrLe(b, c) ensures StrLe(a, c) {
      if StrLt(a, b) && StrLt(b, c) {
        StrLtTransitive(a, b, c);
      }
    }
  }

  /** `sorted(agg)`: the distinct keys of the rows in ascending order. */
  function SortedKeys<R>(rows: seq<R>, key: R -> Key): seq<Key>
  {
    Sort(KeysInOrder(rows, key), KeyLe)
  }

  function Itself<K>(k: K): K
  {
    k
  }

  /**
   * Lines carrying the keys `ks`, strictly ascending and exactly the keys of
   * `all`, hold one line per key of `all`, in ascending order.
   */
  lemma LinesOnePerKey<T>(out: seq<T>, lineKey: T -> Key, ks: seq<Key>, all: seq<Key>)
    requires |out| == |ks| && forall i :: 0 <= i < |out| ==> lineKey(out[i]) == ks[i]
    requires forall k :: k in ks <==> k in all
    requires forall i, j :: 0 <= i < j < |ks| ==> KeyLe(ks[i], ks[j]) && ks[i] != ks[j]
    ensures forall i, j :: 0 <= i < j < |out| ==> KeyLe(lineKey(out[i]), lineKey(out[j])) && lineKey(out[i]) != lineKey(out[j])
    ensures forall i :: 0 <= i < |out| ==> lineKey(out[i]) in all
    ensures forall k :: k in all ==> exists i :: 0 <= i < |out| && lineKey(out[i]) == k
  {
    forall i | 0 <= i < |out| ensures lineKey(out[i]) in all {
      assert ks[i] in ks;
    }
    forall k | k in all ensures exists i :: 0 <= i < |out| && lineKey(out[i]) == k {
      var i :| 0 <= i < |ks| && ks[i] == k;
      assert lineKey(out[i]) == k;
    }
  }

  /**
   * The sorted keys are the keys of the rows, each exactly once, in strictly
   * ascending order.
   */
  lemma SortedKeysFacts<R>(rows: seq<R>, key: R -> Key)
    ensures var ks := SortedKeys(rows, key);
            && Distinct(ks)
            && (forall k :: k in ks <==> k in MapSeq(rows, key))
            && (forall i, j :: 0 <= i < j < |ks| ==> KeyLe(ks[i], ks[j]) && ks[i] != ks[j])
  {
    var ks := KeysInOrder(rows, key);
    var sorted := Sort(ks, KeyLe);
    KeyLePreorder();
    SortSorted(ks, KeyLe);
    assert DistinctBy(ks, Itself);
    SortDistinct(ks, KeyLe, Itself);
    forall k ensures k in sorted <==> k in ks {
      assert k in sorted <==> k in multiset(sorted);
      assert k in ks <==> k in multiset(ks);
    }
  }
}
