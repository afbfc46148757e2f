// The ARCA service: the same consolidation restricted to vouchers of type A
// or B, read from the two stores with optional date bounds and ordered by
// date, and its totals by (period, operation) with exact sums, where every
// line of a period carries that period's net VAT balance, sales less
// everything else.

module ArcaService {
  import opened Common
  import opened Text
  import opened Period
  import opened Grouping
  import opened Sorting
  import opened Totals

  /** The voucher types ARCA reports. */
  const AllowedTypes: seq<string> := ["A", "B"]

  /** `tipo IN ('A', 'B')`: exact and case-sensitive, and a missing type is not in it. */
  predicate Allowed(kind: Option<string>)
  {
    kind.Some? && kind.value in AllowedTypes
  }

  /** The allowed types are exactly A and B. */
  lemma AllowedIsAOrB(kind: Option<string>)
    ensures Allowed(kind) <==> kind == Some("A") || kind == Some("B")
  {
    assert AllowedTypes[0] == "A" && AllowedTypes[1] == "B";
  }

  /** `normalize_tipo`: stripped and upper-cased, blank as missing. */
  function NormalizeTipo(value: Option<string>): Option<string>
  {
    match value
    case None => None
    case Some(s) =>
      var v := Upper(Strip(s));
      if v == [] then None else Some(v)
  }

  /**
   * A missing type stays missing, a blank one becomes missing, any other is
   * stripped and upper-cased, and normalising twice is normalising once.
   */
  lemma NormalizeTipoFacts(value: Option<string>)
    ensures value.None? ==> NormalizeTipo(value).None?
    ensures value.Some? && Strip(value.value) == [] ==> NormalizeTipo(value).None?
    ensures value.Some? && Strip(value.value) != [] ==> NormalizeTipo(value) == Some(Upper(Strip(value.value)))
    ensures NormalizeTipo(NormalizeTipo(value)) == NormalizeTipo(value)
  {
    if value.Some? {
      var s := Strip(value.value);
      StripIdempotent(value.value);
      StripUpperOfStripped(s);
      UpperIdempotent(s);
    }
  }

  /** The `fecha` of a row: a date, or text when a caller hands one in. */
  datatype When = OnDate(d: Date) | AsText(s: string)

  /** `_ym`: `strftime('%Y-%m')` of a date, the first seven characters of text. */
  function Ym(w: When): string
  {
    match w
    case OnDate(d) => YmFromDate(d)
    case AsText(s) => Prefix(s, 7)
  }

  /**
   * The period of a date is `YYYY-MM`; the period of a date written in ISO
   * form is the period of the date itself.
   */
  lemma YmFacts(d: Date)
    requires ValidDate(d)
    ensures |Ym(OnDate(d))| == 7 && Ym(OnDate(d))[4] == '-'
    ensures Ym(AsText(DateIso(d))) == Ym(OnDate(d))
  {
    YmFromDateShape(d);
    IsoPrefixIsYm(d);
  }

  /** A purchase or a sale as the two queries select it. */
  datatype Voucher = Voucher(
    date: Date,
    kind: Option<string>,
    invoice: Option<string>,
    taxId: Option<string>,
    party: Option<string>,
    net: Option<real>,
    vat21: Option<real>,
    vat105: Option<real>,
    total: Option<real>,
    status: Option<string>,
    place: Option<string>,
    partnerName: Option<string>)

  /** A row of the union: the literal operation and the voucher. */
  datatype QueryRow = QueryRow(op: string, v: Voucher)

  /** The service's `ArcaRow`. */
  datatype ServiceRow = ServiceRow(
    op: string,
    date: When,
    voucher: Option<string>,
    invoice: Option<string>,
    taxId: Option<string>,
    name: Option<string>,
    net: real,
    vat21: real,
    vat105: real,
    total: real,
    status: Option<string>,
    place: Option<string>,
    partnerName: Option<string>)

  /** SQL order on dates. */
  predicate DateLe(a: Date, b: Date)
  {
    a.year < b.year || (a.year == b.year && (a.month < b.month || (a.month == b.month && a.day <= b.day)))
  }

  predicate QueryDateLe(a: QueryRow, b: QueryRow)
  {
    DateLe(a.v.date, b.v.date)
  }

  /** Of type A or B, and within the bounds given. */
  predicate Selected(v: Voucher, from: Option<Date>, to: Option<Date>)
  {
    Allowed(v.kind) && (from.None? || DateLe(from.value, v.date)) && (to.None? || DateLe(v.date, to.value))
  }

  function SelectedFn(from: Option<Date>, to: Option<Date>): Voucher -> bool
  {
    v => Selected(v, from, to)
  }

  function TagFn(op: string): Voucher -> QueryRow
  {
    v => QueryRow(op, v)
  }

  /** `_query_resumen_compra` / `_query_resumen_venta` */
  function Query(op: string, vs: seq<Voucher>, from: Option<Date>, to: Option<Date>): seq<QueryRow>
  {
    MapSeq(Filter(vs, SelectedFn(from, to)), TagFn(op))
  }

  /** `UNION ALL` of both queries `ORDER BY fecha`; rows of the same date keep purchases first. */
  function UnionByDate(cs: seq<Voucher>, vs: seq<Voucher>, from: Option<Date>, to: Option<Date>): seq<QueryRow>
  {
    Sort(Query(Compra, cs, from, to) + Query(Venta, vs, from, to), QueryDateLe)
  }

  const Compra: string := "COMPRA"
  const Venta: string := "VENTA"

  /** One row of the result, a missing amount as zero. */
  function ToServiceRow(q: QueryRow): ServiceRow
  {
    var v := q.v;
    ServiceRow(q.op, OnDate(v.date), v.kind, v.invoice, v.taxId, v.party,
               OrZero(v.net), OrZero(v.vat21), OrZero(v.vat105), OrZero(v.total),
               v.status, v.place, v.partnerName)
  }

  function ResumenSpec(cs: seq<Voucher>, vs: seq<Voucher>, from: Option<Date>, to: Option<Date>): seq<ServiceRow>
  {
    MapSeq(UnionByDate(cs, vs, from, to), ToServiceRow)
  }

  /** `get_resumen_arca`: one row per row of the ordered union. */
  method GetResumenArca(cs: seq<Voucher>, vs: seq<Voucher>, from: Option<Date>, to: Option<Date>) returns (out: seq<ServiceRow>)
    ensures out == ResumenSpec(cs, vs, from, to)
  {
    var rows := UnionByDate(cs, vs, from, to);
    out := [];
    for i := 0 to |rows|
      invariant out == MapSeq(rows[..i], ToServiceRow)
    {
      MapSeqSnoc(rows, i, ToServiceRow);
      out := out + [ToServiceRow(rows[i])];
    }
    assert rows[..|rows|] == rows;
  }

  lemma DateLePreorder()
    ensures IsTotalPreorder(QueryDateLe)
  {
  }

  lemma {:induction false} TagMembers(op: string, vs: seq<Voucher>, q: QueryRow)
    ensures q in MapSeq(vs, TagFn(op)) <==> q.op == op && q.v in vs
  {
    if vs != [] {
      TagMembers(op, vs[..|vs| - 1], q);
      assert vs == vs[..|vs| - 1] + [vs[|vs| - 1]];
    }
  }

  /** A row is in the union exactly when it tags a selected voucher of its own store. */
  lemma UnionMembers(cs: seq<Voucher>, vs: seq<Voucher>, from: Option<Date>, to: Option<Date>, q: QueryRow)
    ensures q in UnionByDate(cs, vs, from, to) <==>
            Selected(q.v, from, to) && ((q.op == Compra && q.v in cs) || (q.op == Venta && q.v in vs))
  {
    var both := Query(Compra, cs, from, to) + Query(Venta, vs, from, to);
    assert q in UnionByDate(cs, vs, from, to) <==> q in multiset(UnionByDate(cs, vs, from, to));
    assert q in both <==> q in multiset(both);
    TagMembers(Compra, Filter(cs, SelectedFn(from, to)), q);
    TagMembers(Venta, Filter(vs, SelectedFn(from, to)), q);
    FilterMembership(cs, SelectedFn(from, to), q.v);
    FilterMembership(vs, SelectedFn(from, to), q.v);
  }

  /** The union is ordered by date. */
  lemma UnionSorted(cs: seq<Voucher>, vs: seq<Voucher>, from: Option<Date>, to: Option<Date>)
    ensures SortedBy(UnionByDate(cs, vs, from, to), QueryDateLe)
  {
    DateLePreorder();
    SortSorted(Query(Compra, cs, from, to) + Query(Venta, vs, from, to), QueryDateLe);
  }

  /**
   * Row `i` of the result comes from a selected voucher of its store: its
   * type is A or B, its date within the bounds, and each missing amount is
   * zero while each present one is kept.
   */
  lemma ResumenRowFacts(cs: seq<Voucher>, vs: seq<Voucher>, from: Option<Date>, to: Option<Date>, i: nat)
    requires i < |ResumenSpec(cs, vs, from, to)|
    ensures var q := UnionByDate(cs, vs, from, to)[i];
            var r := ResumenSpec(cs, vs, from, to)[i];
            && ((r.op == Compra && q.v in cs) || (r.op == Venta && q.v in vs))
            && (r.voucher == Some("A") || r.voucher == Some("B"))
            && r.date == OnDate(q.v.date)
            && (from.Some? ==> DateLe(from.value, q.v.date))
            && (to.Some? ==> DateLe(q.v.date, to.value))
            && r.net == (if q.v.net.Some? then q.v.net.value else 0.0)
            && r.vat21 == (if q.v.vat21.Some? then q.v.vat21.value else 0.0)
            && r.vat105 == (if q.v.vat105.Some? then q.v.vat105.value else 0.0)
            && r.total == (if q.v.total.Some? then q.v.total.value else 0.0)
  {
    var rows := UnionByDate(cs, vs, from, to);
    MapSeqAt(rows, ToServiceRow);
    UnionMembers(cs, vs, from, to, rows[i]);
    AllowedIsAOrB(rows[i].v.kind);
  }

  // ----- compute_totales_arca -----

  function ServiceKey(r: ServiceRow): Key
  {
    (Ym(r.date), r.op)
  }

  function ServiceSums(r: ServiceRow): Sums
  {
    Sums(r.net, r.vat21, r.vat105, r.total)
  }

  function RowVat(r: ServiceRow): real
  {
    r.vat21 + r.vat105
  }

  function KeyYm(k: Key): string
  {
    k.0
  }

  /** `tipo_op.upper() == 'VENTA'` */
  predicate IsSaleOp(op: string)
  {
    Upper(op) == Venta
  }

  /** The keys of period `y` on the sales side (`sale`) or on the other side. */
  function SideOf(y: string, sale: bool): Key -> bool
  {
    (k: Key) => k.0 == y && IsSaleOp(k.1) == sale
  }

  /**
   * The technical VAT balance of a period: the VAT of its sale rows less the
   * VAT of all its other rows.
   */
  function YmSaldo(rows: seq<ServiceRow>, y: string): real
  {
    SumWhere(rows, ServiceKey, RowVat, SideOf(y, true)) - SumWhere(rows, ServiceKey, RowVat, SideOf(y, false))
  }

  /** One line of the totals, its balance still to be filled in (`None`) or filled in. */
  datatype ServiceTotals = ServiceTotals(ym: string, op: string, net: real, vat21: real, vat105: real, total: real, saldo: Option<real>)

  function PendingLine(k: Key, s: Sums): ServiceTotals
  {
    ServiceTotals(k.0, k.1, s.net, s.vat21, s.vat105, s.total, None)
  }

  /** The line of key `k`, its balance not yet filled in. */
  function Pending(rows: seq<ServiceRow>, k: Key): ServiceTotals
  {
    PendingLine(k, GroupSums(rows, ServiceKey, ServiceSums, k))
  }

  /** The line of key `k` with the balance of its period. */
  function Line(rows: seq<ServiceRow>, k: Key): ServiceTotals
  {
    Pending(rows, k).(saldo := Some(YmSaldo(rows, k.0)))
  }

  function PendingFn(rows: seq<ServiceRow>): Key -> ServiceTotals
  {
    k => Pending(rows, k)
  }

  function LineFn(rows: seq<ServiceRow>): Key -> ServiceTotals
  {
    k => Line(rows, k)
  }

  /** The totals: one line per key in ascending key order, each with the balance of its period. */
  function ComputeSpec(rows: seq<ServiceRow>): seq<ServiceTotals>
  {
    MapSeq(SortedKeys(rows, ServiceKey), LineFn(rows))
  }

  /** `by_ym[ym]`: the VAT added on the sales side and on the other side. */
  datatype Sides = Sides(sale: real, purchase: real)

  /** `by_ym[ym]['venta'] - by_ym[ym]['compra']` */
  function Balance(s: Sides): real
  {
    s.sale - s.purchase
  }

  function AddSide(s: Sides, op: string, vat: real): Sides
  {
    if IsSaleOp(op) then Sides(s.sale + vat, s.purchase) else Sides(s.sale, s.purchase + vat)
  }

  /** `by_ym` after the first `i` keys: each period seen, with the VAT of its keys on each side. */
  ghost predicate SidesAfter(rows: seq<ServiceRow>, ks: seq<Key>, i: nat, byYm: map<string, Sides>)
    requires i <= |ks|
  {
    SidesSeen(ks, i, byYm) && SidesSummed(rows, ks, i, byYm)
  }

  /** The periods in `by_ym` are those of the first `i` keys. */
  ghost predicate SidesSeen(ks: seq<Key>, i: nat, byYm: map<string, Sides>)
    requires i <= |ks|
  {
    forall y :: y in byYm <==> y in MapSeq(ks[..i], KeyYm)
  }

  /** Each period's sides hold the VAT of the first `i` keys on that side. */
  ghost predicate SidesSummed(rows: seq<ServiceRow>, ks: seq<Key>, i: nat, byYm: map<string, Sides>)
    requires i <= |ks|
  {
    forall y :: y in byYm ==>
      byYm[y] == Sides(SumOverKeys(ks[..i], rows, ServiceKey, RowVat, SideOf(y, true)),
                       SumOverKeys(ks[..i], rows, ServiceKey, RowVat, SideOf(y, false)))
  }

  /** The VAT of a group is the sum of its two VAT columns. */
  lemma GroupVat(rows: seq<ServiceRow>, k: Key)
    ensures var s := GroupSums(rows, ServiceKey, ServiceSums, k);
            GroupSum(rows, ServiceKey, RowVat, k) == s.vat21 + s.vat105
  {
    forall r ensures RowVat(r) == Vat21Of(ServiceSums)(r) + Vat105Of(ServiceSums)(r) {
      assert Vat21Of(ServiceSums)(r) == ServiceSums(r).vat21;
      assert Vat105Of(ServiceSums)(r) == ServiceSums(r).vat105;
    }
    GroupSumAdd(rows, ServiceKey, Vat21Of(ServiceSums), Vat105Of(ServiceSums), RowVat, k);
  }

  lemma SidesStep(rows: seq<ServiceRow>, ks: seq<Key>, i: nat, byYm: map<string, Sides>, k: Key, s: Sums, current: Sides)
    requires i < |ks| && SidesAfter(rows, ks, i, byYm)
    requires k == ks[i] && s == GroupSums(rows, ServiceKey, ServiceSums, k)
    requires current == if k.0 in byYm then byYm[k.0] else Sides(0.0, 0.0)
    ensures SidesAfter(rows, ks, i + 1, byYm[k.0 := AddSide(current, k.1, s.vat21 + s.vat105)])
  {
    var v := AddSide(current, k.1, s.vat21 + s.vat105);
    SeenStep(ks, i, byYm, v);
    if k.0 !in byYm {
      NewPeriod(rows, ks, i, byYm);
    }
    GroupVat(rows, k);
    SummedStep(rows, ks, i, byYm, current, GroupSum(rows, ServiceKey, RowVat, k));
  }

  lemma SeenStep(ks: seq<Key>, i: nat, byYm: map<string, Sides>, v: Sides)
    requires i < |ks| && SidesSeen(ks, i, byYm)
    ensures SidesSeen(ks, i + 1, byYm[ks[i].0 := v])
  {
    MapSeqSnoc(ks, i, KeyYm);
  }

  /** A period not seen yet has nothing on either side. */
  lemma NewPeriod(rows: seq<ServiceRow>, ks: seq<Key>, i: nat, byYm: map<string, Sides>)
    requires i < |ks| && SidesSeen(ks, i, byYm) && ks[i].0 !in byYm
    ensures SumOverKeys(ks[..i], rows, ServiceKey, RowVat, SideOf(ks[i].0, true)) == 0.0
    ensures SumOverKeys(ks[..i], rows, ServiceKey, RowVat, SideOf(ks[i].0, false)) == 0.0
  {
    MapSeqAt(ks[..i], KeyYm);
    SumOverKeysNone(ks[..i], rows, ServiceKey, RowVat, SideOf(ks[i].0, true));
    SumOverKeysNone(ks[..i], rows, ServiceKey, RowVat, SideOf(ks[i].0, false));
  }

  lemma SummedStep(rows: seq<ServiceRow>, ks: seq<Key>, i: nat, byYm: map<string, Sides>, current: Sides, vat: real)
    requires i < |ks| && SidesSummed(rows, ks, i, byYm)
    requires current == Sides(SumOverKeys(ks[..i], rows, ServiceKey, RowVat, SideOf(ks[i].0, true)),
                              SumOverKeys(ks[..i], rows, ServiceKey, RowVat, SideOf(ks[i].0, false)))
    requires vat == GroupSum(rows, ServiceKey, RowVat, ks[i])
    ensures SidesSummed(rows, ks, i + 1, byYm[ks[i].0 := AddSide(current, ks[i].1, vat)])
  {
    assert ks[..i + 1][..i] == ks[..i];
  }

  /** After all of the distinct keys of the rows, each period's sides are sums over its rows. */
  lemma SidesDone(rows: seq<ServiceRow>, ks: seq<Key>, byYm: map<string, Sides>, y: string)
    requires ks == SortedKeys(rows, ServiceKey)
    requires SidesAfter(rows, ks, |ks|, byYm)
    requires y in byYm
    ensures Balance(byYm[y]) == YmSaldo(rows, y)
  {
    assert ks[..|ks|] == ks;
    SortedKeysFacts(rows, ServiceKey);
    MapSeqAt(rows, ServiceKey);
    Partition(ks, rows, ServiceKey, RowVat, SideOf(y, true));
    Partition(ks, rows, ServiceKey, RowVat, SideOf(y, false));
  }

  lemma SortedOrder(rows: seq<ServiceRow>, order: seq<Key>)
    requires order == KeysInOrder(rows, ServiceKey)
    ensures Sort(order, KeyLe) == SortedKeys(rows, ServiceKey)
  {
  }

  /**
   * `compute_totales_arca`: accumulate the exact sums by key, list the keys
   * in ascending order while adding each group's VAT to its period's side,
   * then write each period's balance into all of its lines.
   */
  method ComputeTotalesArca(rows: seq<ServiceRow>) returns (out: seq<ServiceTotals>)
    ensures out == ComputeSpec(rows)
  {
    var agg, order := Accumulate(rows, ServiceKey, ServiceSums);
    var items := Sort(order, KeyLe);
    SortedOrder(rows, order);
    SortedKeysFacts(rows, ServiceKey);
    var byYm;
    out, byYm := CollectLines(rows, agg, items);
    out := FillBalances(rows, items, out, byYm);
  }

  /** The first loop: one line per key with its sums and no balance yet, and each group's VAT added to its period. */
  method CollectLines(rows: seq<ServiceRow>, agg: map<Key, Sums>, items: seq<Key>)
    returns (out: seq<ServiceTotals>, byYm: map<string, Sides>)
    requires forall k :: k in items ==> k in agg && agg[k] == GroupSums(rows, ServiceKey, ServiceSums, k)
    ensures out == MapSeq(items, PendingFn(rows))
    ensures SidesAfter(rows, items, |items|, byYm)
  {
    byYm := map[];
    out := [];
    for i := 0 to |items|
      invariant out == MapSeq(items[..i], PendingFn(rows))
      invariant SidesAfter(rows, items, i, byYm)
    {
      var k := items[i];
      var vals := agg[k];
      MapSeqSnoc(items, i, PendingFn(rows));
      out := out + [PendingLine(k, vals)];
      var current := if k.0 in byYm then byYm[k.0] else Sides(0.0, 0.0);
      SidesStep(rows, items, i, byYm, k, vals, current);
      byYm := byYm[k.0 := AddSide(current, k.1, vals.vat21 + vals.vat105)];
    }
    assert items[..|items|] == items;
  }

  /** The second loop: every line gets its period's sales side less its other side. */
  method FillBalances(rows: seq<ServiceRow>, items: seq<Key>, lines: seq<ServiceTotals>, byYm: map<string, Sides>)
    returns (out: seq<ServiceTotals>)
    requires items == SortedKeys(rows, ServiceKey)
    requires lines == MapSeq(items, PendingFn(rows))
    requires SidesAfter(rows, items, |items|, byYm)
    ensures out == ComputeSpec(rows)
  {
    ghost var target := MapSeq(items, LineFn(rows));
    out := lines;
    for j := 0 to |out|
      invariant |out| == |items|
      invariant forall m :: 0 <= m < j ==> out[m] == target[m]
      invariant forall m :: j <= m < |out| ==> out[m] == lines[m]
    {
      FillStep(rows, items, lines, byYm, j);
      var y := out[j].ym;
      var saldo := Balance(byYm[y]);
      out := out[j := out[j].(saldo := Some(saldo))];
    }
    SpecIsSorted(rows, items);
  }

  lemma SpecIsSorted(rows: seq<ServiceRow>, items: seq<Key>)
    requires items == SortedKeys(rows, ServiceKey)
    ensures ComputeSpec(rows) == MapSeq(items, LineFn(rows))
  {
  }

  /** Line `j` with its period's sides filled in is line `j` of the totals. */
  lemma FillStep(rows: seq<ServiceRow>, items: seq<Key>, lines: seq<ServiceTotals>, byYm: map<string, Sides>, j: nat)
    requires items == SortedKeys(rows, ServiceKey) && j < |items|
    requires lines == MapSeq(items, PendingFn(rows))
    requires SidesAfter(rows, items, |items|, byYm)
    ensures var y := lines[j].ym;
            y in byYm && lines[j].(saldo := Some(Balance(byYm[y]))) == MapSeq(items, LineFn(rows))[j]
  {
    var k := items[j];
    assert lines[j] == Pending(rows, k) by {
      MapSeqAt(items, PendingFn(rows));
    }
    assert MapSeq(items, LineFn(rows))[j] == Line(rows, k) by {
      MapSeqAt(items, LineFn(rows));
    }
    BalanceFill(rows, items, byYm, j);
    Filled(rows, k, Balance(byYm[k.0]));
  }

  /** Filling in the balance of its period completes a line. */
  lemma Filled(rows: seq<ServiceRow>, k: Key, saldo: real)
    requires saldo == YmSaldo(rows, k.0)
    ensures Pending(rows, k).(saldo := Some(saldo)) == Line(rows, k)
  {
  }

  /** Line `j`'s period has been seen, and its sides give that period's balance. */
  lemma BalanceFill(rows: seq<ServiceRow>, items: seq<Key>, byYm: map<string, Sides>, j: nat)
    requires items == SortedKeys(rows, ServiceKey) && j < |items|
    requires SidesAfter(rows, items, |items|, byYm)
    ensures var y := items[j].0;
            y in byYm && Balance(byYm[y]) == YmSaldo(rows, y)
  {
    YmSeen(rows, items, byYm, j);
    SidesDone(rows, items, byYm, items[j].0);
  }

  lemma YmSeen(rows: seq<ServiceRow>, ks: seq<Key>, byYm: map<string, Sides>, j: nat)
    requires j < |ks| && SidesAfter(rows, ks, |ks|, byYm)
    ensures ks[j].0 in byYm
  {
    assert ks[..|ks|] == ks;
    MapSeqAt(ks, KeyYm);
    assert MapSeq(ks, KeyYm)[j] == ks[j].0;
  }

  /** `get_totales_arca` */
  method GetTotalesArca(cs: seq<Voucher>, vs: seq<Voucher>, from: Option<Date>, to: Option<Date>) returns (out: seq<ServiceTotals>)
    ensures out == ComputeSpec(ResumenSpec(cs, vs, from, to))
  {
    var rows := GetResumenArca(cs, vs, from, to);
    out := ComputeTotalesArca(rows);
  }

  function LineKey(t: ServiceTotals): Key
  {
    (t.ym, t.op)
  }

  /** Line `i` is the line of the `i`-th sorted key. */
  lemma ComputeLineAt(rows: seq<ServiceRow>, i: nat)
    requires i < |ComputeSpec(rows)|
    ensures ComputeSpec(rows)[i] == LineFn(rows)(SortedKeys(rows, ServiceKey)[i])
  {
    MapSeqAt(SortedKeys(rows, ServiceKey), LineFn(rows));
  }

  /**
   * Each line holds the exact sums of its group's rows and the balance of
   * its period, so all lines of a period carry the same balance.
   */
  lemma ComputeLineFacts(rows: seq<ServiceRow>, i: nat, j: nat)
    requires i < |ComputeSpec(rows)| && j < |ComputeSpec(rows)|
    ensures var t := ComputeSpec(rows)[i];
            var s := GroupSums(rows, ServiceKey, ServiceSums, LineKey(t));
            && t.net == s.net && t.vat21 == s.vat21 && t.vat105 == s.vat105 && t.total == s.total
            && t.saldo == Some(YmSaldo(rows, t.ym))
            && (ComputeSpec(rows)[j].ym == t.ym ==> ComputeSpec(rows)[j].saldo == t.saldo)
  {
    ComputeLineAt(rows, i);
    ComputeLineAt(rows, j);
  }

  /**
   * One line per distinct (period, operation) of the rows, in strictly
   * ascending key order.
   */
  lemma ComputeOnePerKey(rows: seq<ServiceRow>)
    ensures var out := ComputeSpec(rows);
            && (forall i, j :: 0 <= i < j < |out| ==> KeyLe(LineKey(out[i]), LineKey(out[j])) && LineKey(out[i]) != LineKey(out[j]))
            && (forall k :: k in MapSeq(rows, ServiceKey) <==> exists i :: 0 <= i < |out| && LineKey(out[i]) == k)
  {
    ComputeKeyAt(rows);
    SortedKeysFacts(rows, ServiceKey);
    LinesOnePerKey(ComputeSpec(rows), LineKey, SortedKeys(rows, ServiceKey), MapSeq(rows, ServiceKey));
  }

  /** Line `i` of the totals carries the `i`-th sorted key. */
  lemma ComputeKeyAt(rows: seq<ServiceRow>)
    ensures var out := ComputeSpec(rows);
            var ks := SortedKeys(rows, ServiceKey);
            |out| == |ks| && forall i :: 0 <= i < |out| ==> LineKey(out[i]) == ks[i]
  {
    var out := ComputeSpec(rows);
    forall i | 0 <= i < |out| ensures LineKey(out[i]) == SortedKeys(rows, ServiceKey)[i] {
      ComputeLineAt(rows, i);
    }
  }

  function LineNet(t: ServiceTotals): real { t.net }
  function LineVat21(t: ServiceTotals): real { t.vat21 }
  function LineVat105(t: ServiceTotals): real { t.vat105 }
  function LineTotal(t: ServiceTotals): real { t.total }

  /** A column of the lines adds up to the same column over all the rows. */
  lemma ConserveColumn(rows: seq<ServiceRow>, lineVal: ServiceTotals -> real, val: ServiceRow -> real)
    requires forall k :: lineVal(LineFn(rows)(k)) == GroupSum(rows, ServiceKey, val, k)
    ensures SumBy(ComputeSpec(rows), lineVal) == SumBy(rows, val)
  {
    var ks := SortedKeys(rows, ServiceKey);
    SortedKeysFacts(rows, ServiceKey);
    MapSeqAt(ks, LineFn(rows));
    MapSeqAt(rows, ServiceKey);
    SumOverKeysLines(ks, ComputeSpec(rows), rows, ServiceKey, val, lineVal);
    GroupsConserveTotal(ks, rows, ServiceKey, val);
  }

  /** Each of the four amounts adds up, over the lines, to its sum over the rows. */
  lemma ComputeConserves(rows: seq<ServiceRow>)
    ensures SumBy(ComputeSpec(rows), LineNet) == SumBy(rows, NetOf(ServiceSums))
    ensures SumBy(ComputeSpec(rows), LineVat21) == SumBy(rows, Vat21Of(ServiceSums))
    ensures SumBy(ComputeSpec(rows), LineVat105) == SumBy(rows, Vat105Of(ServiceSums))
    ensures SumBy(ComputeSpec(rows), LineTotal) == SumBy(rows, TotalOf(ServiceSums))
  {
    ConserveColumn(rows, LineNet, NetOf(ServiceSums));
    ConserveColumn(rows, LineVat21, Vat21Of(ServiceSums));
    ConserveColumn(rows, LineVat105, Vat105Of(ServiceSums));
    ConserveColumn(rows, LineTotal, TotalOf(ServiceSums));
  }

  /** A row dated `d` with the given operation and VAT amounts, as the filter test builds them. */
  function VatRow(op: string, d: Date, vat21: real, vat105: real): ServiceRow
  {
    ServiceRow(op, OnDate(d), None, None, None, None, 0.0, vat21, vat105, 0.0, None, None, None)
  }

  lemma SumWhereThree<R, K>(a: R, b: R, c: R, key: R -> K, val: R -> real, q: K -> bool)
    ensures SumWhere([a, b, c], key, val, q)
            == (if q(key(a)) then val(a) else 0.0) + (if q(key(b)) then val(b) else 0.0) + (if q(key(c)) then val(c) else 0.0)
  {
    assert [a, b, c][..2] == [a, b] && [a, b][..1] == [a] && [a][..0] == [];
    assert SumWhere([a], key, val, q) == if q(key(a)) then val(a) else 0.0;
    assert SumWhere([a, b], key, val, q) == SumWhere([a], key, val, q) + if q(key(b)) then val(b) else 0.0;
  }

  lemma SaleOps()
    ensures IsSaleOp(Venta) && !IsSaleOp(Compra)
  {
    assert Upper(Venta) == Venta;
    assert Upper(Compra)[0] == 'C' && Venta[0] == 'V';
  }

  /**
   * Two sales and a purchase of one month (in the filter test, July 2025
   * with VAT 21 at 21%, 21 at 10.5% and 10 on the purchase, so 32): the
   * month's balance is the sales' VAT less the purchase's.
   */
  lemma {:induction false} MonthBalance(d1: Date, d2: Date, d3: Date, x: real, y: real, z: real)
    requires d1.year == d2.year == d3.year && d1.month == d2.month == d3.month
    ensures YmSaldo([VatRow(Venta, d1, x, 0.0), VatRow(Venta, d2, 0.0, y), VatRow(Compra, d3, z, 0.0)],
                    YmFromDate(d1)) == x + y - z
  {
    var ym := YmFromDate(d1);
    var a, b, c := VatRow(Venta, d1, x, 0.0), VatRow(Venta, d2, 0.0, y), VatRow(Compra, d3, z, 0.0);
    assert ServiceKey(a) == (ym, Venta) && ServiceKey(b) == (ym, Venta) && ServiceKey(c) == (ym, Compra);
    SaleOps();
    SumWhereThree(a, b, c, ServiceKey, RowVat, SideOf(ym, true));
    SumWhereThree(a, b, c, ServiceKey, RowVat, SideOf(ym, false));
  }

  /** The filter test's figures: 21 + 21 - 10 = 32 for July 2025. */
  lemma JulyBalance()
    ensures YmSaldo([VatRow(Venta, Date(2025, 7, 1), 21.0, 0.0), VatRow(Venta, Date(2025, 7, 2), 0.0, 21.0),
                     VatRow(Compra, Date(2025, 7, 3), 10.0, 0.0)], YmFromDate(Date(2025, 7, 1))) == 32.0
  {
    MonthBalance(Date(2025, 7, 1), Date(2025, 7, 2), Date(2025, 7, 3), 21.0, 21.0, 10.0);
  }
}
