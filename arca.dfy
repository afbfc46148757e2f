// The ARCA consolidation of the current application: every purchase and
// sale flattened into one listing with the voucher type normalised, the
// invoice number split and the total given its fallback; the listing's
// display filters; the totals by (period, operation) with their technical
// VAT balance; and the per-period result of the totals page.

module Arca {
  import opened Common
  import opened Text
  import opened Period
  import opened Records
  import opened Invoice
  import opened Grouping
  import opened Sorting
  import opened Totals

  const Compra: string := "COMPRA"
  const Venta: string := "VENTA"

  /** One line of the flat listing. */
  datatype ArcaRow = ArcaRow(
    op: string,
    date: string,
    voucher: string,
    invoice: string,
    invoiceFmt: string,
    pos: string,
    number: string,
    taxId: string,
    name: string,
    net: real,
    vat21: real,
    vat105: real,
    total: real,
    status: string,
    place: string,
    partnerName: string)

  /** The partners' names by id; a later partner with the same id replaces an earlier one. */
  function PartnerNames(partners: seq<Partner>): (m: map<int, string>)
    ensures forall i :: 0 <= i < |partners| ==> partners[i].id in m
    ensures forall id :: id in m ==> exists i :: 0 <= i < |partners| && partners[i].id == id && m[id] == partners[i].name
  {
    if partners == [] then map[]
    else
      var last := partners[|partners| - 1];
      PartnerNames(partners[..|partners| - 1])[last.id := last.name]
  }

  /** `socios_map.get(socio_id, "")` */
  function NameOf(names: map<int, string>, id: Option<int>): string
  {
    if id.Some? && id.value in names then names[id.value] else ""
  }

  /** `(tipo or "").strip().upper()` */
  function VoucherType(kind: Option<string>): string
  {
    Upper(Strip(TextOr(kind)))
  }

  function PurchaseRow(p: Purchase, names: map<int, string>): ArcaRow
  {
    var split := SplitFact(p.invoice);
    ArcaRow(Compra, DateIso(p.date), VoucherType(p.kind), TextOr(p.invoice), split.formatted, split.pv, split.num,
            TextOr(p.taxId), TextOr(p.supplier),
            Round2(OrZero(p.net)), Round2(OrZero(p.vat21)), Round2(OrZero(p.vat105)), Round2(PurchaseTotal(p)),
            TextOr(p.status), TextOr(p.source), NameOf(names, p.partnerId))
  }

  function SaleRow(v: Sale, names: map<int, string>): ArcaRow
  {
    var split := SplitFact(v.invoice);
    ArcaRow(Venta, DateIso(v.date), VoucherType(v.kind), TextOr(v.invoice), split.formatted, split.pv, split.num,
            TextOr(v.taxId), TextOr(v.customer),
            Round2(OrZero(v.net)), Round2(OrZero(v.vat21)), Round2(OrZero(v.vat105)), Round2(SaleTotal(v)),
            TextOr(v.status), TextOr(v.destination), NameOf(names, v.partnerId))
  }

  function PurchaseRowFn(names: map<int, string>): Purchase -> ArcaRow
  {
    p => PurchaseRow(p, names)
  }

  function SaleRowFn(names: map<int, string>): Sale -> ArcaRow
  {
    v => SaleRow(v, names)
  }

  /** The listing: one row per purchase, then one per sale, in store order. */
  function ArcaRows(ps: seq<Purchase>, vs: seq<Sale>, partners: seq<Partner>): seq<ArcaRow>
  {
    var names := PartnerNames(partners);
    MapSeq(ps, PurchaseRowFn(names)) + MapSeq(vs, SaleRowFn(names))
  }

  /** `build_resumen_arca` */
  method BuildResumenArca(ps: seq<Purchase>, vs: seq<Sale>, partners: seq<Partner>) returns (filas: seq<ArcaRow>)
    ensures filas == ArcaRows(ps, vs, partners)
  {
    var names := PartnerNames(partners);
    filas := AppendRows(ps, PurchaseRowFn(names));
    // the sale rows, appended after the purchase rows
    var saleRows := AppendRows(vs, SaleRowFn(names));
    filas := filas + saleRows;
  }

  /** One row per record, in the records' order. */
  method AppendRows<T>(xs: seq<T>, row: T -> ArcaRow) returns (rows: seq<ArcaRow>)
    ensures rows == MapSeq(xs, row)
  {
    rows := [];
    for i := 0 to |xs|
      invariant rows == MapSeq(xs[..i], row)
    {
      MapSeqSnoc(xs, i, row);
      rows := rows + [row(xs[i])];
    }
    assert xs[..|xs|] == xs;
  }

  /** The listing holds a row for each purchase, then a row for each sale. */
  lemma ArcaRowsLength(ps: seq<Purchase>, vs: seq<Sale>, partners: seq<Partner>)
    ensures |ArcaRows(ps, vs, partners)| == |ps| + |vs|
  {
  }

  /** The first rows of the listing are the purchases' rows, in store order. */
  lemma ArcaRowsPurchases(ps: seq<Purchase>, vs: seq<Sale>, partners: seq<Partner>)
    ensures forall i :: 0 <= i < |ps| ==> ArcaRows(ps, vs, partners)[i] == PurchaseRow(ps[i], PartnerNames(partners))
  {
    MapSeqAt(ps, PurchaseRowFn(PartnerNames(partners)));
  }

  /** After them come the sales' rows, in store order. */
  lemma ArcaRowsSales(ps: seq<Purchase>, vs: seq<Sale>, partners: seq<Partner>)
    ensures forall j :: 0 <= j < |vs| ==> ArcaRows(ps, vs, partners)[|ps| + j] == SaleRow(vs[j], PartnerNames(partners))
  {
    var names := PartnerNames(partners);
    var front := MapSeq(ps, PurchaseRowFn(names));
    var back := MapSeq(vs, SaleRowFn(names));
    assert (front + back)[|ps|..] == back;
    MapSeqAt(vs, SaleRowFn(names));
  }

  /**
   * A purchase's row: the voucher type is stripped and upper-cased, the
   * amounts are rounded with a missing one as zero, the total is the stored
   * one unless missing or zero and otherwise net plus both VAT amounts, the
   * invoice splits into point of sale and number, and the first seven
   * characters of the date are the purchase's period.
   */
  lemma PurchaseRowFacts(p: Purchase, names: map<int, string>)
    requires ValidDate(p.date)
    ensures var r := PurchaseRow(p, names);
            && r.op == Compra
            && r.voucher == Upper(Strip(r.voucher))
            && r.net == Round2(OrZero(p.net))
            && (p.total.Some? && p.total.value != 0.0 ==> r.total == Round2(p.total.value))
            && (p.total.None? || p.total.value == 0.0 ==> r.total == Round2(OrZero(p.net) + OrZero(p.vat21) + OrZero(p.vat105)))
            && (r.number != [] ==> r.invoiceFmt == r.pos + "-" + r.number && |r.number| == 8)
            && Prefix(r.date, 7) == YmFromDate(p.date)
  {
    PurchaseRowNet(p, names);
    PurchaseRowTotal(p, names);
    PurchaseRowTexts(p, names);
    PurchaseRowDate(p, names);
  }

  lemma PurchaseRowNet(p: Purchase, names: map<int, string>)
    ensures PurchaseRow(p, names).net == Round2(OrZero(p.net))
  {
  }

  lemma PurchaseRowTotal(p: Purchase, names: map<int, string>)
    ensures var r := PurchaseRow(p, names);
            && (p.total.Some? && p.total.value != 0.0 ==> r.total == Round2(p.total.value))
            && (p.total.None? || p.total.value == 0.0 ==> r.total == Round2(OrZero(p.net) + OrZero(p.vat21) + OrZero(p.vat105)))
  {
    RoundedTotal(p.total, p.net, p.vat21, p.vat105);
  }

  lemma PurchaseRowTexts(p: Purchase, names: map<int, string>)
    ensures var r := PurchaseRow(p, names);
            && r.op == Compra
            && r.voucher == Upper(Strip(r.voucher))
            && (r.number != [] ==> r.invoiceFmt == r.pos + "-" + r.number && |r.number| == 8)
  {
    VoucherIdempotent(p.kind);
  }

  lemma PurchaseRowDate(p: Purchase, names: map<int, string>)
    requires ValidDate(p.date)
    ensures Prefix(PurchaseRow(p, names).date, 7) == YmFromDate(p.date)
  {
    DatePrefix(p.date);
  }

  lemma SaleRowFacts(v: Sale, names: map<int, string>)
    requires ValidDate(v.date)
    ensures var r := SaleRow(v, names);
            && r.op == Venta
            && r.voucher == Upper(Strip(r.voucher))
            && r.net == Round2(OrZero(v.net))
            && (v.total.Some? && v.total.value != 0.0 ==> r.total == Round2(v.total.value))
            && (v.total.None? || v.total.value == 0.0 ==> r.total == Round2(OrZero(v.net) + OrZero(v.vat21) + OrZero(v.vat105)))
            && (r.number != [] ==> r.invoiceFmt == r.pos + "-" + r.number && |r.number| == 8)
            && Prefix(r.date, 7) == YmFromDate(v.date)
  {
    SaleRowNet(v, names);
    SaleRowTotal(v, names);
    SaleRowTexts(v, names);
    SaleRowDate(v, names);
  }

  lemma SaleRowNet(v: Sale, names: map<int, string>)
    ensures SaleRow(v, names).net == Round2(OrZero(v.net))
  {
  }

  lemma SaleRowTotal(v: Sale, names: map<int, string>)
    ensures var r := SaleRow(v, names);
            && (v.total.Some? && v.total.value != 0.0 ==> r.total == Round2(v.total.value))
            && (v.total.None? || v.total.value == 0.0 ==> r.total == Round2(OrZero(v.net) + OrZero(v.vat21) + OrZero(v.vat105)))
  {
    RoundedTotal(v.total, v.net, v.vat21, v.vat105);
  }

  lemma SaleRowTexts(v: Sale, names: map<int, string>)
    ensures var r := SaleRow(v, names);
            && r.op == Venta
            && r.voucher == Upper(Strip(r.voucher))
            && (r.number != [] ==> r.invoiceFmt == r.pos + "-" + r.number && |r.number| == 8)
  {
    VoucherIdempotent(v.kind);
  }

  lemma SaleRowDate(v: Sale, names: map<int, string>)
    requires ValidDate(v.date)
    ensures Prefix(SaleRow(v, names).date, 7) == YmFromDate(v.date)
  {
    DatePrefix(v.date);
  }

  /** The rounded total with VAT: the stored total's when one is stored, else that of net plus both VAT amounts. */
  lemma RoundedTotal(total: Option<real>, net: Option<real>, vat21: Option<real>, vat105: Option<real>)
    ensures total.Some? && total.value != 0.0 ==> Round2(TotalWithVat(total, net, vat21, vat105)) == Round2(total.value)
    ensures total.None? || total.value == 0.0 ==>
            Round2(TotalWithVat(total, net, vat21, vat105)) == Round2(OrZero(net) + OrZero(vat21) + OrZero(vat105))
  {
    if total.None? || total.value == 0.0 {
      assert TotalWithVat(total, net, vat21, vat105) == OrZero(net) + OrZero(vat21) + OrZero(vat105);
    }
  }

  /** The first seven characters of a row's date are the period of the date. */
  lemma DatePrefix(d: Date)
    requires ValidDate(d)
    ensures Prefix(DateIso(d), 7) == YmFromDate(d)
  {
    IsoPrefixIsYm(d);
  }

  /** Normalising a normalised voucher type changes nothing. */
  lemma VoucherIdempotent(kind: Option<string>)
    ensures Upper(Strip(VoucherType(kind))) == VoucherType(kind)
  {
    var s := Strip(TextOr(kind));
    StripIdempotent(TextOr(kind));
    StripUpperOfStripped(s);
    UpperIdempotent(s);
  }

  /**
   * A row booked to no partner, or to an id no partner has, shows an empty
   * partner name; with distinct partner ids a row booked to a partner shows
   * that partner's name.
   */
  lemma PartnerNameFacts(partners: seq<Partner>, id: Option<int>)
    ensures (id.None? || forall i :: 0 <= i < |partners| ==> partners[i].id != id.value)
            ==> NameOf(PartnerNames(partners), id) == ""
    ensures forall i :: 0 <= i < |partners| && id == Some(partners[i].id)
                        && (forall j :: 0 <= j < |partners| && j != i ==> partners[j].id != partners[i].id)
                        ==> NameOf(PartnerNames(partners), id) == partners[i].name
  {
  }

  // ----- resumen_arca: the listing's display filters -----

  function DatePrefixFn(ym: string): ArcaRow -> bool
  {
    (f: ArcaRow) => StartsWith(f.date, ym)
  }

  predicate IsAOrB(f: ArcaRow)
  {
    f.voucher == "A" || f.voucher == "B"
  }

  function VoucherIsFn(tipo: string): ArcaRow -> bool
  {
    (f: ArcaRow) => f.voucher == tipo
  }

  predicate KnownType(tipo: string)
  {
    tipo == "A" || tipo == "B" || tipo == "N"
  }

  /**
   * The rows `resumen_arca` shows: those of the period prefix when one is
   * given, then only A and B vouchers unless N is included, then only the
   * voucher type asked for when it is A, B or N (compared upper-cased).
   */
  function ResumenArcaFilter(filas: seq<ArcaRow>, ym: Option<string>, tipoArg: Option<string>, includeN: bool): seq<ArcaRow>
  {
    var tipo := Upper(TextOr(tipoArg));
    var a := if Present(ym) then Filter(filas, DatePrefixFn(ym.value)) else filas;
    var b := if includeN then a else Filter(a, IsAOrB);
    if KnownType(tipo) then Filter(b, VoucherIsFn(tipo)) else b
  }

  /** The three conditions of the filter as one. */
  function ShownFn(ym: Option<string>, tipo: string, includeN: bool): ArcaRow -> bool
  {
    (f: ArcaRow) => (Present(ym) ==> StartsWith(f.date, ym.value)) && (includeN || IsAOrB(f)) && (KnownType(tipo) ==> f.voucher == tipo)
  }

  /** The three filters in turn keep what one filter by all three conditions keeps. */
  lemma FilterIsOneFilter(filas: seq<ArcaRow>, ym: Option<string>, tipoArg: Option<string>, includeN: bool)
    ensures ResumenArcaFilter(filas, ym, tipoArg, includeN) == Filter(filas, ShownFn(ym, Upper(TextOr(tipoArg)), includeN))
  {
    var tipo := Upper(TextOr(tipoArg));
    var pb := PeriodTypeFn(ym, includeN);
    var shown := ShownFn(ym, tipo, includeN);
    PeriodAndTypeStep(filas, ym, includeN);
    forall f ensures shown(f) == (pb(f) && (KnownType(tipo) ==> VoucherIsFn(tipo)(f))) {
      assert pb(f) == (PeriodFn(ym)(f) && (includeN || IsAOrB(f)));
    }
    if KnownType(tipo) {
      FilterFilter(filas, pb, VoucherIsFn(tipo), shown);
    } else {
      FilterCongruent(filas, pb, shown);
    }
  }

  /** The first condition: the period prefix, when one is given. */
  function PeriodFn(ym: Option<string>): ArcaRow -> bool
  {
    (f: ArcaRow) => Present(ym) ==> StartsWith(f.date, ym.value)
  }

  /** The first two conditions: the period prefix, then the voucher letters A and B unless N is included. */
  function PeriodTypeFn(ym: Option<string>, includeN: bool): ArcaRow -> bool
  {
    (f: ArcaRow) => PeriodFn(ym)(f) && (includeN || IsAOrB(f))
  }

  /** The period filter keeps what the first condition keeps. */
  lemma PeriodStep(filas: seq<ArcaRow>, ym: Option<string>)
    ensures (if Present(ym) then Filter(filas, DatePrefixFn(ym.value)) else filas) == Filter(filas, PeriodFn(ym))
  {
    if Present(ym) {
      FilterCongruent(filas, DatePrefixFn(ym.value), PeriodFn(ym));
    } else {
      FilterAll(filas, PeriodFn(ym));
    }
  }

  /** The period and voucher filters in turn keep what the first two conditions keep. */
  lemma PeriodAndTypeStep(filas: seq<ArcaRow>, ym: Option<string>, includeN: bool)
    ensures var a := if Present(ym) then Filter(filas, DatePrefixFn(ym.value)) else filas;
            (if includeN then a else Filter(a, IsAOrB)) == Filter(filas, PeriodTypeFn(ym, includeN))
  {
    PeriodStep(filas, ym);
    if includeN {
      FilterCongruent(filas, PeriodFn(ym), PeriodTypeFn(ym, includeN));
    } else {
      FilterFilter(filas, PeriodFn(ym), IsAOrB, PeriodTypeFn(ym, includeN));
    }
  }

  /** The filter keeps rows in their order and leaves nothing new in. */
  lemma FilterIsSubsequence(filas: seq<ArcaRow>, ym: Option<string>, tipoArg: Option<string>, includeN: bool)
    ensures IsSubsequence(ResumenArcaFilter(filas, ym, tipoArg, includeN), filas)
  {
    FilterIsOneFilter(filas, ym, tipoArg, includeN);
    FilterSubsequence(filas, ShownFn(ym, Upper(TextOr(tipoArg)), includeN));
  }

  /** A row is shown exactly when it passes each of the three conditions. */
  lemma FilterMembers(filas: seq<ArcaRow>, ym: Option<string>, tipoArg: Option<string>, includeN: bool, f: ArcaRow)
    ensures var tipo := Upper(TextOr(tipoArg));
            f in ResumenArcaFilter(filas, ym, tipoArg, includeN)
            <==> f in filas
                 && (Present(ym) ==> StartsWith(f.date, ym.value))
                 && (includeN || f.voucher == "A" || f.voucher == "B")
                 && (KnownType(tipo) ==> f.voucher == tipo)
  {
    FilterIsOneFilter(filas, ym, tipoArg, includeN);
    FilterMembership(filas, ShownFn(ym, Upper(TextOr(tipoArg)), includeN), f);
  }

  /** Without N vouchers included, asking for type N shows nothing. */
  lemma NWithoutIncludingN(filas: seq<ArcaRow>, ym: Option<string>, tipoArg: Option<string>)
    requires Upper(TextOr(tipoArg)) == "N"
    ensures ResumenArcaFilter(filas, ym, tipoArg, false) == []
  {
    var r := ResumenArcaFilter(filas, ym, tipoArg, false);
    if r != [] {
      FilterMembers(filas, ym, tipoArg, false, r[0]);
      assert false;
    }
  }

  // ----- build_totales_arca: totals by (period, operation) -----

  /** One line of the totals: a period, an operation, its sums and its technical VAT balance. */
  datatype TotalsRow = TotalsRow(ym: string, op: string, net: real, vat21: real, vat105: real, total: real, saldo: real)

  /** `(fecha[:7], tipo_operacion)` */
  function RowKey(f: ArcaRow): Key
  {
    (Prefix(f.date, 7), f.op)
  }

  function RowSums(f: ArcaRow): Sums
  {
    Sums(f.net, f.vat21, f.vat105, f.total)
  }

  /** A group's line: each sum rounded, and the balance the rounded sum of both unrounded VAT sums. */
  function Rounded(k: Key, s: Sums): TotalsRow
  {
    TotalsRow(k.0, k.1, Round2(s.net), Round2(s.vat21), Round2(s.vat105), Round2(s.total), Round2(s.vat21 + s.vat105))
  }

  function GroupRowFn(filas: seq<ArcaRow>): Key -> TotalsRow
  {
    k => Rounded(k, GroupSums(filas, RowKey, RowSums, k))
  }

  function TotalsKey(t: TotalsRow): Key
  {
    (t.ym, t.op)
  }

  predicate TotalsLe(a: TotalsRow, b: TotalsRow)
  {
    KeyLe(TotalsKey(a), TotalsKey(b))
  }

  /** The totals: one line per distinct key of the rows, in ascending key order. */
  function TotalsSpec(filas: seq<ArcaRow>): seq<TotalsRow>
  {
    MapSeq(SortedKeys(filas, RowKey), GroupRowFn(filas))
  }

  lemma GroupRowOrder(filas: seq<ArcaRow>)
    ensures forall a, b :: TotalsLe(GroupRowFn(filas)(a), GroupRowFn(filas)(b)) == KeyLe(a, b)
  {
  }

  /** `build_totales_arca`: accumulate by key, round each group, then sort by key. */
  method BuildTotalesArca(filas: seq<ArcaRow>) returns (out: seq<TotalsRow>)
    ensures out == TotalsSpec(filas)
  {
    var agg, order := Accumulate(filas, RowKey, RowSums);
    out := RoundGroups(filas, agg, order);
    GroupRowOrder(filas);
    SortMap(order, GroupRowFn(filas), KeyLe, TotalsLe);
    out := Sort(out, TotalsLe);
  }

  /** The rounded totals line of each key, in the keys' order. */
  method RoundGroups(filas: seq<ArcaRow>, agg: map<Key, Sums>, order: seq<Key>) returns (out: seq<TotalsRow>)
    requires forall k :: k in order ==> k in agg && agg[k] == GroupSums(filas, RowKey, RowSums, k)
    ensures out == MapSeq(order, GroupRowFn(filas))
  {
    out := [];
    for i := 0 to |order|
      invariant out == MapSeq(order[..i], GroupRowFn(filas))
    {
      var k := order[i];
      var sums := agg[k];
      RoundedGroup(filas, k, sums);
      MapSeqSnoc(order, i, GroupRowFn(filas));
      out := out + [Rounded(k, sums)];
    }
    assert order[..|order|] == order;
  }

  lemma RoundedGroup(filas: seq<ArcaRow>, k: Key, sums: Sums)
    requires sums == GroupSums(filas, RowKey, RowSums, k)
    ensures Rounded(k, sums) == GroupRowFn(filas)(k)
  {
  }

  /** Line `i` of the totals is the group line of the `i`-th sorted key. */
  lemma TotalsAt(filas: seq<ArcaRow>)
    ensures var ks := SortedKeys(filas, RowKey);
            var out := TotalsSpec(filas);
            && |out| == |ks|
            && (forall i :: 0 <= i < |ks| ==> out[i] == Rounded(ks[i], GroupSums(filas, RowKey, RowSums, ks[i])))
            && MapSeq(out, TotalsKey) == ks
  {
    var ks := SortedKeys(filas, RowKey);
    var out := TotalsSpec(filas);
    MapSeqAt(ks, GroupRowFn(filas));
    MapSeqAt(out, TotalsKey);
  }

  /**
   * The totals have exactly one line per distinct (period, operation) of the
   * rows, in strictly ascending order of that key.
   */
  lemma TotalsOnePerKey(filas: seq<ArcaRow>)
    ensures var out := TotalsSpec(filas);
            && (forall i, j :: 0 <= i < j < |out| ==> KeyLe(TotalsKey(out[i]), TotalsKey(out[j])) && TotalsKey(out[i]) != TotalsKey(out[j]))
            && (forall i :: 0 <= i < |out| ==> TotalsKey(out[i]) in MapSeq(filas, RowKey))
            && (forall k :: k in MapSeq(filas, RowKey) ==> exists i :: 0 <= i < |out| && TotalsKey(out[i]) == k)
  {
    TotalsKeyAt(filas);
    SortedKeysFacts(filas, RowKey);
    LinesOnePerKey(TotalsSpec(filas), TotalsKey, SortedKeys(filas, RowKey), MapSeq(filas, RowKey));
  }

  /** Line `i` of the totals carries the `i`-th sorted key. */
  lemma TotalsKeyAt(filas: seq<ArcaRow>)
    ensures var out := TotalsSpec(filas);
            var ks := SortedKeys(filas, RowKey);
            |out| == |ks| && forall i :: 0 <= i < |out| ==> TotalsKey(out[i]) == ks[i]
  {
    TotalsKeys(filas);
    MapSeqAt(TotalsSpec(filas), TotalsKey);
  }

  /**
   * Each line's amounts are the rounded sums of its group's rows, and its
   * balance is the rounded sum of the group's two unrounded VAT sums.
   */
  lemma TotalsLineFacts(filas: seq<ArcaRow>, i: nat)
    requires i < |TotalsSpec(filas)|
    ensures var t := TotalsSpec(filas)[i];
            var s := GroupSums(filas, RowKey, RowSums, TotalsKey(t));
            && t.net == Round2(s.net)
            && t.vat21 == Round2(s.vat21)
            && t.vat105 == Round2(s.vat105)
            && t.total == Round2(s.total)
            && t.saldo == Round2(s.vat21 + s.vat105)
  {
    TotalsLineAt(filas, i);
  }

  lemma TotalsLineAt(filas: seq<ArcaRow>, i: nat)
    requires i < |TotalsSpec(filas)|
    ensures var k := SortedKeys(filas, RowKey)[i];
            TotalsSpec(filas)[i] == Rounded(k, GroupSums(filas, RowKey, RowSums, k))
  {
    MapSeqAt(SortedKeys(filas, RowKey), GroupRowFn(filas));
  }

  /**
   * Before rounding, the group sums of the lines listed add up to the sum
   * over all the rows, column by column.
   */
  lemma TotalsConserve(filas: seq<ArcaRow>, val: ArcaRow -> real)
    ensures SumOverKeys(MapSeq(TotalsSpec(filas), TotalsKey), filas, RowKey, val, AnyKey) == SumBy(filas, val)
  {
    var ks := SortedKeys(filas, RowKey);
    SortedKeysFacts(filas, RowKey);
    TotalsKeys(filas);
    MapSeqAt(filas, RowKey);
    GroupsConserveTotal(ks, filas, RowKey, val);
  }
  // ----- totales_arca: the totals page -----

  /** `valid_ym`: a seven-character `YYYY-MM` whose year is digits, other than the epoch month `1970-01`. */
  predicate ValidYm(y: string)
  {
    |y| == 7 && y[4] == '-' && AllDigits(y[..4]) && y != "1970-01"
  }

  function ValidLineFn(): TotalsRow -> bool
  {
    (t: TotalsRow) => ValidYm(t.ym)
  }

  function PeriodIsFn(ym: string): TotalsRow -> bool
  {
    (t: TotalsRow) => t.ym == ym
  }

  /** The lines the page lists: valid periods, only the one asked for if any, sorted by key. */
  function TotalsView(totals: seq<TotalsRow>, ym: string): seq<TotalsRow>
  {
    var valid := Filter(totals, ValidLineFn());
    var chosen := if ym == "" then valid else Filter(valid, PeriodIsFn(ym));
    Sort(chosen, TotalsLe)
  }

  /** One period's result: the balances of its sales less those of its purchases. */
  datatype PeriodResult = PeriodResult(ym: string, sales: real, purchases: real, result: real)

  /** The lines of period `y` whose operation, upper-cased, is `op`. */
  function SideFn(y: string, op: string): TotalsRow -> bool
  {
    (t: TotalsRow) => t.ym == y && Upper(t.op) == op
  }

  function Saldo(t: TotalsRow): real
  {
    t.saldo
  }

  function PeriodResultOf(lines: seq<TotalsRow>, y: string): PeriodResult
  {
    var sales := SumBy(Filter(lines, SideFn(y, Venta)), Saldo);
    var purchases := SumBy(Filter(lines, SideFn(y, Compra)), Saldo);
    PeriodResult(y, sales, purchases, sales - purchases)
  }

  function LineYm(t: TotalsRow): string
  {
    t.ym
  }

  /** `sorted({f["YM"] for f in filas})` */
  function PeriodsOf(lines: seq<TotalsRow>): seq<string>
  {
    Sort(KeysInOrder(lines, LineYm), StrLe)
  }

  function PeriodResultFn(lines: seq<TotalsRow>): string -> PeriodResult
  {
    y => PeriodResultOf(lines, y)
  }

  /** One result per period of the lines listed, in ascending period order. */
  function PeriodResultsSpec(lines: seq<TotalsRow>): seq<PeriodResult>
  {
    MapSeq(PeriodsOf(lines), PeriodResultFn(lines))
  }

  /** The loop of the page over the sorted periods. */
  method PeriodResults(lines: seq<TotalsRow>) returns (totals: seq<PeriodResult>)
    ensures totals == PeriodResultsSpec(lines)
  {
    var ys := PeriodsOf(lines);
    totals := [];
    for i := 0 to |ys|
      invariant totals == MapSeq(ys[..i], PeriodResultFn(lines))
    {
      MapSeqSnoc(ys, i, PeriodResultFn(lines));
      totals := totals + [PeriodResultOf(lines, ys[i])];
    }
    assert ys[..|ys|] == ys;
  }

  /**
   * `totales_arca`: the lines listed for the period asked for (`""` for all
   * of them) and the result of each of their periods.
   */
  method TotalesArca(filas: seq<ArcaRow>, ym: string) returns (lines: seq<TotalsRow>, totals: seq<PeriodResult>)
    ensures lines == TotalsView(TotalsSpec(filas), ym)
    ensures totals == PeriodResultsSpec(lines)
  {
    var all := BuildTotalesArca(filas);
    lines := Filter(all, ValidLineFn());
    if ym != "" {
      lines := Filter(lines, PeriodIsFn(ym));
    }
    lines := Sort(lines, TotalsLe);
    totals := PeriodResults(lines);
  }

  /**
   * A line is listed exactly when it is one of the totals with a valid
   * period that is the one asked for, if any; the listing is sorted by key.
   */
  lemma TotalsViewFacts(totals: seq<TotalsRow>, ym: string, t: TotalsRow)
    ensures t in TotalsView(totals, ym) <==> t in totals && ValidYm(t.ym) && (ym == "" || t.ym == ym)
    ensures SortedBy(TotalsView(totals, ym), TotalsLe)
  {
    var valid := Filter(totals, ValidLineFn());
    var chosen := if ym == "" then valid else Filter(valid, PeriodIsFn(ym));
    FilterMembership(totals, ValidLineFn(), t);
    FilterMembership(valid, PeriodIsFn(ym), t);
    assert t in Sort(chosen, TotalsLe) <==> t in multiset(Sort(chosen, TotalsLe));
    assert t in chosen <==> t in multiset(chosen);
    TotalsLePreorder();
    SortSorted(chosen, TotalsLe);
  }

  lemma TotalsLePreorder()
    ensures IsTotalPreorder(TotalsLe)
  {
    KeyLePreorder();
    forall a, b, c | TotalsLe(a, b) && TotalsLe(b, c) ensures TotalsLe(a, c) {
      KeyLeTransitive(TotalsKey(a), TotalsKey(b), TotalsKey(c));
    }
    forall a, b ensures TotalsLe(a, b) || TotalsLe(b, a) {
      KeyLeTotal(TotalsKey(a), TotalsKey(b));
    }
  }

  /**
   * The results list each period of the lines once, in strictly ascending
   * order, and nothing else.
   */
  lemma PeriodResultsFacts(lines: seq<TotalsRow>)
    ensures var totals := PeriodResultsSpec(lines);
            && (forall i, j :: 0 <= i < j < |totals| ==> StrLe(totals[i].ym, totals[j].ym) && totals[i].ym != totals[j].ym)
            && (forall y :: (exists i :: 0 <= i < |totals| && totals[i].ym == y) <==> y in MapSeq(lines, LineYm))
  {
    var ys := PeriodsOf(lines);
    var totals := PeriodResultsSpec(lines);
    PeriodsOfFacts(lines);
    MapSeqAt(ys, PeriodResultFn(lines));
    assert forall i :: 0 <= i < |totals| ==> totals[i].ym == ys[i];
  }

  /** The periods of the lines, each once, ascending. */
  lemma PeriodsOfFacts(lines: seq<TotalsRow>)
    ensures var ys := PeriodsOf(lines);
            && Distinct(ys)
            && SortedBy(ys, StrLe)
            && (forall y :: y in ys <==> y in MapSeq(lines, LineYm))
  {
    var ks := KeysInOrder(lines, LineYm);
    var ys := PeriodsOf(lines);
    StrLePreorder();
    SortSorted(ks, StrLe);
    assert DistinctBy(ks, Itself);
    SortDistinct(ks, StrLe, Itself);
    forall y ensures y in ys <==> y in ks {
      assert y in ys <==> y in multiset(ys);
      assert y in ks <==> y in multiset(ks);
    }
  }
  /** The two operations are already upper-case. */
  lemma OperationsUpper()
    ensures Upper(Compra) == Compra && Upper(Venta) == Venta
  {
    assert forall i :: 0 <= i < |Compra| ==> 'A' <= Compra[i] <= 'Z';
    assert forall i :: 0 <= i < |Venta| ==> 'A' <= Venta[i] <= 'Z';
  }

  lemma PurchaseRowOp(p: Purchase, names: map<int, string>)
    ensures PurchaseRow(p, names).op == Compra
  {
  }

  lemma SaleRowOp(v: Sale, names: map<int, string>)
    ensures SaleRow(v, names).op == Venta
  {
  }

  /** Row `i` of the listing is a purchase's before the sales and a sale's after. */
  lemma ArcaRowOp(ps: seq<Purchase>, vs: seq<Sale>, partners: seq<Partner>, i: nat)
    requires i < |ps| + |vs|
    ensures ArcaRows(ps, vs, partners)[i].op == if i < |ps| then Compra else Venta
  {
    var names := PartnerNames(partners);
    var front := MapSeq(ps, PurchaseRowFn(names));
    var back := MapSeq(vs, SaleRowFn(names));
    if i < |ps| {
      assert (front + back)[i] == front[i];
      MapSeqAt(ps, PurchaseRowFn(names));
      PurchaseRowOp(ps[i], names);
    } else {
      assert (front + back)[i] == back[i - |ps|];
      MapSeqAt(vs, SaleRowFn(names));
      SaleRowOp(vs[i - |ps|], names);
    }
  }

  /** Every row of the listing is a purchase or a sale, so its operation is upper-case. */
  lemma ArcaRowsOperations(ps: seq<Purchase>, vs: seq<Sale>, partners: seq<Partner>)
    ensures var filas := ArcaRows(ps, vs, partners);
            forall i :: 0 <= i < |filas| ==> (filas[i].op == Compra || filas[i].op == Venta) && Upper(filas[i].op) == filas[i].op
  {
    var filas := ArcaRows(ps, vs, partners);
    OperationsUpper();
    forall i | 0 <= i < |filas| ensures filas[i].op == Compra || filas[i].op == Venta {
      ArcaRowOp(ps, vs, partners, i);
    }
  }

  /** Every row's operation is already upper-case. */
  predicate OpsUpper(filas: seq<ArcaRow>)
  {
    forall i :: 0 <= i < |filas| ==> Upper(filas[i].op) == filas[i].op
  }

  /** The lines of the totals carry the operations of the rows. */
  lemma TotalsOpsUpper(filas: seq<ArcaRow>)
    requires OpsUpper(filas)
    ensures var out := TotalsSpec(filas);
            forall i :: 0 <= i < |out| ==> Upper(out[i].op) == out[i].op
  {
    var ks := SortedKeys(filas, RowKey);
    var out := TotalsSpec(filas);
    SortedKeysFacts(filas, RowKey);
    MapSeqAt(filas, RowKey);
    forall i | 0 <= i < |out| ensures Upper(out[i].op) == out[i].op {
      TotalsLineAt(filas, i);
      assert ks[i] in MapSeq(filas, RowKey);
      var j :| 0 <= j < |filas| && MapSeq(filas, RowKey)[j] == ks[i];
      assert out[i].op == filas[j].op;
    }
  }

  /**
   * For a period the page lists, summing the balances of its lines with an
   * operation is summing them over all the totals, masked to that period and
   * operation: the validity filter, the period filter and the sort drop or
   * move only other lines.
   */
  lemma ViewSideSum(totals: seq<TotalsRow>, ym: string, y: string, op: string)
    requires ValidYm(y) && (ym == "" || ym == y)
    ensures SumBy(Filter(TotalsView(totals, ym), SideFn(y, op)), Saldo) == SumBy(totals, Masked(SideFn(y, op), Saldo))
  {
    var m := Masked(SideFn(y, op), Saldo);
    var valid := Filter(totals, ValidLineFn());
    var chosen := if ym == "" then valid else Filter(valid, PeriodIsFn(ym));
    FilterSum(Sort(chosen, TotalsLe), SideFn(y, op), Saldo);
    SortSum(chosen, TotalsLe, m);
    if ym != "" {
      FilterSum(valid, PeriodIsFn(ym), m);
      SumByCongruent(valid, Masked(PeriodIsFn(ym), m), m);
    }
    FilterSum(totals, ValidLineFn(), m);
    SumByCongruent(totals, Masked(ValidLineFn(), m), m);
  }

  /**
   * Over the totals, the balances of the lines of one period and one
   * operation add up to the rounded VAT of that group's rows: there is one
   * line per key, or none when no row has it.
   */
  lemma LinesSideSum(filas: seq<ArcaRow>, y: string, op: string)
    requires OpsUpper(filas)
    ensures var s := GroupSums(filas, RowKey, RowSums, (y, op));
            SumBy(TotalsSpec(filas), Masked(SideFn(y, op), Saldo)) == Round2(s.vat21 + s.vat105)
  {
    LineGroup(filas, (y, op));
    SideSumIsGroup(filas, y, op);
  }

  /** With upper-case operations, the masked balances are those of the lines keyed `(y, op)`. */
  lemma SideSumIsGroup(filas: seq<ArcaRow>, y: string, op: string)
    requires OpsUpper(filas)
    ensures SumBy(TotalsSpec(filas), Masked(SideFn(y, op), Saldo)) == GroupSum(TotalsSpec(filas), TotalsKey, Saldo, (y, op))
  {
    SideIsKey(filas, y, op);
    MaskedGroupSum(TotalsSpec(filas), TotalsKey, SideFn(y, op), Saldo, (y, op));
  }

  /** The balances of the lines with key `k` add up to the rounded VAT of `k`'s group. */
  lemma LineGroup(filas: seq<ArcaRow>, k: Key)
    ensures var s := GroupSums(filas, RowKey, RowSums, k);
            GroupSum(TotalsSpec(filas), TotalsKey, Saldo, k) == Round2(s.vat21 + s.vat105)
  {
    var ks := SortedKeys(filas, RowKey);
    if k in ks {
      var i :| 0 <= i < |ks| && ks[i] == k;
      LineGroupSaldo(filas, i, k);
    } else {
      LineGroupAbsent(filas, k);
    }
  }

  /** With upper-case operations, a line is on the side `(y, op)` exactly when that is its key. */
  lemma SideIsKey(filas: seq<ArcaRow>, y: string, op: string)
    requires OpsUpper(filas)
    ensures var out := TotalsSpec(filas);
            forall i :: 0 <= i < |out| ==> SideFn(y, op)(out[i]) == (TotalsKey(out[i]) == (y, op))
  {
    TotalsOpsUpper(filas);
  }

  /** The keys of the totals' lines are the sorted keys, each once. */
  lemma TotalsKeys(filas: seq<ArcaRow>)
    ensures MapSeq(TotalsSpec(filas), TotalsKey) == SortedKeys(filas, RowKey)
    ensures Distinct(SortedKeys(filas, RowKey))
  {
    TotalsAt(filas);
    SortedKeysFacts(filas, RowKey);
  }

  /** The balances of the totals keyed by a key they hold add up to that key's line's balance. */
  lemma LineGroupSaldo(filas: seq<ArcaRow>, i: nat, k: Key)
    requires i < |SortedKeys(filas, RowKey)| && SortedKeys(filas, RowKey)[i] == k
    ensures var s := GroupSums(filas, RowKey, RowSums, k);
            GroupSum(TotalsSpec(filas), TotalsKey, Saldo, k) == Round2(s.vat21 + s.vat105)
  {
    var out := TotalsSpec(filas);
    TotalsKeys(filas);
    MapSeqAt(out, TotalsKey);
    assert TotalsKey(out[i]) == SortedKeys(filas, RowKey)[i];
    GroupSumUnique(out, TotalsKey, Saldo, i);
    TotalsLineAt(filas, i);
  }

  /** A key no row has: no line, no balance, and an empty group. */
  lemma LineGroupAbsent(filas: seq<ArcaRow>, k: Key)
    requires k !in SortedKeys(filas, RowKey)
    ensures var s := GroupSums(filas, RowKey, RowSums, k);
            GroupSum(TotalsSpec(filas), TotalsKey, Saldo, k) == 0.0 && Round2(s.vat21 + s.vat105) == 0.0
  {
    var out := TotalsSpec(filas);
    TotalsKeys(filas);
    MapSeqAt(out, TotalsKey);
    GroupSumAbsent(out, TotalsKey, Saldo, k);
    SortedKeysFacts(filas, RowKey);
    GroupSumsAbsent(filas, RowKey, RowSums, k);
    Round2Zero();
  }

  /**
   * The page's sales for a period it lists are the rounded VAT of the
   * period's sale rows.
   */
  lemma PeriodSalesReconcile(filas: seq<ArcaRow>, ym: string, y: string)
    requires OpsUpper(filas)
    requires ValidYm(y) && (ym == "" || ym == y)
    ensures var s := GroupSums(filas, RowKey, RowSums, (y, Venta));
            PeriodResultOf(TotalsView(TotalsSpec(filas), ym), y).sales == Round2(s.vat21 + s.vat105)
  {
    SideReconcile(filas, ym, y, Venta);
  }

  /** Its purchases are the rounded VAT of the period's purchase rows. */
  lemma PeriodPurchasesReconcile(filas: seq<ArcaRow>, ym: string, y: string)
    requires OpsUpper(filas)
    requires ValidYm(y) && (ym == "" || ym == y)
    ensures var s := GroupSums(filas, RowKey, RowSums, (y, Compra));
            PeriodResultOf(TotalsView(TotalsSpec(filas), ym), y).purchases == Round2(s.vat21 + s.vat105)
  {
    SideReconcile(filas, ym, y, Compra);
  }

  /** The page's sum for one side of a period it lists is the rounded VAT of that side's rows. */
  lemma SideReconcile(filas: seq<ArcaRow>, ym: string, y: string, op: string)
    requires OpsUpper(filas)
    requires ValidYm(y) && (ym == "" || ym == y)
    ensures var s := GroupSums(filas, RowKey, RowSums, (y, op));
            SumBy(Filter(TotalsView(TotalsSpec(filas), ym), SideFn(y, op)), Saldo) == Round2(s.vat21 + s.vat105)
  {
    ViewSideSum(TotalsSpec(filas), ym, y, op);
    LinesSideSum(filas, y, op);
  }
}
