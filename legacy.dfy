// The legacy application (app.py): its ARCA listing, which also lists the
// personal purchases and takes every stored column as it is; its totals
// page over that listing; its partner summary over one exact period without
// the cash-box columns; its dashboard, which splits the personal VAT half
// and half between the company and the partners; and its margin backfill.

module Legacy {
  import opened Common
  import opened Text
  import opened Period
  import opened Records
  import opened Params
  import opened Grouping
  import opened Totals
  import opened Vat
  import opened Margins
  import opened Arca
  import opened Dashboard
  import opened Import

  // ----- build_resumen_arca -----

  /** The voucher type every legacy sale row shows. */
  const Factura: string := "Factura"

  /**
   * A purchase's row: voucher type, invoice and texts as stored (`x or ''`),
   * every amount rounded with a missing one as zero and no fallback on the
   * total. The legacy row has no split invoice and no partner name; the
   * model leaves those columns empty.
   */
  function LegacyPurchaseRow(c: Purchase): ArcaRow
  {
    ArcaRow(Compra, DateIso(c.date), TextOr(c.kind), TextOr(c.invoice), "", "", "",
            TextOr(c.taxId), TextOr(c.supplier),
            Round2(OrZero(c.net)), Round2(OrZero(c.vat21)), Round2(OrZero(c.vat105)), Round2(OrZero(c.total)),
            TextOr(c.status), TextOr(c.source), "")
  }

  /** A personal purchase's row: a purchase with its VAT, but no net amount and no total. */
  function PersonalRow(p: PersonalPurchase): ArcaRow
  {
    ArcaRow(Compra, DateIso(p.date), TextOr(p.kind), TextOr(p.invoice), "", "", "",
            TextOr(p.taxId), TextOr(p.supplier),
            0.0, Round2(OrZero(p.vat21)), Round2(OrZero(p.vat105)), 0.0,
            TextOr(p.status), TextOr(p.source), "")
  }

  /** A sale's row: always an invoice (`Factura`), the stored total without fallback. */
  function LegacySaleRow(v: Sale): ArcaRow
  {
    ArcaRow(Venta, DateIso(v.date), Factura, TextOr(v.invoice), "", "", "",
            TextOr(v.taxId), TextOr(v.customer),
            Round2(OrZero(v.net)), Round2(OrZero(v.vat21)), Round2(OrZero(v.vat105)), Round2(OrZero(v.total)),
            TextOr(v.status), TextOr(v.destination), "")
  }

  /** The legacy listing: the purchases, then the personal purchases, then the sales, each in store order. */
  function LegacyArcaRows(ps: seq<Purchase>, pps: seq<PersonalPurchase>, vs: seq<Sale>): seq<ArcaRow>
  {
    MapSeq(ps, LegacyPurchaseRow) + MapSeq(pps, PersonalRow) + MapSeq(vs, LegacySaleRow)
  }

  /** The legacy `build_resumen_arca`: three loops appending to the listing. */
  method LegacyBuildResumenArca(ps: seq<Purchase>, pps: seq<PersonalPurchase>, vs: seq<Sale>) returns (filas: seq<ArcaRow>)
    ensures filas == LegacyArcaRows(ps, pps, vs)
  {
    var purchaseRows := [];
    for i := 0 to |ps|
      invariant purchaseRows == MapSeq(ps[..i], LegacyPurchaseRow)
    {
      MapSeqSnoc(ps, i, LegacyPurchaseRow);
      purchaseRows := purchaseRows + [LegacyPurchaseRow(ps[i])];
    }
    assert ps[..|ps|] == ps;
    var personalRows := [];
    for j := 0 to |pps|
      invariant personalRows == MapSeq(pps[..j], PersonalRow)
    {
      MapSeqSnoc(pps, j, PersonalRow);
      personalRows := personalRows + [PersonalRow(pps[j])];
    }
    assert pps[..|pps|] == pps;
    var saleRows := [];
    for k := 0 to |vs|
      invariant saleRows == MapSeq(vs[..k], LegacySaleRow)
    {
      MapSeqSnoc(vs, k, LegacySaleRow);
      saleRows := saleRows + [LegacySaleRow(vs[k])];
    }
    assert vs[..|vs|] == vs;
    filas := purchaseRows + personalRows + saleRows;
  }

  /** One row per purchase, per personal purchase and per sale. */
  lemma LegacyRowsLength(ps: seq<Purchase>, pps: seq<PersonalPurchase>, vs: seq<Sale>)
    ensures |LegacyArcaRows(ps, pps, vs)| == |ps| + |pps| + |vs|
  {
  }

  /** The listing's three blocks, each row the row of its record. */
  lemma LegacyRowsLayout(ps: seq<Purchase>, pps: seq<PersonalPurchase>, vs: seq<Sale>)
    ensures var rows := LegacyArcaRows(ps, pps, vs);
            && (forall i :: 0 <= i < |ps| ==> rows[i] == LegacyPurchaseRow(ps[i]))
            && (forall j :: 0 <= j < |pps| ==> rows[|ps| + j] == PersonalRow(pps[j]))
            && (forall k :: 0 <= k < |vs| ==> rows[|ps| + |pps| + k] == LegacySaleRow(vs[k]))
  {
    forall i | 0 <= i < |ps| ensures LegacyArcaRows(ps, pps, vs)[i] == LegacyPurchaseRow(ps[i]) {
      FirstBlockAt(ps, LegacyPurchaseRow, pps, PersonalRow, vs, LegacySaleRow, i);
    }
    forall j | 0 <= j < |pps| ensures LegacyArcaRows(ps, pps, vs)[|ps| + j] == PersonalRow(pps[j]) {
      MiddleBlockAt(ps, LegacyPurchaseRow, pps, PersonalRow, vs, LegacySaleRow, j);
    }
    forall k | 0 <= k < |vs| ensures LegacyArcaRows(ps, pps, vs)[|ps| + |pps| + k] == LegacySaleRow(vs[k]) {
      LastBlockAt(ps, LegacyPurchaseRow, pps, PersonalRow, vs, LegacySaleRow, k);
    }
  }

  /** Element `i` of three mapped blocks, one after the other, is the image of record `i` of the first block. */
  lemma FirstBlockAt<A, B, C, R>(xs: seq<A>, f: A -> R, ys: seq<B>, g: B -> R, zs: seq<C>, h: C -> R, i: nat)
    requires i < |xs|
    ensures (MapSeq(xs, f) + MapSeq(ys, g) + MapSeq(zs, h))[i] == f(xs[i])
  {
    MapSeqAt(xs, f);
  }

  /** Element `|xs| + j` is the image of record `j` of the second block. */
  lemma MiddleBlockAt<A, B, C, R>(xs: seq<A>, f: A -> R, ys: seq<B>, g: B -> R, zs: seq<C>, h: C -> R, j: nat)
    requires j < |ys|
    ensures (MapSeq(xs, f) + MapSeq(ys, g) + MapSeq(zs, h))[|xs| + j] == g(ys[j])
  {
    var a := MapSeq(xs, f);
    var b := MapSeq(ys, g);
    AppendAt(a, b, j);
    MapSeqAt(ys, g);
  }

  /** Element `|xs| + |ys| + k` is the image of record `k` of the third block. */
  lemma LastBlockAt<A, B, C, R>(xs: seq<A>, f: A -> R, ys: seq<B>, g: B -> R, zs: seq<C>, h: C -> R, k: nat)
    requires k < |zs|
    ensures (MapSeq(xs, f) + MapSeq(ys, g) + MapSeq(zs, h))[|xs| + |ys| + k] == h(zs[k])
  {
    var ab := MapSeq(xs, f) + MapSeq(ys, g);
    var c := MapSeq(zs, h);
    AppendAt(ab, c, k);
    assert |ab| == |xs| + |ys|;
    MapSeqAt(zs, h);
  }

  lemma AppendAt<T>(p: seq<T>, q: seq<T>, k: nat)
    requires k < |q|
    ensures (p + q)[|p| + k] == q[k]
  {
  }

  /**
   * A personal purchase is listed as a purchase of its period that brings
   * its rounded VAT and nothing else: no net amount and no total.
   */
  lemma PersonalRowFacts(p: PersonalPurchase)
    requires ValidDate(p.date)
    ensures var r := PersonalRow(p);
            && r.op == Compra
            && r.net == 0.0 && r.total == 0.0
            && r.vat21 == Round2(OrZero(p.vat21)) && r.vat105 == Round2(OrZero(p.vat105))
            && RowKey(r) == (YmFromDate(p.date), Compra)
  {
    IsoPrefixIsYm(p.date);
  }

  /** A sale is always listed as a `Factura` of its period, with the stored total rounded and no fallback. */
  lemma LegacySaleRowFacts(v: Sale)
    requires ValidDate(v.date)
    ensures var r := LegacySaleRow(v);
            && r.op == Venta && r.voucher == Factura
            && r.total == Round2(OrZero(v.total))
            && RowKey(r) == (YmFromDate(v.date), Venta)
  {
    IsoPrefixIsYm(v.date);
  }

  /**
   * Against the current application's row, a legacy purchase row shows the
   * same period, amounts and texts; its voucher type agrees once the stored
   * one is already stripped and upper-cased, and its total agrees whenever a
   * non-zero total is stored.
   */
  lemma LegacyPurchaseVsCurrent(p: Purchase, names: map<int, string>)
    ensures var l := LegacyPurchaseRow(p);
            var c := PurchaseRow(p, names);
            && l.op == c.op && l.date == c.date && l.invoice == c.invoice
            && l.taxId == c.taxId && l.name == c.name && l.status == c.status && l.place == c.place
            && l.net == c.net && l.vat21 == c.vat21 && l.vat105 == c.vat105
            && (Upper(Strip(TextOr(p.kind))) == TextOr(p.kind) ==> l.voucher == c.voucher)
            && (p.total.Some? && p.total.value != 0.0 ==> l.total == c.total)
  {
  }

  /**
   * The same comparison for a sale, except that the voucher type never
   * agrees: the current row upper-cases the stored type, the legacy one
   * always shows `Factura`.
   */
  lemma LegacySaleVsCurrent(v: Sale, names: map<int, string>)
    ensures var l := LegacySaleRow(v);
            var c := SaleRow(v, names);
            && l.op == c.op && l.date == c.date && l.invoice == c.invoice
            && l.taxId == c.taxId && l.name == c.name && l.status == c.status && l.place == c.place
            && l.net == c.net && l.vat21 == c.vat21 && l.vat105 == c.vat105
            && l.voucher != c.voucher
            && (v.total.Some? && v.total.value != 0.0 ==> l.total == c.total)
  {
    UpperNotFactura(Strip(TextOr(v.kind)));
  }

  /** An upper-cased text is never `Factura`, whose last letters are lower case. */
  lemma UpperNotFactura(s: string)
    ensures Upper(s) != Factura
  {
    if |Upper(s)| == |Factura| {
      assert Factura[1] == 'a';
      assert Upper(s)[1] == UpperChar(s[1]);
    }
  }

  // ----- resumen_arca and totales_arca: the period filters -----

  /** `resumen_arca`: with a non-empty `ym`, the rows whose date starts with it. */
  function LegacyResumenView(filas: seq<ArcaRow>, ym: Option<string>): seq<ArcaRow>
  {
    if Present(ym) then Filter(filas, DatePrefixFn(ym.value)) else filas
  }

  /** The view keeps exactly the rows whose date starts with the period asked for (all without one), in order. */
  lemma LegacyResumenViewFacts(filas: seq<ArcaRow>, ym: Option<string>, f: ArcaRow)
    ensures f in LegacyResumenView(filas, ym) <==> f in filas && (Present(ym) ==> StartsWith(f.date, ym.value))
    ensures IsSubsequence(LegacyResumenView(filas, ym), filas)
  {
    if Present(ym) {
      FilterMembership(filas, DatePrefixFn(ym.value), f);
      FilterSubsequence(filas, DatePrefixFn(ym.value));
    } else {
      SubsequenceRefl(filas);
    }
  }

  /** `totales_arca`: with a non-empty `ym`, the lines of exactly that period. */
  function LegacyTotalsView(lines: seq<TotalsRow>, ym: Option<string>): seq<TotalsRow>
  {
    if Present(ym) then Filter(lines, PeriodIsFn(ym.value)) else lines
  }

  lemma LegacyTotalsViewFacts(lines: seq<TotalsRow>, ym: Option<string>, t: TotalsRow)
    ensures t in LegacyTotalsView(lines, ym) <==> t in lines && (Present(ym) ==> t.ym == ym.value)
    ensures IsSubsequence(LegacyTotalsView(lines, ym), lines)
  {
    if Present(ym) {
      FilterMembership(lines, PeriodIsFn(ym.value), t);
      FilterSubsequence(lines, PeriodIsFn(ym.value));
    } else {
      SubsequenceRefl(lines);
    }
  }

  // ----- build_totales_arca -----

  /** The legacy `build_totales_arca`: the same accumulation, rounding and sort, over the legacy listing. */
  method LegacyBuildTotalesArca(ps: seq<Purchase>, pps: seq<PersonalPurchase>, vs: seq<Sale>) returns (out: seq<TotalsRow>)
    ensures out == TotalsSpec(LegacyArcaRows(ps, pps, vs))
  {
    var filas := LegacyBuildResumenArca(ps, pps, vs);
    out := BuildTotalesArca(filas);
  }

  function RowNet(f: ArcaRow): real { f.net }
  function RowTotal(f: ArcaRow): real { f.total }

  lemma PersonalRowsNoAmounts(pps: seq<PersonalPurchase>)
    ensures SumBy(MapSeq(pps, PersonalRow), RowNet) == 0.0
    ensures SumBy(MapSeq(pps, PersonalRow), RowTotal) == 0.0
  {
    MapSeqAt(pps, PersonalRow);
    SumByZero(MapSeq(pps, PersonalRow), RowNet);
    SumByZero(MapSeq(pps, PersonalRow), RowTotal);
  }

  /**
   * Before rounding, the net amounts and the totals of the totals' lines add
   * up to those of the purchases and the sales alone: the personal purchases
   * bring only VAT into the totals.
   */
  lemma LegacyTotalsNetIgnoresPersonal(ps: seq<Purchase>, pps: seq<PersonalPurchase>, vs: seq<Sale>)
    ensures var filas := LegacyArcaRows(ps, pps, vs);
            var ks := MapSeq(TotalsSpec(filas), TotalsKey);
            && SumOverKeys(ks, filas, RowKey, RowNet, AnyKey)
               == SumBy(MapSeq(ps, LegacyPurchaseRow), RowNet) + SumBy(MapSeq(vs, LegacySaleRow), RowNet)
            && SumOverKeys(ks, filas, RowKey, RowTotal, AnyKey)
               == SumBy(MapSeq(ps, LegacyPurchaseRow), RowTotal) + SumBy(MapSeq(vs, LegacySaleRow), RowTotal)
  {
    var filas := LegacyArcaRows(ps, pps, vs);
    var a := MapSeq(ps, LegacyPurchaseRow);
    var b := MapSeq(pps, PersonalRow);
    var c := MapSeq(vs, LegacySaleRow);
    TotalsConserve(filas, RowNet);
    TotalsConserve(filas, RowTotal);
    SumByConcat(a + b, c, RowNet);
    SumByConcat(a, b, RowNet);
    SumByConcat(a + b, c, RowTotal);
    SumByConcat(a, b, RowTotal);
    PersonalRowsNoAmounts(pps);
  }

  // ----- build_resumen_socio -----

  /** One line of the legacy partner summary: the current one without the box balance and the rest. */
  datatype LegacySummaryRow = LegacySummaryRow(
    ym: string,
    name: string,
    netGain: real,
    company: real,
    seller: real,
    partner: real,
    others: real,
    totalMargins: real)

  /** The three margin rates, read with `get_param` and their defaults. */
  function LegacyRatesSpec(store: map<string, real>): (real, real, real, map<string, real>)
  {
    var (e, s1) := GetParamOr(store, "margen_Empresa", 0.53);
    var (v, s2) := GetParamOr(s1, "margen_Vendedor", 0.20);
    var (p, s3) := GetParamOr(s2, "margen_Socio", 0.09);
    (e, v, p, s3)
  }

  /** Reading the rates with `get_param` gives what the current `_read_param_any` gives, table included. */
  lemma LegacyRatesAsCurrent(store: map<string, real>)
    ensures LegacyRatesSpec(store) == RatesSpec(store)
  {
    ReadOrFacts(store, "margen_Empresa", 0.53);
    var s1 := ReadOr(store, "margen_Empresa", 0.53).1;
    ReadOrFacts(s1, "margen_Vendedor", 0.20);
    var s2 := ReadOr(s1, "margen_Vendedor", 0.20).1;
    ReadOrFacts(s2, "margen_Socio", 0.09);
  }

  /** The line of partner `s` among `socios`. */
  function LegacyRowFor(ym: string, socios: seq<PartnerGain>, s: PartnerGain, pEmp: real, pVen: real, pSoc: real): LegacySummaryRow
  {
    var others := OthersFrom(socios, s, pEmp, pSoc);
    var seller := Margin(s.gain, pVen);
    var partner := OwnShare(s, pSoc);
    LegacySummaryRow(ym, s.name, Round2(s.gain), Margin(s.gain, pEmp), seller, partner, Round2(others),
                     Round2(seller + partner + others))
  }

  /** The legacy summary: the partners' figures over exactly the period `ym`, one line each. */
  function LegacySummarySpec(ym: string, ps: seq<Purchase>, vs: seq<Sale>, partners: seq<Partner>, pEmp: real, pVen: real, pSoc: real): (r: seq<LegacySummaryRow>)
    ensures |r| == |partners|
  {
    var socios := FiguresOf(ExactYm(ym), ps, vs, partners);
    seq(|socios|, i requires 0 <= i < |socios| => LegacyRowFor(ym, socios, socios[i], pEmp, pVen, pSoc))
  }

  /** The body of the rows loop for one partner, with the inner loop over the others. */
  method LegacyRowOf(ym: string, socios: seq<PartnerGain>, s: PartnerGain, pEmp: real, pVen: real, pSoc: real)
    returns (row: LegacySummaryRow)
    ensures row == LegacyRowFor(ym, socios, s, pEmp, pVen, pSoc)
  {
    var company := Margin(s.gain, pEmp);
    var seller := Margin(s.gain, pVen);
    var partner := OwnShare(s, pSoc);
    var others := OthersMargin(socios, s, pEmp, pSoc);
    var total := Round2(seller + partner + others);
    row := LegacySummaryRow(ym, s.name, Round2(s.gain), company, seller, partner, Round2(others), total);
  }

  /** The rows loop: one line per partner, in order. */
  method LegacyBuildRows(ym: string, socios: seq<PartnerGain>, pEmp: real, pVen: real, pSoc: real)
    returns (rows: seq<LegacySummaryRow>)
    ensures |rows| == |socios|
    ensures forall i :: 0 <= i < |socios| ==> rows[i] == LegacyRowFor(ym, socios, socios[i], pEmp, pVen, pSoc)
  {
    rows := [];
    for i := 0 to |socios|
      invariant |rows| == i
      invariant forall j :: 0 <= j < i ==> rows[j] == LegacyRowFor(ym, socios, socios[j], pEmp, pVen, pSoc)
    {
      var row := LegacyRowOf(ym, socios, socios[i], pEmp, pVen, pSoc);
      rows := rows + [row];
    }
  }

  /** The legacy `build_resumen_socio` */
  method LegacyBuildResumenSocio(store: ParamStore, ym: string, ps: seq<Purchase>, vs: seq<Sale>, partners: seq<Partner>)
    returns (rows: seq<LegacySummaryRow>, pEmp: real, pVen: real, pSoc: real)
    modifies store
    ensures (pEmp, pVen, pSoc, store.values) == LegacyRatesSpec(old(store.values))
    ensures rows == LegacySummarySpec(ym, ps, vs, partners, pEmp, pVen, pSoc)
  {
    var r := store.GetParam("margen_Empresa", Some(0.53));
    pEmp := if r.Ok? then r.value else 0.53;
    r := store.GetParam("margen_Vendedor", Some(0.20));
    pVen := if r.Ok? then r.value else 0.20;
    r := store.GetParam("margen_Socio", Some(0.09));
    pSoc := if r.Ok? then r.value else 0.09;
    var socios := CollectFigures(ExactYm(ym), ps, vs, partners);
    rows := LegacyBuildRows(ym, socios, pEmp, pVen, pSoc);
  }

  /**
   * Each legacy line carries the columns of the current line of the same
   * partner, whatever the box balances.
   */
  lemma LegacyRowAsCurrent(ym: string, socios: seq<PartnerGain>, totals: map<string, real>, s: PartnerGain, pEmp: real, pVen: real, pSoc: real)
    ensures var l := LegacyRowFor(ym, socios, s, pEmp, pVen, pSoc);
            var c := RowFor(ym, socios, totals, s, pEmp, pVen, pSoc);
            l == LegacySummaryRow(c.ym, c.name, c.netGain, c.company, c.seller, c.partner, c.others, c.totalMargins)
  {
  }

  /**
   * For a month label the legacy summary and the current one take the same
   * partners' figures, so every legacy line is the current line without its
   * box columns.
   */
  lemma LegacySummaryAsCurrent(year: int, month: int, ps: seq<Purchase>, vs: seq<Sale>, partners: seq<Partner>, pEmp: real, pVen: real, pSoc: real, i: nat)
    requires year != AllYears && month != AllMonths && i < |partners|
    ensures var ym := SelectorLabel(year, month);
            var l := LegacySummarySpec(ym, ps, vs, partners, pEmp, pVen, pSoc)[i];
            var c := SummarySpec(ym, ps, vs, partners, pEmp, pVen, pSoc)[i];
            l == LegacySummaryRow(c.ym, c.name, c.netGain, c.company, c.seller, c.partner, c.others, c.totalMargins)
  {
    var ym := SelectorLabel(year, month);
    ParseOfLabel(year, month);
    assert ParseSelector(ym) == ExactYm(ym);
    var socios := FiguresOf(ExactYm(ym), ps, vs, partners);
    LegacyRowAsCurrent(ym, socios, PeriodBalances(ExactYm(ym), ps, vs), socios[i], pEmp, pVen, pSoc);
  }

  /**
   * A "Socio" partner's total is its seller margin plus the partners' pool,
   * whatever the company rate, and an "Empresa" partner owes the company
   * rate on that pool and takes no partner margin.
   */
  lemma LegacyKindTotals(ym: string, socios: seq<PartnerGain>, i: nat, pEmp: real, pVen: real, pSoc: real)
    requires i < |socios|
    requires forall a, b :: 0 <= a < b < |socios| ==> socios[a].id != socios[b].id
    ensures socios[i].kind == Some(SocioKind) ==>
              LegacyRowFor(ym, socios, socios[i], pEmp, pVen, pSoc).totalMargins
              == Round2(Margin(socios[i].gain, pVen) + SumBy(socios, SocioShareFn(pSoc)))
    ensures socios[i].kind == Some(EmpresaKind) ==>
              var r := LegacyRowFor(ym, socios, socios[i], pEmp, pVen, pSoc);
              r.partner == 0.0 && r.others == Round2(SumBy(socios, SocioShareFn(pEmp)))
  {
    var s := socios[i];
    if s.kind == Some(SocioKind) {
      SocioPool(socios, i, pEmp, pSoc);
      Regroup(Margin(s.gain, pVen), OwnShare(s, pSoc), OthersFrom(socios, s, pEmp, pSoc), SumBy(socios, SocioShareFn(pSoc)));
    } else if s.kind == Some(EmpresaKind) {
      EmpresaOthers(socios, i, pEmp, pSoc);
    }
  }

  // ----- index: the legacy dashboard -----

  /** The period key of a year and a month (`f"{year:04d}-{month:02d}"`). */
  function LegacyYm(year: int, month: int): string
  {
    PadInt(year, 4) + "-" + PadInt(month, 2)
  }

  function PersonalIn(ym: string, pps: seq<PersonalPurchase>): seq<PersonalPurchase>
  {
    Filter(pps, (p: PersonalPurchase) => p.ym == Some(ym))
  }

  /** SQL `SUM(iva_21 + iva_105)` contribution of a personal purchase. */
  function PersonalSqlVat(p: PersonalPurchase): real { SqlVat(p.vat21, p.vat105) }

  /** What the legacy dashboard shows. */
  datatype LegacyView = LegacyView(
    salesNet: real,
    salesVat: real,
    salesGross: real,
    purchasesNet: real,
    purchasesVat: real,
    purchasesGross: real,
    creditable: real,
    netGain: real,
    vatPayable: real,
    personalVat: real,
    creditCompany: real,
    creditPartners: real,
    owedPurchases: nat,
    owedSales: nat,
    perPartner: seq<PartnerGain>)

  /** The dashboard from the period's purchases, sales and personal purchases, and the partners' figures. */
  function LegacyViewOf(fps: seq<Purchase>, fvs: seq<Sale>, fpp: seq<PersonalPurchase>, perPartner: seq<PartnerGain>): LegacyView
  {
    var salesNet := SumBy(fvs, SaleNet);
    var salesVat := SumBy(fvs, SaleSqlVat);
    var purchasesNet := SumBy(fps, PurchaseNet);
    var purchasesVat := SumBy(fps, PurchaseSqlVat);
    var personalVat := SumBy(fpp, PersonalSqlVat);
    var creditCompany := personalVat * 0.5;
    var creditable := purchasesVat + creditCompany;
    LegacyView(salesNet, salesVat, salesNet + salesVat, purchasesNet, purchasesVat, purchasesNet + purchasesVat,
               creditable, salesNet - purchasesNet, salesVat - creditable,
               personalVat, creditCompany, personalVat * 0.5,
               |Filter(fps, PurchaseOwed)|, |Filter(fvs, SaleOwed)|, perPartner)
  }

  /** The legacy dashboard of a year and a month: every query filtered on exactly that period. */
  function LegacyIndexSpec(year: int, month: int, ps: seq<Purchase>, pps: seq<PersonalPurchase>, vs: seq<Sale>, partners: seq<Partner>): LegacyView
  {
    var ym := LegacyYm(year, month);
    LegacyViewOf(PurchasesIn(ExactYm(ym), ps), SalesIn(ExactYm(ym), vs), PersonalIn(ym, pps),
                 FiguresOf(ExactYm(ym), ps, vs, partners))
  }

  /** The legacy `index`: the period's sums, and the loop over the joined partner rows. */
  method LegacyIndex(year: int, month: int, ps: seq<Purchase>, pps: seq<PersonalPurchase>, vs: seq<Sale>, partners: seq<Partner>)
    returns (view: LegacyView)
    ensures view == LegacyIndexSpec(year, month, ps, pps, vs, partners)
  {
    var ym := LegacyYm(year, month);
    var sel := ExactYm(ym);
    var perSocio := CollectFigures(sel, ps, vs, partners);
    view := LegacyViewOf(PurchasesIn(sel, ps), SalesIn(sel, vs), PersonalIn(ym, pps), perSocio);
  }

  /**
   * The personal VAT splits half and half: the two credits are equal and
   * add up to it, the company's half is added to the creditable purchase
   * VAT, and the VAT payable is the sales VAT less both.
   */
  lemma LegacySplitFacts(year: int, month: int, ps: seq<Purchase>, pps: seq<PersonalPurchase>, vs: seq<Sale>, partners: seq<Partner>)
    ensures var w := LegacyIndexSpec(year, month, ps, pps, vs, partners);
            && w.creditCompany == w.creditPartners
            && w.creditCompany + w.creditPartners == w.personalVat
            && w.creditable == w.purchasesVat + w.creditCompany
            && w.vatPayable == w.salesVat - w.purchasesVat - w.personalVat / 2.0
  {
  }

  function PersonalVatOf(p: PersonalPurchase): real { VatOf(p.vat21, p.vat105) }

  lemma {:induction false} PersonalVatNonNegative(pps: seq<PersonalPurchase>)
    requires forall i :: 0 <= i < |pps| ==> PersonalVatOf(pps[i]) >= 0.0
    ensures SumBy(pps, PersonalSqlVat) >= 0.0
  {
    if pps != [] {
      var n := |pps| - 1;
      PersonalVatNonNegative(pps[..n]);
      assert PersonalVatOf(pps[n]) >= 0.0;
    }
  }

  /**
   * With non-negative VAT on the period's personal purchases, the company's
   * credit is never negative and the VAT payable never exceeds the sales VAT
   * less the purchase VAT.
   */
  lemma LegacyVatPayableBound(year: int, month: int, ps: seq<Purchase>, pps: seq<PersonalPurchase>, vs: seq<Sale>, partners: seq<Partner>)
    requires var pp := PersonalIn(LegacyYm(year, month), pps);
             forall i :: 0 <= i < |pp| ==> PersonalVatOf(pp[i]) >= 0.0
    ensures var w := LegacyIndexSpec(year, month, ps, pps, vs, partners);
            0.0 <= w.creditCompany && w.vatPayable <= w.salesVat - w.purchasesVat
  {
    PersonalVatNonNegative(PersonalIn(LegacyYm(year, month), pps));
  }

  /**
   * For an ordinary year and month, the legacy dashboard shows the same
   * sales, purchases, purchase VAT, net gain, unpaid counts and partner
   * figures as the current one.
   */
  lemma LegacyIndexAsCurrent(year: int, month: int, ps: seq<Purchase>, pps: seq<PersonalPurchase>, vs: seq<Sale>, partners: seq<Partner>, normalPct: real, personalPct: real)
    requires year != AllYears && month != AllMonths
    ensures var w := LegacyIndexSpec(year, month, ps, pps, vs, partners);
            var c := DashboardSpec(year, month, ps, vs, partners, normalPct, personalPct);
            && w.salesNet == c.salesNet && w.salesVat == c.salesVat
            && w.purchasesNet == c.purchasesNet && w.purchasesVat == c.purchasesVat
            && w.netGain == c.netGain
            && w.owedPurchases == c.owedPurchases && w.owedSales == c.owedSales
            && w.perPartner == c.perPartner
  {
    assert DashboardSelector(year, month) == ExactYm(LegacyYm(year, month));
  }

  /**
   * When every row of the period is booked to one of the partners, which
   * have distinct ids, the partners' gains add up to the net gain shown.
   */
  lemma LegacyGainsAddUp(year: int, month: int, ps: seq<Purchase>, pps: seq<PersonalPurchase>, vs: seq<Sale>, partners: seq<Partner>)
    requires Attributed(ExactYm(LegacyYm(year, month)), ps, vs, partners)
    ensures var w := LegacyIndexSpec(year, month, ps, pps, vs, partners);
            SumBy(w.perPartner, Gain) == w.netGain
  {
    GainsAddUp(ExactYm(LegacyYm(year, month)), ps, vs, partners);
  }

  // ----- socios_view: the margin backfill and a new partner's margin -----

  /** The legacy partner list's backfill: both rates read with `get_param`, then the partners filled in. */
  method LegacyBackfill(store: ParamStore, socios: array<Partner>) returns (changed: bool)
    modifies store, socios
    ensures var (pEmp, s1) := GetParamOr(old(store.values), "margen_Empresa", 0.53);
            var (pSoc, s2) := GetParamOr(s1, "margen_Socio", 0.09);
            && store.values == s2
            && socios[..] == MapSeq(old(socios[..]), BackfilledFn(pEmp, pSoc))
            && (changed <==> exists i :: 0 <= i < socios.Length && old(socios[i]).marginPct.None?)
  {
    var r := store.GetParam("margen_Empresa", Some(0.53));
    var pEmp := if r.Ok? then r.value else 0.53;
    r := store.GetParam("margen_Socio", Some(0.09));
    var pSoc := if r.Ok? then r.value else 0.09;
    changed := BackfillMargins(socios, pEmp, pSoc);
  }

  /** The margin a partner created from the form gets: the one entered, else the rate of its kind. */
  function NewPartnerMargin(entered: Option<real>, kind: string, pEmp: real, pSoc: real): real
  {
    if entered.Some? then entered.value else if kind == EmpresaKind then pEmp else pSoc
  }

  /**
   * A partner created without a margin gets the margin the backfill would
   * give it, and the backfill leaves a partner created with one alone.
   */
  lemma NewPartnerAsBackfill(id: int, name: string, kind: string, entered: Option<real>, pEmp: real, pSoc: real)
    ensures var created := Partner(id, name, Some(kind), Some(NewPartnerMargin(entered, kind, pEmp, pSoc)));
            && Backfilled(created, pEmp, pSoc) == created
            && (entered.None? ==> created == Backfilled(Partner(id, name, Some(kind), None), pEmp, pSoc))
  {
  }
}
