// The partner summary (`build_resumen_socio`): each partner's net gain over
// a period (its sales less its purchases, net of VAT), the company, seller
// and partner margins taken from that gain at the configured rates, the
// margins it owes on the other partners' gains, its cash-box balance and
// what is left once the margins are paid.

module Margins {
  import opened Common
  import opened Grouping
  import opened Period
  import opened Records
  import opened Params
  import opened Caja

  const SocioKind: string := "Socio"
  const EmpresaKind: string := "Empresa"
  /** The house box, whose balance is taken with its sign. */
  const HouseName: string := "Legion"

  function SalePartner(v: Sale): Option<int> { v.partnerId }
  function SaleNet(v: Sale): real { OrZero(v.net) }
  function PurchasePartner(p: Purchase): Option<int> { p.partnerId }
  function PurchaseNet(p: Purchase): real { OrZero(p.net) }

  /** One partner with its aggregated sales and purchases over the period. */
  datatype PartnerGain = PartnerGain(id: int, name: string, kind: Option<string>, sales: real, purchases: real, gain: real)

  function Gain(s: PartnerGain): real { s.gain }

  /**
   * The outer join of a partner with the grouped sums: `SUM(pesos_sin_iva)`
   * of the period's sales and purchases booked to it, NULL amounts skipped
   * and no rows counting as 0.
   */
  function Figures(sel: PeriodSelector, ps: seq<Purchase>, vs: seq<Sale>, s: Partner): PartnerGain
  {
    var v := GroupSum(SalesIn(sel, vs), SalePartner, SaleNet, Some(s.id));
    var c := GroupSum(PurchasesIn(sel, ps), PurchasePartner, PurchaseNet, Some(s.id));
    PartnerGain(s.id, s.name, s.kind, v, c, v - c)
  }

  /** `socios`: the figures of every partner, in the order the query returns them. */
  function FiguresOf(sel: PeriodSelector, ps: seq<Purchase>, vs: seq<Sale>, partners: seq<Partner>): (r: seq<PartnerGain>)
    ensures |r| == |partners|
    ensures forall i :: 0 <= i < |partners| ==> r[i] == Figures(sel, ps, vs, partners[i])
  {
    if partners == [] then []
    else FiguresOf(sel, ps, vs, partners[..|partners| - 1]) + [Figures(sel, ps, vs, partners[|partners| - 1])]
  }

  /** The loop that turns the joined rows into `socios`. */
  method CollectFigures(sel: PeriodSelector, ps: seq<Purchase>, vs: seq<Sale>, partners: seq<Partner>) returns (socios: seq<PartnerGain>)
    ensures socios == FiguresOf(sel, ps, vs, partners)
  {
    socios := [];
    for i := 0 to |partners|
      invariant socios == FiguresOf(sel, ps, vs, partners[..i])
    {
      FiguresSnoc(sel, ps, vs, partners, i);
      socios := socios + [Figures(sel, ps, vs, partners[i])];
    }
    assert partners[..|partners|] == partners;
  }

  lemma FiguresSnoc(sel: PeriodSelector, ps: seq<Purchase>, vs: seq<Sale>, partners: seq<Partner>, i: nat)
    requires i < |partners|
    ensures FiguresOf(sel, ps, vs, partners[..i + 1]) == FiguresOf(sel, ps, vs, partners[..i]) + [Figures(sel, ps, vs, partners[i])]
  {
    assert partners[..i + 1][..i] == partners[..i];
  }

  /** The partner keys, as the grouped queries see them. */
  function IdsOf(partners: seq<Partner>): (r: seq<Option<int>>)
    ensures |r| == |partners|
    ensures forall i :: 0 <= i < |partners| ==> r[i] == Some(partners[i].id)
  {
    if partners == [] then [] else IdsOf(partners[..|partners| - 1]) + [Some(partners[|partners| - 1].id)]
  }

  lemma {:induction false} GainsByKey(sel: PeriodSelector, ps: seq<Purchase>, vs: seq<Sale>, partners: seq<Partner>)
    ensures SumBy(FiguresOf(sel, ps, vs, partners), Gain)
            == SumOverKeys(IdsOf(partners), SalesIn(sel, vs), SalePartner, SaleNet, AnyKey)
             - SumOverKeys(IdsOf(partners), PurchasesIn(sel, ps), PurchasePartner, PurchaseNet, AnyKey)
  {
    if partners != [] {
      var init := partners[..|partners| - 1];
      GainsByKey(sel, ps, vs, init);
      assert IdsOf(partners)[..|partners| - 1] == IdsOf(init);
      assert FiguresOf(sel, ps, vs, partners)[..|partners| - 1] == FiguresOf(sel, ps, vs, init);
    }
  }

  /** The partners have distinct ids and every sale and purchase of the period is booked to one of them. */
  predicate Attributed(sel: PeriodSelector, ps: seq<Purchase>, vs: seq<Sale>, partners: seq<Partner>)
  {
    && (forall i, j :: 0 <= i < j < |partners| ==> partners[i].id != partners[j].id)
    && (forall i :: 0 <= i < |SalesIn(sel, vs)| ==> SalesIn(sel, vs)[i].partnerId in IdsOf(partners))
    && (forall i :: 0 <= i < |PurchasesIn(sel, ps)| ==> PurchasesIn(sel, ps)[i].partnerId in IdsOf(partners))
  }

  /**
   * When the partners have distinct ids and every sale and purchase of the
   * period is booked to one of them, their net gains add up to the period's
   * net sales less its net purchases.
   */
  lemma GainsAddUp(sel: PeriodSelector, ps: seq<Purchase>, vs: seq<Sale>, partners: seq<Partner>)
    requires Attributed(sel, ps, vs, partners)
    ensures SumBy(FiguresOf(sel, ps, vs, partners), Gain)
            == SumBy(SalesIn(sel, vs), SaleNet) - SumBy(PurchasesIn(sel, ps), PurchaseNet)
  {
    GainsByKey(sel, ps, vs, partners);
    GroupsConserveTotal(IdsOf(partners), SalesIn(sel, vs), SalePartner, SaleNet);
    GroupsConserveTotal(IdsOf(partners), PurchasesIn(sel, ps), PurchasePartner, PurchaseNet);
  }

  /** A margin at rate `rate` on a gain, rounded to the cent. */
  function Margin(gain: real, rate: real): real
  {
    Round2(gain * rate)
  }

  /** What a partner of kind `kind` owes on the gain of another partner `o`. */
  function Share(kind: Option<string>, o: PartnerGain, pEmp: real, pSoc: real): real
  {
    if kind == Some(SocioKind) && o.kind == Some(SocioKind) then Margin(o.gain, pSoc)
    else if kind == Some(EmpresaKind) && o.kind == Some(SocioKind) then Margin(o.gain, pEmp)
    else 0.0
  }

  /** `margen_otros`: the shares owed on every other partner (by id), unrounded. */
  function OthersFrom(socios: seq<PartnerGain>, s: PartnerGain, pEmp: real, pSoc: real): real
  {
    if socios == [] then 0.0
    else
      var o := socios[|socios| - 1];
      OthersFrom(socios[..|socios| - 1], s, pEmp, pSoc) + (if o.id == s.id then 0.0 else Share(s.kind, o, pEmp, pSoc))
  }

  lemma OthersStep(socios: seq<PartnerGain>, i: nat, s: PartnerGain, pEmp: real, pSoc: real)
    requires i < |socios|
    ensures OthersFrom(socios[..i + 1], s, pEmp, pSoc)
            == OthersFrom(socios[..i], s, pEmp, pSoc) + (if socios[i].id == s.id then 0.0 else Share(s.kind, socios[i], pEmp, pSoc))
  {
    assert socios[..i + 1][..i] == socios[..i];
  }

  /** The inner loop over the other partners. */
  method OthersMargin(socios: seq<PartnerGain>, s: PartnerGain, pEmp: real, pSoc: real) returns (total: real)
    ensures total == OthersFrom(socios, s, pEmp, pSoc)
  {
    total := 0.0;
    for i := 0 to |socios|
      invariant total == OthersFrom(socios[..i], s, pEmp, pSoc)
    {
      var o := socios[i];
      OthersStep(socios, i, s, pEmp, pSoc);
      if o.id == s.id {
        continue;
      }
      total := total + Share(s.kind, o, pEmp, pSoc);
    }
    assert socios[..|socios|] == socios;
  }

  /** The margin a partner of kind "Socio" takes on its own gain (`margen_socio`); nothing for other kinds. */
  function OwnShare(s: PartnerGain, pSoc: real): real
  {
    if s.kind == Some(SocioKind) then Margin(s.gain, pSoc) else 0.0
  }

  /** Each "Socio" partner's rounded share of its gain at rate `rate`. */
  function SocioShare(o: PartnerGain, rate: real): real
  {
    if o.kind == Some(SocioKind) then Margin(o.gain, rate) else 0.0
  }

  function SocioShareFn(rate: real): PartnerGain -> real
  {
    o => SocioShare(o, rate)
  }

  /** The part of `SumBy(socios, SocioShareFn(rate))` that comes from entries with id `id`. */
  function SameIdShare(socios: seq<PartnerGain>, id: int, rate: real): real
  {
    if socios == [] then 0.0
    else
      var o := socios[|socios| - 1];
      SameIdShare(socios[..|socios| - 1], id, rate) + (if o.id == id then SocioShare(o, rate) else 0.0)
  }

  /** A "Socio" partner's others-margin is the partners' pool less the entries under its own id. */
  lemma {:induction false} SocioOthersSplit(socios: seq<PartnerGain>, s: PartnerGain, pEmp: real, pSoc: real)
    requires s.kind == Some(SocioKind)
    ensures OthersFrom(socios, s, pEmp, pSoc) + SameIdShare(socios, s.id, pSoc) == SumBy(socios, SocioShareFn(pSoc))
  {
    if socios != [] {
      SocioOthersSplit(socios[..|socios| - 1], s, pEmp, pSoc);
    }
  }

  /** A "Empresa" partner's others-margin is the company rate on the pool, less the entries under its own id. */
  lemma {:induction false} EmpresaOthersSplit(socios: seq<PartnerGain>, s: PartnerGain, pEmp: real, pSoc: real)
    requires s.kind == Some(EmpresaKind)
    ensures OthersFrom(socios, s, pEmp, pSoc) + SameIdShare(socios, s.id, pEmp) == SumBy(socios, SocioShareFn(pEmp))
  {
    if socios != [] {
      EmpresaOthersSplit(socios[..|socios| - 1], s, pEmp, pSoc);
    }
  }

  /** With distinct ids, the only entry under a partner's id is the partner itself. */
  lemma {:induction false} SameIdIsSelf(socios: seq<PartnerGain>, i: nat, rate: real)
    requires i < |socios|
    requires forall a, b :: 0 <= a < b < |socios| ==> socios[a].id != socios[b].id
    ensures SameIdShare(socios, socios[i].id, rate) == SocioShare(socios[i], rate)
  {
    var n := |socios| - 1;
    var init := socios[..n];
    if i == n {
      SameIdAbsent(init, socios[i].id, rate);
    } else {
      assert init[i] == socios[i];
      SameIdIsSelf(init, i, rate);
      assert socios[n].id != socios[i].id;
    }
  }

  lemma {:induction false} SameIdAbsent(socios: seq<PartnerGain>, id: int, rate: real)
    requires forall a :: 0 <= a < |socios| ==> socios[a].id != id
    ensures SameIdShare(socios, id, rate) == 0.0
  {
    if socios != [] {
      SameIdAbsent(socios[..|socios| - 1], id, rate);
    }
  }

  /**
   * For a partner of kind "Socio", its own share plus what it owes on the
   * others is the same pool for every such partner: the partner rate on the
   * gain of every "Socio" partner.
   */
  lemma SocioPool(socios: seq<PartnerGain>, i: nat, pEmp: real, pSoc: real)
    requires i < |socios| && socios[i].kind == Some(SocioKind)
    requires forall a, b :: 0 <= a < b < |socios| ==> socios[a].id != socios[b].id
    ensures OwnShare(socios[i], pSoc) + OthersFrom(socios, socios[i], pEmp, pSoc) == SumBy(socios, SocioShareFn(pSoc))
  {
    SocioOthersSplit(socios, socios[i], pEmp, pSoc);
    SameIdIsSelf(socios, i, pSoc);
  }

  /**
   * A partner of kind "Empresa" owes the company rate on the gain of every
   * "Socio" partner, and takes no partner margin of its own.
   */
  lemma EmpresaOthers(socios: seq<PartnerGain>, i: nat, pEmp: real, pSoc: real)
    requires i < |socios| && socios[i].kind == Some(EmpresaKind)
    requires forall a, b :: 0 <= a < b < |socios| ==> socios[a].id != socios[b].id
    ensures OthersFrom(socios, socios[i], pEmp, pSoc) == SumBy(socios, SocioShareFn(pEmp))
    ensures OwnShare(socios[i], pSoc) == 0.0
  {
    EmpresaOthersSplit(socios, socios[i], pEmp, pSoc);
    SameIdIsSelf(socios, i, pEmp);
  }

  /** A partner of any other kind takes and owes no partner margins. */
  lemma {:induction false} OtherKindOwesNothing(socios: seq<PartnerGain>, s: PartnerGain, pEmp: real, pSoc: real)
    requires s.kind != Some(SocioKind) && s.kind != Some(EmpresaKind)
    ensures OthersFrom(socios, s, pEmp, pSoc) == 0.0
    ensures OwnShare(s, pSoc) == 0.0
  {
    if socios != [] {
      OtherKindOwesNothing(socios[..|socios| - 1], s, pEmp, pSoc);
    }
  }

  /**
   * `resto`: the box balance less the margins, taken in absolute value for
   * every partner but the house.
   */
  function Rest(name: string, boxTotal: real, totalMargins: real): real
  {
    if name != HouseName then Round2(Abs(boxTotal) - totalMargins) else Round2(boxTotal - totalMargins)
  }

  /**
   * Outside the house the sign of the box balance does not matter, and with
   * a non-negative balance every partner's rest is computed the same way.
   */
  lemma RestFacts(name: string, other: string, boxTotal: real, totalMargins: real)
    ensures name != HouseName ==> Rest(name, boxTotal, totalMargins) == Rest(name, -boxTotal, totalMargins)
    ensures name != HouseName ==> Rest(name, boxTotal, totalMargins) == Round2(Abs(boxTotal) - totalMargins)
    ensures name == HouseName ==> Rest(name, boxTotal, totalMargins) == Round2(boxTotal - totalMargins)
    ensures boxTotal >= 0.0 ==> Rest(name, boxTotal, totalMargins) == Rest(other, boxTotal, totalMargins)
  {
  }

  /** One line of the partner summary. */
  datatype SummaryRow = SummaryRow(
    ym: string,
    name: string,
    netGain: real,
    company: real,
    seller: real,
    partner: real,
    others: real,
    totalMargins: real,
    boxTotal: real,
    rest: real)

  /** The line of partner `s` among `socios`, with the boxes' balances `totals`. */
  function RowFor(ym: string, socios: seq<PartnerGain>, totals: map<string, real>, s: PartnerGain, pEmp: real, pVen: real, pSoc: real): SummaryRow
  {
    var others := OthersFrom(socios, s, pEmp, pSoc);
    var seller := Margin(s.gain, pVen);
    var partner := OwnShare(s, pSoc);
    var totalMargins := Round2(seller + partner + others);
    var box := if s.name in totals then totals[s.name] else 0.0;
    SummaryRow(ym, s.name, Round2(s.gain), Margin(s.gain, pEmp), seller, partner, Round2(others),
               totalMargins, box, Rest(s.name, box, totalMargins))
  }

  /**
   * The company margin is reported but not part of the total: a "Socio"
   * partner's total margins and rest do not depend on the company rate, and
   * they are its seller margin plus the partners' pool.
   */
  lemma SocioRowFacts(ym: string, socios: seq<PartnerGain>, totals: map<string, real>, i: nat, pEmp: real, pEmp': real, pVen: real, pSoc: real)
    requires i < |socios| && socios[i].kind == Some(SocioKind)
    requires forall a, b :: 0 <= a < b < |socios| ==> socios[a].id != socios[b].id
    ensures var r := RowFor(ym, socios, totals, socios[i], pEmp, pVen, pSoc);
            r.totalMargins == Round2(Margin(socios[i].gain, pVen) + SumBy(socios, SocioShareFn(pSoc)))
    ensures var r := RowFor(ym, socios, totals, socios[i], pEmp, pVen, pSoc);
            var r' := RowFor(ym, socios, totals, socios[i], pEmp', pVen, pSoc);
            r.totalMargins == r'.totalMargins && r.rest == r'.rest
  {
    var s := socios[i];
    var seller := Margin(s.gain, pVen);
    var pool := SumBy(socios, SocioShareFn(pSoc));
    RowBox(ym, socios, totals, s, pEmp, pVen, pSoc);
    RowBox(ym, socios, totals, s, pEmp', pVen, pSoc);
    SocioPool(socios, i, pEmp, pSoc);
    SocioPool(socios, i, pEmp', pSoc);
    Regroup(seller, OwnShare(s, pSoc), OthersFrom(socios, s, pEmp, pSoc), pool);
    Regroup(seller, OwnShare(s, pSoc), OthersFrom(socios, s, pEmp', pSoc), pool);
  }

  lemma Regroup(a: real, b: real, c: real, pool: real)
    requires b + c == pool
    ensures Round2(a + b + c) == Round2(a + pool)
  {
    assert a + b + c == a + pool;
  }

  /** A row reports the box balance of the partner's own name, or 0 when no box carries it. */
  lemma RowBox(ym: string, socios: seq<PartnerGain>, totals: map<string, real>, s: PartnerGain, pEmp: real, pVen: real, pSoc: real)
    ensures var r := RowFor(ym, socios, totals, s, pEmp, pVen, pSoc);
            r.name == s.name && r.ym == ym
            && (s.name in totals ==> r.boxTotal == totals[s.name])
            && (s.name !in totals ==> r.boxTotal == 0.0)
            && r.rest == Rest(s.name, r.boxTotal, r.totalMargins)
            && r.totalMargins == Round2(Margin(s.gain, pVen) + OwnShare(s, pSoc) + OthersFrom(socios, s, pEmp, pSoc))
  {
  }

  /** The rows loop: one line per partner, in order. */
  method BuildRows(ym: string, socios: seq<PartnerGain>, totals: map<string, real>, pEmp: real, pVen: real, pSoc: real)
    returns (rows: seq<SummaryRow>)
    ensures |rows| == |socios|
    ensures forall i :: 0 <= i < |socios| ==> rows[i] == RowFor(ym, socios, totals, socios[i], pEmp, pVen, pSoc)
  {
    rows := [];
    for i := 0 to |socios|
      invariant |rows| == i
      invariant forall j :: 0 <= j < i ==> rows[j] == RowFor(ym, socios, totals, socios[j], pEmp, pVen, pSoc)
    {
      var row := RowOf(ym, socios, totals, socios[i], pEmp, pVen, pSoc);
      rows := rows + [row];
    }
  }

  /** The body of the rows loop for one partner. */
  method RowOf(ym: string, socios: seq<PartnerGain>, totals: map<string, real>, s: PartnerGain, pEmp: real, pVen: real, pSoc: real)
    returns (row: SummaryRow)
    ensures row == RowFor(ym, socios, totals, s, pEmp, pVen, pSoc)
  {
    var company := Margin(s.gain, pEmp);
    var seller := Margin(s.gain, pVen);
    var partner := OwnShare(s, pSoc);
    var others := OthersMargin(socios, s, pEmp, pSoc);
    var totalMargins := Round2(seller + partner + others);
    var box := if s.name in totals then totals[s.name] else 0.0;
    var rest := Rest(s.name, box, totalMargins);
    row := SummaryRow(ym, s.name, Round2(s.gain), company, seller, partner, Round2(others), totalMargins, box, rest);
  }

  /** The summary's box balances: every purchase and sale of the period, unfiltered by box or transaction. */
  function PeriodBalances(sel: PeriodSelector, ps: seq<Purchase>, vs: seq<Sale>): map<string, real>
  {
    Balances(LedgerSpec(PurchasesIn(sel, ps), SalesIn(sel, vs)))
  }

  /** Each balance is the rounded cash a box took in over the period less what it paid out. */
  lemma PeriodBalanceOfBox(sel: PeriodSelector, ps: seq<Purchase>, vs: seq<Sale>, box: string)
    ensures var b := PeriodBalances(sel, ps, vs);
            box in b ==> b[box] == Round2(BoxInflow(SalesIn(sel, vs), box) - BoxOutflow(PurchasesIn(sel, ps), box))
  {
    BoxSum(PurchasesIn(sel, ps), SalesIn(sel, vs), box);
  }

  /**
   * The balances are those the cash ledger shows for the same year and month
   * with no box or transaction filter.
   */
  lemma PeriodBalancesAsLedger(ps: seq<Purchase>, vs: seq<Sale>, year: int, month: int)
    ensures PeriodBalances(ParseSelector(SelectorLabel(year, month)), ps, vs)
            == Balances(LedgerSpec(SelectedPurchases(ps, DashboardSelector(year, month), "", ""),
                                   SelectedSales(vs, DashboardSelector(year, month), "", "")))
  {
    var sel := DashboardSelector(year, month);
    ParseOfLabel(year, month);
    FilterCongruent(ps, (p: Purchase) => Matches(sel, p.id, p.ym), (p: Purchase) => PurchaseSelected(p, sel, "", ""));
    FilterCongruent(vs, (v: Sale) => Matches(sel, v.id, v.ym), (v: Sale) => SaleSelected(v, sel, "", ""));
  }

  /** The three margin rates read under their keys, each created with its default when missing. */
  function RatesSpec(store: map<string, real>): (real, real, real, map<string, real>)
  {
    var (e, s1) := ReadOr(store, "margen_Empresa", 0.53);
    var (v, s2) := ReadOr(s1, "margen_Vendedor", 0.20);
    var (p, s3) := ReadOr(s2, "margen_Socio", 0.09);
    (e, v, p, s3)
  }

  /** `_read_param_any([key], default)`: never fails, since a default is given. */
  function ReadOr(store: map<string, real>, key: string, default: real): (real, map<string, real>)
  {
    var (r, after) := ReadAnySpec(store, [key], Some(default));
    (if r.Ok? then r.value else default, after)
  }

  /**
   * Each rate is its stored value, or its default when it is missing, in
   * which case it is stored; nothing else in the table changes.
   */
  lemma RatesFacts(store: map<string, real>)
    ensures var (e, v, p, after) := RatesSpec(store);
            e == (if "margen_Empresa" in store then store["margen_Empresa"] else 0.53)
            && v == (if "margen_Vendedor" in store then store["margen_Vendedor"] else 0.20)
            && p == (if "margen_Socio" in store then store["margen_Socio"] else 0.09)
            && after.Keys == store.Keys + {"margen_Empresa", "margen_Vendedor", "margen_Socio"}
            && (forall k :: k in store ==> after[k] == store[k])
            && after["margen_Empresa"] == e && after["margen_Vendedor"] == v && after["margen_Socio"] == p
  {
    ReadOrFacts(store, "margen_Empresa", 0.53);
    var s1 := ReadOr(store, "margen_Empresa", 0.53).1;
    ReadOrFacts(s1, "margen_Vendedor", 0.20);
    var s2 := ReadOr(s1, "margen_Vendedor", 0.20).1;
    ReadOrFacts(s2, "margen_Socio", 0.09);
  }

  lemma ReadOrFacts(store: map<string, real>, key: string, default: real)
    ensures var (r, after) := ReadOr(store, key, default);
            r == (if key in store then store[key] else default)
            && after == store[key := r]
  {
    ReadAnySingleKey(store, key, Some(default));
    if key in store {
      assert store[key := store[key]] == store;
    }
  }

  /** The summary the function returns, for the period label `ym` and the rates read. */
  function SummarySpec(ym: string, ps: seq<Purchase>, vs: seq<Sale>, partners: seq<Partner>, pEmp: real, pVen: real, pSoc: real): (r: seq<SummaryRow>)
    ensures |r| == |partners|
  {
    var sel := ParseSelector(ym);
    var socios := FiguresOf(sel, ps, vs, partners);
    var totals := PeriodBalances(sel, ps, vs);
    seq(|socios|, i requires 0 <= i < |socios| => RowFor(ym, socios, totals, socios[i], pEmp, pVen, pSoc))
  }

  /** `build_resumen_socio` */
  method BuildResumenSocio(store: ParamStore, ym: string, ps: seq<Purchase>, vs: seq<Sale>, partners: seq<Partner>)
    returns (rows: seq<SummaryRow>, pEmp: real, pVen: real, pSoc: real)
    modifies store
    ensures (pEmp, pVen, pSoc, store.values) == RatesSpec(old(store.values))
    ensures rows == SummarySpec(ym, ps, vs, partners, pEmp, pVen, pSoc)
  {
    var r := store.ReadParamAny(["margen_Empresa"], Some(0.53));
    pEmp := if r.Ok? then r.value else 0.53;
    r := store.ReadParamAny(["margen_Vendedor"], Some(0.20));
    pVen := if r.Ok? then r.value else 0.20;
    r := store.ReadParamAny(["margen_Socio"], Some(0.09));
    pSoc := if r.Ok? then r.value else 0.09;
    var sel := ParseSelector(ym);
    var fps := PurchasesIn(sel, ps);
    var fvs := SalesIn(sel, vs);
    var raw := CollectMovements(fps, fvs);
    var totals := BoxTotals(raw);
    var socios := CollectFigures(sel, ps, vs, partners);
    rows := BuildRows(ym, socios, totals, pEmp, pVen, pSoc);
  }
}
