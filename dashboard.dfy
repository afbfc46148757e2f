// The dashboard (`index`): for a year and a month, the period's net sales
// and purchases, their VAT, the creditable purchase VAT, the VAT payable,
// the personal VAT and how it splits between company and partners, the
// counts of unpaid rows and each partner's gain.

module Dashboard {
  import opened Common
  import opened Period
  import opened Records
  import opened Params
  import opened Vat
  import opened Margins

  /** The status of a row not yet paid. */
  const OwedStatus: string := "ADEUDADO"

  predicate PurchaseOwed(p: Purchase) { p.status == Some(OwedStatus) }
  predicate SaleOwed(v: Sale) { v.status == Some(OwedStatus) }

  /** SQL `SUM(iva_21 + iva_105)` contributions of a sale and of a purchase. */
  function SaleSqlVat(v: Sale): real { SqlVat(v.vat21, v.vat105) }
  function PurchaseSqlVat(p: Purchase): real { SqlVat(p.vat21, p.vat105) }

  /** What the dashboard shows. */
  datatype DashboardView = DashboardView(
    salesNet: real,
    salesVat: real,
    salesGross: real,
    purchasesNet: real,
    purchasesVat: real,
    purchasesGross: real,
    creditable: real,
    netGain: real,
    vatPayable: real,
    personalVat: real,
    personalCreditCompany: real,
    personalCreditPartners: real,
    owedPurchases: nat,
    owedSales: nat,
    perPartner: seq<PartnerGain>)

  /** The dashboard for a year and a month, at the normal and personal deductible percentages read. */
  function DashboardSpec(year: int, month: int, ps: seq<Purchase>, vs: seq<Sale>, partners: seq<Partner>,
                         normalPct: real, personalPct: real): DashboardView
  {
    var sel := DashboardSelector(year, month);
    var fps := PurchasesIn(sel, ps);
    var fvs := SalesIn(sel, vs);
    var salesNet := SumBy(fvs, SaleNet);
    var salesVat := SumBy(fvs, SaleSqlVat);
    var purchasesNet := SumBy(fps, PurchaseNet);
    var purchasesVat := SumBy(fps, PurchaseSqlVat);
    var creditable := SumBy(fps, CreditFn(normalPct, personalPct));
    var personalVat := SumBy(fps, PersonalVat);
    var personalCredit := SumBy(fps, PersonalCreditFn(normalPct, personalPct));
    DashboardView(salesNet, salesVat, salesNet + salesVat,
                  purchasesNet, purchasesVat, purchasesNet + purchasesVat,
                  creditable, salesNet - purchasesNet, salesVat - creditable,
                  personalVat, personalCredit, PartnersPersonalShare(personalVat, personalCredit),
                  |Filter(fps, PurchaseOwed)|, |Filter(fvs, SaleOwed)|,
                  FiguresOf(sel, ps, vs, partners))
  }

  /** The two deductible percentages, each created with its default when missing. */
  function DeductibleRates(store: map<string, real>): (real, real, map<string, real>)
  {
    var (normalPct, s1) := GetParamOr(store, "iva_deducible_normal_pct", 1.0);
    var (personalPct, s2) := GetParamOr(s1, "iva_deducible_personal_default_pct", 0.5);
    (normalPct, personalPct, s2)
  }

  /** `index`: reads the two percentages, then computes the view. */
  method Index(store: ParamStore, year: int, month: int, ps: seq<Purchase>, vs: seq<Sale>, partners: seq<Partner>)
    returns (view: DashboardView)
    modifies store
    ensures var (normalPct, personalPct, after) := DeductibleRates(old(store.values));
            store.values == after && view == DashboardSpec(year, month, ps, vs, partners, normalPct, personalPct)
  {
    var sel := DashboardSelector(year, month);
    var fps := PurchasesIn(sel, ps);
    var fvs := SalesIn(sel, vs);
    var salesNet := SumBy(fvs, SaleNet);
    var salesVat := SumBy(fvs, SaleSqlVat);
    var purchasesNet := SumBy(fps, PurchaseNet);
    var purchasesVat := SumBy(fps, PurchaseSqlVat);
    var personalVat := SumBy(fps, PersonalVat);
    var normalPct, personalPct := ReadDeductibleRates(store);
    var creditable, personalCredit := CreditableVat(fps, normalPct, personalPct);
    var socios := CollectFigures(sel, ps, vs, partners);
    view := DashboardView(salesNet, salesVat, salesNet + salesVat,
                          purchasesNet, purchasesVat, purchasesNet + purchasesVat,
                          creditable, salesNet - purchasesNet, salesVat - creditable,
                          personalVat, personalCredit, PartnersPersonalShare(personalVat, personalCredit),
                          |Filter(fps, PurchaseOwed)|, |Filter(fvs, SaleOwed)|, socios);
  }

  /** `get_param` of the two deductible percentages, each with its default. */
  method ReadDeductibleRates(store: ParamStore) returns (normalPct: real, personalPct: real)
    modifies store
    ensures (normalPct, personalPct, store.values) == DeductibleRates(old(store.values))
  {
    var r := store.GetParam("iva_deducible_normal_pct", Some(1.0));
    normalPct := if r.Ok? then r.value else 1.0;
    r := store.GetParam("iva_deducible_personal_default_pct", Some(0.5));
    personalPct := if r.Ok? then r.value else 0.5;
  }

  /** The percentages read are the stored ones or their defaults, and only their keys are added. */
  lemma DeductibleRatesFacts(store: map<string, real>)
    ensures var (normalPct, personalPct, after) := DeductibleRates(store);
            normalPct == (if "iva_deducible_normal_pct" in store then store["iva_deducible_normal_pct"] else 1.0)
            && personalPct == (if "iva_deducible_personal_default_pct" in store then store["iva_deducible_personal_default_pct"] else 0.5)
            && after.Keys == store.Keys + {"iva_deducible_normal_pct", "iva_deducible_personal_default_pct"}
            && (forall k :: k in store ==> after[k] == store[k])
  {
  }

  /**
   * When the partners have distinct ids and every row of the period is
   * booked to one of them, the partners' gains add up to the net gain shown.
   */
  lemma PartnerGainsAddUp(year: int, month: int, ps: seq<Purchase>, vs: seq<Sale>, partners: seq<Partner>, normalPct: real, personalPct: real)
    requires Attributed(DashboardSelector(year, month), ps, vs, partners)
    ensures var view := DashboardSpec(year, month, ps, vs, partners, normalPct, personalPct);
            SumBy(view.perPartner, Gain) == view.netGain
  {
    ViewFigures(year, month, ps, vs, partners, normalPct, personalPct);
    GainsAddUp(DashboardSelector(year, month), ps, vs, partners);
  }

  /** The net gain and the partners' figures shown, as the period's rows give them. */
  lemma ViewFigures(year: int, month: int, ps: seq<Purchase>, vs: seq<Sale>, partners: seq<Partner>, normalPct: real, personalPct: real)
    ensures var view := DashboardSpec(year, month, ps, vs, partners, normalPct, personalPct);
            var sel := DashboardSelector(year, month);
            view.netGain == SumBy(SalesIn(sel, vs), SaleNet) - SumBy(PurchasesIn(sel, ps), PurchaseNet)
            && view.perPartner == FiguresOf(sel, ps, vs, partners)
  {
  }

  /**
   * Each partner's figures on the dashboard are those the partner summary
   * computes for the label of the same year and month.
   */
  lemma SameFiguresAsSummary(year: int, month: int, ps: seq<Purchase>, vs: seq<Sale>, partners: seq<Partner>, normalPct: real, personalPct: real)
    ensures DashboardSpec(year, month, ps, vs, partners, normalPct, personalPct).perPartner
            == FiguresOf(ParseSelector(SelectorLabel(year, month)), ps, vs, partners)
  {
    ViewFigures(year, month, ps, vs, partners, normalPct, personalPct);
    ParseOfLabel(year, month);
  }

  /** A purchase with both VAT columns set. */
  predicate FullVat(p: Purchase)
  {
    p.vat21.Some? && p.vat105.Some?
  }

  lemma {:induction false} SqlVatIsBase(ps: seq<Purchase>)
    requires forall i :: 0 <= i < |ps| ==> FullVat(ps[i])
    ensures SumBy(ps, PurchaseSqlVat) == SumBy(ps, VatBase)
  {
    if ps != [] {
      SqlVatIsBase(ps[..|ps| - 1]);
    }
  }

  /**
   * With both VAT columns set and non-negative on every purchase of the
   * period, the creditable VAT lies between nothing and the purchase VAT,
   * the company's credit on personal purchases is part of it, and so the
   * VAT payable lies between the sales VAT less the purchase VAT and the
   * sales VAT.
   */
  lemma VatPayableBounds(year: int, month: int, ps: seq<Purchase>, vs: seq<Sale>, partners: seq<Partner>, normalPct: real, personalPct: real)
    requires var fps := PurchasesIn(DashboardSelector(year, month), ps);
             forall i :: 0 <= i < |fps| ==> FullVat(fps[i]) && VatBase(fps[i]) >= 0.0
    ensures var view := DashboardSpec(year, month, ps, vs, partners, normalPct, personalPct);
            0.0 <= view.personalCreditCompany <= view.creditable <= view.purchasesVat
            && view.salesVat - view.purchasesVat <= view.vatPayable <= view.salesVat
  {
    var fps := PurchasesIn(DashboardSelector(year, month), ps);
    CreditBounds(fps, normalPct, personalPct);
    SqlVatIsBase(fps);
  }

  /**
   * The partners' share of the personal VAT is never negative and, with both
   * VAT columns set on the personal purchases, it is exactly the part of
   * their VAT the company does not credit.
   */
  lemma PartnersShareFacts(year: int, month: int, ps: seq<Purchase>, vs: seq<Sale>, partners: seq<Partner>, normalPct: real, personalPct: real)
    ensures DashboardSpec(year, month, ps, vs, partners, normalPct, personalPct).personalCreditPartners >= 0.0
    ensures var fps := PurchasesIn(DashboardSelector(year, month), ps);
            (forall i :: 0 <= i < |fps| ==> VatBase(fps[i]) >= 0.0 && (IsPersonal(fps[i]) ==> FullVat(fps[i])))
            ==> DashboardSpec(year, month, ps, vs, partners, normalPct, personalPct).personalCreditPartners
                == SumBy(fps, PersonalRestFn(normalPct, personalPct))
  {
    var fps := PurchasesIn(DashboardSelector(year, month), ps);
    if forall i :: 0 <= i < |fps| ==> VatBase(fps[i]) >= 0.0 && (IsPersonal(fps[i]) ==> FullVat(fps[i])) {
      PartnersShareIsTheRest(fps, normalPct, personalPct);
    }
  }

  /**
   * The unpaid counts are the unpaid rows of the selected period, so they
   * never exceed its rows, and for every period they are the unpaid rows of
   * the store.
   */
  lemma OwedCounts(year: int, month: int, ps: seq<Purchase>, vs: seq<Sale>, partners: seq<Partner>, normalPct: real, personalPct: real)
    ensures var view := DashboardSpec(year, month, ps, vs, partners, normalPct, personalPct);
            var sel := DashboardSelector(year, month);
            view.owedPurchases == |Filter(PurchasesIn(sel, ps), PurchaseOwed)|
            && view.owedSales == |Filter(SalesIn(sel, vs), SaleOwed)|
    ensures var view := DashboardSpec(year, month, ps, vs, partners, normalPct, personalPct);
            var sel := DashboardSelector(year, month);
            view.owedPurchases <= |PurchasesIn(sel, ps)| && view.owedSales <= |SalesIn(sel, vs)|
    ensures year == AllYears && month == AllMonths ==>
            var view := DashboardSpec(year, month, ps, vs, partners, normalPct, personalPct);
            view.owedPurchases == |Filter(ps, PurchaseOwed)| && view.owedSales == |Filter(vs, SaleOwed)|
  {
    if year == AllYears && month == AllMonths {
      FilterAll(ps, (p: Purchase) => Matches(AllPeriods, p.id, p.ym));
      FilterAll(vs, (v: Sale) => Matches(AllPeriods, v.id, v.ym));
    }
  }
}
