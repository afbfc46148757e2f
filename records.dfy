// The stored entities: partners, purchases, sales and (in the legacy
// application) personal purchases, with the nullable columns as options,
// and the amount formulas every view derives from a row.

module Records {
  import opened Common
  import opened Period

  /** A partner (`Socio`); `kind` is "Socio" or "Empresa" in practice. */
  datatype Partner = Partner(id: int, name: string, kind: Option<string>, marginPct: Option<real>)

  /** A purchase (`Compra`). */
  datatype Purchase = Purchase(
    id: int,
    date: Date,
    ym: Option<string>,
    supplier: Option<string>,
    partnerId: Option<int>,
    net: Option<real>,
    vat21: Option<real>,
    vat105: Option<real>,
    total: Option<real>,
    kind: Option<string>,
    invoice: Option<string>,
    taxId: Option<string>,
    source: Option<string>,
    status: Option<string>,
    description: Option<string>,
    personal: Option<bool>,
    deductiblePct: Option<real>,
    transactionId: Option<string>)

  /** A sale (`Venta`). */
  datatype Sale = Sale(
    id: int,
    date: Date,
    ym: Option<string>,
    customer: Option<string>,
    partnerId: Option<int>,
    net: Option<real>,
    vat21: Option<real>,
    vat105: Option<real>,
    total: Option<real>,
    invoice: Option<string>,
    taxId: Option<string>,
    destination: Option<string>,
    status: Option<string>,
    description: Option<string>,
    kind: Option<string>,
    transactionId: Option<string>)

  /** A personal purchase (`CompraPersonal`, legacy application only): VAT but no net amount. */
  datatype PersonalPurchase = PersonalPurchase(
    id: int,
    date: Date,
    ym: Option<string>,
    supplier: Option<string>,
    partnerId: Option<int>,
    vat21: Option<real>,
    vat105: Option<real>,
    kind: Option<string>,
    invoice: Option<string>,
    taxId: Option<string>,
    source: Option<string>,
    status: Option<string>)

  /** Python truthiness of a nullable text column: present and not empty. */
  predicate Present(s: Option<string>)
  {
    s.Some? && s.value != []
  }

  /** `x or ""` for a nullable text column. */
  function TextOr(s: Option<string>): string
  {
    s.GetOr("")
  }

  /** A purchase is personal only when the flag is set; a NULL flag counts as not personal. */
  predicate IsPersonal(p: Purchase)
  {
    p.personal == Some(true)
  }

  /** `(iva_21 or 0) + (iva_105 or 0)` */
  function VatOf(vat21: Option<real>, vat105: Option<real>): real
  {
    OrZero(vat21) + OrZero(vat105)
  }

  /**
   * The total with VAT the reports show: the stored total unless it is
   * missing or zero, otherwise net plus both VAT amounts.
   */
  function TotalWithVat(total: Option<real>, net: Option<real>, vat21: Option<real>, vat105: Option<real>): real
  {
    if total.Some? && total.value != 0.0 then total.value
    else OrZero(net) + VatOf(vat21, vat105)
  }

  /**
   * The fallback total is the stored one whenever one is stored, and is zero
   * only when the row holds no amount at all or amounts cancelling out.
   * Storing the derived total and deriving it again changes nothing.
   */
  lemma TotalWithVatFacts(total: Option<real>, net: Option<real>, vat21: Option<real>, vat105: Option<real>)
    ensures total.Some? && total.value != 0.0 ==> TotalWithVat(total, net, vat21, vat105) == total.value
    ensures TotalWithVat(total, net, vat21, vat105) == 0.0 ==> OrZero(net) + OrZero(vat21) + OrZero(vat105) == 0.0
    ensures TotalWithVat(Some(TotalWithVat(total, net, vat21, vat105)), net, vat21, vat105)
            == TotalWithVat(total, net, vat21, vat105)
  {
  }

  /** `PurchaseTotal` and `SaleTotal`: the fallback total of a stored row. */
  function PurchaseTotal(p: Purchase): real
  {
    TotalWithVat(p.total, p.net, p.vat21, p.vat105)
  }

  function SaleTotal(v: Sale): real
  {
    TotalWithVat(v.total, v.net, v.vat21, v.vat105)
  }

  /** The rows of a store that the period filter keeps, in store order. */
  function PurchasesIn(sel: PeriodSelector, ps: seq<Purchase>): seq<Purchase>
  {
    Filter(ps, (p: Purchase) => Matches(sel, p.id, p.ym))
  }

  function SalesIn(sel: PeriodSelector, vs: seq<Sale>): seq<Sale>
  {
    Filter(vs, (v: Sale) => Matches(sel, v.id, v.ym))
  }

  /** The period filter keeps exactly the purchases it matches, in their order. */
  lemma PurchasesInFacts(sel: PeriodSelector, ps: seq<Purchase>, p: Purchase)
    ensures p in PurchasesIn(sel, ps) <==> p in ps && Matches(sel, p.id, p.ym)
    ensures IsSubsequence(PurchasesIn(sel, ps), ps)
    ensures sel == AllPeriods ==> PurchasesIn(sel, ps) == ps
  {
    FilterMembership(ps, (p: Purchase) => Matches(sel, p.id, p.ym), p);
    FilterSubsequence(ps, (p: Purchase) => Matches(sel, p.id, p.ym));
    if sel == AllPeriods {
      FilterAll(ps, (p: Purchase) => Matches(sel, p.id, p.ym));
    }
  }

  lemma SalesInFacts(sel: PeriodSelector, vs: seq<Sale>, v: Sale)
    ensures v in SalesIn(sel, vs) <==> v in vs && Matches(sel, v.id, v.ym)
    ensures IsSubsequence(SalesIn(sel, vs), vs)
    ensures sel == AllPeriods ==> SalesIn(sel, vs) == vs
  {
    FilterMembership(vs, (v: Sale) => Matches(sel, v.id, v.ym), v);
    FilterSubsequence(vs, (v: Sale) => Matches(sel, v.id, v.ym));
    if sel == AllPeriods {
      FilterAll(vs, (v: Sale) => Matches(sel, v.id, v.ym));
    }
  }
}
