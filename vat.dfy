// Deductible purchase VAT on the dashboard: each purchase's VAT is credited
// at an effective percentage (its own override, else the personal or the
// normal default), forced into [0, 1]; the credit on personal purchases is
// reported apart and the partners carry what the company cannot credit.

module Vat {
  import opened Common
  import opened Records

  /** `(iva_21 or 0) + (iva_105 or 0)` of a purchase. */
  function VatBase(p: Purchase): real
  {
    VatOf(p.vat21, p.vat105)
  }

  /**
   * SQL `SUM(iva_21 + iva_105)` per row: a row with either column NULL adds
   * NULL, which `SUM` skips.
   */
  function SqlVat(vat21: Option<real>, vat105: Option<real>): real
  {
    if vat21.Some? && vat105.Some? then vat21.value + vat105.value else 0.0
  }

  /** The percentage of a purchase's VAT the company credits. */
  function EffectivePct(p: Purchase, normalPct: real, personalPct: real): (r: real)
    ensures 0.0 <= r <= 1.0
    ensures p.deductiblePct.Some? ==> r == Clamp01(p.deductiblePct.value)
    ensures p.deductiblePct.None? && IsPersonal(p) ==> r == Clamp01(personalPct)
    ensures p.deductiblePct.None? && !IsPersonal(p) ==> r == Clamp01(normalPct)
  {
    Clamp01(if p.deductiblePct.Some? then p.deductiblePct.value
            else if IsPersonal(p) then personalPct else normalPct)
  }

  /** The VAT credited for one purchase. */
  function Credit(p: Purchase, normalPct: real, personalPct: real): real
  {
    VatBase(p) * EffectivePct(p, normalPct, personalPct)
  }

  function CreditFn(normalPct: real, personalPct: real): Purchase -> real
  {
    p => Credit(p, normalPct, personalPct)
  }

  /** The credit of a personal purchase; nothing for the others. */
  function PersonalCreditFn(normalPct: real, personalPct: real): Purchase -> real
  {
    p => if IsPersonal(p) then Credit(p, normalPct, personalPct) else 0.0
  }

  /** The SQL total of the VAT of the personal purchases (`personal == True`). */
  function PersonalVat(p: Purchase): real
  {
    if IsPersonal(p) then SqlVat(p.vat21, p.vat105) else 0.0
  }

  /** What is left for the partners of the personal VAT: never negative. */
  function PartnersPersonalShare(personalTotal: real, companyCredit: real): (r: real)
    ensures r >= 0.0
    ensures personalTotal >= companyCredit ==> r == personalTotal - companyCredit
  {
    Max(personalTotal - companyCredit, 0.0)
  }

  /**
   * The dashboard loop: the creditable purchase VAT and, apart, the part of
   * it that comes from personal purchases.
   */
  method CreditableVat(ps: seq<Purchase>, normalPct: real, personalPct: real) returns (creditable: real, personalCredit: real)
    ensures creditable == SumBy(ps, CreditFn(normalPct, personalPct))
    ensures personalCredit == SumBy(ps, PersonalCreditFn(normalPct, personalPct))
  {
    creditable := 0.0;
    personalCredit := 0.0;
    for i := 0 to |ps|
      invariant creditable == SumBy(ps[..i], CreditFn(normalPct, personalPct))
      invariant personalCredit == SumBy(ps[..i], PersonalCreditFn(normalPct, personalPct))
    {
      var p := ps[i];
      var base := VatOf(p.vat21, p.vat105);
      var eff := if p.deductiblePct.Some? then p.deductiblePct.value
                 else if IsPersonal(p) then personalPct else normalPct;
      eff := Clamp01(eff);
      assert ps[..i + 1][..i] == ps[..i];
      creditable := creditable + base * eff;
      if IsPersonal(p) {
        personalCredit := personalCredit + base * eff;
      }
    }
    assert ps[..|ps|] == ps;
  }

  lemma ScaleBounds(b: real, e: real)
    requires 0.0 <= b && 0.0 <= e <= 1.0
    ensures 0.0 <= b * e <= b
  {
  }

  lemma ScaleMonotone(b: real, e: real, e': real)
    requires 0.0 <= b && e <= e'
    ensures b * e <= b * e'
  {
  }

  lemma CreditOfOne(p: Purchase, normalPct: real, personalPct: real)
    requires VatBase(p) >= 0.0
    ensures 0.0 <= PersonalCreditFn(normalPct, personalPct)(p) <= CreditFn(normalPct, personalPct)(p) <= VatBase(p)
  {
    var b := VatBase(p);
    var e := EffectivePct(p, normalPct, personalPct);
    ScaleBounds(b, e);
    assert Credit(p, normalPct, personalPct) == b * e;
    assert CreditFn(normalPct, personalPct)(p) == Credit(p, normalPct, personalPct);
    assert PersonalCreditFn(normalPct, personalPct)(p) == if IsPersonal(p) then Credit(p, normalPct, personalPct) else 0.0;
  }

  /** With non-negative VAT amounts the credit lies between nothing and the whole VAT. */
  lemma CreditBounds(ps: seq<Purchase>, normalPct: real, personalPct: real)
    requires forall i :: 0 <= i < |ps| ==> VatBase(ps[i]) >= 0.0
    ensures 0.0 <= SumBy(ps, CreditFn(normalPct, personalPct)) <= SumBy(ps, VatBase)
    ensures 0.0 <= SumBy(ps, PersonalCreditFn(normalPct, personalPct)) <= SumBy(ps, CreditFn(normalPct, personalPct))
  {
    var f := CreditFn(normalPct, personalPct);
    var g := PersonalCreditFn(normalPct, personalPct);
    forall i | 0 <= i < |ps| ensures 0.0 <= g(ps[i]) <= f(ps[i]) <= VatBase(ps[i]) {
      CreditOfOne(ps[i], normalPct, personalPct);
    }
    SumByMonotone(ps, f, VatBase);
    SumByMonotone(ps, g, f);
    SumByNonNegative(ps, g);
  }

  lemma EffectiveMonotone(p: Purchase, normalPct: real, normalPct': real, personalPct: real)
    requires normalPct <= normalPct'
    ensures EffectivePct(p, normalPct, personalPct) <= EffectivePct(p, normalPct', personalPct)
  {
  }

  /** Raising the normal percentage never lowers the credit. */
  lemma CreditMonotone(ps: seq<Purchase>, normalPct: real, normalPct': real, personalPct: real)
    requires forall i :: 0 <= i < |ps| ==> VatBase(ps[i]) >= 0.0
    requires normalPct <= normalPct'
    ensures SumBy(ps, CreditFn(normalPct, personalPct)) <= SumBy(ps, CreditFn(normalPct', personalPct))
  {
    forall i | 0 <= i < |ps|
      ensures CreditFn(normalPct, personalPct)(ps[i]) <= CreditFn(normalPct', personalPct)(ps[i])
    {
      EffectiveMonotone(ps[i], normalPct, normalPct', personalPct);
      ScaleMonotone(VatBase(ps[i]), EffectivePct(ps[i], normalPct, personalPct), EffectivePct(ps[i], normalPct', personalPct));
    }
    SumByMonotone(ps, CreditFn(normalPct, personalPct), CreditFn(normalPct', personalPct));
  }

  /** Without personal purchases the partners' share of personal VAT is nothing. */
  lemma NoPersonalNoShare(ps: seq<Purchase>, normalPct: real, personalPct: real)
    requires forall i :: 0 <= i < |ps| ==> !IsPersonal(ps[i])
    ensures SumBy(ps, PersonalCreditFn(normalPct, personalPct)) == 0.0
    ensures SumBy(ps, PersonalVat) == 0.0
    ensures PartnersPersonalShare(SumBy(ps, PersonalVat), SumBy(ps, PersonalCreditFn(normalPct, personalPct))) == 0.0
  {
    SumByZero(ps, PersonalCreditFn(normalPct, personalPct));
    SumByZero(ps, PersonalVat);
  }

  /** The part of a personal purchase's VAT the company does not credit. */
  function PersonalRestFn(normalPct: real, personalPct: real): Purchase -> real
  {
    p => if IsPersonal(p) then VatBase(p) * (1.0 - EffectivePct(p, normalPct, personalPct)) else 0.0
  }

  /**
   * When every personal purchase has both VAT columns filled in (so the SQL
   * total and the loop see the same amounts), the partners carry exactly
   * the uncreditable part of each personal purchase's VAT.
   */
  lemma PartnersCarryTheRest(ps: seq<Purchase>, normalPct: real, personalPct: real)
    requires forall i :: 0 <= i < |ps| && IsPersonal(ps[i]) ==> ps[i].vat21.Some? && ps[i].vat105.Some?
    ensures SumBy(ps, PersonalVat) - SumBy(ps, PersonalCreditFn(normalPct, personalPct))
            == SumBy(ps, PersonalRestFn(normalPct, personalPct))
  {
    forall i | 0 <= i < |ps|
      ensures PersonalRestFn(normalPct, personalPct)(ps[i])
              == PersonalVat(ps[i]) - PersonalCreditFn(normalPct, personalPct)(ps[i])
    {
      var b := VatBase(ps[i]);
      var e := EffectivePct(ps[i], normalPct, personalPct);
      assert b * (1.0 - e) == b - b * e;
    }
    SumByDifference(ps, PersonalVat, PersonalCreditFn(normalPct, personalPct), PersonalRestFn(normalPct, personalPct));
  }

  /** ... and that share is what the dashboard reports for the partners. */
  lemma PartnersShareIsTheRest(ps: seq<Purchase>, normalPct: real, personalPct: real)
    requires forall i :: 0 <= i < |ps| && IsPersonal(ps[i]) ==> ps[i].vat21.Some? && ps[i].vat105.Some?
    requires forall i :: 0 <= i < |ps| ==> VatBase(ps[i]) >= 0.0
    ensures PartnersPersonalShare(SumBy(ps, PersonalVat), SumBy(ps, PersonalCreditFn(normalPct, personalPct)))
            == SumBy(ps, PersonalRestFn(normalPct, personalPct))
  {
    PartnersCarryTheRest(ps, normalPct, personalPct);
    RestNonNegative(ps, normalPct, personalPct);
  }

  lemma RestNonNegative(ps: seq<Purchase>, normalPct: real, personalPct: real)
    requires forall i :: 0 <= i < |ps| ==> VatBase(ps[i]) >= 0.0
    ensures SumBy(ps, PersonalRestFn(normalPct, personalPct)) >= 0.0
  {
    forall i | 0 <= i < |ps| ensures 0.0 <= PersonalRestFn(normalPct, personalPct)(ps[i]) {
      ScaleBounds(VatBase(ps[i]), 1.0 - EffectivePct(ps[i], normalPct, personalPct));
    }
    SumByNonNegative(ps, PersonalRestFn(normalPct, personalPct));
  }
}
