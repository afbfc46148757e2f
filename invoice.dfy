// Invoice numbers: the point of sale and the eight-digit number read out of
// whatever the spreadsheet held, and the "PPPP-NNNNNNNN" display form.

module Invoice {
  import opened Common
  import opened Text

  datatype InvoiceSplit = InvoiceSplit(pv: string, num: string, formatted: string)

  /** The digits read as the point of sale: all but the last eight, or "1". */
  function PvHead(digits: string): string
  {
    if |digits| <= 8 then "1" else digits[..|digits| - 8]
  }

  /** The point of sale: the leading digits read as an integer and printed with at least four digits. */
  function PointOfSale(digits: string): (r: string)
    requires AllDigits(digits)
    ensures AllDigits(r) && 4 <= |r|
    ensures |digits| <= 8 ==> r == "0001"
    ensures 8 < |digits| ==> DigitsValue(r) == DigitsValue(digits[..|digits| - 8])
    ensures 4 < |r| ==> r[0] != '0'
  {
    var p := PvHead(digits);
    assert AllDigits(p);
    ZFillDigits(IntStr(p), 4);
    PaddedIntStrValue(p, 4);
    PaddedOne();
    ZFill(IntStr(p), 4)
  }

  /** The number: the last eight digits, or all of them padded to eight. */
  function NumberPart(digits: string): (r: string)
    requires AllDigits(digits)
    ensures |r| == 8 && AllDigits(r)
    ensures |digits| <= 8 ==> r == Zeros(8 - |digits|) + digits
    ensures 8 < |digits| ==> r == digits[|digits| - 8..]
  {
    if |digits| <= 8 then
      ZFillDigits(digits, 8);
      ZFill(digits, 8)
    else
      digits[|digits| - 8..]
  }

  /**
   * The point of sale and number for a non-empty string of digits: up to
   * eight digits are the number at point of sale 1; beyond that the last
   * eight digits are the number and the leading ones the point of sale.
   */
  function PvAndNumber(digits: string): (r: (string, string))
    requires digits != [] && AllDigits(digits)
    ensures |r.1| == 8 && AllDigits(r.1) && AllDigits(r.0) && 4 <= |r.0|
    ensures |digits| <= 8 ==> r.0 == "0001"
    ensures 8 < |digits| ==> DigitsValue(r.0) == DigitsValue(digits[..|digits| - 8])
    ensures 4 < |r.0| ==> r.0[0] != '0'
    ensures |digits| <= 8 ==> r.1 == Zeros(8 - |digits|) + digits
    ensures 8 < |digits| ==> r.1 == digits[|digits| - 8..]
  {
    (PointOfSale(digits), NumberPart(digits))
  }

  /** `_split_fact`: the empty triple when the value holds no digit. */
  function SplitFact(raw: Option<string>): (r: InvoiceSplit)
    ensures r.num != [] ==> r.formatted == r.pv + "-" + r.num
    ensures Digits(Strip(raw.GetOr(""))) == [] <==> r == InvoiceSplit("", "", "")
    ensures r.num != [] ==> |r.num| == 8 && AllDigits(r.num) && AllDigits(r.pv) && 4 <= |r.pv|
  {
    var s := Digits(Strip(raw.GetOr("")));
    if s == [] then InvoiceSplit("", "", "")
    else
      var parts := PvAndNumber(s);
      InvoiceSplit(parts.0, parts.1, parts.0 + "-" + parts.1)
  }

  /** The `factnum` template filter. */
  function FormatFactnum(value: Option<string>): string
  {
    if value.None? then ""
    else
      var s := Strip(value.value);
      var digits := Digits(s);
      if digits == [] then s
      else
        var parts := PvAndNumber(digits);
        parts.0 + "-" + parts.1
  }

  /**
   * The display filter and the ARCA split agree on every value with a digit;
   * otherwise the filter shows the stripped text (nothing for a missing value).
   */
  lemma FormatAgreesWithSplit(value: Option<string>)
    ensures value.None? ==> FormatFactnum(value) == ""
    ensures value.Some? && Digits(Strip(value.value)) == [] ==> FormatFactnum(value) == Strip(value.value)
    ensures value.Some? && Digits(Strip(value.value)) != [] ==> FormatFactnum(value) == SplitFact(value).formatted
  {
  }

  lemma DigitsOfFormatted(pv: string, num: string)
    requires AllDigits(pv) && AllDigits(num)
    ensures Digits(pv + "-" + num) == pv + num
  {
    var t := "-" + num;
    assert pv + "-" + num == pv + t;
    DigitsConcat(pv, t);
    DigitsConcat("-", num);
    assert Digits("-") == [];
    assert Digits(t) == Digits(num);
    DigitsOfDigits(pv);
    DigitsOfDigits(num);
  }

  /** A joined point of sale and number does not start or end with white space. */
  lemma JoinedIsStripped(pv: string, num: string)
    requires pv != [] && IsDigit(pv[0]) && num != [] && IsDigit(num[|num| - 1])
    ensures Strip(pv + "-" + num) == pv + "-" + num
  {
    var f := pv + "-" + num;
    assert f[0] == pv[0] && f[|f| - 1] == num[|num| - 1];
    StripNoop(f);
  }

  /** A point of sale of four or more digits followed by an eight-digit number splits back apart. */
  lemma JoinedSplit(pv: string, num: string)
    requires AllDigits(pv) && 4 <= |pv| && AllDigits(num) && |num| == 8
    ensures AllDigits(pv + num)
    ensures PvAndNumber(pv + num) == (ZFill(IntStr(pv), 4), num)
  {
    var d := pv + num;
    assert AllDigits(d);
    assert d[..|d| - 8] == pv;
    assert d[|d| - 8..] == num;
    assert Zeros(0) == [];
  }

  /** Splitting a formatted invoice number again gives back the same parts. */
  lemma SplitFactIdempotent(raw: Option<string>)
    ensures SplitFact(Some(SplitFact(raw).formatted)) == SplitFact(raw)
  {
    var r := SplitFact(raw);
    var s := Digits(Strip(raw.GetOr("")));
    if s != [] {
      assert r.pv == ZFill(IntStr(PvHead(s)), 4);
      JoinedIsStripped(r.pv, r.num);
      DigitsOfFormatted(r.pv, r.num);
      JoinedSplit(r.pv, r.num);
      IntStrOfPadded(PvHead(s), 4);
    }
  }

  /** A value that is already a string of digits is split as it stands. */
  lemma SplitOfDigits(v: string)
    requires v != [] && AllDigits(v)
    ensures SplitFact(Some(v)).pv == PvAndNumber(v).0
    ensures SplitFact(Some(v)).num == PvAndNumber(v).1
  {
    assert IsDigit(v[0]) && IsDigit(v[|v| - 1]);
    StripNoop(v);
    DigitsOfDigits(v);
    assert Digits(Strip(Some(v).GetOr(""))) == v;
  }

  /** Up to eight digits: point of sale 0001 and the digits padded to eight. */
  lemma SplitShort(digits: string)
    requires digits != [] && |digits| <= 8 && AllDigits(digits)
    ensures SplitFact(Some(digits)).pv == "0001"
    ensures SplitFact(Some(digits)).num == Zeros(8 - |digits|) + digits
  {
    SplitOfDigits(digits);
  }

  /** A point of sale written only with zeros is the integer 0, shown as "0000". */
  lemma PointOfSaleZeros(zeros: string, num: string)
    requires forall i :: 0 <= i < |zeros| ==> zeros[i] == '0'
    requires |num| == 8 && AllDigits(num)
    ensures AllDigits(zeros + num)
    ensures zeros != [] ==> PointOfSale(zeros + num) == "0000"
  {
    var v := zeros + num;
    assert AllDigits(zeros);
    assert AllDigits(v);
    if zeros != [] {
      assert PvHead(v) == zeros;
      IntStrOfZeros(zeros);
      PaddedZero();
    }
  }

  /**
   * More than eight digits: the last eight are the number; a point of sale
   * written only with zeros is read as the integer 0 and shown as "0000".
   */
  lemma SplitZeroPointOfSale(zeros: string, num: string)
    requires zeros != [] && forall i :: 0 <= i < |zeros| ==> zeros[i] == '0'
    requires |num| == 8 && AllDigits(num)
    ensures SplitFact(Some(zeros + num)).pv == "0000"
    ensures SplitFact(Some(zeros + num)).num == num
  {
    var v := zeros + num;
    PointOfSaleZeros(zeros, num);
    SplitOfDigits(v);
    assert v[|v| - 8..] == num;
  }
}
