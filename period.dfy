// Periods: the "YYYY-MM" key stored on every purchase and sale, and the
// period selectors the dashboard and the partner summary build from a year
// and a month (1313 standing for every year and 13 for every month).

module Period {
  import opened Common
  import opened Text

  /** A calendar date, as `datetime.date` holds it. */
  datatype Date = Date(year: int, month: int, day: int)

  predicate ValidDate(d: Date)
  {
    1 <= d.year <= 9999 && 1 <= d.month <= 12 && 1 <= d.day <= 31
  }

  /** `ym_from_date`: the year padded to four digits, a dash, the month padded to two. */
  function YmFromDate(d: Date): string
  {
    PadInt(d.year, 4) + "-" + PadInt(d.month, 2)
  }

  /** `date.isoformat()` */
  function DateIso(d: Date): string
  {
    YmFromDate(d) + "-" + PadInt(d.day, 2)
  }

  /**
   * The period key of a date has the form DDDD-DD and the year and month
   * can be read back from it.
   */
  lemma YmFromDateShape(d: Date)
    requires ValidDate(d)
    ensures |YmFromDate(d)| == 7 && YmFromDate(d)[4] == '-'
    ensures AllDigits(YmFromDate(d)[..4]) && AllDigits(YmFromDate(d)[5..])
    ensures DigitsValue(YmFromDate(d)[..4]) == d.year
    ensures DigitsValue(YmFromDate(d)[5..]) == d.month
  {
    PadIntValue(d.year, 4);
    PadIntValue(d.month, 2);
    var y := PadInt(d.year, 4);
    var t := "-" + PadInt(d.month, 2);
    assert YmFromDate(d) == y + t;
    assert YmFromDate(d)[..4] == y;
    assert YmFromDate(d)[5..] == PadInt(d.month, 2);
  }

  /** Two dates share a period key exactly when they share year and month. */
  lemma YmFromDateInjective(d: Date, e: Date)
    requires ValidDate(d) && ValidDate(e)
    ensures YmFromDate(d) == YmFromDate(e) <==> d.year == e.year && d.month == e.month
  {
    YmFromDateShape(d);
    YmFromDateShape(e);
  }

  /** The first seven characters of a date's ISO form are its period key. */
  lemma IsoPrefixIsYm(d: Date)
    requires ValidDate(d)
    ensures DateIso(d)[..7] == YmFromDate(d)
  {
    YmFromDateShape(d);
  }

  const AllYears: int := 1313
  const AllMonths: int := 13

  /** Which rows a period filter keeps. */
  datatype PeriodSelector =
    | AllPeriods              // every row
    | NoPeriod                // the rows whose id is -1, that is none in practice
    | YearPrefix(year: string) // `ym LIKE '<year>-%'`
    | ExactYm(ym: string)     // `ym == <ym>`

  /** Whether a row with this id and (nullable) period key passes the filter. */
  predicate Matches(sel: PeriodSelector, id: int, ym: Option<string>)
  {
    match sel
    case AllPeriods => true
    case NoPeriod => id == -1
    case YearPrefix(y) => ym.Some? && StartsWith(ym.value, y + "-")
    case ExactYm(k) => ym == Some(k)
  }

  /** The `ym` label the dashboard and the partner summary compute from a year and a month. */
  function SelectorLabel(year: int, month: int): string
  {
    if year == AllYears && month == AllMonths then "all"
    else if month == AllMonths then IntToStr(year) + "-*"
    else if year == AllYears then "none"
    else PadInt(year, 4) + "-" + PadInt(month, 2)
  }

  /** The filter the dashboard applies to its queries for a year and a month. */
  function DashboardSelector(year: int, month: int): PeriodSelector
  {
    if year == AllYears && month == AllMonths then AllPeriods
    else if month == AllMonths then YearPrefix(IntToStr(year))
    else if year == AllYears then NoPeriod
    else ExactYm(PadInt(year, 4) + "-" + PadInt(month, 2))
  }

  /** How `build_resumen_socio` reads its `ym` argument. */
  function ParseSelector(ym: string): PeriodSelector
  {
    if ym == "all" then AllPeriods
    else if ym == "none" || ym == [] then NoPeriod
    else if EndsWith(ym, "-*") then YearPrefix(ym[..|ym| - 2])
    else ExactYm(ym)
  }

  /** A month label ends with a digit, so it is never one of the keywords. */
  lemma MonthLabelIsPlain(year: int, month: int)
    ensures var l := PadInt(year, 4) + "-" + PadInt(month, 2);
            l != "all" && l != "none" && l != [] && !EndsWith(l, "-*")
  {
    var p := PadInt(year, 4) + "-";
    var m := PadInt(month, 2);
    LastOfAppend(p, m);
    EndsInDigit(p + m);
  }

  lemma LastOfAppend(p: string, q: string)
    requires q != []
    ensures (p + q)[|p + q| - 1] == q[|q| - 1]
  {
  }

  /** A text ending with a digit is neither keyword and does not end with "-*". */
  lemma EndsInDigit(l: string)
    requires l != [] && IsDigit(l[|l| - 1])
    ensures l != "all" && l != "none" && !EndsWith(l, "-*")
  {
    assert !IsDigit("all"[2]) && !IsDigit("none"[3]);
    if |l| >= 2 {
      assert l[|l| - 2..][1] == l[|l| - 1];
    }
  }

  /** A year label ends with "-*" and is neither keyword. */
  lemma YearLabelIsPrefix(year: int)
    ensures var l := IntToStr(year) + "-*";
            l != "all" && l != "none" && l != [] && EndsWith(l, "-*") && l[..|l| - 2] == IntToStr(year)
  {
    var l := IntToStr(year) + "-*";
    assert l[|l| - 1] == '*';
    assert l[|l| - 2..] == "-*";
  }

  /**
   * The partner summary, handed the label the view computed, filters the
   * rows exactly as the dashboard does for the same year and month.
   */
  lemma ParseOfLabel(year: int, month: int)
    ensures ParseSelector(SelectorLabel(year, month)) == DashboardSelector(year, month)
  {
    if year == AllYears && month == AllMonths {
      ParseAll();
    } else if month == AllMonths {
      ParseYearLabel(year);
    } else if year == AllYears {
      ParseNone();
    } else {
      ParseMonthLabel(year, month);
    }
  }

  lemma ParseAll()
    ensures ParseSelector("all") == AllPeriods
  {
  }

  lemma ParseNone()
    ensures ParseSelector("none") == NoPeriod
  {
    assert "none"[0] != "all"[0];
  }

  lemma ParseYearLabel(year: int)
    ensures ParseSelector(IntToStr(year) + "-*") == YearPrefix(IntToStr(year))
  {
    YearLabelIsPrefix(year);
  }

  lemma ParseMonthLabel(year: int, month: int)
    ensures var l := PadInt(year, 4) + "-" + PadInt(month, 2);
            ParseSelector(l) == ExactYm(l)
  {
    MonthLabelIsPlain(year, month);
  }

  /** The label is "all", "none" or ends with "-*" exactly in the sentinel cases. */
  lemma SelectorLabelKeywords(year: int, month: int)
    ensures SelectorLabel(year, month) == "all" <==> year == AllYears && month == AllMonths
    ensures SelectorLabel(year, month) == "none" <==> year == AllYears && month != AllMonths
    ensures EndsWith(SelectorLabel(year, month), "-*") <==> year != AllYears && month == AllMonths
  {
    MonthLabelIsPlain(year, month);
    YearLabelIsPrefix(year);
    assert !EndsWith("all", "-*");
    assert !EndsWith("none", "-*");
  }

  /**
   * A row dated in a year other than the sentinel is kept by the dashboard
   * for its own month and, when the year has four digits, for its whole year.
   */
  lemma OwnPeriodMatches(d: Date, id: int)
    requires ValidDate(d) && d.year != AllYears
    ensures Matches(DashboardSelector(d.year, d.month), id, Some(YmFromDate(d)))
    ensures 1000 <= d.year ==> Matches(DashboardSelector(d.year, AllMonths), id, Some(YmFromDate(d)))
  {
    if 1000 <= d.year {
      PadIntWide(d.year, 4);
      var y := IntToStr(d.year);
      var ym := YmFromDate(d);
      assert ym == (y + "-") + PadInt(d.month, 2);
      assert ym[..|y + "-"|] == y + "-";
    }
  }

  /** A filter for one month never keeps a row of another month. */
  lemma ExactSelectorSeparates(d: Date, e: Date, id: int)
    requires ValidDate(d) && ValidDate(e) && d.year != AllYears
    requires d.year != e.year || d.month != e.month
    ensures !Matches(DashboardSelector(d.year, d.month), id, Some(YmFromDate(e)))
  {
    YmFromDateInjective(d, e);
  }
}
