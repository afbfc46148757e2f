// The pure helpers of the spreadsheet import: reading a yes/no cell,
// reading a percentage cell, the deductible percentage a purchase row is
// stored with, turning a Google Sheets address or id into its XLSX export
// address, and filling in the partners' missing margin rates.

module Import {
  import opened Common
  import opened Text
  import opened Records
  import opened Params
  import opened Vat

  // ----- _to_bool_si_no -----

  /** The words read as "yes", once stripped and lower-cased. */
  const YesWords: seq<string> := ["si", "sí", "s", "yes", "y", "true", "1"]

  /** `_to_bool_si_no`, on the cell as Python prints it (`str(val)`). */
  predicate ToBoolSiNo(val: string)
  {
    Lower(Strip(val)) in YesWords
  }

  lemma LowerCharIdempotent(c: char)
    ensures LowerChar(LowerChar(c)) == LowerChar(c)
    ensures IsSpace(LowerChar(c)) == IsSpace(c)
  {
  }

  lemma LowerIdempotent(s: string)
    ensures Lower(Lower(s)) == Lower(s)
  {
    forall i | 0 <= i < |s| ensures Lower(Lower(s))[i] == Lower(s)[i] {
      LowerCharIdempotent(s[i]);
    }
  }

  lemma {:induction false} TrimLeftLower(s: string)
    ensures TrimLeft(Lower(s)) == Lower(TrimLeft(s))
  {
    if s != [] {
      LowerCharIdempotent(s[0]);
      assert Lower(s)[1..] == Lower(s[1..]);
      TrimLeftLower(s[1..]);
    }
  }

  lemma {:induction false} TrimRightLower(s: string)
    ensures TrimRight(Lower(s)) == Lower(TrimRight(s))
  {
    if s != [] {
      var n := |s| - 1;
      LowerCharIdempotent(s[n]);
      assert Lower(s)[..n] == Lower(s[..n]);
      TrimRightLower(s[..n]);
    }
  }

  /** Lower-casing and stripping can be done in either order. */
  lemma StripLower(s: string)
    ensures Strip(Lower(s)) == Lower(Strip(s))
  {
    TrimLeftLower(s);
    TrimRightLower(TrimLeft(s));
  }

  /** The answer ignores surrounding white space. */
  lemma ToBoolStrip(val: string)
    ensures ToBoolSiNo(Strip(val)) == ToBoolSiNo(val)
  {
    assert Lower(Strip(Strip(val))) == Lower(Strip(val)) by {
      StripIdempotent(val);
    }
    SameWord(Strip(val), val);
  }

  /** The answer ignores letter case. */
  lemma ToBoolLower(val: string)
    ensures ToBoolSiNo(Lower(val)) == ToBoolSiNo(val)
  {
    assert Lower(Strip(Lower(val))) == Lower(Strip(val)) by {
      StripLower(val);
      LowerIdempotent(Strip(val));
    }
    SameWord(Lower(val), val);
  }

  lemma SameWord(a: string, b: string)
    requires Lower(Strip(a)) == Lower(Strip(b))
    ensures ToBoolSiNo(a) == ToBoolSiNo(b)
  {
  }

  /** An accented capital is lowered: "Sí" reads as yes. */
  lemma ToBoolAccented()
    ensures ToBoolSiNo("Sí")
  {
    assert Lower("Sí") == "sí";
    assert YesWords[1] == "sí";
  }

  /** "no" reads as no. */
  lemma {:induction false} ToBoolNo(w: string)
    requires w == "no"
    ensures !ToBoolSiNo(w)
  {
    assert |w| == 2 && w[0] == 'n' && w[1] == 'o';
    NotYesOfLowerWord(w);
  }

  /** A two-letter lower-case word starting with 'n' is not read as yes. */
  lemma {:induction false} NotYesOfLowerWord(w: string)
    requires |w| == 2 && w[0] == 'n' && 'a' <= w[1] <= 'z'
    ensures !ToBoolSiNo(w)
  {
    LowerWordNormalised(w);
    NotYesWord(w);
  }

  lemma {:induction false} LowerWordNormalised(w: string)
    requires |w| == 2 && 'a' <= w[0] <= 'z' && 'a' <= w[1] <= 'z'
    ensures Lower(Strip(w)) == w
  {
    assert !IsSpace(w[0]) && !IsSpace(w[1]);
    StripNoop(w);
    assert LowerChar(w[0]) == w[0] && LowerChar(w[1]) == w[1];
    assert Lower(w)[0] == w[0] && Lower(w)[1] == w[1];
  }

  /** No word of the list is two letters long and starts with 'n'. */
  lemma {:induction false} NotYesWord(w: string)
    requires |w| == 2 && w[0] == 'n'
    ensures !(w in YesWords)
  {
    forall i | 0 <= i < |YesWords| ensures YesWords[i] != w {
      assert |YesWords[i]| != 2 || YesWords[i][0] != 'n';
    }
  }

  // ----- _to_pct -----

  /** A spreadsheet cell as pandas hands it over. */
  datatype Cell =
    | Blank              // None
    | NaN                // a float NaN (an empty numeric cell)
    | Number(x: real)    // any other number, printed exactly by `str`
    | Text(s: string)    // text

  /**
   * `float(s)` on plain decimal notation: surrounding white space, a sign,
   * digits with at most one point and at least one digit.
   */
  function ParseDecimal(s: string): (r: Option<real>)
  {
    var t := Strip(s);
    if t != [] && t[0] == '-' then
      match ParseUnsigned(t[1..])
      case Some(v) => Some(-v)
      case None => None
    else if t != [] && t[0] == '+' then ParseUnsigned(t[1..])
    else ParseUnsigned(t)
  }

  /** Digits, optionally split once by a point, with at least one digit. */
  function ParseUnsigned(t: string): Option<real>
  {
    match Find(t, ".")
    case None => if t != [] && AllDigits(t) then Some(DigitsValue(t) as real) else None
    case Some(i) =>
      var whole := t[..i];
      var frac := t[i + 1..];
      if AllDigits(whole) && AllDigits(frac) && |whole| + |frac| > 0
      then Pow10Positive(|frac|); Some(DigitsValue(whole) as real + DigitsValue(frac) as real / Pow10(|frac|) as real)
      else None
  }

  /** A percentage written as a fraction (`0.5`) or in hundreds (`50`, `50%`), forced into [0, 1]. */
  function FromParsed(v: real, percent: bool): real
  {
    Clamp01(if percent then v / 100.0 else if v > 1.0 then v / 100.0 else v)
  }

  /** `_to_pct`: the cell as a fraction in [0, 1], or `default` when it is empty or does not parse. */
  function ToPct(val: Cell, default: Option<real>): (r: Option<real>)
    ensures r == default || (r.Some? && 0.0 <= r.value <= 1.0)
  {
    match val
    case Blank => default
    case NaN => default
    case Number(x) => Some(FromParsed(x, false))
    case Text(s) => TextPct(ReplaceChar(Strip(s), ',', '.'), default)
  }

  /** A text cell, stripped and with its decimal comma turned into a point. */
  function TextPct(t: string, default: Option<real>): (r: Option<real>)
    ensures r == default || (r.Some? && 0.0 <= r.value <= 1.0)
  {
    if EndsWith(t, "%") then
      match ParseDecimal(t[..|t| - 1])
      case Some(v) => Some(FromParsed(v, true))
      case None => default
    else
      match ParseDecimal(t)
      case Some(v) => Some(FromParsed(v, false))
      case None => default
  }

  /**
   * When the cell reads as a percentage, and when the default is returned:
   * an empty cell, and text whose cleaned form (without one trailing percent
   * sign) is not a decimal number.
   */
  lemma ToPctDefaults(val: Cell, default: Option<real>)
    ensures val.Blank? || val.NaN? ==> ToPct(val, default) == default
    ensures val.Number? ==> ToPct(val, default) == Some(FromParsed(val.x, false))
    ensures val.Text? ==>
              var t := ReplaceChar(Strip(val.s), ',', '.');
              var percent := EndsWith(t, "%");
              var body := if percent then t[..|t| - 1] else t;
              ToPct(val, default) == if ParseDecimal(body).Some? then Some(FromParsed(ParseDecimal(body).value, percent)) else default
  {
  }

  /** A text holding no digit at all. */
  predicate NoDigit(s: string)
  {
    forall i :: 0 <= i < |s| ==> !IsDigit(s[i])
  }

  /** Text without a digit (empty, "-", "n/a", "%", ...) reads as the default. */
  lemma DigitlessTextDefault(s: string, default: Option<real>)
    requires NoDigit(s)
    ensures ToPct(Text(s), default) == default
  {
    StripKeepsNoDigit(s);
    var t := ReplaceChar(Strip(s), ',', '.');
    assert NoDigit(t);
    if EndsWith(t, "%") {
      assert NoDigit(t[..|t| - 1]);
      NoDigitDecimal(t[..|t| - 1]);
    } else {
      NoDigitDecimal(t);
    }
  }

  lemma StripKeepsNoDigit(s: string)
    requires NoDigit(s)
    ensures NoDigit(Strip(s))
  {
    var l := TrimLeft(s);
    forall i | 0 <= i < |l| ensures !IsDigit(l[i]) {
      assert l[i] == s[|s| - |l| + i];
    }
    var r := TrimRight(l);
    forall i | 0 <= i < |r| ensures !IsDigit(r[i]) {
      assert r[i] == l[i];
    }
  }

  /** A number needs at least one digit. */
  lemma NoDigitDecimal(s: string)
    requires NoDigit(s)
    ensures ParseDecimal(s).None?
  {
    StripKeepsNoDigit(s);
    var t := Strip(s);
    if t != [] {
      assert NoDigit(t[1..]);
      NoDigitUnsigned(t[1..]);
    }
    NoDigitUnsigned(t);
  }

  lemma NoDigitUnsigned(t: string)
    requires NoDigit(t)
    ensures ParseUnsigned(t).None?
  {
    match Find(t, ".")
    case None =>
      if t != [] {
        assert !IsDigit(t[0]);
      }
    case Some(i) =>
      if i > 0 {
        assert t[..i][0] == t[0];
      } else if i + 1 < |t| {
        assert t[i + 1..][0] == t[i + 1];
      }
  }

  lemma {:induction false} NoCharNoFind(s: string, from: nat, c: char)
    requires forall i :: 0 <= i < |s| ==> s[i] != c
    ensures FindFrom(s, [c], from).None?
  {
    var r := FindFrom(s, [c], from);
    if r.Some? {
      OccursChar(s, c, r.value);
      assert false;
    }
  }

  lemma OccursChar(s: string, c: char, i: nat)
    requires OccursAt(s, [c], i)
    ensures s[i] == c
  {
    assert s[i..i + 1][0] == s[i];
  }

  lemma DigitsParse(s: string)
    requires s != [] && AllDigits(s)
    ensures ParseDecimal(s) == Some(DigitsValue(s) as real)
  {
    StripNoop(s);
    NoCharNoFind(s, 0, '.');
  }

  lemma {:induction false} NoCommaUnchanged(s: string)
    requires forall i :: 0 <= i < |s| ==> s[i] != ','
    ensures ReplaceChar(s, ',', '.') == s
  {
  }

  /** A text cell with nothing to strip and no decimal comma is read as it stands. */
  lemma ToPctCleanText(s: string, default: Option<real>)
    requires ReplaceChar(Strip(s), ',', '.') == s
    ensures ToPct(Text(s), default) == TextPct(s, default)
  {
  }

  /** Digits followed by a percent sign read as that number over a hundred. */
  lemma {:induction false} PercentTextRoundTrip(d: string, default: Option<real>)
    requires d != [] && AllDigits(d)
    ensures ToPct(Text(d + "%"), default) == Some(Clamp01(DigitsValue(d) as real / 100.0))
  {
    PercentCell(d, default);
  }

  lemma PercentCell(d: string, default: Option<real>)
    requires d != [] && AllDigits(d)
    ensures ToPct(Text(d + "%"), default) == Some(FromParsed(DigitsValue(d) as real, true))
  {
    PlainText(d + "%");
    ToPctCleanText(d + "%", default);
    DigitsParse(d);
    PercentSplit(d);
  }

  lemma PercentSplit(d: string)
    ensures var s := d + "%";
            EndsWith(s, "%") && s[..|s| - 1] == d
  {
    var s := d + "%";
    assert s[|s| - 1..] == ['%'];
    assert s[..|s| - 1] == d;
  }

  /** Clean text without a percent sign that parses to `v` reads as `v`. */
  lemma PlainCell(t: string, v: real, default: Option<real>)
    requires ReplaceChar(Strip(t), ',', '.') == t
    requires !EndsWith(t, "%") && ParseDecimal(t) == Some(v)
    ensures ToPct(Text(t), default) == Some(FromParsed(v, false))
  {
    ToPctCleanText(t, default);
  }

  /** Digits without the sign read as a fraction when they are 0 or 1, and as hundreds above. */
  lemma {:induction false} PlainTextRoundTrip(d: string, default: Option<real>)
    requires d != [] && AllDigits(d)
    ensures var n := DigitsValue(d);
            ToPct(Text(d), default) == Some(if n <= 1 then n as real else Clamp01(n as real / 100.0))
  {
    PlainDigits(d, default);
    WholeFraction(DigitsValue(d));
  }

  lemma {:induction false} PlainDigits(d: string, default: Option<real>)
    requires d != [] && AllDigits(d)
    ensures ToPct(Text(d), default) == Some(FromParsed(DigitsValue(d) as real, false))
  {
    PlainText(d);
    DigitsNoPercent(d);
    DigitsParse(d);
    PlainCell(d, DigitsValue(d) as real, default);
  }

  lemma DigitsNoPercent(d: string)
    requires d != [] && AllDigits(d)
    ensures !EndsWith(d, "%")
  {
    assert d[|d| - 1..] != "%" by {
      assert d[|d| - 1..][0] == d[|d| - 1];
    }
  }

  /** A whole number read without a percent sign: 0 and 1 are fractions, anything above is in hundreds. */
  lemma WholeFraction(n: nat)
    ensures FromParsed(n as real, false) == if n <= 1 then n as real else Clamp01(n as real / 100.0)
  {
  }

  /** Text made of digits and percent signs needs no stripping and holds no decimal comma. */
  lemma PlainText(s: string)
    requires s != [] && forall i :: 0 <= i < |s| ==> IsDigit(s[i]) || s[i] == '%'
    ensures ReplaceChar(Strip(s), ',', '.') == s
  {
    StripNoop(s);
    NoCommaUnchanged(s);
  }

  /** A number cell is taken as a fraction up to 1 and as hundreds above, forced into [0, 1] either way. */
  lemma NumberCellFacts(x: real, default: Option<real>)
    ensures 0.0 <= x <= 1.0 ==> ToPct(Number(x), default) == Some(x)
    ensures 1.0 < x <= 100.0 ==> ToPct(Number(x), default) == Some(x / 100.0)
    ensures x < 0.0 ==> ToPct(Number(x), default) == Some(0.0)
    ensures 100.0 < x ==> ToPct(Number(x), default) == Some(1.0)
  {
  }

  // ----- the deductible percentage of an imported purchase -----

  /**
   * The percentage an imported purchase is stored with: its cell when that
   * reads as a percentage, else the personal default for a personal row and
   * the normal one otherwise, forced into [0, 1].
   */
  function ImportedDeductiblePct(cell: Cell, personal: bool, normalPct: real, personalPct: real): real
  {
    var d := ToPct(cell, None);
    Clamp01(if d.Some? then d.value else if personal then personalPct else normalPct)
  }

  /**
   * The import stores the percentage the dashboard would choose for the raw
   * cell, and the dashboard, seeing it stored, uses it unchanged.
   */
  lemma ImportedPctIsEffective(p: Purchase, cell: Cell, personal: bool, normalPct: real, personalPct: real)
    ensures var raw := p.(deductiblePct := ToPct(cell, None), personal := Some(personal));
            ImportedDeductiblePct(cell, personal, normalPct, personalPct) == EffectivePct(raw, normalPct, personalPct)
    ensures var d := ImportedDeductiblePct(cell, personal, normalPct, personalPct);
            0.0 <= d <= 1.0
            && EffectivePct(p.(deductiblePct := Some(d)), normalPct, personalPct) == d
  {
  }

  // ----- _normalize_gsheet_export_url -----

  datatype UrlError = EmptyAddress | NoSheetId

  /** The host that marks a Google address. */
  const GoogleHost: string := "docs.google.com"
  /** The part that marks an address that already exports. */
  const ExportMark: string := "/export?"

  const SheetsPrefix: string := "https://" + GoogleHost + "/spreadsheets/d/"
  const ExportSuffix: string := ExportMark + "format=xlsx"

  /** The XLSX export address of a spreadsheet id. */
  function ExportUrl(sid: string): string
  {
    SheetsPrefix + sid + ExportSuffix
  }

  /** The text before the first `c` (all of it when there is none). */
  function Before(s: string, c: char): (r: string)
    ensures |r| <= |s| && r == s[..|r|]
    ensures forall i :: 0 <= i < |r| ==> r[i] != c
    ensures |r| < |s| ==> s[|r|] == c
  {
    if s == [] || s[0] == c then [] else [s[0]] + Before(s[1..], c)
  }

  /**
   * `_normalize_gsheet_export_url`. A Google address that already exports
   * is kept; any other Google address gives the id after its first `/d/`,
   * up to the next `/` (which is what splitting on `/d/` and then on `/`
   * keeps, since a later `/d/` starts with `/`); anything else is taken as
   * the id itself.
   */
  function NormalizeGsheetExportUrl(urlOrId: Option<string>): Result<string, UrlError>
  {
    var u := Strip(TextOr(urlOrId));
    if u == [] then Err(EmptyAddress)
    else if Contains(u, GoogleHost) then NormalizeGoogleUrl(u)
    else Ok(ExportUrl(u))
  }

  /** The Google branch of `_normalize_gsheet_export_url`, on the stripped address. */
  function NormalizeGoogleUrl(u: string): Result<string, UrlError>
  {
    if Contains(u, ExportMark) then Ok(u)
    else
      match Find(u, "/d/")
      case None => Err(NoSheetId)
      case Some(i) => Ok(ExportUrl(Before(u[i + 3..], '/')))
  }

  lemma OccursContains(s: string, p: string, i: nat)
    requires OccursAt(s, p, i)
    ensures Contains(s, p)
  {
  }

  lemma OccursLeft(a: string, b: string, p: string, i: nat)
    requires OccursAt(a, p, i)
    ensures OccursAt(a + b, p, i)
  {
    assert (a + b)[i..i + |p|] == a[i..i + |p|];
  }

  lemma OccursRight(a: string, b: string, p: string, i: nat)
    requires OccursAt(b, p, i)
    ensures OccursAt(a + b, p, |a| + i)
  {
    assert (a + b)[|a| + i..|a| + i + |p|] == b[i..i + |p|];
  }

  lemma OccursWhole(p: string)
    ensures OccursAt(p, p, 0)
  {
    assert p[0..|p|] == p;
  }

  /** An export address holds the Google host and the export mark. */
  lemma ExportUrlMarks(sid: string)
    ensures OccursAt(ExportUrl(sid), GoogleHost, 8)
    ensures OccursAt(ExportUrl(sid), ExportMark, |SheetsPrefix| + |sid|)
  {
    OccursWhole(GoogleHost);
    OccursRight("https://", GoogleHost, GoogleHost, 0);
    OccursLeft("https://" + GoogleHost, "/spreadsheets/d/", GoogleHost, 8);
    OccursLeft(SheetsPrefix, sid, GoogleHost, 8);
    OccursLeft(SheetsPrefix + sid, ExportSuffix, GoogleHost, 8);
    OccursWhole(ExportMark);
    OccursLeft(ExportMark, "format=xlsx", ExportMark, 0);
    OccursRight(SheetsPrefix + sid, ExportSuffix, ExportMark, 0);
  }

  /** An export address starts with `h` and ends with `x`. */
  lemma ExportUrlEnds(sid: string)
    ensures var r := ExportUrl(sid);
            r != [] && r[0] == 'h' && r[|r| - 1] == 'x'
  {
    assert SheetsPrefix[0] == 'h';
    assert ExportSuffix[|ExportSuffix| - 1] == 'x';
  }

  /** Every export address is a Google address that already exports, with nothing to strip. */
  lemma ExportUrlShape(sid: string)
    ensures var r := ExportUrl(sid);
            Strip(r) == r && Contains(r, GoogleHost) && Contains(r, ExportMark)
  {
    var r := ExportUrl(sid);
    ExportUrlEnds(sid);
    StripNoop(r);
    ExportUrlMarks(sid);
    OccursContains(r, GoogleHost, 8);
    OccursContains(r, ExportMark, |SheetsPrefix| + |sid|);
  }

  /**
   * The address is refused as blank exactly when nothing is left once it is
   * stripped, and for want of an id exactly when it is a Google address that
   * does not export and has no `/d/`.
   */
  lemma {:induction false} NormalizeRefusals(urlOrId: Option<string>)
    ensures var u := Strip(TextOr(urlOrId));
            var r := NormalizeGsheetExportUrl(urlOrId);
            && (r == Err(EmptyAddress) <==> u == [])
            && (r == Err(NoSheetId) <==> u != [] && Contains(u, GoogleHost) && !Contains(u, ExportMark) && !Contains(u, "/d/"))
  {
  }

  /** An address that is not a Google one is taken whole as the id. */
  lemma {:induction false} NormalizeBareId(urlOrId: Option<string>)
    ensures var u := Strip(TextOr(urlOrId));
            u != [] && !Contains(u, GoogleHost) ==> NormalizeGsheetExportUrl(urlOrId) == Ok(ExportUrl(u))
  {
  }

  /**
   * A Google address that does not export gives the export address of the
   * id that follows its first `/d/`: the text up to the next `/`, which
   * therefore holds none.
   */
  lemma {:induction false} NormalizeSheetId(urlOrId: Option<string>)
    requires var u := Strip(TextOr(urlOrId));
             u != [] && Contains(u, GoogleHost) && !Contains(u, ExportMark) && Find(u, "/d/").Some?
    ensures var u := Strip(TextOr(urlOrId));
            var i := Find(u, "/d/").value;
            var sid := Before(u[i + 3..], '/');
            NormalizeGsheetExportUrl(urlOrId) == Ok(ExportUrl(sid)) && IdAt(u, i + 3, sid)
  {
    var u := Strip(TextOr(urlOrId));
    var i := Find(u, "/d/").value;
    GoogleIdResult(urlOrId, u, i);
    IdAfter(u, i + 3);
  }

  lemma GoogleIdResult(urlOrId: Option<string>, u: string, i: nat)
    requires u == Strip(TextOr(urlOrId)) && Find(u, "/d/") == Some(i)
    requires u != [] && Contains(u, GoogleHost) && !Contains(u, ExportMark)
    ensures i + 3 <= |u| && NormalizeGsheetExportUrl(urlOrId) == Ok(ExportUrl(Before(u[i + 3..], '/')))
  {
    GoogleBranch(u, i);
  }

  lemma GoogleBranch(u: string, i: nat)
    requires Find(u, "/d/") == Some(i) && !Contains(u, ExportMark)
    ensures i + 3 <= |u| && NormalizeGoogleUrl(u) == Ok(ExportUrl(Before(u[i + 3..], '/')))
  {
    MarkFits(u, i);
  }

  lemma MarkFits(u: string, i: nat)
    requires Find(u, "/d/") == Some(i)
    ensures i + 3 <= |u|
  {
    assert OccursAt(u, "/d/", i);
  }

  /** `sid` is the text of `u` from position `j` on, and holds no `/`. */
  predicate IdAt(u: string, j: nat, sid: string)
  {
    && j + |sid| <= |u|
    && sid == u[j..j + |sid|]
    && (forall k :: 0 <= k < |sid| ==> sid[k] != '/')
  }

  lemma IdAfter(u: string, j: nat)
    requires j <= |u|
    ensures IdAt(u, j, Before(u[j..], '/'))
  {
    var sid := Before(u[j..], '/');
    SliceOfSuffix(u, j, sid);
  }

  lemma SliceOfSuffix(u: string, j: nat, t: string)
    requires j <= |u| && |t| <= |u| - j && t == u[j..][..|t|]
    ensures t == u[j..j + |t|]
  {
  }

  /** Whatever is accepted is a Google address that exports, with nothing to strip. */
  lemma {:induction false} NormalizeExports(urlOrId: Option<string>)
    ensures var r := NormalizeGsheetExportUrl(urlOrId);
            r.Ok? ==> Strip(r.value) == r.value && Contains(r.value, GoogleHost) && Contains(r.value, ExportMark)
  {
    var u := Strip(TextOr(urlOrId));
    var r := NormalizeGsheetExportUrl(urlOrId);
    if r.Ok? {
      if u != [] && Contains(u, GoogleHost) && Contains(u, ExportMark) {
        KeptAddress(urlOrId);
        StripIdempotent(TextOr(urlOrId));
      } else {
        var sid := ExportedId(urlOrId);
        ExportUrlShape(sid);
      }
    }
  }

  lemma KeptAddress(urlOrId: Option<string>)
    requires var u := Strip(TextOr(urlOrId));
             u != [] && Contains(u, GoogleHost) && Contains(u, ExportMark)
    ensures NormalizeGsheetExportUrl(urlOrId) == Ok(Strip(TextOr(urlOrId)))
  {
  }

  /** An accepted address that is not kept as it is is the export address of some id. */
  lemma ExportedId(urlOrId: Option<string>) returns (sid: string)
    requires NormalizeGsheetExportUrl(urlOrId).Ok?
    requires var u := Strip(TextOr(urlOrId));
             !(u != [] && Contains(u, GoogleHost) && Contains(u, ExportMark))
    ensures NormalizeGsheetExportUrl(urlOrId) == Ok(ExportUrl(sid))
  {
    var u := Strip(TextOr(urlOrId));
    NormalizeRefusals(urlOrId);
    if Contains(u, GoogleHost) {
      var i := Find(u, "/d/");
      GoogleIdResult(urlOrId, u, i.value);
      sid := Before(u[i.value + 3..], '/');
    } else {
      NormalizeBareId(urlOrId);
      sid := u;
    }
  }


  /** Normalising an address already normalised gives it back. */
  lemma {:induction false} NormalizeIdempotent(urlOrId: Option<string>)
    requires NormalizeGsheetExportUrl(urlOrId).Ok?
    ensures var r := NormalizeGsheetExportUrl(urlOrId).value;
            NormalizeGsheetExportUrl(Some(r)) == Ok(r)
  {
    var r := NormalizeGsheetExportUrl(urlOrId).value;
    NormalizeExports(urlOrId);
    NonEmptyContains(r, GoogleHost);
    Accepted(r);
  }

  lemma NonEmptyContains(s: string, p: string)
    requires Contains(s, p) && p != []
    ensures s != []
  {
  }

  lemma Accepted(r: string)
    requires r != [] && Strip(r) == r && Contains(r, GoogleHost) && Contains(r, ExportMark)
    ensures NormalizeGsheetExportUrl(Some(r)) == Ok(r)
  {
  }

  // ----- the margin backfill -----

  /** A partner whose margin rate is missing gets the company rate if it is a company, and the partner rate otherwise. */
  function Backfilled(s: Partner, pEmp: real, pSoc: real): Partner
  {
    if s.marginPct.None? then s.(marginPct := Some(if s.kind == Some("Empresa") then pEmp else pSoc)) else s
  }

  function BackfilledFn(pEmp: real, pSoc: real): Partner -> Partner
  {
    s => Backfilled(s, pEmp, pSoc)
  }

  /**
   * Afterwards every partner has a rate; one it had is kept, a missing one
   * is the rate of its kind, and nothing else about the partner changes.
   * Filling in again changes nothing.
   */
  lemma BackfilledFacts(s: Partner, pEmp: real, pSoc: real)
    ensures var t := Backfilled(s, pEmp, pSoc);
            && t.id == s.id && t.name == s.name && t.kind == s.kind
            && (s.marginPct.Some? ==> t == s)
            && (s.marginPct.None? && s.kind == Some("Empresa") ==> t.marginPct == Some(pEmp))
            && (s.marginPct.None? && s.kind != Some("Empresa") ==> t.marginPct == Some(pSoc))
            && Backfilled(t, pEmp, pSoc) == t
  {
  }

  /**
   * The loop over the partners: each one missing a rate gets that of its
   * kind, in place; `changed` says whether any did (and so whether to commit).
   */
  method BackfillMargins(socios: array<Partner>, pEmp: real, pSoc: real) returns (changed: bool)
    modifies socios
    ensures socios[..] == MapSeq(old(socios[..]), BackfilledFn(pEmp, pSoc))
    ensures changed <==> exists i :: 0 <= i < socios.Length && old(socios[i]).marginPct.None?
  {
    ghost var before := socios[..];
    changed := false;
    for i := 0 to socios.Length
      invariant forall j :: 0 <= j < i ==> socios[j] == Backfilled(before[j], pEmp, pSoc)
      invariant forall j :: i <= j < socios.Length ==> socios[j] == before[j]
      invariant changed <==> exists j :: 0 <= j < i && before[j].marginPct.None?
    {
      var s := socios[i];
      if s.marginPct.None? {
        socios[i] := s.(marginPct := Some(if s.kind == Some("Empresa") then pEmp else pSoc));
        changed := true;
      }
    }
    MapSeqOf(before, socios[..], BackfilledFn(pEmp, pSoc));
  }

  /**
   * The backfill as the import and the partner list run it: the company and
   * partner rates are read first, each created with its default when missing.
   */
  method BackfillFromStore(store: ParamStore, socios: array<Partner>) returns (changed: bool)
    modifies store, socios
    ensures var (pEmp, s1) := GetParamOr(old(store.values), "margen_Empresa", 0.53);
            var (pSoc, s2) := GetParamOr(s1, "margen_Socio", 0.09);
            store.values == s2 && socios[..] == MapSeq(old(socios[..]), BackfilledFn(pEmp, pSoc))
    ensures changed <==> exists i :: 0 <= i < socios.Length && old(socios[i]).marginPct.None?
  {
    var r := store.ReadParamAny(["margen_Empresa"], Some(0.53));
    var pEmp := if r.Ok? then r.value else 0.53;
    r := store.ReadParamAny(["margen_Socio"], Some(0.09));
    var pSoc := if r.Ok? then r.value else 0.09;
    changed := BackfillMargins(socios, pEmp, pSoc);
  }
}
