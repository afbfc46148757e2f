// The string operations the application relies on (`str.isdigit`, `strip`,
// `upper`, `lower`, `zfill`, `startswith`, `in`, integer formatting and
// Python's code-point ordering of strings), stated on `seq<char>`.

module Text {
  import opened Common

  predicate IsDigit(c: char)
  {
    '0' <= c <= '9'
  }

  predicate AllDigits(s: string)
  {
    forall i :: 0 <= i < |s| ==> IsDigit(s[i])
  }

  /** `"".join(ch for ch in s if ch.isdigit())` */
  function Digits(s: string): (r: string)
    ensures AllDigits(r)
    ensures |r| <= |s|
  {
    if s == [] then []
    else (if IsDigit(s[0]) then [s[0]] else []) + Digits(s[1..])
  }

  lemma {:induction false} DigitsOfDigits(s: string)
    requires AllDigits(s)
    ensures Digits(s) == s
  {
    if s != [] {
      DigitsOfDigits(s[1..]);
      assert [s[0]] + s[1..] == s;
    }
  }

  lemma {:induction false} DigitsConcat(a: string, b: string)
    ensures Digits(a + b) == Digits(a) + Digits(b)
  {
    if a != [] {
      assert (a + b)[1..] == a[1..] + b;
      DigitsConcat(a[1..], b);
    } else {
      assert a + b == b;
    }
  }

  /** The characters `str.strip()` removes (the ASCII ones). */
  predicate IsSpace(c: char)
  {
    c == ' ' || 9 <= c as int <= 13 || 0x1c <= c as int <= 0x1f
  }

  function TrimLeft(s: string): (r: string)
    ensures |r| <= |s| && r == s[|s| - |r|..]
    ensures r == [] || !IsSpace(r[0])
  {
    if s != [] && IsSpace(s[0]) then TrimLeft(s[1..]) else s
  }

  function TrimRight(s: string): (r: string)
    ensures |r| <= |s| && r == s[..|r|]
    ensures r == [] || !IsSpace(r[|r| - 1])
  {
    if s != [] && IsSpace(s[|s| - 1]) then TrimRight(s[..|s| - 1]) else s
  }

  /** `s.strip()` */
  function Strip(s: string): (r: string)
    ensures |r| <= |s|
    ensures r == [] || (!IsSpace(r[0]) && !IsSpace(r[|r| - 1]))
  {
    TrimRight(TrimLeft(s))
  }

  /** A string that neither starts nor ends with white space is its own strip. */
  lemma StripNoop(s: string)
    requires s == [] || (!IsSpace(s[0]) && !IsSpace(s[|s| - 1]))
    ensures Strip(s) == s
  {
  }

  lemma StripIdempotent(s: string)
    ensures Strip(Strip(s)) == Strip(s)
  {
    StripNoop(Strip(s));
  }

  function UpperChar(c: char): char
  {
    if 'a' <= c <= 'z' then (c as int - 32) as char else c
  }

  /** `s.upper()` on ASCII letters. */
  function Upper(s: string): (r: string)
    ensures |r| == |s|
    ensures forall i :: 0 <= i < |s| ==> r[i] == UpperChar(s[i])
  {
    if s == [] then [] else [UpperChar(s[0])] + Upper(s[1..])
  }

  /** Upper-casing twice is upper-casing once. */
  lemma UpperIdempotent(s: string)
    ensures Upper(Upper(s)) == Upper(s)
  {
    assert forall i :: 0 <= i < |s| ==> UpperChar(UpperChar(s[i])) == UpperChar(s[i]);
  }

  /** Upper-casing keeps a stripped string stripped. */
  lemma StripUpperOfStripped(s: string)
    requires s == Strip(s)
    ensures Strip(Upper(s)) == Upper(s)
  {
    if s != [] {
      assert !IsSpace(s[0]) && !IsSpace(s[|s| - 1]);
      UpperCharNotSpace(s[0]);
      UpperCharNotSpace(s[|s| - 1]);
      assert Upper(s)[0] == UpperChar(s[0]);
      assert Upper(s)[|s| - 1] == UpperChar(s[|s| - 1]);
    }
    StripNoop(Upper(s));
  }

  lemma UpperCharNotSpace(c: char)
    requires !IsSpace(c)
    ensures !IsSpace(UpperChar(c))
  {
  }

  /**
   * `c.lower()` on ASCII letters and on the Latin-1 capitals
   * U+00C0..U+00DE (except the multiplication sign U+00D7).
   */
  function LowerChar(c: char): char
  {
    if 'A' <= c <= 'Z' || (0xC0 <= c as int <= 0xDE && c as int != 0xD7)
    then (c as int + 32) as char else c
  }

  function Lower(s: string): (r: string)
    ensures |r| == |s|
    ensures forall i :: 0 <= i < |s| ==> r[i] == LowerChar(s[i])
  {
    if s == [] then [] else [LowerChar(s[0])] + Lower(s[1..])
  }

  predicate StartsWith(s: string, p: string)
  {
    |p| <= |s| && s[..|p|] == p
  }

  predicate EndsWith(s: string, p: string)
  {
    |p| <= |s| && s[|s| - |p|..] == p
  }

  predicate OccursAt(s: string, p: string, i: nat)
  {
    i + |p| <= |s| && s[i..i + |p|] == p
  }

  /** The first position at or after `from` where `p` occurs in `s` (`str.find`). */
  function FindFrom(s: string, p: string, from: nat): (r: Option<nat>)
    decreases |s| - from
    ensures r.Some? ==> from <= r.value && OccursAt(s, p, r.value)
    ensures r.Some? ==> forall j :: from <= j < r.value ==> !OccursAt(s, p, j)
    ensures r.None? ==> forall j :: from <= j ==> !OccursAt(s, p, j)
  {
    if |s| < from + |p| then None
    else if OccursAt(s, p, from) then Some(from)
    else FindFrom(s, p, from + 1)
  }

  function Find(s: string, p: string): Option<nat>
  {
    FindFrom(s, p, 0)
  }

  /** Python's `p in s` for strings. */
  predicate Contains(s: string, p: string)
  {
    Find(s, p).Some?
  }

  /** Every `a` in `s` replaced by `b` (`s.replace(a, b)` for one character). */
  function ReplaceChar(s: string, a: char, b: char): (r: string)
    ensures |r| == |s|
    ensures forall i :: 0 <= i < |s| ==> r[i] == (if s[i] == a then b else s[i])
  {
    if s == [] then [] else [if s[0] == a then b else s[0]] + ReplaceChar(s[1..], a, b)
  }

  function Zeros(n: nat): (r: string)
    ensures |r| == n
    ensures forall i :: 0 <= i < n ==> r[i] == '0'
  {
    if n == 0 then [] else "0" + Zeros(n - 1)
  }

  /** `s.zfill(w)` for a string without a sign. */
  function ZFill(s: string, w: nat): (r: string)
    ensures |r| == if |s| < w then w else |s|
    ensures EndsWith(r, s)
    ensures r == Zeros(|r| - |s|) + s
  {
    if |s| < w then Zeros(w - |s|) + s else s
  }

  lemma ZFillDigits(s: string, w: nat)
    requires AllDigits(s)
    ensures AllDigits(ZFill(s, w))
  {
    var r := ZFill(s, w);
    var z := Zeros(|r| - |s|);
    forall i | 0 <= i < |r| ensures IsDigit(r[i]) {
      if i < |z| { assert r[i] == z[i]; } else { assert r[i] == s[i - |z|]; }
    }
  }

  function DropLeadingZeros(s: string): (r: string)
    ensures |r| <= |s| && r == s[|s| - |r|..]
    ensures r == [] || r[0] != '0'
    ensures forall i :: 0 <= i < |s| - |r| ==> s[i] == '0'
  {
    if s != [] && s[0] == '0' then DropLeadingZeros(s[1..]) else s
  }

  /** `str(int(s))` for a string of ASCII digits: leading zeros removed, "0" for zero. */
  function IntStr(s: string): (r: string)
    ensures r != []
    ensures AllDigits(s) ==> AllDigits(r)
    ensures r[0] == '0' ==> |r| == 1
  {
    var t := DropLeadingZeros(s);
    if t == [] then "0" else t
  }

  lemma {:induction false} DropZerosAfterZeros(z: string, s: string)
    requires forall i :: 0 <= i < |z| ==> z[i] == '0'
    ensures DropLeadingZeros(z + s) == DropLeadingZeros(s)
    decreases |z|
  {
    if z != [] {
      assert (z + s)[0] == '0';
      assert (z + s)[1..] == z[1..] + s;
      DropZerosAfterZeros(z[1..], s);
    } else {
      assert z + s == s;
    }
  }

  /** Re-reading a padded integer string gives the same integer string. */
  lemma IntStrOfPadded(s: string, w: nat)
    ensures IntStr(ZFill(IntStr(s), w)) == IntStr(s)
  {
    PaddedIntStr(IntStr(s), w);
  }

  lemma PaddedIntStr(t: string, w: nat)
    requires t != [] && (t[0] == '0' ==> |t| == 1)
    ensures IntStr(ZFill(t, w)) == t
  {
    ZFillDropsZeros(t, w);
    if t[0] == '0' {
      assert t[1..] == [];
      assert DropLeadingZeros(t) == DropLeadingZeros(t[1..]) == [];
      assert t == [t[0]];
    }
  }

  /** Padding adds only zeros that dropping them removes again. */
  lemma ZFillDropsZeros(t: string, w: nat)
    ensures DropLeadingZeros(ZFill(t, w)) == DropLeadingZeros(t)
  {
    if |t| < w {
      DropZerosAfterZeros(Zeros(w - |t|), t);
    }
  }

  lemma IntStrOfZeros(z: string)
    requires forall i :: 0 <= i < |z| ==> z[i] == '0'
    ensures IntStr(z) == "0"
  {
  }

  lemma PaddedOne()
    ensures ZFill(IntStr("1"), 4) == "0001"
  {
    assert DropLeadingZeros("1") == "1";
    assert Zeros(3) == "000";
  }

  lemma PaddedZero()
    ensures ZFill("0", 4) == "0000"
  {
    assert Zeros(3) == "000";
  }

  function DigitChar(d: nat): (c: char)
    requires d < 10
    ensures IsDigit(c)
  {
    ('0' as int + d) as char
  }

  /** `str(n)` for a natural number. */
  function NatToStr(n: nat): (r: string)
    ensures r != [] && AllDigits(r)
    ensures 10 <= n ==> 2 <= |r|
  {
    if n < 10 then [DigitChar(n)] else NatToStr(n / 10) + [DigitChar(n % 10)]
  }

  lemma {:induction false} NatToStrLength(n: nat, k: nat)
    requires Pow10(k) <= n
    ensures k < |NatToStr(n)|
  {
    if k > 0 {
      assert n >= 10 by { Pow10Positive(k - 1); }
      assert Pow10(k - 1) <= n / 10;
      NatToStrLength(n / 10, k - 1);
    }
  }

  function Pow10(k: nat): nat
  {
    if k == 0 then 1 else 10 * Pow10(k - 1)
  }

  lemma Pow10Positive(k: nat)
    ensures 1 <= Pow10(k)
  {
  }

  /** A number below `10^k` has at most `k` digits. */
  lemma {:induction false} NatToStrShort(n: nat, k: nat)
    requires 1 <= k && n < Pow10(k)
    ensures |NatToStr(n)| <= k
  {
    if 10 <= n {
      assert 2 <= k;
      assert n / 10 < Pow10(k - 1);
      NatToStrShort(n / 10, k - 1);
    }
  }

  /** `int(s)` for a string of ASCII digits. */
  function DigitsValue(s: string): nat
  {
    if s == [] then 0
    else 10 * DigitsValue(s[..|s| - 1]) + (if IsDigit(s[|s| - 1]) then s[|s| - 1] as int - '0' as int else 0)
  }

  /** Reading back the decimal digits of `n` gives `n`. */
  lemma {:induction false} NatToStrValue(n: nat)
    ensures DigitsValue(NatToStr(n)) == n
  {
    var r := NatToStr(n);
    if n < 10 {
      assert r[..0] == [];
    } else {
      NatToStrValue(n / 10);
      assert r[..|r| - 1] == NatToStr(n / 10);
    }
  }

  lemma {:induction false} ZerosValue(k: nat)
    ensures DigitsValue(Zeros(k)) == 0
  {
    if k > 0 {
      ZerosValue(k - 1);
      assert Zeros(k)[..k - 1] == Zeros(k - 1);
    }
  }

  /** Leading zeros do not change the value of a digit string. */
  lemma {:induction false} ZerosPrefixValue(k: nat, s: string)
    ensures DigitsValue(Zeros(k) + s) == DigitsValue(s)
  {
    if s == [] {
      assert Zeros(k) + s == Zeros(k);
      ZerosValue(k);
    } else {
      var t := Zeros(k) + s;
      assert t[..|t| - 1] == Zeros(k) + s[..|s| - 1];
      ZerosPrefixValue(k, s[..|s| - 1]);
    }
  }

  /** Dropping the leading zeros of a digit string keeps its value. */
  lemma IntStrValue(s: string)
    ensures DigitsValue(IntStr(s)) == DigitsValue(s)
  {
    var t := DropLeadingZeros(s);
    var k := |s| - |t|;
    assert s == Zeros(k) + t;
    ZerosPrefixValue(k, t);
    if t == [] {
      assert "0"[..0] == [];
    }
  }

  /**
   * An integer string padded with zeros to width `w` has the value of the
   * digits it came from, and begins with a zero only when it is no longer
   * than `w`.
   */
  lemma PaddedIntStrValue(s: string, w: nat)
    requires 1 <= w
    ensures DigitsValue(ZFill(IntStr(s), w)) == DigitsValue(s)
    ensures w < |ZFill(IntStr(s), w)| ==> ZFill(IntStr(s), w)[0] != '0'
  {
    var t := IntStr(s);
    IntStrValue(s);
    ZerosPrefixValue(|ZFill(t, w)| - |t|, t);
  }

  /** A padded natural number has the width asked for when it fits, and reads back as itself. */
  lemma PadIntValue(n: nat, w: nat)
    requires 1 <= w && n < Pow10(w)
    ensures |PadInt(n, w)| == w && AllDigits(PadInt(n, w))
    ensures DigitsValue(PadInt(n, w)) == n
  {
    NatToStrShort(n, w);
    PadIntNonNegative(n, w);
    NatToStrValue(n);
    ZerosPrefixValue(w - |NatToStr(n)|, NatToStr(n));
  }

  /** `str(i)` for an integer. */
  function IntToStr(i: int): (r: string)
    ensures r != []
    ensures 0 <= i ==> AllDigits(r)
  {
    if i < 0 then "-" + NatToStr(-i) else NatToStr(i)
  }

  /** `f"{i:0{w}d}"`: zero-padded to width `w`, the sign counting towards the width. */
  function PadInt(i: int, w: nat): (r: string)
    ensures r != [] && IsDigit(r[|r| - 1])
  {
    if i < 0 then "-" + ZFill(NatToStr(-i), if w == 0 then 0 else w - 1)
    else ZFill(NatToStr(i), w)
  }

  lemma PadIntNonNegative(i: nat, w: nat)
    ensures AllDigits(PadInt(i, w)) && |PadInt(i, w)| >= w
  {
    ZFillDigits(NatToStr(i), w);
  }

  /** A number that already has `w` digits is printed the same with or without padding. */
  lemma PadIntWide(i: nat, w: nat)
    requires w > 0 && Pow10(w - 1) <= i
    ensures PadInt(i, w) == IntToStr(i)
  {
    NatToStrLength(i, w - 1);
  }

  /** `s[:n]` */
  function Prefix(s: string, n: nat): (r: string)
    ensures |r| == if |s| < n then |s| else n
    ensures r == s[..|r|]
  {
    if |s| <= n then s else s[..n]
  }

  /** Python's ordering of strings: code point by code point, a prefix first. */
  predicate StrLt(a: string, b: string)
    decreases |a|
  {
    if a == [] then b != []
    else if b == [] then false
    else if a[0] != b[0] then a[0] < b[0]
    else StrLt(a[1..], b[1..])
  }

  predicate StrLe(a: string, b: string)
  {
    a == b || StrLt(a, b)
  }

  lemma {:induction false} StrLtIrreflexive(a: string)
    ensures !StrLt(a, a)
  {
    if a != [] { StrLtIrreflexive(a[1..]); }
  }

  lemma {:induction false} StrLtTotal(a: string, b: string)
    ensures a == b || StrLt(a, b) || StrLt(b, a)
  {
    if a != [] && b != [] && a[0] == b[0] {
      StrLtTotal(a[1..], b[1..]);
      if a[1..] == b[1..] {
        assert a == [a[0]] + a[1..] && b == [b[0]] + b[1..];
      }
    }
  }

  lemma {:induction false} StrLtTransitive(a: string, b: string, c: string)
    requires StrLt(a, b) && StrLt(b, c)
    ensures StrLt(a, c)
  {
    if a != [] && a[0] == b[0] && b[0] == c[0] {
      StrLtTransitive(a[1..], b[1..], c[1..]);
    }
  }

  lemma {:induction false} StrLtAsymmetric(a: string, b: string)
    requires StrLt(a, b)
    ensures !StrLt(b, a)
  {
    if a != [] && a[0] == b[0] {
      StrLtAsymmetric(a[1..], b[1..]);
    }
  }
}
