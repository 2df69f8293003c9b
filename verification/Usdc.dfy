/**
 * USDC amounts as text: the printer and the parser of base units, and the price
 * parser of the dashboard. Strings are sequences of characters; the parsers are
 * modelled on unsigned digits and points: other spellings a parser accepts, such as a
 * sign, blanks or a radix prefix, are not.
 */
module Usdc {
  import opened Types
  import Protocol

  const USDC_DECIMALS := 7
  const USDC_DIVISOR := 10_000_000

  function Digit(d: nat): char
    requires d < 10
  {
    '0' + d as char
  }

  function DigitValue(c: char): nat
    requires '0' <= c <= '9'
  {
    (c - '0') as nat
  }

  predicate IsDigits(s: string) {
    forall i :: 0 <= i < |s| ==> '0' <= s[i] <= '9'
  }

  /** `toString` of a non-negative bigint. */
  function ToDecimal(n: nat): (s: string)
    ensures IsDigits(s) && |s| >= 1
  {
    if n < 10 then [Digit(n)] else ToDecimal(n / 10) + [Digit(n % 10)]
  }

  /** `BigInt` of a digit string; the empty string is zero. */
  function FromDecimal(s: string): nat
    requires IsDigits(s)
  {
    if s == "" then 0 else 10 * FromDecimal(s[..|s| - 1]) + DigitValue(s[|s| - 1])
  }

  function Zeros(n: nat): (s: string)
    ensures |s| == n && IsDigits(s)
    ensures forall i :: 0 <= i < n ==> s[i] == '0'
  {
    seq(n, _ => '0')
  }

  function PadStart(s: string, width: nat): string {
    if |s| >= width then s else Zeros(width - |s|) + s
  }

  function PadEnd(s: string, width: nat): string {
    if |s| >= width then s else s + Zeros(width - |s|)
  }

  function FormatUsdc(raw: int): string {
    var abs := if raw < 0 then -raw else raw;
    (if raw < 0 then "-" else "")
    + ToDecimal(abs / USDC_DIVISOR) + "." + PadStart(ToDecimal(abs % USDC_DIVISOR), USDC_DECIMALS)
  }

  /** `split('.')`: the fields between the points, at least one. */
  function Split(s: string): (fields: seq<string>)
    ensures |fields| >= 1
  {
    if s == "" then [""]
    else if s[0] == '.' then [""] + Split(s[1..])
    else
      var rest := Split(s[1..]);
      [[s[0]] + rest[0]] + rest[1..]
  }

  /** `None` outside plain digits. A missing fraction defaults to "0". */
  function ParseUsdc(usd: string): Option<nat> {
    var fields := Split(usd);
    ParseFields(fields[0], if |fields| > 1 then fields[1] else "0")
  }

  function ParseFields(whole: string, frac: string): Option<nat> {
    var padded := PadEnd(frac, USDC_DECIMALS)[..USDC_DECIMALS];
    if IsDigits(whole) && IsDigits(padded) then Some(FromDecimal(whole) * USDC_DIVISOR + FromDecimal(padded)) else None
  }

  // ----------------------------------------------------------------- digit strings

  lemma {:induction false} DecimalRoundTrip(n: nat)
    ensures FromDecimal(ToDecimal(n)) == n
  {
    var s := ToDecimal(n);
    if n < 10 {
      assert s[..|s| - 1] == "";
    } else {
      DecimalRoundTrip(n / 10);
      assert s[..|s| - 1] == ToDecimal(n / 10);
    }
  }

  predicate NoLeadingZero(s: string) {
    IsDigits(s) && |s| >= 1 && (s[0] == '0' ==> |s| == 1)
  }

  lemma {:induction false} PositiveWithoutLeadingZero(s: string)
    requires NoLeadingZero(s) && s != "0"
    ensures FromDecimal(s) > 0
  {
    if |s| == 1 {
      assert s[..0] == "";
    } else {
      PositiveWithoutLeadingZero(s[..|s| - 1]);
    }
  }

  lemma PrintDigit(n: nat, d: nat)
    requires d < 10 && n > 0
    ensures ToDecimal(10 * n + d) == ToDecimal(n) + [Digit(d)]
  {
    assert (10 * n + d) / 10 == n && (10 * n + d) % 10 == d;
  }

  lemma {:induction false} ParseThenPrint(s: string)
    requires NoLeadingZero(s)
    ensures ToDecimal(FromDecimal(s)) == s
  {
    if |s| == 1 {
      OneDigitPrints(s);
    } else {
      var init, last := s[..|s| - 1], s[|s| - 1];
      assert NoLeadingZero(init) && init != "0";
      PositiveWithoutLeadingZero(init);
      ParseThenPrint(init);
      PrintAppended(init, last);
      assert init + [last] == s;
    }
  }

  lemma OneDigitPrints(s: string)
    requires IsDigits(s) && |s| == 1
    ensures ToDecimal(FromDecimal(s)) == s
  {
    assert s[..0] == "";
    DigitOfValue(s[0]);
  }

  lemma AppendedValue(s: string, c: char)
    requires IsDigits(s) && '0' <= c <= '9'
    ensures IsDigits(s + [c]) && FromDecimal(s + [c]) == 10 * FromDecimal(s) + DigitValue(c)
  {
    assert (s + [c])[..|s|] == s;
  }

  lemma PrintAppended(s: string, c: char)
    requires IsDigits(s) && '0' <= c <= '9' && FromDecimal(s) > 0 && ToDecimal(FromDecimal(s)) == s
    ensures IsDigits(s + [c]) && ToDecimal(FromDecimal(s + [c])) == s + [c]
  {
    AppendedValue(s, c);
    PrintDigit(FromDecimal(s), DigitValue(c));
    DigitOfValue(c);
  }

  lemma DigitOfValue(c: char)
    requires '0' <= c <= '9'
    ensures Digit(DigitValue(c)) == c
  {
  }

  lemma {:induction false} FromConcat(a: string, b: string)
    requires IsDigits(a) && IsDigits(b)
    ensures IsDigits(a + b)
    ensures FromDecimal(a + b) == FromDecimal(a) * Pow10(|b|) + FromDecimal(b)
  {
    if b == "" {
      assert a + b == a;
    } else {
      var init, last := b[..|b| - 1], b[|b| - 1];
      assert a + b == (a + init) + [last];
      FromConcat(a, init);
      AppendedValue(a + init, last);
      ShiftDigit(FromDecimal(a), Pow10(|init|), FromDecimal(init), DigitValue(last));
    }
  }

  lemma ShiftDigit(v: nat, p: nat, q: nat, d: nat)
    ensures 10 * (v * p + q) + d == v * (10 * p) + (10 * q + d)
  {
  }

  function Pow10(n: nat): (p: nat)
    ensures p >= 1
  {
    if n == 0 then 1 else 10 * Pow10(n - 1)
  }

  lemma {:induction false} ZerosAreZero(n: nat)
    ensures FromDecimal(Zeros(n)) == 0
  {
    if n > 0 {
      assert Zeros(n)[..n - 1] == Zeros(n - 1);
      ZerosAreZero(n - 1);
    }
  }

  lemma {:induction false} DigitsBound(s: string)
    requires IsDigits(s)
    ensures FromDecimal(s) < Pow10(|s|)
  {
    if s != "" {
      DigitsBound(s[..|s| - 1]);
    }
  }

  lemma {:induction false} PrintedWidth(n: nat, width: nat)
    requires width >= 1 && n < Pow10(width)
    ensures |ToDecimal(n)| <= width
  {
    if n >= 10 {
      assert width > 1;
      PrintedWidth(n / 10, width - 1);
    }
  }

  lemma PadStartKeepsValue(n: nat, width: nat)
    requires width >= 1 && n < Pow10(width)
    ensures var s := PadStart(ToDecimal(n), width);
      |s| == width && IsDigits(s) && FromDecimal(s) == n
  {
    PrintedWidth(n, width);
    DecimalRoundTrip(n);
    PaddedStart(ToDecimal(n), width);
  }

  lemma PaddedStart(s: string, width: nat)
    requires IsDigits(s) && |s| <= width
    ensures var padded := PadStart(s, width);
      |padded| == width && IsDigits(padded) && FromDecimal(padded) == FromDecimal(s)
  {
    if |s| < width {
      LeadingZeros(width - |s|, s);
    }
  }

  lemma LeadingZeros(count: nat, s: string)
    requires IsDigits(s)
    ensures var zeros := Zeros(count); IsDigits(zeros + s) && FromDecimal(zeros + s) == FromDecimal(s)
  {
    ZerosAreZero(count);
    FromConcat(Zeros(count), s);
    assert 0 * Pow10(|s|) == 0;
  }

  lemma LastDigit(v: nat, d: nat, w: nat, e: nat)
    requires d < 10 && e < 10 && 10 * v + d == 10 * w + e
    ensures v == w && d == e
  {
  }

  /** Two digit strings of one width with one value are the same string. */
  lemma {:induction false} SameWidthSameDigits(a: string, b: string)
    requires IsDigits(a) && IsDigits(b) && |a| == |b|
    requires FromDecimal(a) == FromDecimal(b)
    ensures a == b
  {
    if a != "" {
      var x, y := a[|a| - 1], b[|b| - 1];
      LastDigit(FromDecimal(a[..|a| - 1]), DigitValue(x), FromDecimal(b[..|b| - 1]), DigitValue(y));
      SameWidthSameDigits(a[..|a| - 1], b[..|b| - 1]);
      assert a == a[..|a| - 1] + [x] && b == b[..|b| - 1] + [y];
    }
  }

  lemma {:induction false} SplitPlain(s: string)
    requires IsDigits(s)
    ensures Split(s) == [s]
  {
    if s != "" {
      SplitPlain(s[1..]);
      assert [s[0]] + s[1..] == s;
    }
  }

  lemma {:induction false} SplitAtPoint(a: string, b: string)
    requires IsDigits(a) && IsDigits(b)
    ensures Split(a + "." + b) == [a, b]
  {
    var s := a + "." + b;
    if a == "" {
      assert s[1..] == b;
      SplitPlain(b);
    } else {
      assert s[1..] == a[1..] + "." + b;
      SplitAtPoint(a[1..], b);
      assert [a[0]] + a[1..] == a;
    }
  }

  // ------------------------------------------------------------------- round trips

  lemma Powers()
    ensures Pow10(1) == 10 && Pow10(2) == 100 && Pow10(5) == 100_000 && Pow10(6) == 1_000_000
    ensures Pow10(7) == USDC_DIVISOR
  {
    assert Pow10(3) == 1000;
    assert Pow10(5) == 100_000;
  }

  /** Parsing what was printed gives the amount back. */
  lemma PrintThenParse(raw: nat)
    ensures ParseUsdc(FormatUsdc(raw)) == Some(raw)
  {
    var whole, frac := ToDecimal(raw / USDC_DIVISOR), PadStart(ToDecimal(raw % USDC_DIVISOR), USDC_DECIMALS);
    Powers();
    PadStartKeepsValue(raw % USDC_DIVISOR, USDC_DECIMALS);
    DecimalRoundTrip(raw / USDC_DIVISOR);
    SplitAtPoint(whole, frac);
    FormatNonNegative(raw);
    assert frac[..USDC_DECIMALS] == frac;
  }

  /** The seven digits the parser reads: later ones dropped, missing ones zero. */
  lemma PaddedValue(frac: string)
    requires IsDigits(frac)
    ensures var kept := if |frac| <= USDC_DECIMALS then frac else frac[..USDC_DECIMALS];
      var padded := PadEnd(frac, USDC_DECIMALS)[..USDC_DECIMALS];
      IsDigits(padded) && FromDecimal(padded) == FromDecimal(kept) * Pow10(USDC_DECIMALS - |kept|)
  {
    var kept := if |frac| <= USDC_DECIMALS then frac else frac[..USDC_DECIMALS];
    var padded := PadEnd(frac, USDC_DECIMALS)[..USDC_DECIMALS];
    assert padded == kept + Zeros(USDC_DECIMALS - |kept|);
    FromConcat(kept, Zeros(USDC_DECIMALS - |kept|));
    ZerosAreZero(USDC_DECIMALS - |kept|);
  }

  /**
   * What the parser reads from a whole part and a fraction: digits past the seventh
   * are dropped, missing ones are zeros.
   */
  lemma ParseValue(whole: string, frac: string)
    requires IsDigits(whole) && IsDigits(frac)
    ensures var kept := if |frac| <= USDC_DECIMALS then frac else frac[..USDC_DECIMALS];
      ParseUsdc(whole + "." + frac)
      == Some(FromDecimal(whole) * USDC_DIVISOR + FromDecimal(kept) * Pow10(USDC_DECIMALS - |kept|))
  {
    ParseAtPoint(whole, frac);
    FieldsValue(whole, frac);
  }

  lemma FieldsValue(whole: string, frac: string)
    requires IsDigits(whole) && IsDigits(frac)
    ensures var kept := if |frac| <= USDC_DECIMALS then frac else frac[..USDC_DECIMALS];
      ParseFields(whole, frac)
      == Some(FromDecimal(whole) * USDC_DIVISOR + FromDecimal(kept) * Pow10(USDC_DECIMALS - |kept|))
  {
    PaddedValue(frac);
  }

  lemma ParseAtPoint(whole: string, frac: string)
    requires IsDigits(whole) && IsDigits(frac)
    ensures ParseUsdc(whole + "." + frac) == ParseFields(whole, frac)
  {
    SplitAtPoint(whole, frac);
  }

  /** A negative amount is printed as its absolute value behind a sign. */
  lemma FormatNegative(n: int)
    requires n > 0
    ensures FormatUsdc(-n) == "-" + FormatUsdc(n)
  {
    var digits := ToDecimal(n / USDC_DIVISOR) + "." + PadStart(ToDecimal(n % USDC_DIVISOR), USDC_DECIMALS);
    FormatNonNegative(n);
    assert FormatUsdc(n) == digits;
    assert FormatUsdc(-n) == "-" + ToDecimal(n / USDC_DIVISOR) + "."
                             + PadStart(ToDecimal(n % USDC_DIVISOR), USDC_DECIMALS);
  }

  /** Printing what was parsed gives a canonical string back. */
  lemma ParseThenFormat(whole: string, frac: string)
    requires NoLeadingZero(whole) && IsDigits(frac) && |frac| == USDC_DECIMALS
    ensures ParseUsdc(whole + "." + frac).Some?
    ensures FormatUsdc(ParseUsdc(whole + "." + frac).value) == whole + "." + frac
  {
    ParseParts(whole, frac);
    Powers();
    DigitsBound(frac);
    WholeAndFraction(FromDecimal(whole), FromDecimal(frac));
    FormatParts(FromDecimal(whole) * USDC_DIVISOR + FromDecimal(frac), whole, frac);
  }

  lemma ParseParts(whole: string, frac: string)
    requires IsDigits(whole) && IsDigits(frac) && |frac| == USDC_DECIMALS
    ensures ParseUsdc(whole + "." + frac) == Some(FromDecimal(whole) * USDC_DIVISOR + FromDecimal(frac))
  {
    ParseAtPoint(whole, frac);
    FullFraction(whole, frac);
  }

  lemma FullFraction(whole: string, frac: string)
    requires IsDigits(whole) && IsDigits(frac) && |frac| == USDC_DECIMALS
    ensures ParseFields(whole, frac) == Some(FromDecimal(whole) * USDC_DIVISOR + FromDecimal(frac))
  {
    assert PadEnd(frac, USDC_DECIMALS)[..USDC_DECIMALS] == frac;
  }

  lemma WholeAndFraction(w: nat, f: nat)
    requires f < USDC_DIVISOR
    ensures (w * USDC_DIVISOR + f) / USDC_DIVISOR == w && (w * USDC_DIVISOR + f) % USDC_DIVISOR == f
  {
  }

  lemma FormatParts(raw: nat, whole: string, frac: string)
    requires NoLeadingZero(whole) && IsDigits(frac) && |frac| == USDC_DECIMALS
    requires raw / USDC_DIVISOR == FromDecimal(whole) && raw % USDC_DIVISOR == FromDecimal(frac)
    ensures FormatUsdc(raw) == whole + "." + frac
  {
    FormatNonNegative(raw);
    ParseThenPrint(whole);
    PaddedDigits(frac);
  }

  lemma FormatNonNegative(n: nat)
    ensures FormatUsdc(n) == ToDecimal(n / USDC_DIVISOR) + "." + PadStart(ToDecimal(n % USDC_DIVISOR), USDC_DECIMALS)
  {
  }

  lemma PaddedDigits(frac: string)
    requires IsDigits(frac) && |frac| == USDC_DECIMALS
    ensures PadStart(ToDecimal(FromDecimal(frac)), USDC_DECIMALS) == frac
  {
    DigitsBound(frac);
    PadStartKeepsValue(FromDecimal(frac), USDC_DECIMALS);
    SameWidthSameDigits(PadStart(ToDecimal(FromDecimal(frac)), USDC_DECIMALS), frac);
  }

  // --------------------------------------------------------------- the price parser

  /** The dashboard's reading of a price; `None` outside plain digits. */
  function ToCents(usd: string): Option<nat> {
    var fields := Split(usd);
    CentFields(fields[0], if |fields| > 1 then (fields[1] + "00")[..2] else "0")
  }

  function CentFields(whole: string, frac: string): Option<nat> {
    if IsDigits(whole) && IsDigits(frac) then Some(FromDecimal(whole) * 100 + FromDecimal(frac)) else None
  }

  /**
   * A price with at most two decimals means the same to the dashboard, in cents, and
   * to the base-unit parser: one cent is 100000 base units.
   */
  lemma PriceParsersAgree(whole: string, frac: string)
    requires IsDigits(whole) && |whole| >= 1 && IsDigits(frac) && 1 <= |frac| <= 2
    ensures ToCents(whole + "." + frac).Some? && ToCents(whole).Some?
    ensures ParseUsdc(whole + "." + frac) == Some(Protocol.BaseTotal(ToCents(whole + "." + frac).value))
    ensures ParseUsdc(whole) == Some(Protocol.BaseTotal(ToCents(whole).value))
  {
    CentsAtPoint(whole, frac);
    UnitsAtPoint(whole, frac);
    WholeCents(whole);
    WholeUnits(whole);
  }

  function CentsOf(frac: string): nat
    requires IsDigits(frac)
  {
    if |frac| == 1 then 10 * FromDecimal(frac) else FromDecimal(frac)
  }

  lemma CentsAtPoint(whole: string, frac: string)
    requires IsDigits(whole) && IsDigits(frac) && 1 <= |frac| <= 2
    ensures ToCents(whole + "." + frac) == Some(FromDecimal(whole) * 100 + CentsOf(frac))
  {
    SplitAtPoint(whole, frac);
    CentFieldsValue(whole, frac);
  }

  lemma CentFieldsValue(whole: string, frac: string)
    requires IsDigits(whole) && IsDigits(frac) && 1 <= |frac| <= 2
    ensures CentFields(whole, (frac + "00")[..2]) == Some(FromDecimal(whole) * 100 + CentsOf(frac))
  {
    CentDigits(frac);
  }

  lemma UnitsAtPoint(whole: string, frac: string)
    requires IsDigits(whole) && IsDigits(frac) && 1 <= |frac| <= 2
    ensures ParseUsdc(whole + "." + frac) == Some(FromDecimal(whole) * USDC_DIVISOR + CentsOf(frac) * 100_000)
  {
    ParseValue(whole, frac);
    CentUnits(frac);
  }

  lemma CentUnits(frac: string)
    requires IsDigits(frac) && 1 <= |frac| <= 2
    ensures FromDecimal(frac) * Pow10(USDC_DECIMALS - |frac|) == CentsOf(frac) * 100_000
  {
    Powers();
  }

  lemma CentDigits(frac: string)
    requires IsDigits(frac) && 1 <= |frac| <= 2
    ensures var cents := (frac + "00")[..2];
      IsDigits(cents) && FromDecimal(cents) == CentsOf(frac)
  {
    if |frac| == 1 {
      assert (frac + "00")[..2] == frac + "0";
      assert (frac + "0")[..1] == frac;
    } else {
      assert (frac + "00")[..2] == frac;
    }
  }

  lemma ZeroDigit()
    ensures FromDecimal("0") == 0
  {
    assert "0"[..0] == "";
  }

  lemma WholeCents(whole: string)
    requires IsDigits(whole)
    ensures ToCents(whole) == Some(FromDecimal(whole) * 100)
  {
    SplitPlain(whole);
    WholeCentFields(whole);
  }

  lemma WholeCentFields(whole: string)
    requires IsDigits(whole)
    ensures CentFields(whole, "0") == Some(FromDecimal(whole) * 100)
  {
    ZeroDigit();
  }

  lemma WholeUnits(whole: string)
    requires IsDigits(whole)
    ensures ParseUsdc(whole) == Some(FromDecimal(whole) * USDC_DIVISOR)
  {
    SplitPlain(whole);
    WholeFields(whole);
  }

  lemma WholeFields(whole: string)
    requires IsDigits(whole)
    ensures ParseFields(whole, "0") == Some(FromDecimal(whole) * USDC_DIVISOR)
  {
    NoFraction();
  }

  lemma NoFraction()
    ensures var padded := PadEnd("0", USDC_DECIMALS)[..USDC_DECIMALS];
      IsDigits(padded) && FromDecimal(padded) == 0
  {
    assert PadEnd("0", USDC_DECIMALS)[..USDC_DECIMALS] == Zeros(USDC_DECIMALS);
    ZerosAreZero(USDC_DECIMALS);
  }
}
