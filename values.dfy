/** Value coercion shared by every document: tolerant number parsing, sentence
    termination, date localisation and the fixed-point renderings the documents
    print (`toFixed(2)` and a two-decimal percentage). */
module Values {
  import opened Text

  // ---------------------------------------------------------------------------
  // Numbers

  /** A decimal literal recognised at the start of a text: optional sign,
      integer digits, fraction digits, and an exponent. */
  datatype Decimal = Decimal(negative: bool, intDigits: string, fracDigits: string, exponent: int)

  predicate AllDigits(s: string) {
    forall k | 0 <= k < |s| :: IsDigit(s[k])
  }

  function Pow10(n: nat): (p: nat)
    ensures p >= 1
  {
    if n == 0 then 1 else 10 * Pow10(n - 1)
  }

  /** `m` times ten to the power `e`. */
  function Scale(m: real, e: int): real
    decreases if e >= 0 then e else -e
  {
    if e == 0 then m
    else if e > 0 then Scale(m, e - 1) * 10.0
    else Scale(m, e + 1) / 10.0
  }

  /** The value of a decimal literal: its digits read as one integer, scaled by
      the exponent less the number of fraction digits. */
  function DecimalValue(d: Decimal): real
    requires AllDigits(d.intDigits) && AllDigits(d.fracDigits)
  {
    var digits := d.intDigits + d.fracDigits;
    assert AllDigits(digits);
    var magnitude := Scale(DigitsValue(digits) as real, d.exponent - |d.fracDigits|);
    if d.negative then -magnitude else magnitude
  }

  /** True when `t` (already stripped of leading white space) begins a number
      `parseFloat` accepts: an optional sign, then a digit, or a point and a digit. */
  predicate StartsNumber(t: string) {
    var p := if t != [] && (t[0] == '+' || t[0] == '-') then 1 else 0;
    || (p < |t| && IsDigit(t[p]))
    || (p + 1 < |t| && t[p] == '.' && IsDigit(t[p + 1]))
  }

  /** The exponent part `e[+-]digits` starting at `i`, if it is complete. */
  function ExponentAt(t: string, i: nat): (r: Option<(int, nat)>)
    requires i <= |t|
    ensures r.Some? ==> i < r.value.1 <= |t|
  {
    if i < |t| && (t[i] == 'e' || t[i] == 'E') then
      var q := if i + 1 < |t| && (t[i + 1] == '+' || t[i + 1] == '-') then i + 2 else i + 1;
      var e := DigitRunEnd(t, q);
      if e == q then None
      else
        var magnitude := DigitsValue(t[q..e]) as int;
        Some((if q == i + 2 && t[i + 1] == '-' then -magnitude else magnitude, e))
    else None
  }

  /** The longest decimal-literal prefix of `t`, as `parseFloat` reads it. */
  function LeadingDecimal(t: string): (r: Option<Decimal>)
    ensures r.Some? <==> StartsNumber(t)
    ensures r.Some? ==> AllDigits(r.value.intDigits) && AllDigits(r.value.fracDigits)
  {
    var negative := t != [] && t[0] == '-';
    var p := if t != [] && (t[0] == '+' || t[0] == '-') then 1 else 0;
    var intEnd := DigitRunEnd(t, p);
    var hasPoint := intEnd < |t| && t[intEnd] == '.';
    var fracEnd := if hasPoint then DigitRunEnd(t, intEnd + 1) else intEnd;
    var fracStart := if hasPoint then intEnd + 1 else intEnd;
    if intEnd == p && fracEnd == fracStart then None
    else
      var exponent := ExponentAt(t, fracEnd);
      Some(Decimal(negative, t[p..intEnd], t[fracStart..fracEnd],
                   if exponent.Some? then exponent.value.0 else 0))
  }

  /** `parseFloat(s)`: `None` stands for NaN. */
  function ParseFloat(s: string): (r: Option<real>)
    ensures r.Some? <==> StartsNumber(TrimStart(s))
  {
    match LeadingDecimal(TrimStart(s))
    case None => None
    case Some(d) => Some(DecimalValue(d))
  }

  /** `_safeFloat(value, defaultValue)`. */
  function SafeFloat(s: string, default: real): (r: real)
    ensures ParseFloat(s).None? ==> r == default
    ensures ParseFloat(s).Some? ==> r == ParseFloat(s).value
  {
    match ParseFloat(s)
    case None => default
    case Some(v) => v
  }

  /** Text that does not start (after white space) with a number reads as the
      default, whatever the default is. */
  lemma SafeFloatDefault(s: string, default: real)
    requires !StartsNumber(TrimStart(s))
    ensures SafeFloat(s, default) == default
  {
  }

  /** A rendered natural number parses back to itself. */
  lemma ParseFloatNat(n: nat)
    ensures ParseFloat(NatToString(n)) == Some(n as real)
  {
    var s := NatToString(n);
    assert !IsSpace(s[0]);
    assert TrimStart(s) == s;
    NatToStringRoundTrip(n);
    LeadingDigits(s);
  }

  lemma LeadingDigits(s: string)
    requires AllDigits(s) && s != []
    ensures LeadingDecimal(s) == Some(Decimal(false, s, [], 0))
    ensures DecimalValue(Decimal(false, s, [], 0)) == DigitsValue(s) as real
  {
    DigitRunToEnd(s, 0);
    assert s[0..|s|] == s;
    assert s + [] == s;
    assert ExponentAt(s, |s|).None?;
  }

  lemma {:induction false} DigitRunToEnd(s: string, i: nat)
    requires i <= |s|
    requires forall k | i <= k < |s| :: IsDigit(s[k])
    ensures DigitRunEnd(s, i) == |s|
    decreases |s| - i
  {
    if i < |s| { DigitRunToEnd(s, i + 1); }
  }

  // ---------------------------------------------------------------------------
  // Sentences

  predicate EndsWithPeriod(t: string) {
    EndsWith(t, "。") || EndsWith(t, ".")
  }

  /** `_ensurePeriod(text)`: trims, maps blank text to "", and otherwise makes
      sure the text ends with a full-width or ASCII period. */
  function EnsurePeriod(text: string): (r: string)
    ensures r == [] <==> IsBlank(text)
    ensures r != [] ==> EndsWithPeriod(r)
    ensures r == Trim(text) || r == Trim(text) + "。"
    ensures EndsWithPeriod(Trim(text)) ==> r == Trim(text)
  {
    TrimEmptyIffBlank(text);
    var t := Trim(text);
    if t == [] then [] else if EndsWithPeriod(t) then t else t + "。"
  }

  /** Terminating a sentence twice changes nothing. */
  lemma EnsurePeriodIdempotent(text: string)
    ensures EnsurePeriod(EnsurePeriod(text)) == EnsurePeriod(text)
  {
    var r := EnsurePeriod(text);
    if r != [] {
      var t := Trim(text);
      assert r[0] == t[0];
      assert r[|r| - 1] == '。' || r == t;
      EnsurePeriodFixed(r);
    }
  }

  /** A trimmed sentence that already ends with a period is left as it is. */
  lemma EnsurePeriodFixed(u: string)
    requires u != [] && !IsSpace(u[0]) && !IsSpace(u[|u| - 1]) && EndsWithPeriod(u)
    ensures EnsurePeriod(u) == u
  {
    assert TrimStart(u) == u;
    assert TrimEnd(u) == u;
  }

  // ---------------------------------------------------------------------------
  // Dates

  datatype Date = Date(year: nat, month: nat, day: nat)

  function DaysInMonth(year: nat, month: nat): nat
    requires 1 <= month <= 12
  {
    if month == 2 then (if (year % 4 == 0 && year % 100 != 0) || year % 400 == 0 then 29 else 28)
    else if month in {4, 6, 9, 11} then 30
    else 31
  }

  predicate ValidDate(d: Date) {
    1 <= d.month <= 12 && 1 <= d.day <= DaysInMonth(d.year, d.month) && d.year <= 9999
  }

  /** The `YYYY-MM-DD` form a date input yields. */
  function ParseIsoDate(s: string): (r: Option<Date>)
    ensures r.Some? ==> ValidDate(r.value)
  {
    if |s| == 10 && s[4] == '-' && s[7] == '-'
       && AllDigits(s[..4]) && AllDigits(s[5..7]) && AllDigits(s[8..])
    then
      var d := Date(DigitsValue(s[..4]), DigitsValue(s[5..7]), DigitsValue(s[8..]));
      if ValidDate(d) then Some(d) else None
    else None
  }

  function Pad(n: nat, width: nat): (r: string)
    ensures |r| >= width && AllDigits(r)
  {
    var s := NatToString(n);
    if |s| >= width then s else Zeros(width - |s|) + s
  }

  function Zeros(n: nat): (r: string)
    ensures |r| == n && AllDigits(r) && forall k | 0 <= k < n :: r[k] == '0'
  {
    if n == 0 then [] else "0" + Zeros(n - 1)
  }

  /** The `YYYY-MM-DD` text of a date. */
  function IsoDate(d: Date): string {
    Pad(d.year, 4) + "-" + Pad(d.month, 2) + "-" + Pad(d.day, 2)
  }

  lemma {:induction false} ZerosValue(z: string, s: string)
    requires AllDigits(s) && (forall k | 0 <= k < |z| :: z[k] == '0')
    ensures AllDigits(z + s) && DigitsValue(z + s) == DigitsValue(s)
    decreases |s|
  {
    if s != [] {
      var zs := z + s;
      assert zs[..|zs| - 1] == z + s[..|s| - 1];
      ZerosValue(z, s[..|s| - 1]);
    } else {
      assert z + s == z;
      ZerosValueOnly(z);
    }
  }

  lemma {:induction false} ZerosValueOnly(z: string)
    requires forall k | 0 <= k < |z| :: z[k] == '0'
    ensures AllDigits(z) && DigitsValue(z) == 0
  {
    if z != [] { ZerosValueOnly(z[..|z| - 1]); }
  }

  lemma PadValue(n: nat, width: nat)
    ensures DigitsValue(Pad(n, width)) == n
  {
    NatToStringRoundTrip(n);
    var s := NatToString(n);
    if |s| < width { ZerosValue(Zeros(width - |s|), s); }
  }

  lemma NatToStringWidth(n: nat, bound: nat, width: nat)
    requires n < bound && bound == Pow10(width) && width >= 1
    ensures |NatToString(n)| <= width
  {
    if n >= 10 {
      assert width >= 2;
      var p := Pow10(width - 1);
      assert bound == 10 * p;
      TenthBelow(n, p);
      assert |NatToString(n)| == |NatToString(n / 10)| + 1;
      NatToStringWidth(n / 10, p, width - 1);
    }
  }

  lemma TenthBelow(n: nat, p: nat)
    requires n < 10 * p
    ensures n / 10 < p
  {
  }

  /** Parsing the `YYYY-MM-DD` rendering of a valid date gives the date back. */
  lemma IsoDateRoundTrip(d: Date)
    requires ValidDate(d)
    ensures ParseIsoDate(IsoDate(d)) == Some(d)
  {
    NatToStringWidth(d.year, 10000, 4);
    NatToStringWidth(d.month, 100, 2);
    NatToStringWidth(d.day, 100, 2);
    var y, m, dd := Pad(d.year, 4), Pad(d.month, 2), Pad(d.day, 2);
    var s := IsoDate(d);
    assert |y| == 4 && |m| == 2 && |dd| == 2;
    assert s[..4] == y && s[5..7] == m && s[8..] == dd;
    PadValue(d.year, 4);
    PadValue(d.month, 2);
    PadValue(d.day, 2);
  }

  /** `_formatDate(dateStr)`: "YEAR年MONTH月DAY日" without zero padding when the
      text is a date; otherwise the input comes back unchanged. A missing value
      (`undefined`) comes back as the text "undefined", which is what the
      template literal around the call prints. */
  function FormatDate(s: Option<string>): (r: string)
    ensures s.None? ==> r == "undefined"
    ensures s.Some? && ParseIsoDate(s.value).None? ==> r == s.value
  {
    match s
    case None => "undefined"
    case Some(text) =>
      match ParseIsoDate(text)
      case None => text
      case Some(d) => NatToString(d.year) + "年" + NatToString(d.month) + "月" + NatToString(d.day) + "日"
  }

  /** A date written `YYYY-MM-DD` comes out localised, without zero padding. */
  lemma FormatIsoDate(d: Date)
    requires ValidDate(d)
    ensures FormatDate(Some(IsoDate(d)))
            == NatToString(d.year) + "年" + NatToString(d.month) + "月" + NatToString(d.day) + "日"
  {
    IsoDateRoundTrip(d);
  }

  // ---------------------------------------------------------------------------
  // Fixed-point renderings

  function TwoDigits(n: nat): string
    requires n < 100
  {
    [DigitChar(n / 10), DigitChar(n % 10)]
  }

  /** Rounds a non-negative amount to hundredths, ties upward. */
  function Hundredths(y: real): nat
    requires y >= 0.0
  {
    (y * 100.0 + 0.5).Floor
  }

  /** The rounding is to the nearest hundredth, within half a hundredth. */
  lemma HundredthsNearest(y: real)
    requires y >= 0.0
    ensures Hundredths(y) as real - 0.5 <= y * 100.0 < Hundredths(y) as real + 0.5
  {
  }

  /** `x.toFixed(2)`. */
  function Fixed2(x: real): string {
    var n := Hundredths(if x < 0.0 then -x else x);
    (if x < 0.0 then "-" else "") + NatToString(n / 100) + "." + TwoDigits(n % 100)
  }

  /** A whole amount is written with two zero decimals. */
  lemma Fixed2Whole(n: nat)
    ensures Fixed2(n as real) == NatToString(n) + ".00"
  {
    Fixed2NonNegative(n as real);
    WholeHundredths(n);
    TwoZeros();
  }

  lemma Fixed2NonNegative(x: real)
    requires x >= 0.0
    ensures Fixed2(x) == NatToString(Hundredths(x) / 100) + "." + TwoDigits(Hundredths(x) % 100)
  {
  }

  lemma TwoZeros()
    ensures TwoDigits(0) == "00"
  {
  }

  /** `n` whole units are `100 * n` hundredths, `n` hundreds and none over. */
  lemma WholeHundredths(n: nat)
    ensures Hundredths(n as real) == 100 * n
    ensures (100 * n) / 100 == n && (100 * n) % 100 == 0
  {
    HundredthsNearest(n as real);
    var h := Hundredths(n as real);
    assert (h as real) - 0.5 <= (n as real) * 100.0 < (h as real) + 0.5;
    assert ((100 * n) as real) == (n as real) * 100.0;
  }

  /** The digits of `s` with a comma between each group of three. */
  function Grouped(s: string): string
    decreases |s|
  {
    if |s| <= 3 then s else Grouped(s[..|s| - 3]) + "," + s[|s| - 3..]
  }

  /** `ratio.toLocaleString(undefined, {style: 'percent', minimumFractionDigits: 2})`
      in the Chinese locale: the ratio times a hundred, two decimals, grouped
      thousands and a percent sign. */
  function Percent2(ratio: real): string {
    var n := Hundredths(if ratio < 0.0 then -ratio * 100.0 else ratio * 100.0);
    (if ratio < 0.0 then "-" else "") + Grouped(NatToString(n / 100)) + "." + TwoDigits(n % 100) + "%"
  }

  /** A ratio of a whole number of hundredths below 1000 % is written as that
      number with two zero decimals and a percent sign, without a separator. */
  lemma Percent2Whole(n: nat)
    requires n < 1000
    ensures Percent2(n as real / 100.0) == NatToString(n) + ".00%"
  {
    var y := n as real / 100.0 * 100.0;
    assert y == n as real;
    WholeHundredths(n);
    TwoZeros();
    assert Pow10(3) == 1000;
    NatToStringWidth(n, 1000, 3);
  }
}
