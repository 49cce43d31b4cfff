/** The numeric conversions the forms apply to the amount strings they hold:
    `parseFloat` (longest numeric prefix), `Number()` (whole string, "" is 0),
    `Math.round(x * 100) / 100` and `toFixed(2)`. Numbers are exact reals and NaN
    is `None`; exponent notation, `Infinity` and surrounding white space are not
    part of this model. */
module JsNumber {
  import opened Wrappers

  predicate IsDigit(c: char) { '0' <= c <= '9' }

  predicate AllDigits(s: string) {
    forall i :: 0 <= i < |s| ==> IsDigit(s[i])
  }

  function DigitValue(c: char): (r: nat)
    requires IsDigit(c)
    ensures r < 10
  {
    c as int - '0' as int
  }

  function DigitChar(d: nat): (r: char)
    requires d < 10
    ensures IsDigit(r) && DigitValue(r) == d
  {
    ('0' as int + d) as char
  }

  /** Value of a run of decimal digits, most significant first. */
  function DigitsValue(d: string): nat
    requires AllDigits(d)
  {
    if d == [] then 0 else 10 * DigitsValue(d[..|d| - 1]) + DigitValue(d[|d| - 1])
  }

  /** Value of the digits after a decimal point. */
  function FractionValue(d: string): (r: real)
    requires AllDigits(d)
    ensures 0.0 <= r < 1.0
  {
    if d == [] then 0.0 else (DigitValue(d[0]) as real + FractionValue(d[1..])) / 10.0
  }

  /** Length of the longest run of digits at the start of `s`. */
  function DigitSpan(s: string): (n: nat)
    ensures n <= |s|
    ensures AllDigits(s[..n])
    ensures n < |s| ==> !IsDigit(s[n])
  {
    if s == [] || !IsDigit(s[0]) then 0 else 1 + DigitSpan(s[1..])
  }

  /** A numeric prefix that was read: its value and how many characters it used. */
  datatype Scanned = Scanned(value: real, length: nat)

  /** The longest prefix of `s` of the form digits* ('.' digits*)? holding at least
      one digit; `None` when there is none. */
  function ScanUnsigned(s: string): (r: Option<Scanned>)
    ensures r.Some? ==> 0 < r.value.length <= |s| && r.value.value >= 0.0
  {
    var n := DigitSpan(s);
    if n < |s| && s[n] == '.' then
      var rest := s[n + 1..];
      var m := DigitSpan(rest);
      if n + m == 0 then None
      else Some(Scanned(DigitsValue(s[..n]) as real + FractionValue(rest[..m]), n + 1 + m))
    else if n == 0 then None
    else Some(Scanned(DigitsValue(s[..n]) as real, n))
  }

  /** The same with an optional sign in front; a "-" negates the value. */
  function ScanDecimal(s: string): (r: Option<Scanned>)
    ensures r.Some? ==> 0 < r.value.length <= |s|
    ensures r.Some? && r.value.value < 0.0 ==> s[0] == '-'
  {
    if |s| > 0 && (s[0] == '-' || s[0] == '+') then
      match ScanUnsigned(s[1..])
      case Some(sc) => Some(Scanned(if s[0] == '-' then -sc.value else sc.value, sc.length + 1))
      case None => None
    else ScanUnsigned(s)
  }

  /** `parseFloat(s)`: the value of the longest numeric prefix, NaN when there is none. */
  function ParseFloat(s: string): (r: Option<real>)
    ensures r.Some? <==> ScanDecimal(s).Some?
  {
    match ScanDecimal(s)
    case Some(sc) => Some(sc.value)
    case None => None
  }

  /** `Number(s)`: the empty string is 0, otherwise the whole string must be numeric. */
  function NumberOf(s: string): (r: Option<real>)
    ensures s == "" ==> r == Some(0.0)
    ensures s != "" && r.Some? ==> r == ParseFloat(s)
  {
    if s == "" then Some(0.0)
    else match ScanDecimal(s)
      case Some(sc) => if sc.length == |s| then Some(sc.value) else None
      case None => None
  }

  /** The JavaScript truthiness of a string: only "" is falsy. */
  predicate Truthy(s: string) { s != "" }

  function Abs(x: real): real { if x < 0.0 then -x else x }

  /** `Math.round(y)`: the nearest integer, halves rounded up. */
  function HalfUp(y: real): (n: int)
    ensures n as real - 0.5 <= y < n as real + 0.5
  {
    (y + 0.5).Floor
  }

  /** `Math.round(x * 100) / 100`. */
  function Round2(x: real): (r: real)
    ensures -0.005 < r - x <= 0.005
  {
    var n := HalfUp(x * 100.0);
    assert n as real - x * 100.0 <= 0.5;
    assert n as real / 100.0 - x == (n as real - x * 100.0) / 100.0;
    n as real / 100.0
  }

  /** The number of hundredths `toFixed(2)` prints for the magnitude of `x`:
      the nearest, the larger of two equally near. */
  function Cents(x: real): (c: nat)
    ensures c as real - 0.5 <= Abs(x) * 100.0 < c as real + 0.5
  {
    HalfUp(Abs(x) * 100.0)
  }

  /** Decimal digits of `n` without leading zeros. */
  function NatToString(n: nat): (s: string)
    ensures |s| > 0 && AllDigits(s)
  {
    if n < 10 then [DigitChar(n)] else NatToString(n / 10) + [DigitChar(n % 10)]
  }

  /** Two digits, with a leading zero when `k` is below ten. */
  function Pad2(k: nat): (s: string)
    requires k < 100
    ensures |s| == 2 && AllDigits(s)
  {
    [DigitChar(k / 10), DigitChar(k % 10)]
  }

  /** `x.toFixed(2)`: a "-" when `x` is negative, the whole part, a point and two
      digits of the rounded magnitude. */
  function ToFixed2(x: real): (r: string)
    ensures |r| >= 4 && r[|r| - 3] == '.'
  {
    var c := Cents(x);
    (if x < 0.0 then "-" else "") + NatToString(c / 100) + "." + Pad2(c % 100)
  }

  /** `toFixed(2)` of a number that may be NaN. */
  function ToFixedOpt(x: Option<real>): string {
    match x
    case Some(v) => ToFixed2(v)
    case None => "NaN"
  }

  /** The number a `toFixed(2)` string stands for. */
  function FixedValue(x: real): (r: real)
    ensures -0.005 <= r - x <= 0.005
  {
    var m := Cents(x) as real / 100.0;
    if x < 0.0 then -m else m
  }

  /** The amount inputs' filter `^[0-9]*\.?[0-9]*$`. */
  predicate AmountPattern(s: string) {
    var n := DigitSpan(s);
    n == |s| || (s[n] == '.' && AllDigits(s[n + 1..]))
  }

  // ---------------------------------------------------------------------------
  // Lemmas

  lemma {:induction false} NatToStringValue(n: nat)
    ensures DigitsValue(NatToString(n)) == n
  {
    if n >= 10 {
      var s := NatToString(n);
      assert s[..|s| - 1] == NatToString(n / 10);
      NatToStringValue(n / 10);
    }
  }

  lemma Pad2Value(k: nat)
    requires k < 100
    ensures FractionValue(Pad2(k)) == k as real / 100.0
  {
    var s := Pad2(k);
    assert s[1..][1..] == [];
    assert FractionValue(s[1..]) == (k % 10) as real / 10.0;
  }

  lemma {:induction false} DigitSpanOfDigits(a: string, b: string)
    requires AllDigits(a)
    requires b == [] || !IsDigit(b[0])
    ensures DigitSpan(a + b) == |a|
  {
    if a != [] {
      assert (a + b)[1..] == a[1..] + b;
      DigitSpanOfDigits(a[1..], b);
    } else {
      assert a + b == b;
    }
  }

  /** Reading digits `a`, a point and digits `b` consumes the whole string. */
  lemma ScanPointedBody(a: string, b: string)
    requires |a| > 0 && AllDigits(a) && AllDigits(b)
    ensures ScanUnsigned(a + ("." + b)).Some?
    ensures ScanUnsigned(a + ("." + b)).value.length == |a| + 1 + |b|
    ensures ScanUnsigned(a + ("." + b)).value.value == DigitsValue(a) as real + FractionValue(b)
  {
    var s := a + ("." + b);
    DigitSpanOfDigits(a, "." + b);
    var n := DigitSpan(s);
    assert n == |a|;
    assert s[n] == '.';
    assert s[..n] == a;
    var rest := s[n + 1..];
    assert rest == b;
    DigitSpanOfDigits(b, []);
    assert b + [] == b;
    var m := DigitSpan(rest);
    assert m == |b|;
    assert rest[..m] == b;
    assert n < |s| && s[n] == '.';
    assert n + m != 0;
    assert ScanUnsigned(s).Some?;
    assert ScanUnsigned(s).value.length == n + 1 + m;
    assert ScanUnsigned(s).value.value == DigitsValue(a) as real + FractionValue(b);
    assert |s| == n + 1 + m;
    var sc := ScanUnsigned(s).value;
    assert sc == Scanned(DigitsValue(a) as real + FractionValue(b), |s|);
  }

  /** Reading `a` "." `b` with an optional "-" in front consumes the whole string. */
  lemma ScanPointed(sign: string, a: string, b: string)
    requires sign == "" || sign == "-"
    requires |a| > 0 && AllDigits(a) && AllDigits(b)
    ensures ScanDecimal(sign + a + "." + b).Some?
    ensures ScanDecimal(sign + a + "." + b).value.length == |sign + a + "." + b|
    ensures var mag := DigitsValue(a) as real + FractionValue(b);
            ScanDecimal(sign + a + "." + b).value.value == if sign == "-" then -mag else mag
  {
    var body := a + ("." + b);
    PointedText(sign, a, b);
    ScanPointedBody(a, b);
    assert body[0] == a[0];
    ScanSigned(sign, body);
  }

  /** The numeral `a` "." `b` with its sign in front, grouped as the scan reads it. */
  lemma PointedText(sign: string, a: string, b: string)
    ensures sign + a + "." + b == sign + (a + ("." + b))
  {
    assert (sign + a + "." + b)[..|sign|] == sign;
    assert (sign + a + "." + b)[|sign|..] == a + ("." + b);
  }

  /** An optional "-" in front of a numeral starting with a digit negates it
      and is consumed with it. */
  lemma ScanSigned(sign: string, body: string)
    requires sign == "" || sign == "-"
    requires body != [] && IsDigit(body[0]) && ScanUnsigned(body).Some?
    ensures var sc := ScanUnsigned(body).value;
            ScanDecimal(sign + body) ==
              Some(if sign == "-" then Scanned(-sc.value, sc.length + 1) else sc)
  {
    if sign == "-" {
      assert (sign + body)[1..] == body;
    } else {
      assert sign + body == body;
    }
  }

  /** `parseFloat` and `Number` both read back the value a `toFixed(2)` string
      stands for. */
  lemma FixedRoundTrip(x: real)
    ensures ParseFloat(ToFixed2(x)) == Some(FixedValue(x))
    ensures NumberOf(ToFixed2(x)) == Some(FixedValue(x))
  {
    var c := Cents(x);
    var sign := if x < 0.0 then "-" else "";
    NatToStringValue(c / 100);
    Pad2Value(c % 100);
    ScanPointed(sign, NatToString(c / 100), Pad2(c % 100));
    assert ToFixed2(x) == sign + NatToString(c / 100) + "." + Pad2(c % 100);
    assert (c / 100) as real + (c % 100) as real / 100.0 == c as real / 100.0;
  }

  /** For a non-negative amount, `toFixed(2)` and `Math.round(x * 100) / 100` agree. */
  lemma FixedIsRound2(x: real)
    requires x >= 0.0
    ensures FixedValue(x) == Round2(x)
  {
  }

  /** A value already of two decimals is printed unchanged. */
  lemma FixedValueIdempotent(x: real)
    ensures FixedValue(FixedValue(x)) == FixedValue(x)
  {
    var c := Cents(x);
    var y := FixedValue(x);
    assert Abs(y) == c as real / 100.0;
    assert Abs(y) * 100.0 == c as real;
    assert Cents(y) == c;
  }

  /** Every non-negative `toFixed(2)` string passes the amount filter. */
  lemma FixedMatchesPattern(x: real)
    requires x >= 0.0
    ensures AmountPattern(ToFixed2(x))
  {
    var c := Cents(x);
    var a := NatToString(c / 100);
    var b := Pad2(c % 100);
    assert ToFixed2(x) == a + ("." + b);
    DigitSpanOfDigits(a, "." + b);
    assert ToFixed2(x)[|a| + 1..] == b;
  }

  /** Rounding to cents leaves a two-decimal value alone. */
  lemma Round2OfFixed(x: real)
    ensures Round2(FixedValue(x)) == FixedValue(x)
  {
    var c := Cents(x);
    var y := FixedValue(x);
    var k: int := if x < 0.0 then -(c as int) else c;
    assert y * 100.0 == k as real;
    assert HalfUp(y * 100.0) == k;
  }

  /** `y` is a whole number of hundredths. */
  predicate IsCents(y: real) {
    (y * 100.0).Floor as real == y * 100.0
  }

  lemma Round2IsCents(x: real)
    ensures IsCents(Round2(x))
  {
    assert Round2(x) * 100.0 == HalfUp(x * 100.0) as real;
  }

  lemma FixedIsCents(x: real)
    ensures IsCents(FixedValue(x))
  {
    var c := Cents(x);
    var m := c as real / 100.0;
    assert m * 100.0 == c as real;
    var k: int := if x < 0.0 then -(c as int) else c;
    assert FixedValue(x) == (if x < 0.0 then -m else m);
    assert FixedValue(x) * 100.0 == k as real;
    assert (k as real).Floor == k;
  }

  /** A whole number of hundredths is printed and rounded exactly. */
  lemma FixedOfCents(y: real)
    requires IsCents(y)
    ensures FixedValue(y) == y
    ensures Round2(y) == y
  {
    var k := (y * 100.0).Floor;
    assert y * 100.0 == k as real;
    assert HalfUp(y * 100.0) == k;
    if y < 0.0 {
      assert Abs(y) * 100.0 == (-k) as real;
      assert Cents(y) == -k;
    } else {
      assert Abs(y) * 100.0 == k as real;
      assert Cents(y) == k;
    }
  }

  /** Printing the printed value again gives the same text. */
  lemma ToFixedStable(x: real)
    requires x >= 0.0
    ensures ToFixed2(FixedValue(x)) == ToFixed2(x)
  {
    FixedValueIdempotent(x);
    var y := FixedValue(x);
    assert Abs(y) * 100.0 == Cents(x) as real;
    assert Cents(y) == Cents(x);
  }

  /** A string the amount filter lets through holds no sign, so `parseFloat` reads
      a non-negative value from it, and `Number` agrees with `parseFloat` on it
      except on the empty string. */
  lemma PatternParse(s: string)
    requires AmountPattern(s)
    ensures ParseFloat(s).Some? ==> ParseFloat(s).value >= 0.0
    ensures s != "" ==> NumberOf(s) == ParseFloat(s)
  {
    var n := DigitSpan(s);
    if s != "" {
      assert IsDigit(s[0]) || s[0] == '.';
      if n < |s| {
        var rest := s[n + 1..];
        assert AllDigits(rest);
        DigitSpanOfDigits(rest, []);
        assert rest + [] == rest;
      }
    }
  }

  /** The point alone is accepted by the filter but is not a number. */
  lemma LonePoint()
    ensures AmountPattern(".")
    ensures ParseFloat(".") == None && NumberOf(".") == None
  {
    assert DigitSpan(".") == 0;
    assert DigitSpan(".."[1..]) == 0;
    assert "."[1..] == [];
  }

  /** The empty field is NaN for `parseFloat` but 0 for `Number`. */
  lemma EmptyField()
    ensures ParseFloat("") == None && NumberOf("") == Some(0.0)
  {
  }

  /** A positive number is written without a leading zero. */
  lemma {:induction false} NatToStringLeading(n: nat)
    requires n >= 1
    ensures NatToString(n)[0] != '0'
  {
    if n >= 10 {
      NatToStringLeading(n / 10);
    }
  }
}
