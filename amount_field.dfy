/** The amount input shared by the cash receipt form and the two delivery-order
    forms: the change filter, the rounding and capping on blur, and the
    re-expression of an amount when the currency changes. The cap is a limit in
    HKD (the invoice's remaining balance). */
module AmountField {
  import opened Wrappers
  import opened JsNumber
  import opened Currency
  import JsString

  /** The change handler keeps a typed value only when it is empty or matches
      `^[0-9]*\.?[0-9]*$`. */
  predicate Accepts(v: string) {
    v == "" || AmountPattern(v)
  }

  /** The largest amount in `currency` worth at most `limit` HKD
      (`getMaxAllowedAmount`, `getRemainingAmountInCurrency`). */
  function MaxIn(currency: string, limit: real, rates: Rates): (m: real)
    ensures NonZero(rates) ==> ToHKD(m, currency, rates) == limit
    ensures Positive(rates) && limit >= 0.0 ==> m >= 0.0
  {
    if NonZero(rates) then
      ToFromHKD(limit, currency, rates);
      FromHKD(limit, currency, rates)
    else FromHKD(limit, currency, rates)
  }

  /** The amount kept on blur: the amount itself when its HKD value is within the
      limit, otherwise the maximum. */
  function Capped(x: real, currency: string, rates: Rates, limit: real): (r: real)
    requires NonZero(rates)
    ensures ToHKD(r, currency, rates) <= limit
    ensures ToHKD(x, currency, rates) <= limit ==> r == x
    ensures ToHKD(x, currency, rates) > limit ==> r == MaxIn(currency, limit, rates)
  {
    if ToHKD(x, currency, rates) > limit then MaxIn(currency, limit, rates) else x
  }

  /** What the field holds after a blur: "" when nothing numeric was typed,
      otherwise the amount rounded to cents, capped at `limit` when there is
      one, printed with two decimals. */
  function BlurText(input: string, currency: string, rates: Rates, limit: Option<real>): (r: string)
    requires NonZero(rates)
    ensures r == "" <==> ParseFloat(input).None?
  {
    match ParseFloat(input)
    case None => ""
    case Some(x) =>
      var y := Round2(x);
      ToFixed2(if limit.Some? then Capped(y, currency, rates, limit.value) else y)
  }

  /** The blur replaced the amount by the maximum. */
  predicate BlurCaps(input: string, currency: string, rates: Rates, limit: real)
    requires NonZero(rates)
  {
    ParseFloat(input).Some? && ToHKD(Round2(ParseFloat(input).value), currency, rates) > limit
  }

  /** An amount expressed in `to` instead of `from`, through HKD. */
  function Reexpressed(x: real, from: string, to: string, rates: Rates): (r: real)
    requires NonZero(rates)
    ensures ToHKD(r, to, rates) == ToHKD(x, from, rates)
  {
    SwitchKeepsHKD(x, from, to, rates);
    FromHKD(ToHKD(x, from, rates), to, rates)
  }

  /** The submit buttons' test that nothing is left to pay:
      `remaining <= 0 || remaining.toFixed(2) <= "0.00"`, the second part a string
      comparison. */
  predicate NothingLeft(remaining: real) {
    remaining <= 0.0 || !JsString.StrLess("0.00", ToFixed2(remaining))
  }

  /** The amount after a currency change: the field's `Number`, 0 when empty,
      re-expressed in the new currency; NaN when the field is not a number. */
  function SwitchedNumber(amount: string, from: string, to: string, rates: Rates): (r: Option<real>)
    requires NonZero(rates)
    ensures amount == "" ==> r == Some(0.0)
    ensures r.Some? <==> NumberOf(amount).Some?
    ensures r.Some? ==> ToHKD(r.value, to, rates) == ToHKD(NumberOf(amount).value, from, rates)
  {
    var current := if amount != "" then NumberOf(amount) else Some(0.0);
    match current
    case None => None
    case Some(x) => Some(Reexpressed(x, from, to, rates))
  }

  // ---------------------------------------------------------------------------
  // Lemmas

  /** The string comparison amounts to the balance rounding to zero cents. */
  lemma NothingLeftBelowHalfCent(remaining: real)
    ensures NothingLeft(remaining) <==> remaining < 0.005
  {
    if remaining > 0.0 {
      var c := Cents(remaining);
      var s := ToFixed2(remaining);
      var w := NatToString(c / 100);
      assert s == w + "." + Pad2(c % 100);
      if c / 100 >= 1 {
        NatToStringLeading(c / 100);
        assert s[0] == w[0];
        assert JsString.StrLess("0.00", s);
      } else {
        assert w == "0";
        var f := c % 100;
        assert s == ['0', '.', DigitChar(f / 10), DigitChar(f % 10)];
        if f == 0 {
          assert s == "0.00";
          JsString.StrLessIrreflexive(s);
        } else {
          var t := [DigitChar(f / 10), DigitChar(f % 10)];
          assert "0.00"[1..][1..] == "00" && s[1..][1..] == t;
          if f / 10 == 0 {
            assert "00"[1..] == "0" && t[1..] == [DigitChar(f % 10)];
            assert JsString.StrLess("0", t[1..]);
          }
          assert JsString.StrLess("00", t);
          assert JsString.StrLess("0.00", s);
        }
      }
    }
  }

  /** An amount within the limit is kept to the cent: the field then reads back
      as the rounded amount. */
  lemma BlurKeepsRounded(input: string, currency: string, rates: Rates, limit: Option<real>)
    requires NonZero(rates)
    requires ParseFloat(input).Some?
    requires limit.None? || !BlurCaps(input, currency, rates, limit.value)
    ensures ParseFloat(BlurText(input, currency, rates, limit)) == Some(Round2(ParseFloat(input).value))
    ensures NumberOf(BlurText(input, currency, rates, limit)) == Some(Round2(ParseFloat(input).value))
  {
    var y := Round2(ParseFloat(input).value);
    Round2IsCents(ParseFloat(input).value);
    FixedOfCents(y);
    FixedRoundTrip(y);
  }

  /** A capped amount reads back as the maximum rounded to the nearest cent, so it
      may exceed the maximum by up to half a cent. */
  lemma BlurCapBound(input: string, currency: string, rates: Rates, limit: real)
    requires NonZero(rates)
    requires BlurCaps(input, currency, rates, limit)
    ensures var m := MaxIn(currency, limit, rates);
            ParseFloat(BlurText(input, currency, rates, Some(limit))) == Some(FixedValue(m)) &&
            FixedValue(m) <= m + 0.005
  {
    FixedRoundTrip(MaxIn(currency, limit, rates));
  }

  /** Blurring the field a second time changes nothing. */
  lemma BlurIdempotent(input: string, currency: string, rates: Rates, limit: Option<real>)
    requires Positive(rates)
    requires limit.Some? ==> limit.value >= 0.0
    ensures var once := BlurText(input, currency, rates, limit);
            BlurText(once, currency, rates, limit) == once
  {
    var once := BlurText(input, currency, rates, limit);
    if ParseFloat(input).Some? {
      var x := ParseFloat(input).value;
      var y := Round2(x);
      Round2IsCents(x);
      FixedOfCents(y);
      var z := if limit.Some? then Capped(y, currency, rates, limit.value) else y;
      FixedRoundTrip(z);
      var z' := FixedValue(z);
      FixedIsCents(z);
      FixedOfCents(z');
      assert ParseFloat(once) == Some(z');
      if limit.Some? && ToHKD(y, currency, rates) > limit.value {
        var m := MaxIn(currency, limit.value, rates);
        assert z == m && m >= 0.0;
        ToFixedStable(m);
      }
    }
  }

  // ---------------------------------------------------------------------------
  // Capping down to a whole cent

  /** `m` truncated to whole hundredths. */
  function FloorCents(m: real): (r: real)
    ensures IsCents(r)
    ensures m - 0.01 < r <= m
  {
    var k := (m * 100.0).Floor;
    assert (k as real / 100.0) * 100.0 == k as real;
    k as real / 100.0
  }

  /** The cap the blur evidently intends: the maximum truncated to whole cents, so
      that the printed amount never exceeds the remaining balance. */
  function CappedDown(x: real, currency: string, rates: Rates, limit: real): (r: real)
    requires NonZero(rates)
    ensures ToHKD(x, currency, rates) <= limit ==> r == x
    ensures ToHKD(x, currency, rates) > limit ==> r == FloorCents(MaxIn(currency, limit, rates))
  {
    if ToHKD(x, currency, rates) > limit then FloorCents(MaxIn(currency, limit, rates)) else x
  }

  /** The truncated maximum is within the limit and short of it by less than a
      cent of the payment currency. */
  lemma FloorCapWithin(currency: string, limit: real, rates: Rates)
    requires Positive(rates)
    ensures var f := FloorCents(MaxIn(currency, limit, rates));
            ToHKD(f, currency, rates) <= limit &&
            limit - ToHKD(f, currency, rates) < 0.01 / RateOf(currency, rates)
  {
    var m := MaxIn(currency, limit, rates);
    var f := FloorCents(m);
    var k := RateOf(currency, rates);
    assert limit - ToHKD(f, currency, rates) == (m - f) / k;
    assert (m - f) / k < 0.01 / k;
  }

  /** The blur with the corrected cap. */
  function BlurTextCorrected(input: string, currency: string, rates: Rates, limit: Option<real>): (r: string)
    requires NonZero(rates)
    ensures r == "" <==> ParseFloat(input).None?
  {
    match ParseFloat(input)
    case None => ""
    case Some(x) =>
      var y := Round2(x);
      ToFixed2(if limit.Some? then CappedDown(y, currency, rates, limit.value) else y)
  }

  /** With the corrected cap the amount the field reads back as is always within
      the remaining balance. */
  lemma CorrectedBlurWithinLimit(input: string, currency: string, rates: Rates, limit: real)
    requires Positive(rates) && limit >= 0.0
    requires ParseFloat(input).Some?
    ensures var v := ParseFloat(BlurTextCorrected(input, currency, rates, Some(limit)));
            v.Some? && ToHKD(v.value, currency, rates) <= limit
  {
    var y := Round2(ParseFloat(input).value);
    Round2IsCents(ParseFloat(input).value);
    var z := CappedDown(y, currency, rates, limit);
    if ToHKD(y, currency, rates) > limit {
      var m := MaxIn(currency, limit, rates);
      ToHKDMonotone(z, m, currency, rates);
    }
    FixedOfCents(z);
    FixedRoundTrip(z);
  }

  /** With the written cap a capped amount can read back above the balance:
      0.5 HKD remaining, 0.93 CNY per HKD, "1" typed in CNY gives "0.47", which
      is worth more than 0.5 HKD. */
  lemma BlurCapExceedsLimit()
    ensures var rates := Rates(1.03, 0.93);
            BlurText("1", "CNY", rates, Some(0.5)) == "0.47" &&
            ToHKD(0.47, "CNY", rates) > 0.5
  {
    var rates := Rates(1.03, 0.93);
    var one := "1";
    assert DigitSpan(one[1..]) == 0;
    assert DigitSpan(one) == 1;
    assert one[..1] == one;
    assert DigitsValue(one) == 1;
    assert ParseFloat(one) == Some(1.0);
    assert Round2(1.0) == 1.0;
    assert MaxIn("CNY", 0.5, rates) == 0.465;
    assert Cents(0.465) == 47;
    assert NatToString(0) == "0";
    assert Pad2(47) == "47";
  }

  /** "0.046" reads as 0.046 under both parsers and rounds to 0.05, and "." is
      NaN under both. */
  lemma SubCentText()
    ensures ParseFloat("0.046") == Some(0.046) && NumberOf("0.046") == Some(0.046)
    ensures FixedValue(0.046) == 0.05
    ensures ParseFloat(".") == None && NumberOf(".") == None
  {
    var b := "046";
    assert b[1..] == "46" && b[1..][1..] == "6" && b[1..][1..][1..] == [];
    assert FractionValue(b) == 0.046;
    assert DigitsValue("0") == 0;
    ScanPointed("", "0", b);
    assert "" + "0" + "." + b == "0.046";
    assert Cents(0.046) == 5;
    LonePoint();
  }
}
