/** Conversion between Hong Kong dollars and the currency a payment is made in.
    Rates are quoted as units of MOP or CNY per HKD; "HKD" and any other code
    convert one to one. */
module Currency {
  import opened Wrappers

  datatype Rates = Rates(hkdToMop: real, hkdToCny: real)

  /** The rates the cash and invoice forms start with and fall back to. */
  const DefaultRates := Rates(1.03, 0.93)

  predicate NonZero(r: Rates) { r.hkdToMop != 0.0 && r.hkdToCny != 0.0 }

  predicate Positive(r: Rates) { r.hkdToMop > 0.0 && r.hkdToCny > 0.0 }

  /** Units of `currency` per HKD. */
  function RateOf(currency: string, r: Rates): (rate: real)
    ensures currency != "MOP" && currency != "CNY" ==> rate == 1.0
    ensures NonZero(r) ==> rate != 0.0
    ensures Positive(r) ==> rate > 0.0
  {
    if currency == "HKD" then 1.0
    else if currency == "MOP" then r.hkdToMop
    else if currency == "CNY" then r.hkdToCny
    else 1.0
  }

  /** `convertFromHKD`: an HKD amount expressed in `currency`. */
  function FromHKD(hkd: real, currency: string, r: Rates): (m: real)
    ensures currency != "MOP" && currency != "CNY" ==> m == hkd
    ensures NonZero(r) ==> m / RateOf(currency, r) == hkd
  {
    RateCancels(hkd, RateOf(currency, r));
    hkd * RateOf(currency, r)
  }

  /** `convertToHKD`: an amount in `currency` expressed in HKD. */
  function ToHKD(amount: real, currency: string, r: Rates): (h: real)
    requires NonZero(r)
    ensures currency != "MOP" && currency != "CNY" ==> h == amount
    ensures h * RateOf(currency, r) == amount
  {
    RateCancels(amount, RateOf(currency, r));
    amount / RateOf(currency, r)
  }

  /** Multiplying and dividing by the same non-zero rate cancel. */
  lemma RateCancels(x: real, k: real)
    ensures k != 0.0 ==> (x * k) / k == x && (x / k) * k == x
  {
    if k != 0.0 {
      assert (x * k) / k == x * (k / k);
      assert (x / k) * k == x * (k / k);
    }
  }

  /** A rate as the cash and invoice forms adopt it: a missing, NaN or zero rate
      (all falsy) is replaced by the default. */
  function Fallback(fetched: Option<real>, default: real): (rate: real)
    ensures fetched.Some? && fetched.value != 0.0 ==> rate == fetched.value
    ensures fetched.None? || fetched.value == 0.0 ==> rate == default
  {
    if fetched.Some? && fetched.value != 0.0 then fetched.value else default
  }

  /** Both fetched rates after the `|| default` fallback. */
  function WithFallback(mop: Option<real>, cny: Option<real>): (r: Rates)
    ensures NonZero(r)
  {
    Rates(Fallback(mop, DefaultRates.hkdToMop), Fallback(cny, DefaultRates.hkdToCny))
  }

  // ---------------------------------------------------------------------------
  // Lemmas

  lemma ToFromHKD(hkd: real, currency: string, r: Rates)
    requires NonZero(r)
    ensures ToHKD(FromHKD(hkd, currency, r), currency, r) == hkd
  {
    var k := RateOf(currency, r);
    assert (hkd * k) / k == hkd;
  }

  lemma FromToHKD(amount: real, currency: string, r: Rates)
    requires NonZero(r)
    ensures FromHKD(ToHKD(amount, currency, r), currency, r) == amount
  {
  }

  /** With positive rates an amount is within an HKD limit exactly when it is
      within the limit expressed in the payment currency. */
  lemma WithinLimit(amount: real, limit: real, currency: string, r: Rates)
    requires Positive(r)
    ensures ToHKD(amount, currency, r) <= limit <==> amount <= FromHKD(limit, currency, r)
  {
    var k := RateOf(currency, r);
    var h := ToHKD(amount, currency, r);
    assert amount == h * k;
    var m := FromHKD(limit, currency, r);
    assert m == limit * k;
    ScaleKeepsOrder(h, limit, k, amount, m);
  }

  /** Multiplying by a positive factor keeps the order: `x` is at most `y`
      exactly when `x * k` is at most `y * k`. */
  lemma ScaleKeepsOrder(x: real, y: real, k: real, xk: real, yk: real)
    requires k > 0.0 && xk == x * k && yk == y * k
    ensures x <= y <==> xk <= yk
  {
    assert y * k - x * k == (y - x) * k;
    if x > y {
      assert (x - y) * k > 0.0;
    }
  }

  lemma ToHKDMonotone(a: real, b: real, currency: string, r: Rates)
    requires Positive(r) && a <= b
    ensures ToHKD(a, currency, r) <= ToHKD(b, currency, r)
  {
    var k := RateOf(currency, r);
    assert ToHKD(b, currency, r) - ToHKD(a, currency, r) == (b - a) / k;
  }

  lemma FromHKDNonNegative(hkd: real, currency: string, r: Rates)
    requires Positive(r) && hkd >= 0.0
    ensures FromHKD(hkd, currency, r) >= 0.0
  {
  }

  /** Re-expressing an amount in another currency through HKD keeps its HKD value. */
  lemma SwitchKeepsHKD(amount: real, from: string, to: string, r: Rates)
    requires NonZero(r)
    ensures ToHKD(FromHKD(ToHKD(amount, from, r), to, r), to, r) == ToHKD(amount, from, r)
  {
    ToFromHKD(ToHKD(amount, from, r), to, r);
  }

  /** Switching back to the original currency restores the amount. */
  lemma SwitchBack(amount: real, from: string, to: string, r: Rates)
    requires NonZero(r)
    ensures FromHKD(ToHKD(FromHKD(ToHKD(amount, from, r), to, r), to, r), from, r) == amount
  {
    ToFromHKD(ToHKD(amount, from, r), to, r);
    FromToHKD(amount, from, r);
  }
}
