/** The form that records a delivery order against an invoice: an amount in HKD,
    MOP or CNY that may not exceed the invoice's remaining HKD balance. */
module CreateOrderModal {
  import opened Wrappers
  import opened JsNumber
  import opened Currency
  import opened AmountField
  import opened InvoiceRecords

  /** What the form sends to create the order. */
  datatype OrderData = OrderData(
    invoiceNumber: string, partialDelivery: bool, deliveredBy: string, deliveredUnits: int,
    currency: string, amountOfDelivery: Option<real>, orderNumber: string, customerId: string)

  /** The result of pressing submit: one of the refusals, in the order the form
      checks them, or the order sent. */
  datatype Outcome =
    | MissingFields
    | ZeroAmount
    | CannotCreate
    | ExceedsRemaining(maxInCurrency: real)
    | NotANumber
    | Send(data: OrderData)

  /** The amount filled in when an invoice becomes selected: its remaining balance
      printed with two decimals, or its full HKD amount when nothing remains. The
      figure is in HKD whatever the selected currency. */
  function PrefillAmount(inv: Invoice): (r: string)
    ensures inv.remainingAmount != 0.0 ==> NumberOf(r) == Some(FixedValue(inv.remainingAmount))
    ensures inv.remainingAmount == 0.0 ==> NumberOf(r) == Some(FixedValue(inv.amountInHkd))
  {
    FixedRoundTrip(inv.remainingAmount);
    FixedRoundTrip(inv.amountInHkd);
    if inv.remainingAmount == 0.0 then ToFixed2(inv.amountInHkd) else ToFixed2(inv.remainingAmount)
  }

  /** The prefill the form evidently intends: the balance expressed in the
      selected currency, truncated to whole cents. */
  function PrefillAmountIn(inv: Invoice, currency: string, rates: Rates): (r: string)
    requires Positive(rates) && inv.remainingAmount > 0.0
    ensures NumberOf(r).Some?
    ensures ToHKD(NumberOf(r).value, currency, rates) <= inv.remainingAmount
    ensures inv.remainingAmount - ToHKD(NumberOf(r).value, currency, rates) <
              0.01 / RateOf(currency, rates)
  {
    var f := FloorCents(MaxIn(currency, inv.remainingAmount, rates));
    FloorCapWithin(currency, inv.remainingAmount, rates);
    FixedOfCents(f);
    FixedRoundTrip(f);
    ToFixed2(f)
  }

  /** The checks the submit handler makes, in order, and the order it sends. */
  function SubmitOutcome(invoices: seq<Invoice>, invoiceNumber: string, partialDelivery: bool,
                         deliveredBy: string, currency: string, amount: string, rates: Rates): (r: Outcome)
    requires NonZero(rates)
    ensures r.Send? ==> invoiceNumber != "" && currency != "" && amount != "" && deliveredBy != ""
    ensures r.Send? ==> amount != "0" && amount != "0.00"
    ensures r.Send? ==> var inv := FindInvoice(invoices, invoiceNumber);
                        inv.Some? && inv.value.remainingAmount > 0.0 &&
                        r.data.customerId == inv.value.customerId &&
                        (NumberOf(amount).Some? ==>
                           ToHKD(NumberOf(amount).value, currency, rates) <= inv.value.remainingAmount)
    ensures r.Send? ==> r.data.orderNumber == "ORD-" + invoiceNumber && r.data.deliveredUnits == 0 &&
                        r.data.amountOfDelivery == (if ParseFloat(amount).Some?
                                                    then Some(FixedValue(ParseFloat(amount).value)) else None)
    ensures r.ExceedsRemaining? ==> NumberOf(amount).Some? &&
                                    FindInvoice(invoices, invoiceNumber).Some? &&
                                    ToHKD(NumberOf(amount).value, currency, rates) >
                                      FindInvoice(invoices, invoiceNumber).value.remainingAmount
  {
    var selected := FindInvoice(invoices, invoiceNumber);
    if invoiceNumber == "" || currency == "" || amount == "" || deliveredBy == "" then MissingFields
    else if amount == "0" || amount == "0.00" then ZeroAmount
    else if selected.None? || selected.value.remainingAmount <= 0.0 then CannotCreate
    else
      var remaining := selected.value.remainingAmount;
      var value := NumberOf(amount);
      if value.Some? && ToHKD(value.value, currency, rates) > remaining then
        ExceedsRemaining(MaxIn(currency, remaining, rates))
      else
        var sent := match ParseFloat(amount)
                    case Some(x) => Some(FixedValue(x))
                    case None => None;
        Send(OrderData(invoiceNumber, partialDelivery, deliveredBy, 0, currency, sent,
                       "ORD-" + invoiceNumber, selected.value.customerId))
  }

  /** The submit the checks evidently intend: the amount that is held to the
      balance is the one sent, rounded to cents, and an amount that is not a
      number is refused rather than sent empty. */
  function SubmitOutcomeChecked(invoices: seq<Invoice>, invoiceNumber: string, partialDelivery: bool,
                                deliveredBy: string, currency: string, amount: string, rates: Rates): (r: Outcome)
    requires NonZero(rates)
    ensures r.Send? ==> invoiceNumber != "" && currency != "" && amount != "" && deliveredBy != ""
    ensures r.Send? ==> amount != "0" && amount != "0.00"
    ensures r.Send? ==> var inv := FindInvoice(invoices, invoiceNumber);
                        inv.Some? && inv.value.remainingAmount > 0.0 &&
                        r.data.customerId == inv.value.customerId &&
                        r.data.amountOfDelivery.Some? &&
                        ToHKD(r.data.amountOfDelivery.value, currency, rates) <= inv.value.remainingAmount
    ensures r.Send? ==> NumberOf(amount).Some? &&
                        r.data.amountOfDelivery == Some(FixedValue(NumberOf(amount).value)) &&
                        r.data.orderNumber == "ORD-" + invoiceNumber && r.data.deliveredUnits == 0
    ensures r.NotANumber? ==> NumberOf(amount).None?
    ensures r.ExceedsRemaining? ==> NumberOf(amount).Some? &&
                                    FindInvoice(invoices, invoiceNumber).Some? &&
                                    ToHKD(FixedValue(NumberOf(amount).value), currency, rates) >
                                      FindInvoice(invoices, invoiceNumber).value.remainingAmount
  {
    var selected := FindInvoice(invoices, invoiceNumber);
    if invoiceNumber == "" || currency == "" || amount == "" || deliveredBy == "" then MissingFields
    else if amount == "0" || amount == "0.00" then ZeroAmount
    else if selected.None? || selected.value.remainingAmount <= 0.0 then CannotCreate
    else
      var remaining := selected.value.remainingAmount;
      match NumberOf(amount)
      case None => NotANumber
      case Some(x) =>
        var sent := FixedValue(x);
        if ToHKD(sent, currency, rates) > remaining then
          ExceedsRemaining(MaxIn(currency, remaining, rates))
        else
          Send(OrderData(invoiceNumber, partialDelivery, deliveredBy, 0, currency, Some(sent),
                         "ORD-" + invoiceNumber, selected.value.customerId))
  }

  class CreateOrderForm {
    var invoices: seq<Invoice>
    var rates: Rates
    var invoiceNumber: string
    var partialDelivery: bool
    var deliveredBy: string
    var currency: string
    var amount: string

    ghost predicate Valid()
      reads this
    {
      Positive(rates)
    }

    /** The invoice the form is on (`selectedInvoice`). */
    function Selected(): Option<Invoice>
      reads this
    {
      FindInvoice(invoices, invoiceNumber)
    }

    constructor(invoices: seq<Invoice>)
      ensures Valid()
      ensures this.invoices == invoices && rates == DefaultRates
      ensures invoiceNumber == "" && !partialDelivery && deliveredBy == "" &&
              currency == "HKD" && amount == ""
    {
      this.invoices := invoices;
      rates := DefaultRates;
      invoiceNumber := "";
      partialDelivery := false;
      deliveredBy := "";
      currency := "HKD";
      amount := "";
    }

    /** `resetForm`, run when the dialog closes and after an order is created. */
    method Reset()
      requires Valid()
      modifies this
      ensures Valid()
      ensures invoiceNumber == "" && !partialDelivery && deliveredBy == "" &&
              currency == "HKD" && amount == ""
      ensures invoices == old(invoices) && rates == old(rates)
    {
      invoiceNumber := "";
      partialDelivery := false;
      deliveredBy := "";
      currency := "HKD";
      amount := "";
    }

    /** Rates fetched when the dialog opens replace the current ones as they are;
        the rate settings form only stores positive rates. */
    method LoadRates(fetched: Option<Rates>)
      requires Valid()
      requires fetched.Some? ==> Positive(fetched.value)
      modifies this
      ensures Valid()
      ensures rates == (if fetched.Some? then fetched.value else old(rates))
      ensures invoices == old(invoices) && invoiceNumber == old(invoiceNumber) &&
              currency == old(currency) && amount == old(amount) &&
              partialDelivery == old(partialDelivery) && deliveredBy == old(deliveredBy)
    {
      if fetched.Some? {
        rates := fetched.value;
      }
    }

    /** Picking an invoice clears the amount; when that makes a different invoice
        selected, the effect on the selection then fills in its prefill. */
    method SelectInvoice(number: string)
      requires Valid()
      modifies this
      ensures Valid()
      ensures invoiceNumber == number
      ensures amount == (if number != old(invoiceNumber) && FindInvoice(invoices, number).Some?
                         then PrefillAmount(FindInvoice(invoices, number).value) else "")
      ensures invoices == old(invoices) && rates == old(rates) && currency == old(currency) &&
              partialDelivery == old(partialDelivery) && deliveredBy == old(deliveredBy)
    {
      var changed := number != invoiceNumber;
      invoiceNumber := number;
      amount := "";
      var selected := FindInvoice(invoices, number);
      if changed && selected.Some? {
        amount := PrefillAmount(selected.value);
      }
    }

    /** A new invoice list from the page: the selection becomes a new object, so
        the prefill effect runs again when an invoice is selected. */
    method ReceiveInvoices(newInvoices: seq<Invoice>)
      requires Valid()
      modifies this
      ensures Valid()
      ensures invoices == newInvoices
      ensures amount == (if FindInvoice(newInvoices, invoiceNumber).Some?
                         then PrefillAmount(FindInvoice(newInvoices, invoiceNumber).value)
                         else old(amount))
      ensures rates == old(rates) && invoiceNumber == old(invoiceNumber) &&
              currency == old(currency) && partialDelivery == old(partialDelivery) &&
              deliveredBy == old(deliveredBy)
    {
      invoices := newInvoices;
      var selected := FindInvoice(invoices, invoiceNumber);
      if selected.Some? {
        amount := PrefillAmount(selected.value);
      }
    }

    method ChangeAmount(input: string)
      requires Valid()
      modifies this
      ensures Valid()
      ensures amount == (if Accepts(input) then input else old(amount))
      ensures invoices == old(invoices) && rates == old(rates) && invoiceNumber == old(invoiceNumber) &&
              currency == old(currency) && partialDelivery == old(partialDelivery) &&
              deliveredBy == old(deliveredBy)
    {
      if input == "" || AmountPattern(input) {
        amount := input;
      }
    }

    /** Leaving the amount field: round to cents and, while an invoice is
        selected, cap at its balance. */
    method BlurAmount(input: string)
      requires Valid()
      modifies this
      ensures Valid()
      ensures amount == BlurText(input, currency, rates,
                                 if Selected().Some? then Some(Selected().value.remainingAmount) else None)
      ensures invoices == old(invoices) && rates == old(rates) && invoiceNumber == old(invoiceNumber) &&
              currency == old(currency) && partialDelivery == old(partialDelivery) &&
              deliveredBy == old(deliveredBy)
    {
      var parsed := ParseFloat(input);
      if parsed.None? {
        amount := "";
        return;
      }
      var value := Round2(parsed.value);
      var selected := FindInvoice(invoices, invoiceNumber);
      if selected.Some? {
        if ToHKD(value, currency, rates) > selected.value.remainingAmount {
          value := MaxIn(currency, selected.value.remainingAmount, rates);
        }
      }
      amount := ToFixed2(value);
    }

    /** Choosing another currency re-expresses the amount in it. */
    method ChangeCurrency(value: string)
      requires Valid()
      modifies this
      ensures Valid()
      ensures currency == value
      ensures amount == ToFixedOpt(SwitchedNumber(old(amount), old(currency), value, rates))
      ensures invoices == old(invoices) && rates == old(rates) && invoiceNumber == old(invoiceNumber) &&
              partialDelivery == old(partialDelivery) && deliveredBy == old(deliveredBy)
    {
      var newAmount := SwitchedNumber(amount, currency, value, rates);
      currency := value;
      amount := ToFixedOpt(newAmount);
    }

    method SetPartialDelivery(checked: bool)
      requires Valid()
      modifies this
      ensures Valid()
      ensures partialDelivery == checked
      ensures invoices == old(invoices) && rates == old(rates) && invoiceNumber == old(invoiceNumber) &&
              currency == old(currency) && amount == old(amount) && deliveredBy == old(deliveredBy)
    {
      partialDelivery := checked;
    }

    method SetDeliveredBy(name: string)
      requires Valid()
      modifies this
      ensures Valid()
      ensures deliveredBy == name
      ensures invoices == old(invoices) && rates == old(rates) && invoiceNumber == old(invoiceNumber) &&
              currency == old(currency) && amount == old(amount) && partialDelivery == old(partialDelivery)
    {
      deliveredBy := name;
    }

    /** Pressing submit: `handleSubmit` on the form's current state, decided as
        `SubmitOutcome` decides it. An order sent is for the selected invoice. */
    function Submit(): (r: Outcome)
      reads this
      requires Valid()
      ensures r.Send? ==> Selected().Some? && r.data.invoiceNumber == invoiceNumber &&
                          r.data.customerId == Selected().value.customerId &&
                          r.data.currency == currency && r.data.deliveredBy == deliveredBy
    {
      SubmitOutcome(invoices, invoiceNumber, partialDelivery, deliveredBy, currency, amount, rates)
    }

    /** The submit button is disabled. An enabled button means an invoice with
        at least half a cent left, which submit never refuses as settled. */
    predicate SubmitDisabled(isPending: bool)
      reads this
      ensures !SubmitDisabled(isPending) ==>
                !isPending && Selected().Some? && Selected().value.remainingAmount >= 0.005
      ensures Valid() && !SubmitDisabled(isPending) ==> !Submit().CannotCreate?
    {
      if isPending || Selected().None? then true
      else
        NothingLeftBelowHalfCent(Selected().value.remainingAmount);
        NothingLeft(Selected().value.remainingAmount)
    }
  }

  // ---------------------------------------------------------------------------
  // Lemmas

  /** An amount left by a blur that did not cap it is checked and sent as the
      same number, the typed amount rounded to cents. */
  lemma BlurredAmountSentAsChecked(input: string, currency: string, rates: Rates, limit: Option<real>)
    requires NonZero(rates)
    requires ParseFloat(input).Some?
    requires limit.None? || !BlurCaps(input, currency, rates, limit.value)
    ensures var text := BlurText(input, currency, rates, limit);
            var y := Round2(ParseFloat(input).value);
            NumberOf(text) == Some(y) && ParseFloat(text) == Some(y) && FixedValue(y) == y
  {
    BlurKeepsRounded(input, currency, rates, limit);
    Round2IsCents(ParseFloat(input).value);
    FixedOfCents(Round2(ParseFloat(input).value));
  }

  /** A typed amount within the balance is sent once the other fields are filled. */
  lemma WithinBalanceIsSent(invoices: seq<Invoice>, invoiceNumber: string, deliveredBy: string,
                            currency: string, amount: string, rates: Rates)
    requires Positive(rates)
    requires invoiceNumber != "" && currency != "" && deliveredBy != ""
    requires amount != "" && amount != "0" && amount != "0.00"
    requires FindInvoice(invoices, invoiceNumber).Some?
    requires var inv := FindInvoice(invoices, invoiceNumber).value;
             inv.remainingAmount > 0.0 && NumberOf(amount).Some? &&
             NumberOf(amount).value <= MaxIn(currency, inv.remainingAmount, rates)
    ensures SubmitOutcome(invoices, invoiceNumber, false, deliveredBy, currency, amount, rates).Send?
  {
    var inv := FindInvoice(invoices, invoiceNumber).value;
    WithinLimit(NumberOf(amount).value, inv.remainingAmount, currency, rates);
  }

  /** The prefill ignores the currency: with 100 HKD remaining and the form on CNY
      at 0.93 per HKD, the prefilled "100.00" is refused as exceeding the balance. */
  lemma PrefillIgnoresCurrency()
    ensures var inv := Invoice("1", "INV-1", "C1", None, "", 100.0, 100.0, 0.0);
            var rates := Rates(1.03, 0.93);
            PrefillAmount(inv) == "100.00" &&
            SubmitOutcome([inv], "INV-1", false, "Lee", "CNY", PrefillAmount(inv), rates).ExceedsRemaining?
  {
    var inv := Invoice("1", "INV-1", "C1", None, "", 100.0, 100.0, 0.0);
    var rates := Rates(1.03, 0.93);
    HundredText();
    assert PrefillAmount(inv) == ToFixed2(100.0);
    assert FindInvoice([inv], "INV-1") == Some(inv);
    HundredYuanOver(rates);
    OverBalanceIsRefused([inv], "INV-1", false, "Lee", "CNY", "100.00", rates);
  }

  /** At 0.93 yuan per dollar, 100 yuan are worth more than 100 dollars. */
  lemma HundredYuanOver(rates: Rates)
    requires rates == Rates(1.03, 0.93)
    ensures NonZero(rates) && ToHKD(100.0, "CNY", rates) > 100.0
  {
    assert RateOf("CNY", rates) == 0.93;
  }

  /** A filled-in form whose amount is worth more than the balance is refused. */
  lemma OverBalanceIsRefused(invoices: seq<Invoice>, invoiceNumber: string, partialDelivery: bool,
                             deliveredBy: string, currency: string, amount: string, rates: Rates)
    requires NonZero(rates)
    requires invoiceNumber != "" && currency != "" && deliveredBy != ""
    requires amount != "" && amount != "0" && amount != "0.00"
    requires FindInvoice(invoices, invoiceNumber).Some?
    requires var inv := FindInvoice(invoices, invoiceNumber).value;
             inv.remainingAmount > 0.0 && NumberOf(amount).Some? &&
             ToHKD(NumberOf(amount).value, currency, rates) > inv.remainingAmount
    ensures SubmitOutcome(invoices, invoiceNumber, partialDelivery, deliveredBy, currency, amount, rates).ExceedsRemaining?
  {
  }

  /** 100 prints as "100.00" and reads back as 100. */
  lemma HundredText()
    ensures ToFixed2(100.0) == "100.00" && NumberOf("100.00") == Some(100.0)
  {
    assert Cents(100.0) == 10000;
    assert NatToString(10) == "10";
    assert NatToString(100) == "100";
    assert Pad2(0) == "00";
    FixedRoundTrip(100.0);
  }

  /** The submit as written checks the typed number but sends it rounded to
      cents, and sends "." as no amount: with 0.05 HKD remaining, "0.046" yuan is
      within the balance, yet the 0.05 yuan sent is worth more than it. The
      corrected submit refuses both. */
  lemma RoundedAmountOverBalanceSent()
    ensures var inv := Invoice("1", "INV-1", "C1", None, "", 0.05, 0.05, 0.0);
            var rates := Rates(1.03, 0.93);
            var r := SubmitOutcome([inv], "INV-1", false, "Lee", "CNY", "0.046", rates);
            r.Send? && r.data.amountOfDelivery == Some(0.05) && ToHKD(0.05, "CNY", rates) > 0.05
    ensures var inv := Invoice("1", "INV-1", "C1", None, "", 0.05, 0.05, 0.0);
            var rates := Rates(1.03, 0.93);
            var r := SubmitOutcome([inv], "INV-1", false, "Lee", "CNY", ".", rates);
            r.Send? && r.data.amountOfDelivery == None
    ensures var inv := Invoice("1", "INV-1", "C1", None, "", 0.05, 0.05, 0.0);
            var rates := Rates(1.03, 0.93);
            SubmitOutcomeChecked([inv], "INV-1", false, "Lee", "CNY", "0.046", rates).ExceedsRemaining? &&
            SubmitOutcomeChecked([inv], "INV-1", false, "Lee", "CNY", ".", rates) == NotANumber
  {
    var inv := Invoice("1", "INV-1", "C1", None, "", 0.05, 0.05, 0.0);
    var rates := Rates(1.03, 0.93);
    assert FindInvoice([inv], "INV-1") == Some(inv);
    assert RateOf("CNY", rates) == 0.93;
    SubCentText();
  }

  /** For an amount already in whole cents, which is what a blur leaves, the
      corrected submit decides exactly as the one written. */
  lemma CheckedAgreesOnCents(invoices: seq<Invoice>, invoiceNumber: string, partialDelivery: bool,
                             deliveredBy: string, currency: string, amount: string, rates: Rates)
    requires NonZero(rates)
    requires NumberOf(amount).Some? && IsCents(NumberOf(amount).value)
    ensures SubmitOutcomeChecked(invoices, invoiceNumber, partialDelivery, deliveredBy, currency, amount, rates) ==
            SubmitOutcome(invoices, invoiceNumber, partialDelivery, deliveredBy, currency, amount, rates)
  {
    FixedOfCents(NumberOf(amount).value);
  }
}
