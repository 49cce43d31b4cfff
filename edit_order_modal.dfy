/** The form that edits a saved delivery order. It re-reads the order's invoice
    to learn the remaining HKD balance the new amount is held to. */
module EditOrderModal {
  import opened Wrappers
  import opened JsNumber
  import opened Currency
  import opened AmountField
  import opened InvoiceRecords

  datatype Order = Order(
    id: string, invoiceNumber: string, customerId: string, partialDelivery: bool,
    deliveredBy: string, amountOfDelivery: real, currency: string)

  /** What the form sends for the order. */
  datatype UpdateData = UpdateData(
    partialDelivery: bool, deliveredBy: string, amountOfDelivery: Option<real>,
    currency: string, customerId: string, invoiceNumber: string)

  datatype Outcome =
    | MissingFields
    | ZeroAmount
    | CannotUpdate
    | ExceedsRemaining(maxInCurrency: real)
    | NotANumber
    | Send(id: string, data: UpdateData)

  /** How the two requests made on opening ended: the rate request failed, the
      invoice request failed after the rates came, or both answered. A rate answer
      without a rate row is `None`. */
  datatype LoadOutcome =
    | RatesFailed
    | InvoicesFailed(rates: Option<Rates>)
    | Loaded(rates: Option<Rates>, invoices: seq<Invoice>)

  /** The checks the submit handler makes, in order, and the update it sends. */
  function SubmitOutcome(order: Option<Order>, deliveryStatus: bool, deliveredBy: string,
                         deliveredValue: string, currency: string, remaining: real, rates: Rates): (r: Outcome)
    requires NonZero(rates)
    ensures r.Send? ==> order.Some? && r.id == order.value.id &&
                        deliveredValue != "" && currency != "" && deliveredBy != ""
    ensures r.Send? ==> deliveredValue != "0.00" && deliveredValue != "0" && remaining > 0.0
    ensures r.Send? ==> NumberOf(deliveredValue).Some? ==>
                          ToHKD(NumberOf(deliveredValue).value, currency, rates) <= remaining
    ensures r.Send? ==> r.data.customerId == order.value.customerId &&
                        r.data.invoiceNumber == order.value.invoiceNumber &&
                        r.data.partialDelivery == deliveryStatus &&
                        r.data.amountOfDelivery == (if ParseFloat(deliveredValue).Some?
                                                    then Some(FixedValue(ParseFloat(deliveredValue).value))
                                                    else None)
    ensures r.ExceedsRemaining? ==> r.maxInCurrency == MaxIn(currency, remaining, rates) &&
                                    NumberOf(deliveredValue).Some? &&
                                    ToHKD(NumberOf(deliveredValue).value, currency, rates) > remaining
  {
    if order.None? || deliveredValue == "" || currency == "" || deliveredBy == "" then MissingFields
    else if deliveredValue == "0.00" || deliveredValue == "0" then ZeroAmount
    else if remaining <= 0.0 then CannotUpdate
    else
      var value := NumberOf(deliveredValue);
      if value.Some? && ToHKD(value.value, currency, rates) > remaining then
        ExceedsRemaining(MaxIn(currency, remaining, rates))
      else
        var sent := match ParseFloat(deliveredValue)
                    case Some(x) => Some(FixedValue(x))
                    case None => None;
        Send(order.value.id, UpdateData(deliveryStatus, deliveredBy, sent, currency,
                                        order.value.customerId, order.value.invoiceNumber))
  }

  /** The submit the checks evidently intend: the amount held to the balance is
      the one sent, rounded to cents, and an amount that is not a number is
      refused rather than sent empty. */
  function SubmitOutcomeChecked(order: Option<Order>, deliveryStatus: bool, deliveredBy: string,
                                deliveredValue: string, currency: string, remaining: real, rates: Rates): (r: Outcome)
    requires NonZero(rates)
    ensures r.Send? ==> order.Some? && r.id == order.value.id &&
                        deliveredValue != "" && currency != "" && deliveredBy != ""
    ensures r.Send? ==> deliveredValue != "0.00" && deliveredValue != "0" && remaining > 0.0
    ensures r.Send? ==> r.data.amountOfDelivery.Some? &&
                        ToHKD(r.data.amountOfDelivery.value, currency, rates) <= remaining
    ensures r.Send? ==> NumberOf(deliveredValue).Some? &&
                        r.data.amountOfDelivery == Some(FixedValue(NumberOf(deliveredValue).value)) &&
                        r.data.customerId == order.value.customerId &&
                        r.data.invoiceNumber == order.value.invoiceNumber &&
                        r.data.partialDelivery == deliveryStatus
    ensures r.NotANumber? ==> NumberOf(deliveredValue).None?
    ensures r.ExceedsRemaining? ==> r.maxInCurrency == MaxIn(currency, remaining, rates) &&
                                    NumberOf(deliveredValue).Some? &&
                                    ToHKD(FixedValue(NumberOf(deliveredValue).value), currency, rates) > remaining
  {
    if order.None? || deliveredValue == "" || currency == "" || deliveredBy == "" then MissingFields
    else if deliveredValue == "0.00" || deliveredValue == "0" then ZeroAmount
    else if remaining <= 0.0 then CannotUpdate
    else
      match NumberOf(deliveredValue)
      case None => NotANumber
      case Some(x) =>
        var sent := FixedValue(x);
        if ToHKD(sent, currency, rates) > remaining then
          ExceedsRemaining(MaxIn(currency, remaining, rates))
        else
          Send(order.value.id, UpdateData(deliveryStatus, deliveredBy, Some(sent), currency,
                                          order.value.customerId, order.value.invoiceNumber))
  }

  class EditOrderForm {
    var order: Option<Order>
    var deliveryStatus: bool
    var deliveredBy: string
    var deliveredValue: string
    var currency: string
    var rates: Rates
    var remainingAmountHKD: real
    var isLoading: bool

    ghost predicate Valid()
      reads this
    {
      Positive(rates)
    }

    constructor()
      ensures Valid()
      ensures order.None? && !deliveryStatus && deliveredBy == "" && deliveredValue == "" &&
              currency == "HKD" && rates == DefaultRates && remainingAmountHKD == 0.0 && !isLoading
    {
      order := None;
      deliveryStatus := false;
      deliveredBy := "";
      deliveredValue := "";
      currency := "HKD";
      rates := DefaultRates;
      remainingAmountHKD := 0.0;
      isLoading := false;
    }

    /** Opening the dialog on an order: the fields take the order's values and the
        loading flag is raised until the requests settle. The balance of a
        previous order stays until then. */
    method Open(o: Order)
      requires Valid()
      modifies this
      ensures Valid()
      ensures order == Some(o) && isLoading
      ensures deliveryStatus == o.partialDelivery && deliveredBy == o.deliveredBy &&
              deliveredValue == ToFixed2(o.amountOfDelivery) && currency == o.currency
      ensures rates == old(rates) && remainingAmountHKD == old(remainingAmountHKD)
    {
      order := Some(o);
      isLoading := true;
      deliveryStatus := o.partialDelivery;
      deliveredBy := o.deliveredBy;
      deliveredValue := ToFixed2(o.amountOfDelivery);
      currency := o.currency;
    }

    /** The requests made on opening settle: fetched rates are adopted as they are
        (the rate settings form only stores positive rates), the order's invoice
        gives the balance when it is in the list, and loading ends either way. */
    method Settle(outcome: LoadOutcome)
      requires Valid() && order.Some?
      requires !outcome.RatesFailed? && outcome.rates.Some? ==> Positive(outcome.rates.value)
      modifies this
      ensures Valid()
      ensures !isLoading
      ensures rates == (if !outcome.RatesFailed? && outcome.rates.Some? then outcome.rates.value else old(rates))
      ensures remainingAmountHKD ==
                (if outcome.Loaded? && FindInvoice(outcome.invoices, old(order).value.invoiceNumber).Some?
                 then FindInvoice(outcome.invoices, old(order).value.invoiceNumber).value.remainingAmount
                 else old(remainingAmountHKD))
      ensures order == old(order) && deliveryStatus == old(deliveryStatus) &&
              deliveredBy == old(deliveredBy) && deliveredValue == old(deliveredValue) &&
              currency == old(currency)
    {
      if !outcome.RatesFailed? && outcome.rates.Some? {
        rates := outcome.rates.value;
      }
      if outcome.Loaded? {
        var invoice := FindInvoice(outcome.invoices, order.value.invoiceNumber);
        if invoice.Some? {
          remainingAmountHKD := invoice.value.remainingAmount;
        }
      }
      isLoading := false;
    }

    method ChangeAmount(input: string)
      requires Valid()
      modifies this
      ensures Valid()
      ensures deliveredValue == (if Accepts(input) then input else old(deliveredValue))
      ensures order == old(order) && deliveryStatus == old(deliveryStatus) &&
              deliveredBy == old(deliveredBy) && currency == old(currency) && rates == old(rates) &&
              remainingAmountHKD == old(remainingAmountHKD) && isLoading == old(isLoading)
    {
      if input == "" || AmountPattern(input) {
        deliveredValue := input;
      }
    }

    /** Leaving the amount field: round to cents and cap at the balance. */
    method BlurAmount(input: string)
      requires Valid()
      modifies this
      ensures Valid()
      ensures deliveredValue == BlurText(input, currency, rates, Some(remainingAmountHKD))
      ensures order == old(order) && deliveryStatus == old(deliveryStatus) &&
              deliveredBy == old(deliveredBy) && currency == old(currency) && rates == old(rates) &&
              remainingAmountHKD == old(remainingAmountHKD) && isLoading == old(isLoading)
    {
      var parsed := ParseFloat(input);
      if parsed.None? {
        deliveredValue := "";
        return;
      }
      var value := Round2(parsed.value);
      if ToHKD(value, currency, rates) > remainingAmountHKD {
        value := MaxIn(currency, remainingAmountHKD, rates);
      }
      deliveredValue := ToFixed2(value);
    }

    /** Choosing another currency re-expresses the amount in it. */
    method ChangeCurrency(value: string)
      requires Valid()
      modifies this
      ensures Valid()
      ensures currency == value
      ensures deliveredValue == ToFixedOpt(SwitchedNumber(old(deliveredValue), old(currency), value, rates))
      ensures order == old(order) && deliveryStatus == old(deliveryStatus) &&
              deliveredBy == old(deliveredBy) && rates == old(rates) &&
              remainingAmountHKD == old(remainingAmountHKD) && isLoading == old(isLoading)
    {
      var newAmount := SwitchedNumber(deliveredValue, currency, value, rates);
      currency := value;
      deliveredValue := ToFixedOpt(newAmount);
    }

    method SetDeliveryStatus(checked: bool)
      requires Valid()
      modifies this
      ensures Valid()
      ensures deliveryStatus == checked
      ensures order == old(order) && deliveredBy == old(deliveredBy) &&
              deliveredValue == old(deliveredValue) && currency == old(currency) &&
              rates == old(rates) && remainingAmountHKD == old(remainingAmountHKD) &&
              isLoading == old(isLoading)
    {
      deliveryStatus := checked;
    }

    method SetDeliveredBy(name: string)
      requires Valid()
      modifies this
      ensures Valid()
      ensures deliveredBy == name
      ensures order == old(order) && deliveryStatus == old(deliveryStatus) &&
              deliveredValue == old(deliveredValue) && currency == old(currency) &&
              rates == old(rates) && remainingAmountHKD == old(remainingAmountHKD) &&
              isLoading == old(isLoading)
    {
      deliveredBy := name;
    }

    /** Pressing submit: `handleSubmit` on the form's current state, decided as
        `SubmitOutcome` decides it. An update sent is for the order opened. */
    function Submit(): (r: Outcome)
      reads this
      requires Valid()
      ensures r.Send? ==> order.Some? && r.id == order.value.id &&
                          r.data.invoiceNumber == order.value.invoiceNumber &&
                          r.data.currency == currency && r.data.partialDelivery == deliveryStatus
    {
      SubmitOutcome(order, deliveryStatus, deliveredBy, deliveredValue, currency, remainingAmountHKD, rates)
    }

    /** The amount, currency and delivery fields are hidden. */
    predicate FieldsHidden()
      reads this
    {
      remainingAmountHKD <= 0.0
    }

    /** The submit button is disabled: an enabled button is never refused as
        settled. */
    predicate SubmitDisabled(isPending: bool)
      reads this
      ensures Valid() && !SubmitDisabled(isPending) ==> !isPending && !Submit().CannotUpdate?
    {
      isPending || remainingAmountHKD <= 0.0
    }
  }

  // ---------------------------------------------------------------------------
  // Lemmas

  /** A blurred amount is never refused as exceeding the balance unless the blur
      capped it, and what is sent is then the rounded amount. */
  lemma UncappedBlurIsSent(o: Order, status: bool, deliveredBy: string, input: string,
                           currency: string, remaining: real, rates: Rates)
    requires Positive(rates) && remaining > 0.0 && deliveredBy != "" && currency != ""
    requires ParseFloat(input).Some? && !BlurCaps(input, currency, rates, remaining)
    requires var v := BlurText(input, currency, rates, Some(remaining)); v != "0.00"
    ensures var v := BlurText(input, currency, rates, Some(remaining));
            var r := SubmitOutcome(Some(o), status, deliveredBy, v, currency, remaining, rates);
            r.Send? && r.data.amountOfDelivery == Some(Round2(ParseFloat(input).value))
  {
    var y := Round2(ParseFloat(input).value);
    BlurKeepsRounded(input, currency, rates, Some(remaining));
    Round2IsCents(ParseFloat(input).value);
    FixedOfCents(y);
  }

  /** An order opened on a settled invoice cannot be saved. */
  lemma SettledInvoiceRefused(o: Option<Order>, status: bool, deliveredBy: string,
                              deliveredValue: string, currency: string, remaining: real, rates: Rates)
    requires NonZero(rates) && remaining <= 0.0
    ensures !SubmitOutcome(o, status, deliveredBy, deliveredValue, currency, remaining, rates).Send?
  {
  }

  /** The submit as written checks the typed number but sends it rounded to
      cents, and sends "." as no amount: with 0.05 HKD remaining, "0.046" yuan is
      within the balance, yet the 0.05 yuan sent is worth more than it. The
      corrected submit refuses both. */
  lemma RoundedAmountOverBalanceSent(o: Order)
    ensures var rates := Rates(1.03, 0.93);
            var r := SubmitOutcome(Some(o), false, "Lee", "0.046", "CNY", 0.05, rates);
            r.Send? && r.data.amountOfDelivery == Some(0.05) && ToHKD(0.05, "CNY", rates) > 0.05
    ensures var rates := Rates(1.03, 0.93);
            var r := SubmitOutcome(Some(o), false, "Lee", ".", "CNY", 0.05, rates);
            r.Send? && r.data.amountOfDelivery == None
    ensures var rates := Rates(1.03, 0.93);
            SubmitOutcomeChecked(Some(o), false, "Lee", "0.046", "CNY", 0.05, rates).ExceedsRemaining? &&
            SubmitOutcomeChecked(Some(o), false, "Lee", ".", "CNY", 0.05, rates) == NotANumber
  {
    var rates := Rates(1.03, 0.93);
    assert RateOf("CNY", rates) == 0.93;
    SubCentText();
  }

  /** For an amount already in whole cents, which is what a blur leaves, the
      corrected submit decides exactly as the one written. */
  lemma CheckedAgreesOnCents(order: Option<Order>, deliveryStatus: bool, deliveredBy: string,
                             deliveredValue: string, currency: string, remaining: real, rates: Rates)
    requires NonZero(rates)
    requires NumberOf(deliveredValue).Some? && IsCents(NumberOf(deliveredValue).value)
    ensures SubmitOutcomeChecked(order, deliveryStatus, deliveredBy, deliveredValue, currency, remaining, rates) ==
            SubmitOutcome(order, deliveryStatus, deliveredBy, deliveredValue, currency, remaining, rates)
  {
    FixedOfCents(NumberOf(deliveredValue).value);
  }
}
