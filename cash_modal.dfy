/** The cash receipt form: a payment collected against an invoice, in HKD, MOP or
    CNY, never more than the invoice's remaining HKD balance. */
module CashModal {
  import opened Wrappers
  import opened JsNumber
  import opened Currency
  import opened AmountField
  import opened InvoiceRecords

  /** The summary of the selected invoice the form shows. */
  datatype Details = Details(customerName: string, paymentStatus: string, remainingAmount: real)

  const EmptyDetails := Details("", "", 0.0)

  /** A saved cash receipt, when the form edits one. */
  datatype CashRecord = CashRecord(
    id: string, invoiceNumber: string, customerId: string, amount: real, currency: string,
    pickedBy: string, cashPickupDate: string, pickupTime: string, partialDelivery: bool)

  /** What the form sends; `amount` is `Number` of the field text. */
  datatype CashPayload = CashPayload(
    invoiceNumber: string, customerId: string, amount: Option<real>, currency: string,
    pickedBy: string, cashPickupDate: string, pickupTime: string, partialDelivery: bool,
    receiptNumber: string)

  datatype Submission = Create(payload: CashPayload) | Update(id: string, payload: CashPayload)

  /** The amount is worth the remaining balance to within a cent (`isFullPayment`);
      NaN never is. */
  predicate IsFullPayment(amount: Option<real>, currency: string, rates: Rates, remaining: real)
    requires NonZero(rates)
  {
    amount.Some? && Abs(ToHKD(amount.value, currency, rates) - remaining) < 0.01
  }

  /** The amount's HKD value does not exceed the balance (`validateAmount`); NaN
      never does. */
  predicate ValidAmount(amount: Option<real>, currency: string, rates: Rates, remaining: real)
    requires NonZero(rates)
  {
    amount.Some? && ToHKD(amount.value, currency, rates) <= remaining
  }

  /** The partial-payment flag the blur leaves: untouched (`None`) when nothing
      numeric was typed, cleared when the amount was capped, otherwise set exactly
      when the rounded amount is not the full balance. */
  function BlurPartial(input: string, currency: string, rates: Rates, remaining: real): (r: Option<bool>)
    requires NonZero(rates)
    ensures r.None? <==> ParseFloat(input).None?
    ensures BlurCaps(input, currency, rates, remaining) ==> r == Some(false)
  {
    match ParseFloat(input)
    case None => None
    case Some(x) =>
      var y := Round2(x);
      if !ValidAmount(Some(y), currency, rates, remaining) then Some(false)
      else Some(!IsFullPayment(Some(y), currency, rates, remaining))
  }

  /** The amount re-expressed in the new currency when the currency changes;
      NaN when the field does not start with a number. */
  function SwitchedAmount(amount: string, from: string, to: string, rates: Rates): (r: Option<real>)
    requires NonZero(rates)
    ensures r.Some? <==> ParseFloat(amount).Some?
    ensures r.Some? ==> ToHKD(r.value, to, rates) == ToHKD(ParseFloat(amount).value, from, rates)
  {
    match ParseFloat(amount)
    case None => None
    case Some(x) => Some(Reexpressed(x, from, to, rates))
  }

  /** The summary shown for a found invoice. */
  function InvoiceDetails(inv: Invoice): (d: Details)
    ensures d.remainingAmount == inv.remainingAmount
    ensures d.paymentStatus == "complete" <==> inv.remainingAmount == 0.0
    ensures d.paymentStatus != "complete" ==> d.paymentStatus == "partial"
    ensures d.customerName == CustomerLabel(inv)
  {
    Details(CustomerLabel(inv), if inv.remainingAmount == 0.0 then "complete" else "partial",
            inv.remainingAmount)
  }

  /** The amount, currency and partial-payment controls are disabled. */
  predicate ControlsDisabled(editing: bool, d: Details) {
    (d.paymentStatus == "complete" && !editing) || (d.customerName == "" && !editing) ||
    d.remainingAmount <= 0.0
  }

  /** An invoice in the picker can be chosen. */
  predicate InvoiceSelectable(inv: Invoice, editingInvoiceNumber: string) {
    !(inv.remainingAmount <= 0.0 && editingInvoiceNumber == "")
  }

  /** The submit button is disabled. */
  predicate SubmitDisabled(isLoading: bool, d: Details) {
    isLoading || NothingLeft(d.remainingAmount)
  }

  /** The form's validation schema: invoice number, currency, picker, date and time
      present, amount a positive number. */
  predicate SchemaAccepts(invoiceNumber: string, amount: string, currency: string,
                          pickedBy: string, cashPickupDate: string, pickupTime: string)
    ensures SchemaAccepts(invoiceNumber, amount, currency, pickedBy, cashPickupDate, pickupTime) ==>
              ParseFloat(amount).Some? && ParseFloat(amount) == NumberOf(amount) &&
              ParseFloat(amount).value > 0.0
  {
    invoiceNumber != "" && amount != "" && NumberOf(amount).Some? &&
    NumberOf(amount).value > 0.0 && currency != "" && pickedBy != "" &&
    cashPickupDate != "" && pickupTime != ""
  }

  class CashForm {
    const cash: Option<CashRecord>
    var rates: Rates
    var details: Details
    var invoiceNumber: string
    var customerId: string
    var amount: string
    var currency: string
    var pickedBy: string
    var cashPickupDate: string
    var pickupTime: string
    var partialDelivery: bool

    ghost predicate Valid()
      reads this
    {
      NonZero(rates)
    }

    /** Opens the form, on a saved receipt or on a new one dated `today` at `now`. */
    constructor(cash: Option<CashRecord>, today: string, now: string)
      ensures Valid()
      ensures this.cash == cash && rates == DefaultRates && details == EmptyDetails
      ensures cash.Some? ==> invoiceNumber == cash.value.invoiceNumber &&
                             customerId == cash.value.customerId &&
                             amount == (if cash.value.amount != 0.0 then ToFixed2(cash.value.amount) else "") &&
                             currency == (if cash.value.currency != "" then cash.value.currency else "HKD") &&
                             pickedBy == cash.value.pickedBy &&
                             cashPickupDate == (if cash.value.cashPickupDate != "" then cash.value.cashPickupDate else today) &&
                             pickupTime == (if cash.value.pickupTime != "" then cash.value.pickupTime else now) &&
                             partialDelivery == cash.value.partialDelivery
      ensures cash.None? ==> invoiceNumber == "" && customerId == "" && amount == "" &&
                             currency == "HKD" && pickedBy == "" && cashPickupDate == today &&
                             pickupTime == now && !partialDelivery
    {
      this.cash := cash;
      rates := DefaultRates;
      details := EmptyDetails;
      match cash {
        case Some(c) =>
          invoiceNumber := c.invoiceNumber;
          customerId := c.customerId;
          amount := if c.amount != 0.0 then ToFixed2(c.amount) else "";
          currency := if c.currency != "" then c.currency else "HKD";
          pickedBy := c.pickedBy;
          cashPickupDate := if c.cashPickupDate != "" then c.cashPickupDate else today;
          pickupTime := if c.pickupTime != "" then c.pickupTime else now;
          partialDelivery := c.partialDelivery;
        case None =>
          invoiceNumber := "";
          customerId := "";
          amount := "";
          currency := "HKD";
          pickedBy := "";
          cashPickupDate := today;
          pickupTime := now;
          partialDelivery := false;
      }
    }

    /** Opening the dialog clears the invoice summary. */
    method Reopen()
      requires Valid()
      modifies this
      ensures Valid()
      ensures details == EmptyDetails
      ensures rates == old(rates) && invoiceNumber == old(invoiceNumber) &&
              customerId == old(customerId) && amount == old(amount) &&
              currency == old(currency) && pickedBy == old(pickedBy) &&
              cashPickupDate == old(cashPickupDate) && pickupTime == old(pickupTime) &&
              partialDelivery == old(partialDelivery)
    {
      details := EmptyDetails;
    }

    /** The fetched rates, with the defaults standing in for missing or zero ones. */
    method LoadRates(mop: Option<real>, cny: Option<real>)
      requires Valid()
      modifies this
      ensures Valid()
      ensures rates == WithFallback(mop, cny)
      ensures details == old(details) && invoiceNumber == old(invoiceNumber) &&
              customerId == old(customerId) && amount == old(amount) &&
              currency == old(currency) && partialDelivery == old(partialDelivery)
    {
      rates := WithFallback(mop, cny);
    }

    /** A keystroke in the amount field. */
    method ChangeAmount(input: string)
      requires Valid()
      modifies this
      ensures Valid()
      ensures amount == (if Accepts(input) then input else old(amount))
      ensures rates == old(rates) && details == old(details) && currency == old(currency) &&
              invoiceNumber == old(invoiceNumber) && partialDelivery == old(partialDelivery)
    {
      if input == "" || AmountPattern(input) {
        amount := input;
      }
    }

    /** Leaving the amount field: round to cents, cap at the balance, and set the
        partial-payment flag. */
    method BlurAmount(input: string)
      requires Valid()
      modifies this
      ensures Valid()
      ensures amount == BlurText(input, currency, rates, Some(details.remainingAmount))
      ensures partialDelivery == BlurPartial(input, currency, rates, details.remainingAmount).GetOr(old(partialDelivery))
      ensures rates == old(rates) && details == old(details) && currency == old(currency) &&
              invoiceNumber == old(invoiceNumber) && customerId == old(customerId)
    {
      var parsed := ParseFloat(input);
      if parsed.None? {
        amount := "";
        return;
      }
      var rounded := Round2(parsed.value);
      var remaining := details.remainingAmount;
      if !ValidAmount(Some(rounded), currency, rates, remaining) {
        var maxAllowed := MaxIn(currency, remaining, rates);
        amount := ToFixed2(maxAllowed);
        partialDelivery := false;
        return;
      }
      amount := ToFixed2(rounded);
      partialDelivery := !IsFullPayment(Some(rounded), currency, rates, remaining);
    }

    /** Choosing another currency: a new receipt with no amount is given the whole
        balance in that currency; an amount present is re-expressed in it. */
    method ChangeCurrency(newCurrency: string)
      requires Valid()
      modifies this
      ensures Valid()
      ensures currency == newCurrency
      ensures cash.None? && old(amount) == "" ==>
                amount == ToFixed2(MaxIn(newCurrency, details.remainingAmount, rates)) && !partialDelivery
      ensures old(amount) != "" ==>
                var switched := SwitchedAmount(old(amount), old(currency), newCurrency, rates);
                amount == ToFixedOpt(switched) &&
                partialDelivery == !IsFullPayment(switched, newCurrency, rates, details.remainingAmount)
      ensures cash.Some? && old(amount) == "" ==>
                amount == "" && partialDelivery == old(partialDelivery)
      ensures rates == old(rates) && details == old(details) && invoiceNumber == old(invoiceNumber) &&
              customerId == old(customerId)
    {
      var remaining := details.remainingAmount;
      if cash.None? && amount == "" {
        amount := ToFixed2(MaxIn(newCurrency, remaining, rates));
        partialDelivery := false;
      } else if amount != "" {
        var newAmount := SwitchedAmount(amount, currency, newCurrency, rates);
        amount := ToFixedOpt(newAmount);
        partialDelivery := !IsFullPayment(newAmount, newCurrency, rates, remaining);
      }
      currency := newCurrency;
    }

    /** Picking an invoice clears the amount. */
    method SelectInvoice(number: string)
      requires Valid()
      modifies this
      ensures Valid()
      ensures invoiceNumber == number && amount == ""
      ensures rates == old(rates) && details == old(details) && currency == old(currency) &&
              customerId == old(customerId) && partialDelivery == old(partialDelivery)
    {
      invoiceNumber := number;
      amount := "";
    }

    /** The effect that runs after the invoice number, the currency, the rates or
        the invoice list change: show the invoice's summary, fill in the whole
        balance on a new receipt with no amount, and cap an amount over it. */
    method SyncInvoice(invoices: seq<Invoice>)
      requires Valid()
      modifies this
      ensures Valid()
      ensures old(invoiceNumber) == "" || FindInvoice(invoices, old(invoiceNumber)).None? ==>
                details == old(details) && customerId == old(customerId) &&
                amount == old(amount) && partialDelivery == old(partialDelivery)
      ensures old(invoiceNumber) != "" && FindInvoice(invoices, old(invoiceNumber)).Some? ==>
                var inv := FindInvoice(invoices, old(invoiceNumber)).value;
                var rem := inv.remainingAmount;
                var fill := cash.None? && rem > 0.0 && old(amount) == "";
                var cap := old(amount) != "" && !ValidAmount(ParseFloat(old(amount)), currency, rates, rem);
                details == InvoiceDetails(inv) && customerId == inv.customerId &&
                amount == (if fill || cap then ToFixed2(MaxIn(currency, rem, rates)) else old(amount)) &&
                partialDelivery == (if fill || cap then false else old(partialDelivery))
      ensures rates == old(rates) && invoiceNumber == old(invoiceNumber) && currency == old(currency)
    {
      if invoiceNumber != "" {
        var found := FindInvoice(invoices, invoiceNumber);
        if found.Some? {
          var inv := found.value;
          var remaining := inv.remainingAmount;
          details := InvoiceDetails(inv);
          customerId := inv.customerId;
          var previous := amount;
          if cash.None? && remaining > 0.0 && previous == "" {
            amount := ToFixed2(MaxIn(currency, remaining, rates));
            partialDelivery := false;
          }
          if previous != "" {
            if !ValidAmount(ParseFloat(previous), currency, rates, remaining) {
              amount := ToFixed2(MaxIn(currency, remaining, rates));
              partialDelivery := false;
            }
          }
        }
      }
    }

    /** The values the form sends once its schema accepts them; `None` while it
        does not. */
    function Submit(): (r: Option<Submission>)
      reads this
      ensures r.Some? <==> SchemaAccepts(invoiceNumber, amount, currency, pickedBy, cashPickupDate, pickupTime)
      ensures r.Some? ==> r.value.payload.receiptNumber == "REC-" + invoiceNumber &&
                          r.value.payload.amount.Some? && r.value.payload.amount.value > 0.0
      ensures r.Some? ==> (r.value.Update? <==> cash.Some?)
      ensures r.Some? && cash.Some? ==> r.value.id == cash.value.id
    {
      if !SchemaAccepts(invoiceNumber, amount, currency, pickedBy, cashPickupDate, pickupTime) then None
      else
        var payload := CashPayload(invoiceNumber, customerId, NumberOf(amount), currency, pickedBy,
                                   cashPickupDate, pickupTime, partialDelivery, "REC-" + invoiceNumber);
        if cash.Some? then Some(Update(cash.value.id, payload)) else Some(Create(payload))
    }
  }

  // ---------------------------------------------------------------------------
  // Lemmas

  /** The maximum is the full payment. */
  lemma MaxIsFullPayment(currency: string, remaining: real, rates: Rates)
    requires NonZero(rates)
    ensures IsFullPayment(Some(MaxIn(currency, remaining, rates)), currency, rates, remaining)
    ensures ValidAmount(Some(MaxIn(currency, remaining, rates)), currency, rates, remaining)
  {
  }

  /** With positive rates an amount is valid exactly when it is at most the
      maximum in its currency. */
  lemma ValidIffAtMostMax(x: real, currency: string, remaining: real, rates: Rates)
    requires Positive(rates)
    ensures ValidAmount(Some(x), currency, rates, remaining) <==> x <= MaxIn(currency, remaining, rates)
  {
    WithinLimit(x, remaining, currency, rates);
  }

  /** Changing the currency of an amount does not change whether it is the full
      payment, so the partial-payment flag it sets is the one for the old currency. */
  lemma SwitchKeepsFullPayment(amount: string, from: string, to: string, remaining: real, rates: Rates)
    requires NonZero(rates)
    ensures IsFullPayment(SwitchedAmount(amount, from, to, rates), to, rates, remaining) ==
            IsFullPayment(ParseFloat(amount), from, rates, remaining)
  {
  }

  /** An amount the blur keeps as typed sets the flag exactly when it falls short
      of the balance by a cent or more. */
  lemma BlurPartialWhenKept(input: string, currency: string, rates: Rates, remaining: real)
    requires NonZero(rates)
    requires ParseFloat(input).Some? && !BlurCaps(input, currency, rates, remaining)
    ensures var v := ToHKD(Round2(ParseFloat(input).value), currency, rates);
            BlurPartial(input, currency, rates, remaining) == Some(remaining - v >= 0.01)
  {
  }

  /** Submitting is blocked exactly while a request is running or the balance is
      below half a cent. */
  lemma SubmitDisabledMeaning(isLoading: bool, d: Details)
    ensures SubmitDisabled(isLoading, d) <==> isLoading || d.remainingAmount < 0.005
  {
    NothingLeftBelowHalfCent(d.remainingAmount);
  }

  /** An invoice with nothing left to pay is shown as complete and its controls
      are disabled on a new receipt. */
  lemma SettledInvoiceLocked(inv: Invoice)
    requires inv.remainingAmount == 0.0
    ensures InvoiceDetails(inv).paymentStatus == "complete"
    ensures ControlsDisabled(false, InvoiceDetails(inv))
  {
  }
}
