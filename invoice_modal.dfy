/** The form that creates or edits an invoice: the amount, its currency, the
    customer (picked from a searchable list) and the invoice date. */
module InvoiceModal {
  import opened Wrappers
  import opened JsNumber
  import opened Currency
  import JsString

  /** A customer in the picker; a missing name is "". */
  datatype CustomerRow = CustomerRow(id: string, companyName: string, contactPersonName: string)

  /** The invoice being edited. */
  datatype EditedInvoice = EditedInvoice(
    id: string, invoiceNumber: string, customerId: string, amount: real, currency: string,
    invoiceDate: string)

  /** What the form sends; `invoiceNumber` is left out when editing. */
  datatype InvoicePayload = InvoicePayload(
    invoiceNumber: Option<string>, customerId: string, amount: Option<real>, currency: string,
    invoiceDate: string, totalUnits: int)

  datatype Submission = Create(payload: InvoicePayload) | Update(id: string, payload: InvoicePayload)

  /** A customer matches the search when the search text, lower-cased, occurs in
      its lower-cased company name or contact name. */
  predicate Matches(c: CustomerRow, search: string) {
    var term := JsString.Lower(search);
    JsString.Contains(JsString.Lower(c.companyName), term) ||
    JsString.Contains(JsString.Lower(c.contactPersonName), term)
  }

  /** The customers the picker lists for a search, in their original order. */
  function FilterCustomers(customers: seq<CustomerRow>, search: string): (r: seq<CustomerRow>)
    ensures |r| <= |customers|
    ensures forall c :: c in r <==> c in customers && Matches(c, search)
  {
    if customers == [] then []
    else
      var rest := FilterCustomers(customers[1..], search);
      assert forall c :: c in customers <==> c == customers[0] || c in customers[1..];
      if Matches(customers[0], search) then [customers[0]] + rest else rest
  }

  /** The schema: amount a positive number, currency and date present, and when
      creating, invoice number and customer too. */
  predicate SchemaAccepts(isEditing: bool, invoiceNumber: string, customerId: string,
                          amount: string, currency: string, invoiceDate: string)
  {
    (isEditing || (invoiceNumber != "" && customerId != "")) &&
    amount != "" && NumberOf(amount).Some? && NumberOf(amount).value > 0.0 &&
    currency != "" && invoiceDate != ""
  }

  /** The hint under the amount as written: shown for a non-HKD amount and
      labelled HKD, but computed by converting the amount FROM HKD. */
  function HkdHint(amount: string, currency: string, rates: Rates): (r: Option<string>)
    ensures r.Some? <==> currency != "HKD" && amount != ""
    ensures r.Some? && NumberOf(amount).Some? ==>
              r.value == ToFixed2(FromHKD(NumberOf(amount).value, currency, rates))
  {
    if currency != "HKD" && amount != "" then
      Some(ToFixedOpt(match NumberOf(amount)
                      case Some(x) => Some(FromHKD(x, currency, rates))
                      case None => None))
    else None
  }

  /** The hint as intended: the HKD value of the amount. */
  function HkdHintCorrected(amount: string, currency: string, rates: Rates): (r: Option<string>)
    requires NonZero(rates)
    ensures r.Some? <==> currency != "HKD" && amount != ""
    ensures r.Some? && NumberOf(amount).Some? ==>
              var h := ToHKD(NumberOf(amount).value, currency, rates);
              NumberOf(r.value) == Some(FixedValue(h)) &&
              FromHKD(h, currency, rates) == NumberOf(amount).value
  {
    if currency != "HKD" && amount != "" then
      match NumberOf(amount)
      case Some(x) =>
        var h := ToHKD(x, currency, rates);
        FixedRoundTrip(h);
        FromToHKD(x, currency, rates);
        Some(ToFixed2(h))
      case None => Some("NaN")
    else None
  }

  class InvoiceForm {
    const invoice: Option<EditedInvoice>
    var rates: Rates
    var customerSearch: string
    var invoiceNumber: string
    var customerId: string
    var amount: string
    var currency: string
    var invoiceDate: string

    ghost predicate Valid()
      reads this
    {
      NonZero(rates)
    }

    /** Opens the form on an invoice or, for a new one, dated `today`; the amount
        of a new invoice starts as "NaN" (`parseFloat(undefined).toFixed(2)`). */
    constructor(invoice: Option<EditedInvoice>, today: string)
      ensures Valid()
      ensures this.invoice == invoice && rates == DefaultRates && customerSearch == ""
      ensures invoice.None? ==> invoiceNumber == "" && customerId == "" && amount == "NaN" &&
                                currency == "HKD" && invoiceDate == today
      ensures invoice.Some? ==> invoiceNumber == invoice.value.invoiceNumber &&
                                customerId == invoice.value.customerId &&
                                amount == ToFixed2(invoice.value.amount) &&
                                currency == (if invoice.value.currency != "" then invoice.value.currency else "HKD") &&
                                invoiceDate == (if invoice.value.invoiceDate != "" then invoice.value.invoiceDate else today)
    {
      this.invoice := invoice;
      rates := DefaultRates;
      customerSearch := "";
      invoiceNumber, customerId, amount, currency, invoiceDate := "", "", "", "", "";
      new;
      Reinitialize(today);
    }

    /** The form holds the initial values Formik is given at a render at time
        `now`. */
    ghost predicate HoldsInitial(now: string)
      reads this
    {
      match invoice
      case None =>
        invoiceNumber == "" && customerId == "" && amount == "NaN" && currency == "HKD" && invoiceDate == now
      case Some(inv) =>
        invoiceNumber == inv.invoiceNumber && customerId == inv.customerId &&
        amount == ToFixed2(inv.amount) &&
        currency == (if inv.currency != "" then inv.currency else "HKD") &&
        invoiceDate == (if inv.invoiceDate != "" then inv.invoiceDate else now)
    }

    /** The initial values take a fresh `new Date()` at every render when there
        is no invoice date to copy, so they never equal the previous ones. */
    predicate ResetsOnRender() {
      invoice.None? || invoice.value.invoiceDate == ""
    }

    /** The form's fields fall back to the initial values of a render at `now`. */
    method Reinitialize(now: string)
      modifies this
      ensures HoldsInitial(now)
      ensures rates == old(rates) && customerSearch == old(customerSearch)
    {
      match invoice {
        case None =>
          invoiceNumber := "";
          customerId := "";
          amount := "NaN";
          currency := "HKD";
          invoiceDate := now;
        case Some(inv) =>
          invoiceNumber := inv.invoiceNumber;
          customerId := inv.customerId;
          amount := ToFixed2(inv.amount);
          currency := if inv.currency != "" then inv.currency else "HKD";
          invoiceDate := if inv.invoiceDate != "" then inv.invoiceDate else now;
      }
    }

    /** A render of the modal at time `now`. With `enableReinitialize`, Formik
        resets the form whenever the new initial values differ from the previous
        ones, which happens exactly when they carry a fresh date. */
    method Rerender(now: string)
      modifies this
      ensures ResetsOnRender() ==> HoldsInitial(now)
      ensures !ResetsOnRender() ==> Unchanged(old(invoiceNumber), old(customerId), old(amount),
                                              old(currency), old(invoiceDate))
      ensures rates == old(rates) && customerSearch == old(customerSearch)
    {
      if ResetsOnRender() {
        Reinitialize(now);
      }
    }

    /** The Formik fields are the given ones. */
    predicate Unchanged(number: string, customer: string, amt: string, cur: string, date: string)
      reads this
    {
      invoiceNumber == number && customerId == customer && amount == amt &&
      currency == cur && invoiceDate == date
    }

    /** Fetched rates, with the defaults standing in for missing or zero ones.
        Storing them renders the modal again. */
    method LoadRates(mop: Option<real>, cny: Option<real>, now: string)
      requires Valid()
      modifies this
      ensures Valid()
      ensures rates == WithFallback(mop, cny)
      ensures customerSearch == old(customerSearch)
      ensures ResetsOnRender() ==> HoldsInitial(now)
      ensures !ResetsOnRender() ==> Unchanged(old(invoiceNumber), old(customerId), old(amount),
                                              old(currency), old(invoiceDate))
    {
      rates := WithFallback(mop, cny);
      Rerender(now);
    }

    /** Typing in the customer search box; a changed search renders the modal
        again. */
    method Search(text: string, now: string)
      requires Valid()
      modifies this
      ensures Valid()
      ensures customerSearch == text && rates == old(rates)
      ensures text != old(customerSearch) && ResetsOnRender() ==> HoldsInitial(now)
      ensures text == old(customerSearch) || !ResetsOnRender() ==>
                Unchanged(old(invoiceNumber), old(customerId), old(amount), old(currency), old(invoiceDate))
    {
      var changed := text != customerSearch;
      customerSearch := text;
      if changed {
        Rerender(now);
      }
    }

    /** The search as evidently intended: initial values fixed when the dialog
        opens, so that searching leaves what was typed alone. */
    method SearchStable(text: string)
      requires Valid()
      modifies this
      ensures Valid()
      ensures customerSearch == text && rates == old(rates)
      ensures Unchanged(old(invoiceNumber), old(customerId), old(amount), old(currency), old(invoiceDate))
    {
      customerSearch := text;
    }

    /** The dialog closing renders the modal, and its effect clears the search. */
    method Close(now: string)
      requires Valid()
      modifies this
      ensures Valid()
      ensures customerSearch == "" && rates == old(rates)
      ensures ResetsOnRender() ==> HoldsInitial(now)
      ensures !ResetsOnRender() ==> Unchanged(old(invoiceNumber), old(customerId), old(amount),
                                              old(currency), old(invoiceDate))
    {
      customerSearch := "";
      Rerender(now);
    }

    method SetInvoiceNumber(text: string)
      modifies this
      ensures invoiceNumber == text
      ensures Unchanged(text, old(customerId), old(amount), old(currency), old(invoiceDate))
      ensures rates == old(rates) && customerSearch == old(customerSearch)
    {
      invoiceNumber := text;
    }

    method SetCustomer(id: string)
      modifies this
      ensures customerId == id
      ensures Unchanged(old(invoiceNumber), id, old(amount), old(currency), old(invoiceDate))
      ensures rates == old(rates) && customerSearch == old(customerSearch)
    {
      customerId := id;
    }

    method SetCurrency(value: string)
      modifies this
      ensures currency == value
      ensures Unchanged(old(invoiceNumber), old(customerId), old(amount), value, old(invoiceDate))
      ensures rates == old(rates) && customerSearch == old(customerSearch)
    {
      currency := value;
    }

    method SetInvoiceDate(date: string)
      modifies this
      ensures invoiceDate == date
      ensures Unchanged(old(invoiceNumber), old(customerId), old(amount), old(currency), date)
      ensures rates == old(rates) && customerSearch == old(customerSearch)
    {
      invoiceDate := date;
    }

    /** Leaving the amount field prints it with two decimals, "NaN" when it holds
        no number. */
    method BlurAmount(input: string)
      requires Valid()
      modifies this
      ensures Valid()
      ensures amount == ToFixedOpt(ParseFloat(input))
      ensures ParseFloat(input).Some? ==> NumberOf(amount) == Some(FixedValue(ParseFloat(input).value))
      ensures rates == old(rates) && customerSearch == old(customerSearch) &&
              currency == old(currency) && customerId == old(customerId) &&
              invoiceNumber == old(invoiceNumber)
    {
      amount := ToFixedOpt(ParseFloat(input));
      if ParseFloat(input).Some? {
        FixedRoundTrip(ParseFloat(input).value);
      }
    }

    /** The values the form sends once its schema accepts them. */
    function Submit(): (r: Option<Submission>)
      reads this
      ensures r.Some? <==> SchemaAccepts(invoice.Some?, invoiceNumber, customerId, amount, currency, invoiceDate)
      ensures r.Some? ==> r.value.payload.totalUnits == 0 && r.value.payload.amount == NumberOf(amount) &&
                          r.value.payload.amount.value > 0.0
      ensures r.Some? ==> (r.value.Update? <==> invoice.Some?) &&
                          (r.value.payload.invoiceNumber.None? <==> invoice.Some?)
    {
      if !SchemaAccepts(invoice.Some?, invoiceNumber, customerId, amount, currency, invoiceDate) then None
      else if invoice.Some? then
        Some(Update(invoice.value.id, InvoicePayload(None, customerId, NumberOf(amount), currency, invoiceDate, 0)))
      else
        Some(Create(InvoicePayload(Some(invoiceNumber), customerId, NumberOf(amount), currency, invoiceDate, 0)))
    }
  }

  // ---------------------------------------------------------------------------
  // Lemmas

  /** An empty search lists every customer. */
  lemma {:induction false} EmptySearchKeepsAll(customers: seq<CustomerRow>)
    ensures FilterCustomers(customers, "") == customers
  {
    if customers != [] {
      JsString.EmptyIncluded(JsString.Lower(customers[0].companyName));
      EmptySearchKeepsAll(customers[1..]);
    }
  }

  /** The search ignores letter case. */
  lemma {:induction false} SearchIgnoresCase(customers: seq<CustomerRow>, search: string)
    ensures FilterCustomers(customers, JsString.Lower(search)) == FilterCustomers(customers, search)
  {
    JsString.LowerIdempotent(search);
    if customers != [] {
      SearchIgnoresCase(customers[1..], search);
    }
  }

  /** The hint as written disagrees with the HKD value of the amount: 100 CNY at
      0.93 CNY per HKD is shown as 93.00 HKD, though it is worth over 107 HKD. */
  lemma HintConvertsWrongWay()
    ensures var rates := Rates(1.03, 0.93);
            HkdHint("100", "CNY", rates) == Some("93.00") &&
            ToHKD(100.0, "CNY", rates) > 107.0
  {
    var hundred := "100";
    assert DigitSpan(hundred[3..]) == 0;
    assert DigitSpan(hundred[2..]) == 1;
    assert DigitSpan(hundred[1..]) == 2;
    assert DigitSpan(hundred) == 3;
    assert hundred[..3] == hundred;
    assert hundred[..2] == "10" && "10"[..1] == "1";
    assert DigitsValue(hundred) == 100;
    assert NumberOf(hundred) == Some(100.0);
    var rates := Rates(1.03, 0.93);
    assert FromHKD(100.0, "CNY", rates) == 93.0;
    assert Cents(93.0) == 9300;
    assert NatToString(9) == "9";
    assert NatToString(93) == "93";
    assert Pad2(0) == "00";
    assert ToFixed2(93.0) == "93.00";
  }

  /** The picker keeps the list's order: filtering a list made of two parts is
      filtering each part and keeping them in that order. */
  lemma {:induction false} FilterCustomersAppend(a: seq<CustomerRow>, b: seq<CustomerRow>, search: string)
    ensures FilterCustomers(a + b, search) == FilterCustomers(a, search) + FilterCustomers(b, search)
  {
    if a == [] {
      assert a + b == b;
    } else {
      assert (a + b)[0] == a[0];
      assert (a + b)[1..] == a[1..] + b;
      FilterCustomersAppend(a[1..], b, search);
    }
  }

  /** On a new invoice, an invoice number and a customer picked before a
      customer search are lost by the search: the form falls back to empty
      fields dated `now`. */
  method TypedInvoiceLostOnSearch(number: string, customer: string, text: string, today: string, now: string)
    returns (typed: string, f: InvoiceForm)
    requires number != "" && text != ""
    ensures typed == number
    ensures f.customerSearch == text
    ensures f.invoiceNumber == "" && f.customerId == "" && f.amount == "NaN" && f.invoiceDate == now
  {
    f := new InvoiceForm(None, today);
    f.SetInvoiceNumber(number);
    f.SetCustomer(customer);
    typed := f.invoiceNumber;
    f.Search(text, now);
  }

  /** With initial values fixed at opening, the same steps keep what was typed. */
  method TypedInvoiceKeptOnStableSearch(number: string, customer: string, text: string, today: string)
    returns (f: InvoiceForm)
    ensures f.customerSearch == text
    ensures f.invoiceNumber == number && f.customerId == customer && f.invoiceDate == today
  {
    f := new InvoiceForm(None, today);
    f.SetInvoiceNumber(number);
    f.SetCustomer(customer);
    f.SearchStable(text);
  }
}
