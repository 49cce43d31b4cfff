/** The expected-payments page: pick an invoice through a searchable list, pick
    the date its payment is expected, and save that date against the invoice. */
module ExpectedPayments {
  import opened Wrappers
  import opened InvoiceRecords
  import opened Calendar
  import JsString

  /** An invoice stays in the list when the search occurs, ignoring case, in its
      number or in its customer's company name. */
  predicate MatchesSearch(inv: Invoice, search: string) {
    var term := JsString.Lower(search);
    var company := if inv.customer.Some? then inv.customer.value.companyName else "";
    JsString.Contains(JsString.Lower(inv.invoiceNumber), term) ||
    JsString.Contains(JsString.Lower(company), term)
  }

  /** `filteredInvoices`: the invoices matching the search, in list order. */
  function FilterInvoices(invoices: seq<Invoice>, search: string): (r: seq<Invoice>)
    ensures |r| <= |invoices|
    ensures forall inv :: inv in r <==> inv in invoices && MatchesSearch(inv, search)
  {
    if invoices == [] then []
    else
      var rest := FilterInvoices(invoices[1..], search);
      assert forall inv :: inv in invoices <==> inv == invoices[0] || inv in invoices[1..];
      if MatchesSearch(invoices[0], search) then [invoices[0]] + rest else rest
  }

  /** An empty search lists every invoice. */
  lemma {:induction false} EmptySearchListsAll(invoices: seq<Invoice>)
    ensures FilterInvoices(invoices, "") == invoices
  {
    if invoices != [] {
      JsString.EmptyIncluded(JsString.Lower(invoices[0].invoiceNumber));
      EmptySearchListsAll(invoices[1..]);
    }
  }

  /** An invoice with nothing left to pay cannot be picked. */
  predicate Selectable(inv: Invoice) {
    !(inv.remainingAmount <= 0.0)
  }

  /** The form's values; `None` is a field that is not set. */
  datatype Values = Values(
    invoiceNumber: string,
    customerName: Option<string>,
    customerId: Option<string>,
    invoiceDate: Option<string>,
    invoiceId: Option<string>,
    expectedPaymentDate: Option<DateTime>)

  /** The fields `getInvoiceDetail` fills in: all unset when no invoice has the
      number. */
  datatype Detail = Detail(customerName: Option<string>, customerId: Option<string>,
                           invoiceDate: Option<string>, invoiceId: Option<string>)

  const NoDetail := Detail(None, None, None, None)

  function DetailOf(inv: Invoice): Detail {
    Detail(if inv.customer.Some? then Some(inv.customer.value.companyName) else None,
           Some(inv.customerId), Some(inv.invoiceDate), Some(inv.id))
  }

  function GetInvoiceDetail(invoices: seq<Invoice>, number: string): (r: Detail)
    ensures r.invoiceId.None? <==> forall i :: 0 <= i < |invoices| ==> invoices[i].invoiceNumber != number
    ensures r.invoiceId.Some? ==> exists i :: 0 <= i < |invoices| && invoices[i].invoiceNumber == number &&
                                              r == DetailOf(invoices[i])
  {
    match FindInvoice(invoices, number)
    case None => NoDetail
    case Some(inv) =>
      assert inv in invoices;
      DetailOf(inv)
  }

  /** The detail is the one of the first invoice carrying the number. */
  lemma DetailOfFirst(invoices: seq<Invoice>, number: string, i: nat)
    requires i < |invoices| && invoices[i].invoiceNumber == number
    requires forall j :: 0 <= j < i ==> invoices[j].invoiceNumber != number
    ensures GetInvoiceDetail(invoices, number) == DetailOf(invoices[i])
  {
    FindInvoiceFirst(invoices, number, i);
  }

  /** The schema: an invoice number and a date are required. */
  predicate SchemaAccepts(v: Values) {
    v.invoiceNumber != "" && v.expectedPaymentDate.Some?
  }

  /** What is saved: the body, addressed to the invoice id. */
  datatype SaveBody = SaveBody(customerId: Option<string>, invoiceDate: Option<string>,
                               expectedPaymentDate: string)
  datatype SaveRequest = SaveRequest(invoiceId: Option<string>, body: SaveBody)

  /** `handleSubmit` and the mutation: the date, or now when none is set, sent to
      the second; the id, customer name and invoice number left out of the body. */
  function HandleSubmit(v: Values, now: DateTime): (r: SaveRequest)
    ensures r.invoiceId == v.invoiceId
    ensures r.body.customerId == v.customerId && r.body.invoiceDate == v.invoiceDate
    ensures v.expectedPaymentDate.None? ==> r.body.expectedPaymentDate == IsoSeconds(now)
  {
    var date := v.expectedPaymentDate.GetOr(now);
    SaveRequest(v.invoiceId, SaveBody(v.customerId, v.invoiceDate, IsoSeconds(date)))
  }

  /** A request the form lets through carries the picked date to the second; the
      fallback to now never applies. */
  lemma SubmittedDateIsPicked(v: Values, now: DateTime)
    requires SchemaAccepts(v)
    ensures HandleSubmit(v, now).body.expectedPaymentDate ==
            IsoDate(v.expectedPaymentDate.value) + "T" + IsoClock(v.expectedPaymentDate.value) + "Z"
  {
    IsoSecondsShape(v.expectedPaymentDate.value);
  }

  /** The page's form and its picker. */
  class PaymentForm {
    var values: Values
    /** The date the picker shows. */
    var expectedDate: Option<DateTime>
    var invoiceSearch: string
    /** The date the page was opened, the form's initial date. */
    const mountDate: DateTime

    constructor(now: DateTime)
      ensures mountDate == now && expectedDate == Some(now) && invoiceSearch == ""
      ensures values == Values("", Some(""), None, None, None, Some(now))
    {
      mountDate := now;
      expectedDate := Some(now);
      invoiceSearch := "";
      values := Values("", Some(""), None, None, None, Some(now));
    }

    /** Picking an invoice copies its detail into the form. */
    method SelectInvoice(invoices: seq<Invoice>, number: string)
      modifies this
      ensures var d := GetInvoiceDetail(invoices, number);
        values == old(values).(invoiceNumber := number, customerName := d.customerName,
                               customerId := d.customerId, invoiceDate := d.invoiceDate,
                               invoiceId := d.invoiceId)
      ensures expectedDate == old(expectedDate) && invoiceSearch == old(invoiceSearch)
    {
      var d := GetInvoiceDetail(invoices, number);
      values := values.(invoiceNumber := number, customerName := d.customerName,
                        customerId := d.customerId, invoiceDate := d.invoiceDate,
                        invoiceId := d.invoiceId);
    }

    method PickDate(date: Option<DateTime>)
      modifies this
      ensures expectedDate == date && values == old(values).(expectedPaymentDate := date)
      ensures invoiceSearch == old(invoiceSearch)
    {
      expectedDate := date;
      values := values.(expectedPaymentDate := date);
    }

    method Search(term: string)
      modifies this
      ensures invoiceSearch == term && values == old(values) && expectedDate == old(expectedDate)
    {
      invoiceSearch := term;
    }

    /** The request a submission sends, if the form lets it through. */
    function Submit(now: DateTime): (r: Option<SaveRequest>)
      reads this
      ensures r.Some? <==> SchemaAccepts(values)
      ensures r.Some? ==> r.value.invoiceId == values.invoiceId
    {
      if SchemaAccepts(values) then Some(HandleSubmit(values, now)) else None
    }

    /** After a successful save the form goes back to its initial values (with
        the date the page was opened) while the picker is cleared. */
    method Saved()
      modifies this
      ensures values == Values("", Some(""), None, None, None, Some(mountDate))
      ensures expectedDate == None && invoiceSearch == ""
    {
      values := Values("", Some(""), None, None, None, Some(mountDate));
      expectedDate := None;
      invoiceSearch := "";
    }
  }

  /** The search keeps the list's order: filtering a list made of two parts is
      filtering each part and keeping them in that order. */
  lemma {:induction false} FilterInvoicesAppend(a: seq<Invoice>, b: seq<Invoice>, search: string)
    ensures FilterInvoices(a + b, search) == FilterInvoices(a, search) + FilterInvoices(b, search)
  {
    if a == [] {
      assert a + b == b;
    } else {
      assert (a + b)[0] == a[0];
      assert (a + b)[1..] == a[1..] + b;
      FilterInvoicesAppend(a[1..], b, search);
    }
  }
}
