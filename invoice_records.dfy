/** Invoices as the forms receive them from the invoice list endpoint. Amounts are
    in HKD and arrive as numbers. */
module InvoiceRecords {
  import opened Wrappers

  /** The customer embedded in an invoice; a missing name is "". */
  datatype CustomerRef = CustomerRef(companyName: string, contactPersonName: string)

  datatype Invoice = Invoice(
    id: string,
    invoiceNumber: string,
    customerId: string,
    customer: Option<CustomerRef>,
    invoiceDate: string,
    amountInHkd: real,
    remainingAmount: real,
    totalPaidAmount: real)

  /** `invoices.find(inv => inv.invoiceNumber === number)`: the first invoice with
      that number. */
  function FindInvoice(invoices: seq<Invoice>, number: string): (r: Option<Invoice>)
    ensures r.Some? ==> r.value in invoices && r.value.invoiceNumber == number
    ensures r.None? <==> forall i :: 0 <= i < |invoices| ==> invoices[i].invoiceNumber != number
  {
    if invoices == [] then None
    else if invoices[0].invoiceNumber == number then Some(invoices[0])
    else FindInvoice(invoices[1..], number)
  }

  /** The invoice found is the first one carrying the number. */
  lemma {:induction false} FindInvoiceFirst(invoices: seq<Invoice>, number: string, i: nat)
    requires i < |invoices| && invoices[i].invoiceNumber == number
    requires forall j :: 0 <= j < i ==> invoices[j].invoiceNumber != number
    ensures FindInvoice(invoices, number) == Some(invoices[i])
  {
    if i > 0 {
      FindInvoiceFirst(invoices[1..], number, i - 1);
    }
  }

  /** The customer name a form shows for an invoice: company name, else contact
      person, else the placeholder. */
  function CustomerLabel(inv: Invoice): (r: string)
    ensures r != ""
    ensures inv.customer.Some? && inv.customer.value.companyName != "" ==>
              r == inv.customer.value.companyName
    ensures inv.customer.Some? && inv.customer.value.companyName == "" ==>
              r == (if inv.customer.value.contactPersonName != "" then inv.customer.value.contactPersonName
                    else "No customer found")
    ensures inv.customer.None? ==> r == "No customer found"
  {
    match inv.customer
    case None => "No customer found"
    case Some(c) =>
      if c.companyName != "" then c.companyName
      else if c.contactPersonName != "" then c.contactPersonName
      else "No customer found"
  }
}
