/** The dialog that creates and edits customers. */
module CustomerModal {
  import opened Wrappers
  import opened PasswordRules

  datatype Mode = Create | Edit

  /** A customer's fields; a missing one is "". */
  datatype Customer = Customer(id: string, companyName: string, address: string, city: string,
                               country: string, businessRegistrationNumber: string,
                               emailId: string, contactPersonName: string, mobileNumber: string)

  datatype Values = Values(customerName: string, companyName: string, address: string,
                           city: string, country: string, businessRegistrationNumber: string,
                           emailId: string, contactPersonName: string, mobileNumber: string)

  /** The form starts from the customer's fields; the customer name shown is the
      contact person. */
  function InitialValues(customer: Option<Customer>): (v: Values)
    ensures customer.None? ==> v == Values("", "", "", "", "", "", "", "", "")
    ensures customer.Some? ==> v.customerName == customer.value.contactPersonName &&
                               v.contactPersonName == customer.value.contactPersonName &&
                               v.companyName == customer.value.companyName &&
                               v.address == customer.value.address &&
                               v.city == customer.value.city &&
                               v.country == customer.value.country &&
                               v.businessRegistrationNumber == customer.value.businessRegistrationNumber &&
                               v.emailId == customer.value.emailId &&
                               v.mobileNumber == customer.value.mobileNumber
  {
    match customer
    case None => Values("", "", "", "", "", "", "", "", "")
    case Some(c) => Values(c.contactPersonName, c.companyName, c.address, c.city, c.country,
                           c.businessRegistrationNumber, c.emailId, c.contactPersonName,
                           c.mobileNumber)
  }

  /** The schema: company, city, e-mail, contact person and mobile number
      required, the mobile number by the phone pattern. `emailOk` is the e-mail
      format check. */
  predicate SchemaAccepts(v: Values, emailOk: bool) {
    v.companyName != "" && v.city != "" && v.emailId != "" && emailOk &&
    v.contactPersonName != "" && v.mobileNumber != "" && PhonePattern(v.mobileNumber)
  }

  datatype Dispatch = CreateCustomer(data: Values) | UpdateCustomer(id: string, data: Values) | NoRequest

  /** `handleSubmit`: a new customer is named after its contact person; an edit
      sends the values as they are. */
  function HandleSubmit(mode: Mode, customer: Option<Customer>, v: Values): (d: Dispatch)
    ensures mode == Create ==> d.CreateCustomer? && d.data.customerName == v.contactPersonName &&
                               d.data.(customerName := v.customerName) == v
    ensures mode == Edit && customer.Some? ==> d == UpdateCustomer(customer.value.id, v)
    ensures mode == Edit && customer.None? ==> d == NoRequest
  {
    if mode == Create then CreateCustomer(v.(customerName := v.contactPersonName))
    else if customer.Some? then UpdateCustomer(customer.value.id, v)
    else NoRequest
  }

  /** Saving an untouched edit form sends the customer's own fields back, with
      the customer name set to the contact person. */
  lemma UntouchedEditSendsCustomer(c: Customer)
    ensures var v := InitialValues(Some(c));
            HandleSubmit(Edit, Some(c), v) == UpdateCustomer(c.id, v) &&
            v.customerName == c.contactPersonName && v.mobileNumber == c.mobileNumber &&
            v.emailId == c.emailId && v.city == c.city
  {
  }
}
