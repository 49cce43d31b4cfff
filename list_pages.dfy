/** The invoice list page: status badges, the edit lock, and its sorted table. */
module InvoicesPage {
  import opened Wrappers
  import opened ListSort

  /** JavaScript `v === 0`. */
  predicate StrictZero(v: Option<Value>) {
    v == Some(Num(0.0))
  }

  datatype Status = Complete | Partial | Incomplete

  /** `getStatus(remainingAmount, totalPaidAmount)`. */
  function GetStatus(remaining: Option<Value>, totalPaid: Option<Value>): (r: Status)
    ensures r == Complete <==> StrictZero(remaining)
    ensures r == Incomplete <==> !StrictZero(remaining) && StrictZero(totalPaid)
  {
    if StrictZero(remaining) then Complete
    else if !StrictZero(totalPaid) then Partial
    else Incomplete
  }

  /** The edit button is disabled when the invoice is settled. */
  predicate EditDisabled(remaining: Option<Value>) {
    StrictZero(remaining)
  }

  /** An invoice can be edited exactly when its badge is not Complete. */
  lemma EditLockedIffComplete(remaining: Option<Value>, totalPaid: Option<Value>)
    ensures EditDisabled(remaining) <==> GetStatus(remaining, totalPaid) == Complete
  {
  }

  /** `processedInvoice`: a sorted copy, the column read through its path. */
  function Processed(invoices: seq<Value>, sortField: string, order: SortOrder): (r: seq<Value>)
    ensures multiset(r) == multiset(invoices)
  {
    SortRows(invoices, ByPath(ToPath(sortField)), order)
  }

  /** Before a header is clicked the column is "", and the invoices keep the
      server's order. */
  lemma UnsortedKeepsOrder(invoices: seq<Value>, order: SortOrder)
    requires forall v :: v in invoices ==> v.Obj?
    ensures Processed(invoices, "", order) == invoices
  {
    EmptyPathKeepsOrder(invoices, order);
  }
}

/** The orders page: a card per order with its delivery and payment badges. */
module OrdersPage {
  import opened Wrappers
  import opened JsNumber
  import opened ListSort

  /** JavaScript `v === 0`. */
  predicate StrictZero(v: Option<Value>) {
    v == Some(Num(0.0))
  }

  /** JavaScript `v == 0`: numbers, numeric strings and booleans convert; null,
      undefined and objects never equal 0. */
  predicate LooseZero(v: Option<Value>) {
    match v
    case None => false
    case Some(Num(n)) => n == 0.0
    case Some(Str(s)) => NumberOf(s) == Some(0.0)
    case Some(Bool(b)) => !b
    case Some(Null) => false
    case Some(Obj(_)) => false
  }

  datatype Delivery = PartialDelivery | FullDelivery

  function DeliveryBadge(partialDelivery: bool): (r: Delivery)
    ensures r == PartialDelivery <==> partialDelivery
  {
    if partialDelivery then PartialDelivery else FullDelivery
  }

  datatype Payment = Complete | Incomplete | Partial
  datatype Style = Green | Red | Plain

  /** The payment badge's label, from the invoice's remaining amount and total
      paid: strict comparison for Complete, loose for Incomplete. */
  function PaymentLabel(remaining: Option<Value>, totalPaid: Option<Value>): (r: Payment)
    ensures r == Complete <==> StrictZero(remaining)
    ensures r == Incomplete <==> !StrictZero(remaining) && LooseZero(totalPaid)
  {
    if StrictZero(remaining) then Complete
    else if LooseZero(totalPaid) then Incomplete
    else Partial
  }

  /** The badge's colour: loose comparisons throughout. */
  function PaymentStyle(remaining: Option<Value>, totalPaid: Option<Value>): (r: Style)
    ensures r == Green <==> LooseZero(remaining)
    ensures r == Red <==> !LooseZero(remaining) && LooseZero(totalPaid)
  {
    if LooseZero(remaining) then Green
    else if LooseZero(totalPaid) then Red
    else Plain
  }

  /** A Complete label is always green; with numbers for amounts, label and
      colour agree. */
  lemma LabelAndStyle(remaining: Option<Value>, totalPaid: Option<Value>)
    ensures PaymentLabel(remaining, totalPaid) == Complete ==> PaymentStyle(remaining, totalPaid) == Green
    ensures remaining.Some? && remaining.value.Num? ==>
      (PaymentLabel(remaining, totalPaid) == Complete <==> PaymentStyle(remaining, totalPaid) == Green) &&
      (PaymentLabel(remaining, totalPaid) == Incomplete <==> PaymentStyle(remaining, totalPaid) == Red)
  {
  }

  /** A remaining amount sent as the text "0" is styled green but labelled
      Partial (or Incomplete). */
  lemma TextZeroMislabelled()
    ensures PaymentStyle(Some(Str("0")), Some(Num(5.0))) == Green
    ensures PaymentLabel(Some(Str("0")), Some(Num(5.0))) == Partial
  {
    var z := "0";
    assert DigitSpan(z[1..]) == 0;
    assert ParseFloat(z) == Some(0.0);
  }

  /** The invoice fields a card reads: nothing while the invoices are loading, a
      failure when no invoice has the order's number, else its two amounts. */
  datatype Lookup = Loading | NotFound | Found(remaining: Option<Value>, totalPaid: Option<Value>)

  function FindRow(rows: seq<Value>, number: string): (r: Option<Value>)
    ensures r.Some? ==> r.value in rows && Prop(r.value, "invoiceNumber") == Some(Str(number))
    ensures r.None? ==> forall v :: v in rows ==> Prop(v, "invoiceNumber") != Some(Str(number))
  {
    if rows == [] then None
    else if Prop(rows[0], "invoiceNumber") == Some(Str(number)) then Some(rows[0])
    else FindRow(rows[1..], number)
  }

  function CardLookup(invoices: Option<seq<Value>>, number: string): (r: Lookup)
    ensures invoices.None? <==> r == Loading
    ensures r.NotFound? <==> invoices.Some? && forall v :: v in invoices.value ==> Prop(v, "invoiceNumber") != Some(Str(number))
  {
    match invoices
    case None => Loading
    case Some(rows) =>
      match FindRow(rows, number)
      case None => NotFound
      case Some(inv) => Found(Prop(inv, "remainingAmount"), Prop(inv, "totalPaidAmount"))
  }
}

/** The cash receipt page. */
module CashPage {
  import opened Wrappers
  import opened ListSort

  /** `processedCashData`: nothing without data, else a sorted copy with falsy
      column values read as "". */
  function Processed(data: Option<seq<Value>>, sortField: string, order: SortOrder): (r: seq<Value>)
    ensures data.None? ==> r == []
    ensures data.Some? ==> multiset(r) == multiset(data.value)
  {
    match data
    case None => []
    case Some(rows) => SortRows(rows, ByFieldOr(sortField), order)
  }

  /** Before a header is clicked the column is "", which no row has. */
  lemma UnsortedKeepsOrder(rows: seq<Value>, order: SortOrder)
    requires forall r :: r in rows ==> Falsy(Prop(r, ""))
    ensures Processed(Some(rows), "", order) == rows
  {
    AbsentFieldKeepsOrder(rows, "", order);
  }

  datatype Label = Partial | Complete

  function StatusLabel(partialDelivery: bool): (r: Label)
    ensures r == Partial <==> partialDelivery
  {
    if partialDelivery then Partial else Complete
  }
}

/** The customer list page. */
module CustomersPage {
  import opened Wrappers
  import opened ListSort

  /** `processedCustomers`: the list as received until a column is chosen, then
      a sorted copy. */
  function Processed(customers: Option<seq<Value>>, sortField: Option<string>, order: SortOrder): (r: seq<Value>)
    ensures multiset(r) == multiset(customers.GetOr([]))
    ensures (sortField.None? || sortField == Some("")) ==> r == customers.GetOr([])
  {
    var rows := customers.GetOr([]);
    if sortField.Some? && sortField.value != "" then SortRows(rows, ByFieldOr(sortField.value), order)
    else rows
  }
}

/** The user management page. */
module UsersPage {
  import opened Wrappers
  import opened ListSort
  import JsString

  /** `processedUserData`: an empty list stays empty, otherwise a sorted copy. */
  function Processed(users: seq<Value>, sortField: string, order: SortOrder): (r: seq<Value>)
    ensures multiset(r) == multiset(users)
    ensures users == [] ==> r == []
  {
    if |users| > 0 then SortRows(users, ByFieldOr(sortField), order) else []
  }

  datatype BadgeColor = Red | Blue | Gray

  /** `getRoleBadgeColor`: by the lower-cased role. */
  function RoleBadge(role: string): (r: BadgeColor)
    ensures r == Red <==> JsString.Lower(role) == "admin"
    ensures r == Blue <==> JsString.Lower(role) == "executive"
  {
    var lower := JsString.Lower(role);
    if lower == "admin" then Red else if lower == "executive" then Blue else Gray
  }

  /** The colour ignores letter case. */
  lemma RoleBadgeIgnoresCase(role: string)
    ensures RoleBadge(JsString.Lower(role)) == RoleBadge(role)
  {
    JsString.LowerIdempotent(role);
  }

  /** "Admin", "ADMIN" and "admin" share the red badge. */
  lemma AdminSpellings()
    ensures RoleBadge("Admin") == Red && RoleBadge("ADMIN") == Red
  {
    assert JsString.Lower("Admin") == "admin";
    assert JsString.Lower("ADMIN") == "admin";
  }
}
