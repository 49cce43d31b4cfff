# KFT systems dashboard, modelled in Dafny

This project models the web dashboard of the KFT systems back office. Staff
use it to record invoices, deliveries (orders), cash pickups against invoices
and expected payment dates for customers. Amounts are entered in Hong Kong
dollars (HKD), Macanese patacas (MOP) or Chinese yuan (CNY). Every limit is kept
in HKD and converted at the current exchange rates.

The model covers these parts of the dashboard:

- **Money and dates**:
  - `Currency`: converting between currencies.
  - `JsNumber`: the JavaScript number handling the forms rely on (`parseFloat`,
    `Number`, `toFixed(2)`, `Math.round(x * 100) / 100`).
  - `AmountField`: the shared amount-field rules.
  - `Calendar`: date formatting.
- **Forms**:
  - `CashModal`, `CreateOrderModal`, `EditOrderModal` and `InvoiceModal`: the
    cash, order and invoice dialogs, with their amount capping, currency
    switching and submit checks.
  - `ExpectedPayments`: the expected-payments form.
  - `MisReport`: the MIS report form.
  - `UserModal` and `CustomerModal`: the user and customer dialogs.
  - `ChangePassword` and `ForgotPassword`: the change-password section and the
    three-step forgot-password page.
  - `PasswordRules`: the password and phone patterns these forms share.
- **List pages**: `ListSort`, `Pagination`, and `InvoicesPage`, `OrdersPage`,
  `CashPage`, `CustomersPage` and `UsersPage`. They cover column sorting, the
  sort control, status badges and paging.
- **Sign-in and shell**:
  - `AuthProvider`: the session kept in local storage.
  - `ProtectedRoute`: the route guard.
  - `Sidebar`: the role-filtered menu.
  - `QueryProvider`: the query retry policy.

Components that keep React state become Dafny classes. Their fields are that
state, and each handler or effect becomes a method that states the new state.
Pure helpers and derived values become functions, and the lemmas next to them
state what the code promises.

The browser's local storage is a `map<string, string>`. Server answers, the
clock and user input are parameters. A JavaScript number is an exact `real`,
and `NaN` is `None`. An `Option` stands for a field that may be missing.
Untyped rows, such as the ones the list pages sort, are modelled as JSON-like
`Value`s.

## Model

| member | source | states |
|---|---|---|
| Currency.RateOf | src/lib/utils.ts:49-61 | Gives the rate a currency converts by. It is 1 for anything other than MOP and CNY, and non-zero (positive) when the rates are. |
| Currency.FromHKD | src/lib/utils.ts:49-54 | `convertFromHKD`: HKD amounts are unchanged, and dividing the result by the rate gives the HKD amount back. |
| Currency.ToHKD | src/lib/utils.ts:56-61 | `convertToHKD`: HKD amounts are unchanged, and the result times the rate is the amount. |
| Currency.ToFromHKD | src/lib/utils.ts:49-61 | Converting an HKD amount out and back gives the amount again. |
| Currency.FromToHKD | src/lib/utils.ts:49-61 | Converting an amount to HKD and back gives the amount again. |
| Currency.WithinLimit | src/lib/utils.ts:49-61 | An amount's HKD value is within an HKD limit exactly when the amount is within the limit converted into its currency. |
| Currency.ToHKDMonotone | src/lib/utils.ts:56-61 | With positive rates, a larger amount never has a smaller HKD value. |
| Currency.FromHKDNonNegative | src/lib/utils.ts:49-54 | A non-negative HKD amount converts to a non-negative amount. |
| Currency.SwitchKeepsHKD | src/lib/utils.ts:49-61 | Re-expressing an amount in another currency keeps its HKD value. |
| Currency.SwitchBack | src/lib/utils.ts:49-61 | Switching to another currency and back restores the amount exactly. |
| Currency.Fallback | src/components/cash/cash-modal.tsx:93-94 | A fetched rate is used unless it is missing or zero; then the default is used. |
| Currency.WithFallback | src/components/cash/cash-modal.tsx:89-97 | The rates after the fallbacks are never zero. |
| JsNumber.ScanDecimal | src/components/cash/cash-modal.tsx:211 | The longest numeric prefix `parseFloat` reads: a non-empty prefix of the input, and negative only after a leading minus sign. |
| JsNumber.ParseFloat | src/components/cash/cash-modal.tsx:211 | `parseFloat` gives a number exactly when the input starts with a numeric prefix. |
| JsNumber.NumberOf | src/components/cash/cash-modal.tsx:165 | `Number(s)` is 0 for the empty text and otherwise agrees with `parseFloat` whenever it gives a number. |
| JsNumber.Round2 | src/components/cash/cash-modal.tsx:218 | `Math.round(x * 100) / 100` is within half a cent of `x`. |
| JsNumber.ToFixed2 | src/components/cash/cash-modal.tsx:234 | `toFixed(2)` gives text with exactly two digits after the point. |
| JsNumber.FixedValue | src/components/orders/create-order-modal.tsx:201 | The value that `toFixed(2)` text stands for is within half a cent of the number. |
| JsNumber.FixedRoundTrip | src/components/orders/create-order-modal.tsx:201 | Reading back `toFixed(2)` text, by `parseFloat` or `Number`, gives the value it stands for. |
| JsNumber.FixedIsRound2 | src/components/cash/cash-modal.tsx:218-234 | For non-negative amounts, `toFixed(2)` agrees with `Math.round(x * 100) / 100`. |
| JsNumber.FixedValueIdempotent | src/components/cash/cash-modal.tsx:234 | Fixing an already fixed value changes nothing. |
| JsNumber.FixedMatchesPattern | src/components/cash/cash-modal.tsx:200 | The `toFixed(2)` text of a non-negative amount passes the amount field's input pattern. |
| JsNumber.Round2OfFixed | src/components/cash/cash-modal.tsx:218-234 | Rounding a fixed value to cents changes nothing. |
| JsNumber.FixedIsCents | src/components/cash/cash-modal.tsx:234 | A fixed value is a whole number of cents. |
| JsNumber.FixedOfCents | src/components/cash/cash-modal.tsx:218-234 | A whole number of cents is left alone by both `toFixed(2)` and the rounding. |
| JsNumber.ToFixedStable | src/components/orders/create-order-modal.tsx:201 | `toFixed(2)` of a fixed value gives the same text again. |
| JsNumber.PatternParse | src/components/cash/cash-modal.tsx:200 | Text passing the input pattern never parses as negative. When it is not empty, `Number` and `parseFloat` agree on it. |
| JsNumber.LonePoint | src/components/cash/cash-modal.tsx:200 | A lone "." passes the input pattern but is not a number. |
| AmountField.SubCentText | src/components/orders/create-order-modal.tsx:184-201 | "0.046" reads as 0.046 under `Number` and `parseFloat` and prints to two places as 0.05; "." is not a number to either. |
| JsNumber.EmptyField | src/components/cash/cash-modal.tsx:165 | An empty field is `NaN` to `parseFloat` but 0 to `Number`. |
| JsString.Lower | src/components/invoices/invoice-modal.tsx:149-151 | Lower-casing keeps the length and maps each character to its lower-case form. |
| JsString.LowerIdempotent | src/components/invoices/invoice-modal.tsx:149-151 | Lower-casing twice is lower-casing once. |
| JsString.Contains | src/components/invoices/invoice-modal.tsx:152 | `includes` is true exactly when the text occurs at some position. |
| JsString.EmptyIncluded | src/components/invoices/invoice-modal.tsx:152 | Every text includes the empty search. |
| JsString.SelfIncluded | src/components/invoices/invoice-modal.tsx:152 | Every text includes itself. |
| JsString.StrLessIrreflexive | src/pages/dashboard/invoices.tsx:132-133 | No text is `<` itself under JavaScript's code-unit order. |
| JsString.StrLessTransitive | src/pages/dashboard/invoices.tsx:132-133 | JavaScript's `<` on text is transitive. |
| JsString.StrLessTotal | src/pages/dashboard/invoices.tsx:132-133 | Of two different texts, one is `<` the other. |
| InvoiceRecords.FindInvoice | src/components/orders/create-order-modal.tsx:63-65 | The lookup by invoice number finds an invoice with that number. It finds none exactly when no invoice has it. |
| InvoiceRecords.FindInvoiceFirst | src/components/orders/create-order-modal.tsx:63-65 | The lookup returns the first invoice with the number. |
| InvoiceRecords.CustomerLabel | src/components/cash/cash-modal.tsx:313-316 | The customer shown is never empty. It is the company name when there is one, else the contact person when there is one, and "No customer found" otherwise or without a customer. |
| AmountField.MaxIn | src/components/cash/cash-modal.tsx:100-102 | The most that may be entered in a currency is worth exactly the HKD limit, and is not negative for a non-negative limit. |
| AmountField.Capped | src/components/cash/cash-modal.tsx:220-224 | An amount worth more than the limit is replaced by the maximum; an amount within it is kept. |
| AmountField.BlurText | src/components/cash/cash-modal.tsx:205-238 | Leaving the amount field empties it exactly when the text is not a number. |
| AmountField.Reexpressed | src/components/cash/cash-modal.tsx:255-260 | An amount moved to another currency keeps its HKD value. |
| AmountField.SwitchedNumber | src/components/orders/create-order-modal.tsx:214-224 | A currency switch reads an empty field as 0 and fails only on non-numeric text. The new amount has the old HKD value. |
| AmountField.NothingLeftBelowHalfCent | src/components/cash/cash-modal.tsx:566 | "Nothing left" (the remaining balance printed as "0.00" or below zero) means less than half a cent remains. |
| AmountField.BlurKeepsRounded | src/components/cash/cash-modal.tsx:218-234 | An amount within the limit is rounded to cents on blur. Both `parseFloat` and `Number` read back the rounded value. |
| AmountField.BlurCapBound | src/components/cash/cash-modal.tsx:220-224 | A capped amount becomes the maximum printed to two places, which can exceed the maximum by up to half a cent. |
| AmountField.BlurIdempotent | src/components/cash/cash-modal.tsx:205-238 | Leaving the field a second time changes nothing. |
| AmountField.FloorCents | src/components/cash/cash-modal.tsx:220-224 | Rounding down to cents gives whole cents within one cent below the amount. |
| AmountField.CappedDown | src/components/cash/cash-modal.tsx:220-224 | The corrected cap keeps amounts within the limit and rounds the maximum down to cents. |
| AmountField.FloorCapWithin | src/components/cash/cash-modal.tsx:220-224 | The rounded-down maximum stays within the limit and short of it by less than one cent in that currency. |
| AmountField.BlurTextCorrected | src/components/cash/cash-modal.tsx:205-238 | Like `BlurText`, but it caps with the rounded-down maximum; it empties the field exactly when the text is not a number. |
| AmountField.CorrectedBlurWithinLimit | src/components/cash/cash-modal.tsx:220-224 | After the corrected blur, every amount is a number whose HKD value is within the limit. |
| AmountField.BlurCapExceedsLimit | src/components/cash/cash-modal.tsx:222-224 | With 0.5 HKD remaining and 0.93 CNY to the HKD, typing 1 CNY is capped to "0.47", which is worth more than 0.5 HKD. |
| CashModal.BlurPartial | src/components/cash/cash-modal.tsx:211-237 | Blurring sets the partial flag only for numeric text. A capped amount is a full payment, so the flag is cleared. |
| CashModal.SwitchedAmount | src/components/cash/cash-modal.tsx:255-260 | A currency switch re-expresses a numeric amount at the same HKD value and fails only on non-numeric text. |
| CashModal.InvoiceDetails | src/components/cash/cash-modal.tsx:311-320 | The chosen invoice's details carry its remaining amount and its customer label. The status is "complete" exactly when nothing remains, and "partial" otherwise. |
| CashModal.CashForm.constructor | src/components/cash/cash-modal.tsx:288-300 | The form starts from the edited cash record: the amount printed to two places, HKD, today's date and the current time as defaults. A new record gets empty fields. |
| CashModal.CashForm.Reopen | src/components/cash/cash-modal.tsx:271-277 | Opening or closing the dialog clears the invoice details and nothing else. |
| CashModal.CashForm.LoadRates | src/components/cash/cash-modal.tsx:89-97 | The fetched rates replace the current ones, with the fallbacks applied. |
| CashModal.CashForm.ChangeAmount | src/components/cash/cash-modal.tsx:192-203 | Typing is accepted only when the text is digits with at most one point; otherwise the amount stays. |
| CashModal.CashForm.BlurAmount | src/components/cash/cash-modal.tsx:205-238 | Leaving the field stores `BlurText` and updates the partial flag as `BlurPartial` says. |
| CashModal.CashForm.ChangeCurrency | src/components/cash/cash-modal.tsx:240-269 | A new record with an empty amount gets the full remaining balance in the new currency. An entered amount is re-expressed at the same HKD value. |
| CashModal.CashForm.SelectInvoice | src/components/cash/cash-modal.tsx:356-359 | Choosing an invoice clears the amount. |
| CashModal.CashForm.SyncInvoice | src/components/cash/cash-modal.tsx:305-347 | Once the invoice list arrives, the chosen invoice's details and customer are filled in. A new record's amount is filled with the balance. An amount over the balance is capped. |
| CashModal.CashForm.Submit | src/components/cash/cash-modal.tsx:161-173 | A request is made exactly when the form passes the schema. It sends a positive amount and receipt "REC-" plus the invoice number, and updates an existing record or creates one. |
| CashModal.SchemaAccepts | src/components/cash/cash-modal.tsx:32-42 | An accepted amount is a positive number, read the same by `parseFloat` and `Number`. |
| CashModal.MaxIsFullPayment | src/components/cash/cash-modal.tsx:100-108 | The maximum amount is valid and counts as full payment. |
| CashModal.ValidIffAtMostMax | src/components/cash/cash-modal.tsx:111-114 | An amount is valid exactly when it does not exceed the maximum in its currency. |
| CashModal.SwitchKeepsFullPayment | src/components/cash/cash-modal.tsx:257-265 | Switching currency never changes whether the amount is a full payment. |
| CashModal.BlurPartialWhenKept | src/components/cash/cash-modal.tsx:234-237 | An amount that is not capped marks a partial payment exactly when at least one HKD cent would remain. |
| CashModal.SubmitDisabledMeaning | src/components/cash/cash-modal.tsx:566 | Submit is disabled exactly while saving or when less than half a cent remains. |
| CashModal.SettledInvoiceLocked | src/components/cash/cash-modal.tsx:317 | A settled invoice shows "complete" and locks the amount controls. |
| CreateOrderModal.PrefillAmount | src/components/orders/create-order-modal.tsx:89-96 | Choosing an invoice pre-fills its remaining balance, or its whole amount when the balance is 0, printed to two places. |
| CreateOrderModal.PrefillAmountIn | src/components/orders/create-order-modal.tsx:89-96 | The corrected pre-fill is a number in the selected currency that stays within the balance and is short of it by less than one cent in that currency. |
| CreateOrderModal.PrefillIgnoresCurrency | src/components/orders/create-order-modal.tsx:89-96 | With 100 HKD remaining and CNY selected, the pre-filled "100.00" is refused at submit. |
| CreateOrderModal.SubmitOutcome | src/components/orders/create-order-modal.tsx:154-207 | An order is sent only when all fields are filled, the amount is not zero and the invoice still has a balance. The amount as typed must be within the balance. The order number is "ORD-" plus the invoice number, and the amount sent is the typed one rounded to cents, or none when it is not a number. An amount over the balance is refused. |
| CreateOrderModal.WithinBalanceIsSent | src/components/orders/create-order-modal.tsx:154-207 | A filled form whose amount is at most the balance in its currency is sent. |
| CreateOrderModal.OverBalanceIsRefused | src/components/orders/create-order-modal.tsx:184-193 | A filled form whose amount is worth more than the balance is refused with the over-balance message. |
| CreateOrderModal.BlurredAmountSentAsChecked | src/components/orders/create-order-modal.tsx:195-201 | A blurred amount is sent as the same value the balance check read. |
| CreateOrderModal.SubmitOutcomeChecked | src/components/orders/create-order-modal.tsx:184-201 | The corrected submit sends an amount, and the amount it sends is within the balance in HKD; an amount that is not a number is refused. |
| CreateOrderModal.RoundedAmountOverBalanceSent | src/components/orders/create-order-modal.tsx:184-201 | With 0.05 HKD remaining, "0.046" CNY is sent as 0.05 CNY, worth more than the balance, and "." is sent with no amount; the corrected submit refuses both. |
| CreateOrderModal.CheckedAgreesOnCents | src/components/orders/create-order-modal.tsx:184-201 | For an amount in whole cents, as a blur leaves it, the corrected submit decides as the written one. |
| CreateOrderModal.CreateOrderForm.constructor | src/components/orders/create-order-modal.tsx:52-60 | The form starts empty, in HKD, with the default rates. |
| CreateOrderModal.CreateOrderForm.Reset | src/components/orders/create-order-modal.tsx:142-152 | Resetting empties the form and keeps the invoices and rates. |
| CreateOrderModal.CreateOrderForm.LoadRates | src/components/orders/create-order-modal.tsx:76-87 | Fetched rates replace the defaults; a failed fetch keeps them. |
| CreateOrderModal.CreateOrderForm.SelectInvoice | src/components/orders/create-order-modal.tsx:280-286 | Choosing a different, known invoice pre-fills the amount; otherwise the amount is cleared. |
| CreateOrderModal.CreateOrderForm.ReceiveInvoices | src/components/orders/create-order-modal.tsx:89-96 | When the invoice list changes and the chosen invoice is in it, the amount is pre-filled again. |
| CreateOrderModal.CreateOrderForm.ChangeAmount | src/components/orders/create-order-modal.tsx:226-235 | Typing is accepted only by the input pattern. |
| CreateOrderModal.CreateOrderForm.BlurAmount | src/components/orders/create-order-modal.tsx:237-264 | Leaving the field rounds and caps the amount against the chosen invoice's balance. |
| CreateOrderModal.CreateOrderForm.ChangeCurrency | src/components/orders/create-order-modal.tsx:214-224 | A currency switch re-expresses the amount at the same HKD value. |
| CreateOrderModal.CreateOrderForm.SetPartialDelivery | src/components/orders/create-order-modal.tsx:373 | The checkbox sets the partial-delivery flag and nothing else. |
| CreateOrderModal.CreateOrderForm.SetDeliveredBy | src/components/orders/create-order-modal.tsx:389 | The field sets who delivered and nothing else. |
| CreateOrderModal.CreateOrderForm.Submit | src/components/orders/create-order-modal.tsx:154-207 | Pressing submit sends an order only for the selected invoice, with the form's currency and deliverer. |
| CreateOrderModal.CreateOrderForm.SubmitDisabled | src/components/orders/create-order-modal.tsx:411 | An enabled button means an invoice is selected with at least half a cent left, so submit never refuses it as settled. |
| EditOrderModal.SubmitOutcome | src/components/orders/edit-order-modal.tsx:153-204 | An update is sent only for an open order with all fields filled, a non-zero amount and a balance left. The amount as typed must be within the balance. It keeps the order's customer and invoice, and sends the typed amount rounded to cents, or none when it is not a number. An amount over the balance reports the maximum in its currency. |
| EditOrderModal.UncappedBlurIsSent | src/components/orders/edit-order-modal.tsx:228-253 | An amount left uncapped by the blur, and so within the balance, is sent, rounded to cents. |
| EditOrderModal.SettledInvoiceRefused | src/components/orders/edit-order-modal.tsx:174-181 | No update is sent when nothing remains on the invoice. |
| EditOrderModal.SubmitOutcomeChecked | src/components/orders/edit-order-modal.tsx:183-201 | The corrected submit sends an amount, and the amount it sends is within the balance in HKD; an amount that is not a number is refused. |
| EditOrderModal.RoundedAmountOverBalanceSent | src/components/orders/edit-order-modal.tsx:183-201 | With 0.05 HKD remaining, "0.046" CNY is sent as 0.05 CNY, worth more than the balance, and "." is sent with no amount; the corrected submit refuses both. |
| EditOrderModal.CheckedAgreesOnCents | src/components/orders/edit-order-modal.tsx:183-201 | For an amount in whole cents, as a blur leaves it, the corrected submit decides as the written one. |
| EditOrderModal.EditOrderForm.constructor | src/components/orders/edit-order-modal.tsx:53-66 | The dialog starts with no order, empty fields, HKD, the default rates and no balance. |
| EditOrderModal.EditOrderForm.Open | src/components/orders/edit-order-modal.tsx:71-110 | Opening an order copies its fields, with the amount printed to two places, and starts loading. The balance and rates are left as they were. |
| EditOrderModal.EditOrderForm.Settle | src/components/orders/edit-order-modal.tsx:76-102 | When loading ends, the rates are fetched or kept. The balance is taken from the order's invoice when it is found and otherwise kept from before. |
| EditOrderModal.EditOrderForm.ChangeAmount | src/components/orders/edit-order-modal.tsx:218-226 | Typing is accepted only by the input pattern. |
| EditOrderModal.EditOrderForm.BlurAmount | src/components/orders/edit-order-modal.tsx:228-253 | Leaving the field rounds and caps the amount against the balance. |
| EditOrderModal.EditOrderForm.ChangeCurrency | src/components/orders/edit-order-modal.tsx:206-216 | A currency switch re-expresses the amount at the same HKD value. |
| EditOrderModal.EditOrderForm.SetDeliveryStatus | src/components/orders/edit-order-modal.tsx:335-345 | The checkbox sets the delivery status and nothing else. |
| EditOrderModal.EditOrderForm.SetDeliveredBy | src/components/orders/edit-order-modal.tsx:363-367 | The field sets who delivered and nothing else. |
| EditOrderModal.EditOrderForm.Submit | src/components/orders/edit-order-modal.tsx:153-204 | Pressing submit sends an update only for the opened order, with the form's currency and delivery status. |
| EditOrderModal.EditOrderForm.SubmitDisabled | src/components/orders/edit-order-modal.tsx:386 | An enabled button is never refused as settled. |
| InvoiceModal.FilterCustomers | src/components/invoices/invoice-modal.tsx:147-155 | The customers listed are exactly those whose company or contact name contains the search, ignoring case. |
| InvoiceModal.EmptySearchKeepsAll | src/components/invoices/invoice-modal.tsx:147-155 | An empty search lists every customer, in order. |
| InvoiceModal.FilterCustomersAppend | src/components/invoices/invoice-modal.tsx:147-155 | The customers listed keep the order of the customer list. |
| InvoiceModal.SearchIgnoresCase | src/components/invoices/invoice-modal.tsx:149-152 | Searching in lower case lists the same customers as any other casing. |
| InvoiceModal.HkdHint | src/components/invoices/invoice-modal.tsx:306-310 | The hint appears exactly for a non-HKD amount. As written, it shows the amount multiplied by the rate. |
| InvoiceModal.HkdHintCorrected | src/components/invoices/invoice-modal.tsx:306-310 | The corrected hint appears in the same cases and shows the amount's HKD value. |
| InvoiceModal.HintConvertsWrongWay | src/components/invoices/invoice-modal.tsx:306-310 | For 100 CNY the written hint shows "93.00" HKD, while the amount is worth more than 107 HKD. |
| InvoiceModal.InvoiceForm.constructor | src/components/invoices/invoice-modal.tsx:175-182 | An edited invoice's fields fill the form, with the amount printed to two places. A new invoice starts with the text "NaN" as its amount, in HKD, dated today. |
| InvoiceModal.InvoiceForm.Reinitialize | src/components/invoices/invoice-modal.tsx:175-185 | The fields take the initial values of a render at the given time. |
| InvoiceModal.InvoiceForm.Rerender | src/components/invoices/invoice-modal.tsx:175-185 | A render resets the form exactly when the initial date is a fresh `new Date()` (a new invoice, or one without a date); otherwise nothing changes. |
| InvoiceModal.InvoiceForm.LoadRates | src/components/invoices/invoice-modal.tsx:90-97 | Fetched rates replace the current ones, with the defaults for missing or zero rates. Storing them renders the modal, which resets the form when its initial date is a fresh `new Date()`. |
| InvoiceModal.InvoiceForm.Search | src/components/invoices/invoice-modal.tsx:249-250 | Typing in the search box sets the search. A changed search renders the modal, which on a new invoice resets every field to the initial values of that moment. |
| InvoiceModal.InvoiceForm.Close | src/components/invoices/invoice-modal.tsx:158-162 | Closing clears the search; the render it causes resets the form as any render does. |
| InvoiceModal.InvoiceForm.SearchStable | src/components/invoices/invoice-modal.tsx:175-185 | The corrected search, with initial values fixed at opening, sets the search and leaves every field alone. |
| InvoiceModal.InvoiceForm.SetInvoiceNumber | src/components/invoices/invoice-modal.tsx:205-210 | Typing the invoice number changes only that field. |
| InvoiceModal.InvoiceForm.SetCustomer | src/components/invoices/invoice-modal.tsx:236 | Picking a customer changes only that field. |
| InvoiceModal.InvoiceForm.SetCurrency | src/components/invoices/invoice-modal.tsx:320-323 | Picking a currency changes only that field. |
| InvoiceModal.InvoiceForm.SetInvoiceDate | src/components/invoices/invoice-modal.tsx:355-358 | Picking a date changes only that field. |
| InvoiceModal.InvoiceForm.BlurAmount | src/components/invoices/invoice-modal.tsx:295-298 | Leaving the field rewrites a numeric amount to two places; it stands for the same value rounded. |
| InvoiceModal.InvoiceForm.Submit | src/components/invoices/invoice-modal.tsx:129-142 | A request is made exactly when the schema passes. It sends the positive amount and no units. An edit updates the invoice and leaves out the invoice number. |
| InvoiceModal.TypedInvoiceLostOnSearch | src/components/invoices/invoice-modal.tsx:175-185 | On a new invoice, a typed invoice number and a picked customer are gone after a customer search. |
| InvoiceModal.TypedInvoiceKeptOnStableSearch | src/components/invoices/invoice-modal.tsx:175-185 | With the corrected search, the same steps keep the number and the customer. |
| InvoicesPage.GetStatus | src/pages/dashboard/invoices.tsx:100-124 | An invoice is complete exactly when its remaining amount is strictly 0. It is incomplete when something remains and nothing is paid, and partial otherwise. |
| InvoicesPage.EditLockedIffComplete | src/pages/dashboard/invoices.tsx:509-513 | The edit button is disabled exactly for complete invoices. |
| InvoicesPage.Processed | src/pages/dashboard/invoices.tsx:127-137 | Sorting keeps every row exactly once. |
| InvoicesPage.UnsortedKeepsOrder | src/pages/dashboard/invoices.tsx:127-137 | Before any column is chosen, the rows keep the server's order. |
| ListSort.GetIn | src/pages/dashboard/invoices.tsx:129-130 | The path lookup with no path is the row itself, and a missing value stays missing. |
| ListSort.ToPath | src/pages/dashboard/invoices.tsx:129-130 | A field name splits at its dots into path segments; the empty name is the empty path. |
| ListSort.Compare | src/pages/dashboard/invoices.tsx:132-134 | The comparator returns -1, 0 or 1, and 0 exactly when neither key is `<` the other. |
| ListSort.SortRows | src/pages/dashboard/invoices.tsx:128-135 | The stable sort keeps every row exactly once. |
| ListSort.BeforeMeaning | src/pages/dashboard/invoices.tsx:132-133 | Ascending, a row goes first when its key is `<` the other's; descending, when it is `>`. |
| ListSort.SortSorted | src/pages/dashboard/invoices.tsx:127-137 | With a consistent comparison, the result is sorted. |
| ListSort.TiedRowsKeepOrder | src/pages/dashboard/invoices.tsx:127-137 | Rows none of which sorts before another keep their order. |
| ListSort.SameKeyKeepsOrder | src/pages/dashboard/invoices.tsx:127-137 | Rows sharing one key keep their order. |
| ListSort.AbsentFieldKeepsOrder | src/pages/dashboard/cash.tsx:74-75 | Sorting by a field every row lacks (each reads as "") keeps the order. |
| ListSort.EmptyPathKeepsOrder | src/pages/dashboard/invoices.tsx:129-130 | With no sort field every row reads as "[object Object]", so the order is kept. |
| ListSort.TextColumnConsistent | src/pages/dashboard/invoices.tsx:132-133 | A column of text keys compares consistently. |
| ListSort.NumericColumnConsistent | src/pages/dashboard/invoices.tsx:132-133 | A column of numeric keys compares consistently. |
| ListSort.Clicked | src/pages/dashboard/invoices.tsx:139-146 | Clicking a column sorts by it: ascending for a new column, flipped for the current one. |
| ListSort.ClickedTwice | src/pages/dashboard/invoices.tsx:139-146 | Clicking the current column twice restores the state; clicking a new one twice sorts it descending. |
| ListSort.SortControl.constructor | src/pages/dashboard/invoices.tsx:51-52 | The sort starts with no field, ascending. |
| ListSort.SortControl.HandleSort | src/pages/dashboard/invoices.tsx:139-146 | A click moves the sort state as `Clicked` says. |
| ListSort.IconFor | src/pages/dashboard/cash.tsx:92-95 | The neutral icon is shown exactly for other columns; the sorted column shows up for ascending and down for descending. |
| OrdersPage.DeliveryBadge | src/pages/dashboard/orders.tsx:411-420 | The badge reads partial exactly when the order is a partial delivery. |
| OrdersPage.PaymentLabel | src/pages/dashboard/orders.tsx:432 | The payment label is complete exactly when the remaining amount is strictly 0, and incomplete when it is not and nothing is loosely paid. |
| OrdersPage.PaymentStyle | src/pages/dashboard/orders.tsx:425-428 | The badge is green exactly when the remaining amount is loosely 0, and red when it is not and nothing is loosely paid. |
| OrdersPage.LabelAndStyle | src/pages/dashboard/orders.tsx:425-432 | A complete label is always green, and for numeric amounts the label and the colour agree. |
| OrdersPage.TextZeroMislabelled | src/pages/dashboard/orders.tsx:425-432 | A remaining amount sent as the text "0" is green but labelled partial. |
| OrdersPage.FindRow | src/pages/dashboard/orders.tsx:392-393 | The card's invoice is a row with that number, or there is none. |
| OrdersPage.CardLookup | src/pages/dashboard/orders.tsx:392-393 | The card waits while invoices load and finds nothing exactly when no row has the number. |
| CashPage.Processed | src/pages/dashboard/cash.tsx:70-81 | No data gives no rows; otherwise sorting keeps every row exactly once. |
| CashPage.UnsortedKeepsOrder | src/pages/dashboard/cash.tsx:70-81 | Before any column is chosen, the rows keep the server's order. |
| CashPage.StatusLabel | src/pages/dashboard/cash.tsx:453-464 | The status reads partial exactly for partial deliveries. |
| CustomersPage.Processed | src/pages/dashboard/customers.tsx:93-123 | The rows are a permutation of the data, unchanged while no sort field is chosen. |
| UsersPage.Processed | src/pages/dashboard/user-management.tsx:100-112 | Sorting keeps every user exactly once. |
| UsersPage.RoleBadge | src/pages/dashboard/user-management.tsx:151-160 | The badge is red exactly for admins and blue exactly for executives, in any casing. |
| UsersPage.RoleBadgeIgnoresCase | src/pages/dashboard/user-management.tsx:151-160 | The badge does not depend on the role's casing. |
| UsersPage.AdminSpellings | src/pages/dashboard/user-management.tsx:151-160 | "Admin" and "ADMIN" both get the admin badge. |
| Pagination.TotalPages | src/pages/dashboard/invoices.tsx:73 | The page count is the least number of pages holding every row: zero exactly when there are no rows. |
| Pagination.PagesStayInRange | src/pages/dashboard/invoices.tsx:555-576 | Previous and next stay within the pages: previous stops at 1 and next stops at the last page. |
| Pagination.ShownRange | src/pages/dashboard/invoices.tsx:550-551 | The "showing X to Y of Z" range lies within the rows. It spans a full page before the last, and the last page ends at the total. |
| Pagination.NextPullsBack | src/pages/dashboard/invoices.tsx:573 | A page beyond the end (after the search shrinks the list) is pulled back to the last page by next. |
| Pagination.Pager.constructor | src/pages/dashboard/invoices.tsx:47 | Paging starts on page 1. |
| Pagination.Pager.Previous | src/pages/dashboard/invoices.tsx:559 | Previous moves the page as `PrevPage` says. |
| Pagination.Pager.Next | src/pages/dashboard/invoices.tsx:573 | Next moves the page as `NextPage` says for the current page count. |
| Calendar.FieldsLessOrder | src/components/settings/mis-report-section.tsx:120 | Field-by-field comparison is a strict total order. |
| Calendar.EarlierOrder | src/components/settings/mis-report-section.tsx:120 | Comparing dates is a strict total order. |
| Calendar.PadZeros | src/lib/utils.ts:28-29 | `padStart` with "0" gives digits, as long as the width or the number's own length. |
| Calendar.FormatDate | src/lib/utils.ts:26-32 | `formatDate` of a valid date has slashes in the third and sixth places. |
| Calendar.IsoDate | src/components/settings/mis-report-section.tsx:108-109 | `yyyy-MM-dd` of a valid date is ten characters, hyphens in the fifth and eighth places. |
| Calendar.IsoSeconds | src/pages/dashboard/expected-payments.tsx:101 | The sent date ends in "Z", has no point and is the ISO string up to its point. |
| Calendar.PadZerosValue | src/lib/utils.ts:28-29 | Padding does not change the number the digits stand for. |
| Calendar.PadZerosWidth | src/lib/utils.ts:28-29 | A number below ten to the width is padded to exactly that width. |
| Calendar.FormatDateFields | src/lib/utils.ts:26-32 | `formatDate` writes two-digit day and month, slash-separated, that read back as the date's own fields. |
| Calendar.BeforePoint | src/pages/dashboard/expected-payments.tsx:101 | `split(".")[0]` is the prefix before the first point. |
| Calendar.IsoSecondsShape | src/pages/dashboard/expected-payments.tsx:101 | The saved date is the ISO date, "T", the clock to the second, and "Z". |
| Calendar.IsoSecondsIgnoresMillis | src/pages/dashboard/expected-payments.tsx:101 | Dates differing only in milliseconds are saved the same. |
| Calendar.IsoDateFields | src/components/settings/mis-report-section.tsx:108-109 | `yyyy-MM-dd` writes four, two and two digits, hyphen-separated, that read back as the date's fields. |
| ExpectedPayments.FilterInvoices | src/pages/dashboard/expected-payments.tsx:55-60 | The invoices listed are exactly those matching the search. |
| ExpectedPayments.EmptySearchListsAll | src/pages/dashboard/expected-payments.tsx:55-60 | An empty search lists every invoice, in order. |
| ExpectedPayments.FilterInvoicesAppend | src/pages/dashboard/expected-payments.tsx:55-60 | The invoices listed keep the order of the invoice list. |
| ExpectedPayments.GetInvoiceDetail | src/pages/dashboard/expected-payments.tsx:113-126 | An unknown number gives no details; a known one gives the details of an invoice with that number. |
| ExpectedPayments.DetailOfFirst | src/pages/dashboard/expected-payments.tsx:113-126 | The details come from the first invoice with the number. |
| ExpectedPayments.HandleSubmit | src/pages/dashboard/expected-payments.tsx:92-102 | The save keeps the form's invoice, customer and invoice date. Without a picked date it saves the current time. |
| ExpectedPayments.SubmittedDateIsPicked | src/pages/dashboard/expected-payments.tsx:92-102 | A form that passes the schema saves the picked date, to the second, in ISO form. |
| ExpectedPayments.PaymentForm.constructor | src/pages/dashboard/expected-payments.tsx:150-155 | The form starts empty with the mount date as the expected date. |
| ExpectedPayments.PaymentForm.SelectInvoice | src/pages/dashboard/expected-payments.tsx:171-178 | Choosing an invoice fills in its details from `GetInvoiceDetail` and nothing else. |
| ExpectedPayments.PaymentForm.PickDate | src/pages/dashboard/expected-payments.tsx:240 | Picking a date sets the picker and the form value. |
| ExpectedPayments.PaymentForm.Search | src/pages/dashboard/expected-payments.tsx:188-189 | Typing in the search box sets the search and nothing else. |
| ExpectedPayments.PaymentForm.Submit | src/pages/dashboard/expected-payments.tsx:40-44 | A save is made exactly when the schema passes, for the form's invoice. |
| ExpectedPayments.PaymentForm.Saved | src/pages/dashboard/expected-payments.tsx:104-109 | After a save the form resets to its mount values, while the picker and the search are cleared. |
| MisReport.ReportForm.constructor | src/components/settings/mis-report-section.tsx:38-47 | Both dates start as today, mirrored in the form values. |
| MisReport.ReportForm.Reinitialize | src/components/settings/mis-report-section.tsx:145-154 | With `enableReinitialize`, the form falls back to the pickers' dates with an empty customer and report type. |
| MisReport.ReportForm.StartDateChange | src/components/settings/mis-report-section.tsx:114-125 | A new start date pushes an earlier end date forward to it and keeps the dates ordered. When the range changes, the form is reinitialised from the dates with no customer and no report type, so it cannot submit until a type is chosen again. |
| MisReport.ReportForm.EndDateChange | src/components/settings/mis-report-section.tsx:127-132 | A new end date is stored. A different one reinitialises the form, emptying the customer and the report type. One the picker allows keeps the dates ordered. |
| MisReport.ReportForm.SetCustomer | src/components/settings/mis-report-section.tsx:208 | Choosing a customer changes only that value. |
| MisReport.ReportForm.SetReportType | src/components/settings/mis-report-section.tsx:233 | Choosing a report type changes only that value. |
| MisReport.ReportForm.Generate | src/components/settings/mis-report-section.tsx:101-112 | The request carries the type, the customer and the form's dates (or the state's) as `yyyy-MM-dd`. |
| MisReport.ReportForm.Submit | src/components/settings/mis-report-section.tsx:21-26 | A report is requested exactly when the schema passes. |
| MisReport.OrderedFormSubmits | src/components/settings/mis-report-section.tsx:101-112 | A mirrored form with a report type asks for the state's own date range. |
| PasswordRules.LineHead | src/components/settings/change-password-section.tsx:22 | What `^(?=.*…)` can see is the text before the first line break. |
| PasswordRules.StrongPassword | src/components/settings/change-password-section.tsx:20-23 | A strong password has a lower-case letter, a capital, a digit and a special character. |
| PasswordRules.StrongExtends | src/components/settings/change-password-section.tsx:20-23 | Typing more characters never makes a strong password weak. |
| PasswordRules.StrongExample | src/components/settings/change-password-section.tsx:20-23 | "Passw0rd!" is strong. |
| PasswordRules.NoUpperExample | src/components/settings/change-password-section.tsx:22 | "password1!" is refused. |
| PasswordRules.NoUpperRejected | src/components/settings/change-password-section.tsx:22 | A password without a capital letter never passes the pattern. |
| PasswordRules.LineBreakExample | src/components/settings/change-password-section.tsx:22 | A special character after a line break does not count. |
| PasswordRules.PhoneExample | src/components/users/user-modal.tsx:38 | "+852 1234 5678" passes the phone pattern. |
| PasswordRules.PhoneRejects | src/components/users/user-modal.tsx:38 | Any character other than a digit, space, hyphen or parenthesis after the first position fails the phone pattern. |
| PasswordRules.InnerPlusRejected | src/components/users/user-modal.tsx:38 | A "+" only counts at the start. |
| ChangePassword.HandleChange | src/components/settings/change-password-section.tsx:65-81 | Reusing the current password is refused exactly when the two are equal; otherwise just the two passwords are sent. |
| ChangePassword.SentPasswordIsNewAndStrong | src/components/settings/change-password-section.tsx:18-27 | A password that is sent differs from the current one and is strong. |
| ChangePassword.CurrentPasswordMessage | src/components/settings/change-password-section.tsx:88-90 | A server message containing "current password" marks the current password wrong; another does not. |
| ForgotPassword.Advance | src/pages/auth/forgot-password.tsx:48-111 | Each form's success moves to the next step. |
| ForgotPassword.Submitted | src/pages/auth/forgot-password.tsx:48-111 | A submission moves one step forward on success and stays put on failure. |
| ForgotPassword.RunAdvances | src/pages/auth/forgot-password.tsx:48-111 | Steps never go back, and each step forward takes a successful request. |
| ForgotPassword.ReachSuccess | src/pages/auth/forgot-password.tsx:48-111 | Reaching the success screen takes at least three successful requests. |
| ForgotPassword.ResetFlow.constructor | src/pages/auth/forgot-password.tsx:42-45 | The page starts on the email step, not loading. |
| ForgotPassword.ResetFlow.SubmitEmail | src/pages/auth/forgot-password.tsx:48-68 | Loading is shown during the request. Success stores the email and moves to the code step, failure stays, and loading ends either way. |
| ForgotPassword.ResetFlow.SubmitOtp | src/pages/auth/forgot-password.tsx:70-90 | Success stores the code and moves to the password step; failure stays. |
| ForgotPassword.ResetFlow.SubmitPassword | src/pages/auth/forgot-password.tsx:92-111 | Success moves to the success screen; failure stays. |
| ForgotPassword.ResetFlow.SubmitShown | src/pages/auth/forgot-password.tsx:113-114 | Submitting the form on screen moves the step as `Submitted` says. |
| UserModal.InitialValues | src/components/users/user-modal.tsx:67-74 | An edited user's name, role, phone and e-mail fill the form with an empty password; a new user starts empty. |
| UserModal.Sent | src/components/users/user-modal.tsx:116-134 | A create is sent exactly in create mode and nothing is sent for an edit without a user. An update goes to the user's id, with no username and no password exactly when the password is left empty. |
| UserModal.HandleSubmit | src/components/users/user-modal.tsx:116-134 | The step-by-step body building dispatches what `Sent` says. |
| UserModal.CreateSendsStrongPassword | src/components/users/user-modal.tsx:34-59 | A new user that passes the schema is sent with a strong password and a username that passes the phone pattern. |
| UserModal.UntouchedEditKeepsPassword | src/components/users/user-modal.tsx:67-74 | Saving an untouched edit form sends the user's own fields and no password. |
| CustomerModal.InitialValues | src/components/customers/customer-modal.tsx:49-59 | The form starts from every field of the customer, with the contact person also as the customer name; a new customer starts empty. |
| CustomerModal.HandleSubmit | src/components/customers/customer-modal.tsx:101-107 | A new customer is named after its contact person with the other values unchanged. An edit sends the values to the customer's id, and an edit without a customer sends nothing. |
| CustomerModal.UntouchedEditSendsCustomer | src/components/customers/customer-modal.tsx:49-59 | Saving an untouched edit sends the customer's own fields back. |
| AuthProvider.Or | src/components/providers/auth-provider.tsx:70-75 | `value \|\| fallback` keeps a non-empty value and otherwise gives the fallback. |
| AuthProvider.RestoredUser | src/components/providers/auth-provider.tsx:31-46 | A user is restored exactly when both the token and the email are stored (non-empty). The restored user has the stored email and a non-empty name and role. |
| AuthProvider.LoginSurvivesReload | src/components/providers/auth-provider.tsx:65-90 | After a login and a reload, the email and name come back. The role comes back when the server gave one; without one it becomes "--" where the live session had "". |
| AuthProvider.LogoutForgets | src/components/providers/auth-provider.tsx:92-105 | After logout, nothing is restored. |
| AuthProvider.AuthStore.constructor | src/components/providers/auth-provider.tsx:25-26 | The provider starts with no user and loading. |
| AuthProvider.AuthStore.Initialize | src/components/providers/auth-provider.tsx:28-63 | Start-up restores the stored user if there is one, keeps the old user otherwise, and stops loading. |
| AuthProvider.AuthStore.Login | src/components/providers/auth-provider.tsx:65-90 | A login succeeds exactly when the response is accepted. It writes the five session keys and sets the user; a refused login changes nothing. |
| AuthProvider.AuthStore.Logout | src/components/providers/auth-provider.tsx:92-105 | Logout removes the five session keys and the user. |
| ProtectedRoute.Decide | src/components/auth/protected-route.tsx:14-46 | The guard shows the spinner exactly while loading and goes to login exactly without a user. It renders exactly when no executive is on a restricted path and the required role matches. |
| ProtectedRoute.ExecutiveKeptOut | src/components/auth/protected-route.tsx:30-38 | An executive on the customers or user-management pages, or below them, is sent to the dashboard. |
| ProtectedRoute.RequiredRoleRenders | src/components/auth/protected-route.tsx:40-43 | With a required role, rendering implies the role matches, ignoring case; a matching non-executive role renders. |
| Sidebar.MenuRole | src/components/layout/sidebar.tsx:72 | The menu role is the user's role, or "Admin" while there is none. |
| Sidebar.VisibleMembers | src/components/layout/sidebar.tsx:73 | The menu holds exactly the items listing the role. |
| Sidebar.AdminSeesAll | src/components/layout/sidebar.tsx:25-73 | An admin, or no user yet, sees every item. |
| Sidebar.ExecutiveMenu | src/components/layout/sidebar.tsx:25-73 | An executive sees everything but customers and user management. |
| Sidebar.OtherRolesSeeNothing | src/components/layout/sidebar.tsx:25-73 | Any other role string, including "--", gets an empty menu. |
| Sidebar.MenuLostOnReload | src/components/layout/sidebar.tsx:72-73 | A login without a role shows the whole menu, and after a reload the same session shows none. |
| Sidebar.MenuState.constructor | src/components/layout/sidebar.tsx:74 | The sidebar starts expanded. |
| Sidebar.MenuState.Toggle | src/components/layout/sidebar.tsx:93 | The toggle flips the collapsed state. |
| QueryProvider.ShouldRetry | src/components/providers/query-provider.tsx:15-18 | A failed query is retried exactly when it was not refused as unauthorised and has failed fewer than three times. |
| QueryProvider.AtMostThreeRetries | src/components/providers/query-provider.tsx:15-18 | A query is retried at most three times in all. |
| QueryProvider.UnauthorisedNotRetried | src/components/providers/query-provider.tsx:15-18 | An unauthorised failure ends the retries at once. |
| QueryProvider.PersistentFailureRetriedThrice | src/components/providers/query-provider.tsx:15-18 | A query failing for other reasons is retried exactly three times. |

## Left out

- Network requests, the server and toasts are left out. Request outcomes and fetched data are parameters, and the toasts' text is not modelled.
- Debounced search timers, React rendering, the dialogs' open and close animation and the print-to-HTML views are left out. Effects are methods called when the effect would run. A render matters only where it makes Formik reset a form, and there it is a method (`InvoiceModal.InvoiceForm.Rerender`). The later render that a debounced search value causes is not modelled apart; it resets a new invoice's form once more.
- `formatCurrency` and `formatDateTime` in `src/lib/utils.ts` are left out. They call `Intl` formatting, which depends on the locale.
- Time zones, and the `Date` object beyond its fields, are left out. Dates are field records and the clock is a parameter.
- The e-mail format checks of the schemas are left out: the result of the check is the parameter `emailOk`.
- JsNumber.ParseFloat: reads a decimal prefix with an optional "+" or "-" sign. Leading white space, exponents and `Infinity` are not modelled. The cash and order amount fields' input pattern lets none of them through; the invoice amount field is a number input without that pattern (see the next line).
- InvoiceModal.InvoiceForm.BlurAmount: exponent notation such as "1e3", which the browser's number input lets through, is read only up to the "e", so the model gives "1.00" where the browser gives "1000.00", because ParseFloat reads no exponents.
- JsNumber.NumberOf: like ParseFloat, reads no white space, exponents, hexadecimal or `Infinity`, for the same reason.
- CreateOrderModal.SubmitOutcome: the browser's handling of the number input is not modelled. A browser turns text that is not a number into "", and its `step="0.01"` check blocks submitting with Enter. The function takes whatever text reaches the handler.
- EditOrderModal.SubmitOutcome: the same browser handling of the number input is not modelled, for the same reason.
- Formik's reset on new initial values also clears touched fields and errors. Only the values are modelled. A render that happens within the same millisecond as the previous one would not reset; the clock `now` is assumed to have moved.
- JsNumber.Round2: numbers are exact reals, not binary floating point, so float artefacts such as `1.005` rounding down are not modelled.
- JsString.Lower: only ASCII letters are folded, where JavaScript's `toLowerCase` folds all of Unicode.
- OrdersPage.CardLookup: a card whose invoice is missing from the list throws in the page, and the model returns `NotFound` instead.
- ListSort.SortRows: a stable insertion sort, the order ES2019 prescribes for a consistent comparator. With an inconsistent comparator, such as mixed text and numbers, the browser's order may differ, and `SortSorted` requires consistency.
- React Query is modelled only as far as its retry policy and stale time. The devtools are not modelled.
- The `catch` branch of `initializeAuth` is not modelled, because nothing in its `try` can throw with the storage as a map.
- Years above 9999 are not modelled. `Calendar.IsoDateFields` requires a valid date of four-digit year.

## Findings

| source | as written | input that shows it | evidently intended | confidence | as-written member | corrected member |
|---|---|---|---|---|---|---|
| src/components/cash/cash-modal.tsx:222-224 | An amount over the balance is replaced by the maximum printed with `toFixed(2)`, which rounds to the nearest cent and can round up past the balance. The same cap is in create-order-modal.tsx:247-251 and edit-order-modal.tsx:238-241. | 0.5 HKD remaining, rates 0.93 CNY per HKD, "1" typed in CNY: capped to "0.47" CNY, worth about 0.505 HKD | the cap stays within the balance (round the maximum down to cents) | not executed | AmountField.BlurCapExceedsLimit | AmountField.CorrectedBlurWithinLimit |
| src/components/orders/create-order-modal.tsx:89-96 | Choosing an invoice pre-fills its HKD balance whatever currency is selected. | 100 HKD remaining, CNY selected: "100.00" is pre-filled, worth about 107.5 HKD, and submit refuses it (184-193) | pre-fill the balance converted into the selected currency | not executed | CreateOrderModal.PrefillIgnoresCurrency | CreateOrderModal.PrefillAmountIn |
| src/components/invoices/invoice-modal.tsx:306-310 | The "≈ … HKD" hint converts with `convertFromHKD`, which multiplies by the rate. | 100 CNY at 0.93 CNY per HKD: the hint shows "93.00" HKD, while the amount is worth about 107.53 HKD | convert to HKD (`convertToHKD`, dividing by the rate) | not executed | InvoiceModal.HintConvertsWrongWay | InvoiceModal.HkdHintCorrected |
| src/components/orders/create-order-modal.tsx:184-201 | The balance check reads the amount as typed with `Number`, but the order sends `parseFloat` of it rounded to cents. An amount that is not a number passes the check and is sent as `NaN`. Pressing Enter submits without leaving the field, so no blur rounds the amount first. | 0.05 HKD remaining, rates 0.93 CNY per HKD, "0.046" in CNY: checked as about 0.0495 HKD, sent as 0.05 CNY, worth about 0.0538 HKD; "." is sent with no amount. These values reach the handler only if the browser's number-input checks are bypassed: a browser turns "." into "" and its `step="0.01"` check blocks Enter on "0.046" | check the amount that is sent, and refuse one that is not a number | not executed; the handler mismatch is certain, reaching it from a browser is not | CreateOrderModal.RoundedAmountOverBalanceSent | CreateOrderModal.SubmitOutcomeChecked |
| src/components/orders/edit-order-modal.tsx:183-201 | The same check on `Number` of the typed amount, with `parseFloat` of it rounded to cents sent. | 0.05 HKD remaining, rates 0.93 CNY per HKD, "0.046" in CNY: sent as 0.05 CNY, worth more than the balance; "." is sent with no amount. As for the create form, only when the browser's number-input checks are bypassed | check the amount that is sent, and refuse one that is not a number | not executed; the handler mismatch is certain, reaching it from a browser is not | EditOrderModal.RoundedAmountOverBalanceSent | EditOrderModal.SubmitOutcomeChecked |
| src/components/invoices/invoice-modal.tsx:175-185 | The initial values of a new invoice carry `new Date()`, so they differ at every render and `enableReinitialize` resets the form each time the modal renders. Typing in the customer search renders it. | A new invoice: type "INV-9", pick a customer, then type "a" in the customer search; the invoice number and the customer are empty again | the initial values stay fixed while the dialog is open, and the search leaves the fields alone | not executed | InvoiceModal.TypedInvoiceLostOnSearch | InvoiceModal.InvoiceForm.SearchStable |
