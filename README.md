# Billing ledger engine

This project models the record arithmetic of a small multi-tenant billing
backend. Tenants keep customers, issue bills (challans, invoices,
quotations) made of line items with GST, record payments, and read each
customer's ledger. Every bill and payment moves four running aggregates
kept on the customer: `totalBills`, `totalAmount`, `totalPaid` and
`balance`. The model also covers the product catalogue (soft delete,
partial update, active-only listing), the per-tenant company profile
(create-or-merge, logo and signature), and the bounded refresh-token list
and reset-token expiry of the user document.

The collections are `seq` fields of classes, kept in insertion (creation)
order. `Engine.Store` holds customers, bills and payments. `Products.Catalog`,
`CompanyProfile.CompanyBook` and `UserModel.User` hold the rest. Each route
handler is a method that runs as one atomic step and returns a `Status`:
`Ok`, `Created(id)`, `BadRequest` (400), `NotFound` (404) or `SchemaError`
(a 500 raised by a schema validator or the unique index). Records are value
datatypes, so a handler's load-modify-save of a document replaces one
element of a sequence. A request field that the client leaves out is
`None`. JavaScript truthiness (`x || default`, `if (x)`) and definedness
(`x !== undefined`) are written out as `Truthy`, `IfTruthy` and
`IfDefined`. Money is `real`, dates are `int` milliseconds and ids are
`nat`. `amountToWords`, the clock, random tokens and hashing are
parameters.

Two store invariants carry most of the proofs:

- `Store.Valid()`: ids are fresh below `nextId`, every record passes its
  schema, bill numbers are unique over the whole collection, and every
  customer keeps `balance == totalAmount - totalPaid`. Every handler
  preserves it.
- `Store.Ledgered()`: each customer's `totalBills`, `totalAmount` and
  `totalPaid` equal the count and the sums over the stored bills and
  payments that name it. Every handler preserves it except
  `UpdateBillAsWritten`, the PUT of a bill as the code is written (see
  Findings).

Modules, one file each: `Common` (options, statuses, truthiness, sequence
helpers and sums), `JsNumber` (ECMAScript `parseInt` and `String(n)`),
`BillModel`, `CustomerModel`, `PaymentModel`, `ProductModel` (the schemas),
`Billing` (line items, totals, bill numbering), `Accounts` (aggregate
moves and consistency), `Ledger` (the ledger view), `Customers` (contact
patch, search), `Engine` (the customer, bill and payment handlers),
`Products`, `CompanyProfile`, `UserModel`, and `Scenarios` (create then
delete round trips).

## Model

| member | source | states |
|---|---|---|
| BillModel.ParseBillType | backend/models/Bill.js:55-59 | the enum validator accepts exactly CHALLAN, INVOICE and QUOTATION |
| BillModel.BillTypeNames | backend/models/Bill.js:55-59 | each bill type's name parses back to that type, and a name parsing to a type is that type's name |
| BillModel.UniqueAfterAppend | backend/models/Bill.js:50-54 | adding a bill whose number is not yet taken anywhere in the collection keeps bill numbers unique |
| CustomerModel.NewCustomer | backend/models/Customer.js:26-41 | a new customer starts with all four aggregates at 0, and so is balanced |
| CustomerModel.MobileWithCode | backend/routes/bills.js:178 | the mobile printed on a bill is country code then number; it is non-empty for a valid customer |
| PaymentModel.ParsePaymentMode | backend/models/Payment.js:14-18 | the enum validator accepts exactly Cash, Cheque, Online, Card and UPI |
| PaymentModel.PaymentModeNames | backend/models/Payment.js:14-18 | each mode's name parses back to that mode and only to it |
| ProductModel.ParseUnit | backend/models/Product.js:9-13 | the enum validator accepts exactly Pcs, Mtr, Kg, Box, Set and Ltr |
| ProductModel.UnitNames | backend/models/Product.js:9-13 | each unit's name parses back to that unit and only to it |
| JsNumber.ParseShowNat | backend/routes/bills.js:21 | `parseInt` of the decimal text of a natural number gives that number back |
| JsNumber.ParseShowInt | backend/routes/bills.js:21-22 | `parseInt(String(k)) == k` for every integer k, negative ones included |
| JsNumber.NumberToString | backend/routes/bills.js:22 | `String(x)` is "NaN" exactly when x is NaN |
| Billing.LineItemMeaning | backend/routes/bills.js:144-163 | a stored line has `srNo = index + 1`, `amount = quantity * rate` when both are given, GST amount = amount * stored rate / 100, GST and `totalMtr` 0 when absent, and is schema-valid when quantity and rate are given and non-negative and name and unit present |
| Billing.ProcessItems | backend/routes/bills.js:141-165 | the loop yields one line per request item (the mapped lines) with `subtotal` and `gstTotal` equal to the sums of line amounts and GST amounts |
| Billing.UniformGst | backend/routes/bills.js:141-165 | with one GST rate on every line, the GST total is the rate applied to the subtotal and the total is subtotal * (1 + rate/100) |
| Billing.SubtotalNonNegative | backend/routes/bills.js:141-148 | schema-valid lines add up to a non-negative subtotal |
| Billing.SingleItemExample | backend/routes/bills.js:144-165 | 2 Mtr at 100 with 18% GST gives amount 200, GST 36, total 236 |
| Billing.Increment | backend/routes/bills.js:22 | `n + 1` is NaN exactly when n is NaN and otherwise exceeds n |
| Billing.NextBillNumber | backend/routes/bills.js:12-23 | no previous number or an empty one gives "1"; otherwise the result is "NaN" exactly when the previous number does not parse |
| Billing.NextAfterShown | backend/routes/bills.js:21-22 | after bill number `String(k)` comes `String(k + 1)` |
| Billing.NineThenTen | backend/routes/bills.js:21-22 | numbering is numeric: "9" is followed by "10" |
| Billing.NextAfterNonNumeric | backend/routes/bills.js:21-22 | a number not starting with whitespace, a sign or a digit is followed by "NaN" |
| Billing.NaNIsSticky | backend/routes/bills.js:21-22 | "NaN" is followed by "NaN" again |
| Accounts.WithBill | backend/routes/bills.js:193-195 | creating a bill adds 1 to `totalBills` and the total to `totalAmount` and `balance`; `totalPaid` stays; balance identity kept |
| Accounts.WithoutBill | backend/routes/bills.js:306-308 | deleting a bill takes 1 from `totalBills` and the total from `totalAmount` and `balance`; balance identity kept |
| Accounts.Rebilled | backend/routes/bills.js:229-270 | an update with items shifts `totalAmount` and `balance` by new total minus old total; `totalBills` and `totalPaid` stay; balance identity kept |
| Accounts.Unbilled | backend/routes/bills.js:229-234 | an update without items, as written, takes the old total from `totalAmount` and `balance` and adds nothing back |
| Accounts.WithPayment | backend/routes/payments.js:112-113 | a payment adds its amount to `totalPaid` and takes it from `balance`, with no floor; bills untouched; balance identity kept |
| Accounts.WithoutPayment | backend/routes/payments.js:144-145 | deleting a payment gives the amount back to `balance` and takes it from `totalPaid`; balance identity kept |
| Accounts.Inverses | backend/routes/bills.js:302-312 | deleting a bill undoes creating it, deleting a payment undoes recording it, and re-totalling to the same total changes nothing |
| Accounts.NewCustomerConsistent | backend/routes/customers.js:126-134 | a new customer with zero aggregates, named by no stored record, agrees with the stored records |
| Accounts.AddBillConsistent | backend/routes/bills.js:173-196 | storing a bill and applying `WithBill` to its customer keeps that customer's aggregates equal to the sums over its bills |
| Accounts.RemoveBillConsistent | backend/routes/bills.js:302-312 | removing a stored bill and applying `WithoutBill` keeps its customer's aggregates equal to the sums |
| Accounts.ReplaceBillConsistent | backend/routes/bills.js:259-277 | replacing a bill by a re-totalled one and applying `Rebilled` keeps its customer's aggregates equal to the sums |
| Accounts.AddPaymentConsistent | backend/routes/payments.js:100-114 | storing a payment and applying `WithPayment` keeps its customer's `totalPaid` equal to the sum of its payments |
| Accounts.RemovePaymentConsistent | backend/routes/payments.js:140-149 | removing a payment and applying `WithoutPayment` keeps its customer's `totalPaid` equal to the sum |
| Accounts.UnbilledBreaksConsistency | backend/routes/bills.js:229-234 | a consistent customer with one bill of 100 is no longer consistent after a PUT of that bill without items |
| Ledger.BillRows | backend/routes/customers.js:230-238 | each bill becomes a row with `debit = total`, `credit = 0`, `balance = closingBalance` |
| Ledger.PaymentRows | backend/routes/customers.js:239-248 | each payment becomes a row with `debit = 0`, `credit = amount` and no balance |
| Ledger.Insert | backend/routes/customers.js:249 | inserting a row into rows sorted newest first keeps them sorted and adds exactly that row |
| Ledger.SortNewestFirst | backend/routes/customers.js:249 | the sorted rows are ordered by non-increasing date and are a permutation of the input |
| Ledger.LedgerView | backend/routes/customers.js:229-259 | the ledger has exactly bills + payments rows, newest first, a permutation of the mapped rows, and the summary is the customer's stored aggregates copied verbatim |
| Ledger.LedgerRowsMeaning | backend/routes/customers.js:229-248 | every ledger row is a debit row of one of the bills (its total and closing balance) or a credit row of one of the payments |
| Ledger.TwoRowExample | backend/routes/customers.js:229-259 | a bill of 236 dated after a payment of 100 gives two rows, bill first, and the summary balance is the stored one |
| Customers.PatchContact | backend/routes/customers.js:159-163 | `name` and `mobile` are replaced only by a truthy value, `countryCode` by any given value, `address` and `gstNumber` whenever given; id, tenant and all four aggregates stay, and a valid customer stays valid |
| Customers.PatchContactIdentityAndIdempotence | backend/routes/customers.js:159-163 | an update naming no field changes nothing, and applying the same update twice equals applying it once |
| Customers.SearchCustomers | backend/routes/customers.js:59-75 | an absent or one-character query gives nothing; otherwise `min(10, n)` results for the `n` tenant customers matching on name or mobile, each result a stored matching customer, and every match present when there are at most ten (which ten, when more match, is left open, as an unsorted `.limit(10)` leaves it) |
| Engine.LastOwnedIndex | backend/routes/bills.js:13-15 | finds the tenant's most recently created bill: one of its bills with no later one, or none when it has no bill |
| Engine.NextBillNumberNonEmpty | backend/routes/bills.js:17-22 | the derived bill number is never empty, so it passes the required check |
| Engine.SecondTenantFirstNumberTaken | backend/models/Bill.js:50-54 | while another tenant holds bill "1", a tenant's first bill is offered "1", which the collection-wide unique index refuses |
| Engine.BillTypeOrDefault | backend/routes/bills.js:175 | an absent or empty `billType` becomes CHALLAN, a truthy one is parsed against the enum, and the result is refused exactly for a truthy value outside the enum |
| Engine.PaymentModeOrDefault | backend/routes/payments.js:103 | an absent or empty `paymentMode` becomes Cash, a truthy one is parsed against the enum, and the result is refused exactly for a truthy value outside the enum |
| Engine.NewBill | backend/routes/bills.js:165-190 | a new bill holds the given lines, kind, date, notes, company and number, the customer's id, name and mobile with country code; subtotal and GST total are the sums of its lines, total is their sum and `amountInWords` its words; `previousBalance` is the customer's balance and `closingBalance = previousBalance + total`; payment status Unpaid with paid amount 0 |
| Engine.Retotalled | backend/routes/bills.js:259-266 | new lines set items, subtotal, GST total, total and its words, and re-chain `closingBalance` from the bill's own `previousBalance`; every other field stays |
| Engine.RevisedBill | backend/routes/bills.js:234-274 | an update keeps number, customer, customer name and mobile, company, date, payment fields and `previousBalance`; with items it recomputes lines, subtotal, GST total, total, its words and closing balance, without them keeps them all; `notes` changes when defined, the kind is the one given |
| Engine.PutBillType | backend/routes/bills.js:274 | the bill type changes only for a truthy `billType`, and is refused when outside the enum |
| Engine.ReviseBill | backend/routes/bills.js:229-274 | the corrected update: the customer moves by `Rebilled` from the old to the new total, with or without items |
| Engine.ReviseBillAsWritten | backend/routes/bills.js:229-274 | the update as written: `Rebilled` with items, `Unbilled` without |
| Engine.BillCountPositive | backend/routes/customers.js:189-191 | the bill count of a customer is positive exactly when some stored bill names it |
| Engine.AfterBillRemoved | backend/routes/bills.js:302-310 | the customers after a bill delete: the bill's customer, found by id alone, gets `WithoutBill` when it exists; otherwise nothing changes |
| Engine.AfterPaymentRemoved | backend/routes/payments.js:140-147 | the customers after a payment delete: the customer gets `WithoutPayment` when it exists; otherwise nothing changes |
| Engine.LedgeredAddCustomer | backend/routes/customers.js:126-134 | adding a consistent customer keeps every customer consistent |
| Engine.LedgeredAddBill | backend/routes/bills.js:173-196 | a created bill keeps every customer's aggregates equal to the sums over the stored records |
| Engine.LedgeredRemoveBill | backend/routes/bills.js:302-312 | a deleted bill keeps every customer consistent, whether or not its customer still exists |
| Engine.LedgeredReplaceBill | backend/routes/bills.js:259-277 | a re-totalled bill with its customer moved by `Rebilled` keeps every customer consistent |
| Engine.LedgeredAddPayment | backend/routes/payments.js:100-114 | a recorded payment keeps every customer consistent |
| Engine.LedgeredRemovePayment | backend/routes/payments.js:140-149 | a deleted payment keeps every customer consistent, whether or not its customer still exists |
| Engine.Store.CreateCustomer | backend/routes/customers.js:108-141 | 400 exactly when name or mobile is missing or the tenant already has that mobile (other tenants never block it); otherwise appends a customer with country code default "+91" and zero aggregates; invariants kept |
| Engine.Store.UpdateCustomer | backend/routes/customers.js:146-172 | 404 for an absent or foreign customer; otherwise replaces it by `PatchContact`, and nothing else changes |
| Engine.Store.DeleteCustomer | backend/routes/customers.js:177-204 | 404 for an absent or foreign customer; 400 exactly when some bill names it (payments are not checked); otherwise removes exactly that customer |
| Engine.Store.GetLedger | backend/routes/customers.js:209-265 | 404 for an absent or foreign customer; otherwise the ledger view of its bills and payments |
| Engine.Store.CreateBill | backend/routes/bills.js:115-205 | 400 exactly when customer id or items are missing; 404 exactly when the customer is absent or foreign; a 500 for an unknown type, an item lacking quantity or rate, an invalid line or a taken number; otherwise appends `NewBill` with the next bill number and moves the customer by `WithBill`; nothing changes on an error; invariants kept |
| Engine.Store.UpdateBill | backend/routes/bills.js:210-286 | the corrected PUT: 404 for an absent or foreign bill or a missing customer; a 500 for an unknown type, an item lacking quantity or rate or an invalid result; otherwise the bill becomes `RevisedBill` and its customer `Rebilled`, and every customer stays consistent |
| Engine.Store.UpdateBillAsWritten | backend/routes/bills.js:210-286 | the PUT as written: like `UpdateBill`, except that without items the customer becomes `Unbilled`; `Valid` is kept, consistency is not |
| Engine.Store.DeleteBill | backend/routes/bills.js:291-319 | 404 for an absent or foreign bill; otherwise removes that bill and reverts its customer when it still exists; invariants kept |
| Engine.Store.CreatePayment | backend/routes/payments.js:70-124 | 400 exactly when customer id is missing or amount is missing or not above 0; 404 exactly when the customer is absent or foreign; otherwise appends the payment (mode default Cash, date default now) and moves the customer by `WithPayment`; invariants kept |
| Engine.Store.DeletePayment | backend/routes/payments.js:129-156 | 404 for an absent or foreign payment; otherwise removes it and reverts its customer when it still exists; invariants kept |
| Products.UnitOrDefault | backend/routes/products.js:108 | an absent or empty unit becomes Pcs; a given one is accepted exactly when it is in the enum |
| Products.Patched | backend/routes/products.js:139-144 | `name` changes only when truthy, unit, price, GST rate, description and `isActive` when given; id, tenant and company stay |
| Products.PatchedIdentityAndIdempotence | backend/routes/products.js:139-144 | an update naming no field changes nothing, and applying the same update twice equals applying it once |
| Products.Deactivated | backend/routes/products.js:169-171 | the soft delete clears `isActive` and changes nothing else |
| Products.DeactivatedIdempotentAndReversible | backend/routes/products.js:169-171 | deleting twice equals deleting once, and an update setting `isActive` back to true restores the product |
| Products.Listing | backend/routes/products.js:11-24 | a product is listed exactly when it is the tenant's, active unless `active` is not 'true' (the default is 'true'), and matches a truthy search |
| Products.SearchProducts | backend/routes/products.js:52-65 | an absent or one-character query gives nothing; otherwise `min(10, n)` results for the `n` active tenant products matching the query, each result a stored active match, and every match present when there are at most ten (which ten, when more match, is left open, as an unsorted `.limit(10)` leaves it) |
| Products.DeactivatedHidden | backend/routes/products.js:15-17 | a soft-deleted product stays stored but is neither in the default listing nor in search |
| Products.Catalog.GetProduct | backend/routes/products.js:77-93 | 404 for an absent or foreign product; otherwise the first stored product with that id and tenant, the one `findOne` finds |
| Products.Catalog.CreateProduct | backend/routes/products.js:98-121 | 400 exactly when the name is falsy or the price undefined (a price of 0 is accepted); a 500 for a unit outside the enum, a negative price or a GST rate outside 0 to 100; otherwise appends the product with unit default Pcs, GST default 0, active |
| Products.Catalog.UpdateProduct | backend/routes/products.js:126-153 | 404 for an absent or foreign product; a 500 when the patched product fails its schema; otherwise replaces it by `Patched` |
| Products.Catalog.DeleteProduct | backend/routes/products.js:158-178 | 404 for an absent or foreign product; otherwise `Deactivated` in place, the collection keeping its length |
| CompanyProfile.Merged | backend/routes/company.js:45-56 | a save on an existing company replaces `name` only when truthy; address, city, state, pincode, phone, email and GST number whenever given; `gstEnabled` and `termsAndConditions` whenever defined; images, id and tenant stay |
| CompanyProfile.MergedIdentityAndIdempotence | backend/routes/company.js:47-56 | a request naming nothing changes nothing, and saving the same request twice equals saving it once |
| CompanyProfile.NewCompany | backend/routes/company.js:62-74 | a new company stores the request's name, address, city, state, pincode, phone, email and GST number as sent, has `gstEnabled` false unless given true, terms default empty, no images, and is valid exactly when the name is truthy |
| CompanyProfile.CreateThenMergeStable | backend/routes/company.js:43-77 | saving a request again after it created the company changes nothing |
| CompanyProfile.CompanyBook.GetCompany | backend/routes/company.js:10-23 | nothing exactly when the tenant has no company; otherwise the tenant's first stored record, the one `findOne` finds |
| CompanyProfile.CompanyBook.SaveCompany | backend/routes/company.js:28-82 | merges into the tenant's company when it has one; otherwise creates one, or fails on a missing name; a tenant never gets a second company |
| CompanyProfile.CompanyBook.UploadLogo | backend/routes/company.js:87-114 | 400 without a file, 404 without a company; otherwise sets logo and MIME type |
| CompanyProfile.CompanyBook.RemoveLogo | backend/routes/company.js:119-136 | 404 without a company; otherwise clears logo and MIME type together |
| CompanyProfile.CompanyBook.UploadSignature | backend/routes/company.js:141-164 | 400 without a file, 404 without a company; otherwise sets the signature |
| UserModel.Pushed | backend/models/User.js:79-86 | after a push the list keeps its last `min(n + 1, 5)` entries, ending with the new one |
| UserModel.Without | backend/models/User.js:89-91 | the filter keeps exactly the entries of other tokens |
| UserModel.PushedMeaning | backend/models/User.js:79-86 | the pushed token is held; a list within 5 stays within 5; below 5 the token is appended, at 5 the oldest entry is dropped |
| UserModel.WithoutDropsToken | backend/models/User.js:89-96 | after removal the token is no longer held |
| UserModel.WithoutIdempotent | backend/models/User.js:89-91 | removing a token twice equals removing it once |
| UserModel.WithoutConcat | backend/models/User.js:90 | the filter keeps the order of the remaining entries |
| UserModel.PushedEntries | backend/models/User.js:80-85 | every entry after a push is the new one or an old one |
| UserModel.Rotation | backend/routes/auth.js:197-200 | removing the old token and adding the new one leaves the new token held, and the old one not held unless the two are equal |
| UserModel.User.AddRefreshToken | backend/models/User.js:79-86 | the list becomes `Pushed`, stays within 5, and holds the token |
| UserModel.User.RemoveRefreshToken | backend/models/User.js:89-91 | the list becomes `Without`, and the token is no longer held |
| UserModel.User.RotateRefreshToken | backend/routes/auth.js:197-200 | the token list becomes the old one without the presented token, with the new token pushed and capped at five; the new token is held, the old one is not unless equal to the new (a token signed again within the same second, see backend/routes/auth.js:17-21); reset fields stay |
| UserModel.User.GeneratePasswordResetToken | backend/models/User.js:62-76 | stores the hash, sets the expiry to now + 600000 ms, and the token is accepted exactly during the ten minutes from now |
| Scenarios.OwnedIsById | backend/routes/bills.js:223 | with distinct customer ids, a customer found by tenant and id is the one found by id alone |
| Scenarios.FreshBillFound | backend/routes/bills.js:293-296 | a bill just created is the one its owner's lookup by id finds |
| Scenarios.FreshPaymentFound | backend/routes/payments.js:131-134 | a payment just created is the one its owner's lookup by id finds |
| Scenarios.BillRoundTrip | backend/routes/bills.js:302-312 | deleting the bill that creation added restores the customers and the bills exactly |
| Scenarios.PaymentRoundTrip | backend/routes/payments.js:140-149 | deleting the payment that creation added restores the customers and the payments exactly |
| Scenarios.CreateThenDeleteBill | backend/routes/bills.js:173-312 | POST of a bill followed by DELETE of it succeeds and leaves customers and bills as they were |
| Scenarios.CreateThenDeletePayment | backend/routes/payments.js:100-149 | POST of a payment followed by DELETE of it succeeds and leaves customers and payments as they were |

## Left out

- Floating point: money is `real`, so the IEEE-754 rounding of `quantity * rate` and `gstRate / 100` is not modelled, nor integers beyond 2^53 in bill numbers.
- Concurrency: each handler is one atomic step. The read-then-increment bill numbering and the read-modify-write balance updates can race between requests; those interleavings are not modelled.
- Partial failure between the two saves of a handler (bill saved, customer save failing) is not modelled; a handler either stores both or neither.
- Pagination, sort by name or date in the list routes, `countDocuments` page counts and `populate`: the listings are modelled as filters in store order. Only the product listing and the two search routes are modelled; the plain GET list and GET-by-id routes of bills, customers and payments, the payments-of-a-customer route and the stats aggregations are not part of this model.
- Regex search with the `i` option is modelled as case-sensitive substring search; the query is not treated as a regular expression.
- Mongoose `trim` setters, the `lowercase` setter on the company's `email` (backend/models/Company.js:32), type casting of request values and the difference between JSON `null` and an absent field are not modelled; an absent field is `None`, and a given one has the model's type.
- Dates: `date || Date.now()` and `paymentDate || Date.now()` fall back to the `now` parameter only when the field is absent; a falsy given date (0 or an empty string) is not modelled.
- `amountToWords`, the random reset token and its SHA-256 hash are function parameters; the contents of their results are not modelled.
- Base64 conversion of uploaded images and their MIME detection: an upload is given as its text and type.
- The bcrypt pre-save hook, token issuance and verification in the auth routes, e-mail, PDF generation, upload middleware, server wiring and the backup route are not part of this model. Of the auth routes, only the refresh-token rotation step is modelled.
- `backend/models/Company.js` is modelled only through the company routes (its one default, `gstEnabled` false, is in `NewCompany`).
- `paidAmount` and `paymentStatus` of a bill are set to their defaults at creation; no handler changes them.
- Billing.LineItem: an item without `quantity` or `rate` gives NaN in the source; here it stands as 0, and such an item only ever leads to the 500 of `Priced`/`Unpriced`, so no stored value depends on the 0.
- Engine.Store.UpdateBillAsWritten: promises `Valid()` only, not `Ledgered()`, because the code as written breaks consistency (see Findings).
- CompanyProfile.Merged: `termsAndConditions || old` is modelled as "replaced whenever given", because an array, even an empty one, is truthy; a `null` value is not modelled.
- UserModel.User.AddRefreshToken: the list holds `{ token, createdAt }`, with the time as a parameter; the Mongoose subdocument id is not modelled.

## Findings

| source | as written | input that shows it | evidently intended | confidence | as-written member | corrected member |
|---|---|---|---|---|---|---|
| backend/routes/bills.js:229-234 | PUT /bills/:id subtracts the bill's old total from the customer's `totalAmount` and `balance` before it checks for items, and adds a new total back only when `items` is non-empty | a customer with one bill of total 100 (`totalAmount` 100, `balance` 100); PUT that bill with only `notes`: the bill keeps total 100, the customer drops to `totalAmount` 0, `balance` 0 | revert and re-apply only when new items replace the totals, so aggregates keep matching the stored bills | high (not executed) | Engine.Store.UpdateBillAsWritten, Accounts.UnbilledBreaksConsistency | Engine.Store.UpdateBill |

Where the system's description and its code differ, the model follows the code:

- Bill numbers are unique over the whole collection (`backend/models/Bill.js:50-54`), not per tenant, so a second tenant's first bill "1" fails (`Engine.SecondTenantFirstNumberTaken`).
- A customer's mobile is checked for duplicates only at creation (`backend/routes/customers.js:117-124`); an update may give a customer a mobile another customer of the tenant already has.
- An update replaces the items and recomputes the totals only when `items` is non-empty (`backend/routes/bills.js:234`); otherwise items and totals stay.
