# Order Management System — a Dafny model of its core

The system is a back office for freight orders. Signed-in staff keep a customer master and prepare
orders. An order has bills of lading (details), containers and charge lines, and its financial
summary can be reported in USD or AED.

This project models the parts of the system that compute or decide something:

- **Charge arithmetic.** Each charge line gets six amounts: sale and cost, VAT on each, and the two totals.
- **The order summary report.** The report query filters and orders the orders. Amounts are converted
  per line into the target currency and summed with a fold, and the net margin is derived from the sums.
  The XML document is built by a loop that appends one element per row.
- **Orders and customers.** This covers zod validation, create, partial update and soft delete, and
  the list queries. Nested lists are replaced wholesale on update.
- **E-mail verification by one-time code.** The issue route upserts a record, and the verify route
  runs a chain of guards before setting the flag. Customer writes are refused until the address is verified.
- **Sign-in.** The `authorize` guard chain writes `lastLogin`. The `jwt` and `session` callbacks
  copy the user's id and name. A session lasts `Auth.SessionMaxAge` = 86400 seconds.
- **The API routes for customers and orders.** This covers page clamping and the mapping of errors
  to HTTP status codes.
- **The state logic of the two forms.** This covers the customer picker, the editable lists, and the
  e-mail verification flags with the submit gate.

Amounts are `real`, so identities such as the currency round trip and order-independence of the sums
hold exactly. Timestamps are integers in milliseconds. Tables are classes holding a `seq` or `map`
that their methods reassign. Read queries are functions over a snapshot of the rows.

The following are parameters of the members that use them:

- the password hash comparison;
- the random draw;
- zod's e-mail test;
- whether a mail was sent;
- the day-text rendering of a date;
- `toFixed(2)`.

Modules, one per source file, plus shared ones:

- `Wrappers`, `Seqs`, `Sorting`, `Text`: Option/Result, list helpers, insertion sort by a total
  preorder (the database's `ORDER BY`), and string helpers.
- `Records`, `Errors`: the row shapes, zod issues, thrown errors and HTTP replies.
- `Paging`: the shared page arithmetic.
- The rest, one per file: `OrderService`, `OrderRepository`, `ReportService`, `ReportRepository`,
  `CustomerService`, `CustomerRepository`, `EmailVerifications`, `SendOtpRoute`, `VerifyOtpRoute`,
  `Auth`, `CustomersRoute`, `OrdersRoute`, `OrderForm`, `CustomerForm`.

Where the written description of the system and the code disagree, the model follows the code:

- A charge line's quantity may be zero. Only a bill of lading's quantity must be positive.
- There is no currency error. A charge in any currency other than USD or AED is taken at face value.
- The report query orders by execution date, newest first. The list ordered by order number
  (`listOrdersForReport`) is not what the report uses.
- The XML text fields are wrapped in CDATA without escaping. A value containing `]]>` breaks the
  document, so well-formedness is not claimed.
- The grand-total row belongs to the report page, not to the report service.

## Model

| member | source | states |
|---|---|---|
| Paging.ClampPage | src/app/api/customers/route.ts:15 | the page is at least 1, defaults to 1, and a requested page ≥ 1 is kept |
| Paging.ClampPageSize | src/app/api/customers/route.ts:16 | the size lies in 1..100, defaults to 20, keeps an in-range request, and clamps low and high requests to 1 and 100 |
| Paging.Skip | src/app/api/customers/route.ts:17 | the offset is a non-negative multiple of the page size, and the quotient is page − 1 |
| Paging.PageLength | src/repositories/OrderRepository.ts:46-48 | `skip`/`take` return at most take rows, never past the total, none only when skip reaches the total, and take whenever a full page remains |
| Records.CustomerNameOf | src/repositories/ReportRepository.ts:23-25 | when a customer with the order's id exists, the name is that customer's name |
| Errors.ListIssues | src/services/OrderService.ts:39-41 | an array field reports no issue iff no element reports one at its own index path |
| Errors.ListIssuesEmptyIff | src/services/OrderService.ts:39-41 | an array field is issue-free iff every element meets the element rule |
| OrderService.ParseCharge | src/services/OrderService.ts:25-32 | a missing currency becomes "USD", a given one is kept, and all other fields are copied |
| OrderService.ParseOrder | src/services/OrderService.ts:34-42 | parsing succeeds iff the order meets the rules; on failure it returns every value-rule issue in zod's order; on success the other fields are copied and each charge is the parsed input charge |
| OrderService.OrderIssuesEmptyIff | src/services/OrderService.ts:8-42 | no issue iff: a UUID customer id; a non-empty order number; every detail has a bill number and qty > 0; every charge has a description and qty, rates and VAT ≥ 0 |
| OrderService.CalculateFinancials | src/services/OrderService.ts:45-59 | totalSale = qty·saleRate·(1+vat/100), totalCost = qty·costRate·(1+vat/100), and their difference is qty·(sale−cost)·(1+vat/100) |
| OrderService.FinancialsNonNegative | src/services/OrderService.ts:27-30 | for a validated line all six amounts are ≥ 0, and each total is at least its pre-VAT amount |
| OrderService.FinancialsExample | src/services/OrderService.ts:45-59 | 2 units at 100/80 with 5% VAT give 200, 160, 10, 8, 210, 168 |
| OrderService.ChargeRows | src/services/OrderService.ts:87-99 | one stored row per charge, in order, with the raw fields and their computed amounts |
| OrderService.CreateData | src/services/OrderService.ts:64-101 | the number, both dates and the customer are copied; a missing detail, container or charge list creates no rows, a present one is copied, with one computed row per charge, in order |
| OrderService.CreateOrder | src/services/OrderService.ts:61-104 | an invalid order is refused with its issues and nothing is stored; a valid one is appended as a new live row |
| OrderService.CreatedChargesFollowInput | src/services/OrderService.ts:64-101 | the stored order carries the submitted number, dates, customer, details and containers, and exactly one charge per submitted charge, in order, with the currency defaulted and the amounts computed |
| OrderService.BuildOrderUpdate | src/services/OrderService.ts:116-165 | order number and customer are written iff truthy, and charges iff a list is supplied |
| OrderService.PatchOrder | src/services/OrderService.ts:116-165 | id, creation time and deletion mark are kept; truthy scalars (number, customer, order date, execution date) replace stored ones, absent ones keep them; a supplied list replaces the stored list wholesale and an absent one keeps it |
| OrderService.EmptyPatchChangesNothing | src/services/OrderService.ts:116-121 | an update supplying no field, or only an empty order number or customer id, leaves the order unchanged |
| OrderService.UpdateOrder | src/services/OrderService.ts:106-168 | no validation is run; an unknown id is Prisma's not-found error with the table unchanged; otherwise exactly that row becomes the patched order |
| OrderService.DeleteOrder | src/services/OrderService.ts:187-189 | soft delete: only the deletion mark of that row changes; an unknown id is not found |
| OrderService.SearchWhere | src/services/OrderService.ts:175-182 | without a truthy term every order passes; with one, an order passes iff its number or its customer's name contains the term ignoring case |
| OrderService.ListOrders | src/services/OrderService.ts:174-185 | exactly min(pageSize, count − offset) live matching orders (none past the end), taken from the newest-first list starting at offset (page−1)·pageSize, plus the full match count |
| OrderService.NoSearchCountsAllLive | src/services/OrderService.ts:175-182 | with no search term the matching orders are exactly the live ones |
| OrderRepository.NewOrder | src/repositories/OrderRepository.ts:5-14 | a created row has the given id and creation time and is not deleted |
| OrderRepository.ApplyOrderUpdate | src/repositories/OrderRepository.ts:16-26 | an update never touches id, creation time or deletion mark, and an empty update changes nothing |
| OrderRepository.FindOrder | src/repositories/OrderRepository.ts:28-38 | the index of a row with that id, and none exactly when no row has it |
| OrderRepository.GetOrderById | src/repositories/OrderRepository.ts:28-38 | a row is returned iff some row has that id, whether or not it is deleted |
| OrderRepository.Matching | src/repositories/OrderRepository.ts:49 | the rows listed are exactly the live rows meeting the caller's condition |
| OrderRepository.NewestFirstIsTotal | src/repositories/OrderRepository.ts:51 | ordering by creation time descending is a total preorder |
| OrderRepository.NewestMatching | src/repositories/OrderRepository.ts:46-52 | a permutation of the matching live rows sorted newest first |
| OrderRepository.ListOrders | src/repositories/OrderRepository.ts:40-55 | the count covers all matching live rows, independent of skip and take; the page is the window [skip, skip+take) of the newest-first list, clipped to its end |
| OrderRepository.OrderNumberAscendingIsTotal | src/repositories/OrderRepository.ts:72 | ordering by order number ascending is a total preorder |
| OrderRepository.ListOrdersForReport | src/repositories/OrderRepository.ts:65-74 | a permutation of the matching live rows sorted by order number ascending |
| OrderRepository.MarkDeleted | src/repositories/OrderRepository.ts:57-62 | only the deletion mark of row k changes, to `now`; every other row is unchanged |
| OrderRepository.SoftDeleteHidesFromLists | src/repositories/OrderRepository.ts:49-53 | a soft-deleted order leaves every list and every count drops by exactly one if it was listed; no other listed order disappears |
| OrderRepository.SoftDeletedStillFetchable | src/repositories/OrderRepository.ts:28-38 | a soft-deleted order is still fetched by id, with its deletion mark |
| OrderRepository.OrderTable.CreateOrder | src/repositories/OrderRepository.ts:5-14 | the new row is appended and ids stay unique |
| OrderRepository.OrderTable.UpdateOrder | src/repositories/OrderRepository.ts:16-26 | an unknown id is P2025 with the table unchanged; otherwise exactly that row is rewritten |
| OrderRepository.OrderTable.SoftDeleteOrder | src/repositories/OrderRepository.ts:57-62 | the table becomes `MarkDeleted` at the row with that id, or stays unchanged for an unknown id |
| ReportRepository.LatestFirstIsTotal | src/repositories/ReportRepository.ts:38 | ordering by execution date descending, nulls first, is a total preorder |
| ReportRepository.ReportedOrders | src/repositories/ReportRepository.ts:5-39 | exactly the live orders within the date condition, as a permutation of the filtered rows, sorted by execution date descending |
| ReportRepository.Select | src/repositories/ReportRepository.ts:20-37 | the order number, execution date, customer name and, per charge, the six amounts and currency |
| ReportRepository.GetOrderSummaryData | src/repositories/ReportRepository.ts:5-40 | one selected record per reported order, in report order; dated orders come in non-increasing date order, after every undated one |
| ReportRepository.NoRangeReportsAllLive | src/repositories/ReportRepository.ts:8-15 | with either bound missing, every live order is reported |
| ReportRepository.RangeIsInclusive | src/repositories/ReportRepository.ts:10-13 | with both bounds, an order is reported iff it is live and start ≤ executionDate ≤ end; an undated order is excluded |
| ReportService.Rate | src/services/ReportService.ts:14-19 | the factor is 3.6725 for USD→AED and 1/3.6725 for AED→USD; same-currency pairs and all other currencies get 1; it is always positive |
| ReportService.RateRoundTrip | src/services/ReportService.ts:15-18 | the USD→AED factor times the AED→USD factor is 1, so an amount converted there and back is unchanged |
| ReportService.ReduceIsConvertedSum | src/services/ReportService.ts:12-36 | the reduce yields its start value plus, field by field, Σ amount × that line's factor |
| ReportService.ConvertedSumPermutation | src/services/ReportService.ts:12-36 | the converted sums are the same for any reordering of the charge lines |
| ReportService.NetIsSumOfMargins | src/services/ReportService.ts:43 | summed totalSale − summed totalCost = Σ (totalSale − totalCost) × factor per line |
| ReportService.SummarizeOrder | src/services/ReportService.ts:38-44 | a row copies number and customer name; its date is "" when null; its totals are the converted sums; its net is the sum of margins; no charges give all zeros |
| ReportService.RowIgnoresChargeOrder | src/services/ReportService.ts:11-45 | reordering an order's charges leaves its summary row unchanged |
| ReportService.GetOrderSummary | src/services/ReportService.ts:7-46 | exactly one row per fetched order, in fetch order |
| ReportService.SampleInUsd | src/services/ReportService.ts:12-44 | a 2 × 100/80 line with 5% VAT in USD reports 200, 160, 10, 8, 210, 168 and a net of 42 |
| ReportService.SampleInAed | src/services/ReportService.ts:12-44 | the same line in AED reports totals 771.225 and 616.98 |
| ReportService.SummaryXmlLayout | src/services/ReportService.ts:83-96 | the document is the declaration and `<OrderSummary>`, then one `<Order>` element per row in row order, then `</OrderSummary>` |
| ReportService.GenerateOrderSummaryXml | src/services/ReportService.ts:80-99 | the string the loop builds equals the document for the summary rows: text fields in CDATA, numbers through the 2-decimal formatter |
| CustomerRepository.NewCustomer | src/repositories/CustomerRepository.ts:24-33 | a created row has the given id and creation time and is not deleted |
| CustomerRepository.ApplyCustomerUpdate | src/repositories/CustomerRepository.ts:35-45 | an update never touches id, creation time or deletion mark, and an empty update changes nothing |
| CustomerRepository.FindCustomer | src/repositories/CustomerRepository.ts:13-22 | the index of a row with that id, and none exactly when no row has it |
| CustomerRepository.GetCustomerById | src/repositories/CustomerRepository.ts:13-22 | a customer is returned iff some row has that id, regardless of its deletion mark |
| CustomerRepository.MarkDeleted | src/repositories/CustomerRepository.ts:47-52 | only the deletion mark of row k changes; the row stays and the others are unchanged |
| CustomerRepository.DeletedCustomerStillFetchable | src/repositories/CustomerRepository.ts:13-22 | a soft-deleted customer is still found by id |
| CustomerRepository.NameAscendingIsTotal | src/repositories/CustomerRepository.ts:8 | ordering by customer name ascending is a total preorder |
| CustomerRepository.CustomersByName | src/repositories/CustomerRepository.ts:5-11 | exactly the live customers, as a permutation, sorted by name |
| CustomerRepository.ListCustomersForDropdown | src/repositories/CustomerRepository.ts:5-11 | id, code and name of each live customer, in non-decreasing name order |
| CustomerRepository.DropdownListsLiveCustomers | src/repositories/CustomerRepository.ts:9 | every live customer appears; with unique ids a deleted one does not; the list is as long as the live rows |
| CustomerRepository.CustomerTable.CreateCustomer | src/repositories/CustomerRepository.ts:24-33 | the new row is appended and ids stay unique |
| CustomerRepository.CustomerTable.UpdateCustomer | src/repositories/CustomerRepository.ts:35-45 | an unknown id is P2025 with the table unchanged; otherwise exactly that row is rewritten |
| CustomerRepository.CustomerTable.DeleteCustomer | src/repositories/CustomerRepository.ts:47-52 | the row count is unchanged, and only the deletion mark of that row is set |
| CustomerService.ListsIssuesEmptyIff | src/services/CustomerService.ts:10-25 | the nested lists have no issue iff every address line and contact name is filled in and every contact e-mail is acceptable |
| CustomerService.CustomerIssuesEmptyIff | src/services/CustomerService.ts:36-48 | no issue iff: a non-empty code and name; an e-mail that is absent, empty or well-formed; valid lists |
| CustomerService.PatchIssuesEmptyIff | src/services/CustomerService.ts:109 | under `.partial()`, a present field must still pass its rule, and absent ones are not checked |
| CustomerService.CreateData | src/services/CustomerService.ts:67-102 | every scalar (code, name, telephone, e-mail, country, city, state, sales person) is copied; an absent address, contact or document list creates nothing and a present one is copied |
| CustomerService.CreatedCustomerFollowsInput | src/services/CustomerService.ts:67-102 | the stored new customer carries every submitted field and list under the given id and creation time, and is not deleted |
| CustomerService.CreateCustomer | src/services/CustomerService.ts:55-105 | invalid input is refused with its issues; a non-empty unverified e-mail is refused with the gate message; otherwise the row is appended; a stored non-empty e-mail is always verified |
| CustomerService.PatchCustomer | src/services/CustomerService.ts:123-174 | code and name change only when non-empty; other scalars are kept when absent, cleared by null and set by a value; lists are replaced when supplied |
| CustomerService.UpdateCustomer | src/services/CustomerService.ts:107-177 | invalid fields are refused; a non-empty e-mail that differs from the stored one and is unverified is refused; otherwise that row becomes the patched customer, or not found |
| CustomerService.UnchangedEmailNeedsNoVerification | src/services/CustomerService.ts:111-121 | resubmitting the stored e-mail is never gated |
| CustomerService.Basename | src/services/CustomerService.ts:195 | the basename contains no slash |
| CustomerService.CodeUnits | src/services/CustomerService.ts:195 | a character above U+FFFF takes two UTF-16 code units, any other one |
| CustomerService.Replacement | src/services/CustomerService.ts:195 | a safe character is kept; any other becomes one "_" per UTF-16 code unit |
| CustomerService.Sanitize | src/services/CustomerService.ts:195 | the result is as long as the name in UTF-16 code units and holds only safe characters and "_" |
| CustomerService.SanitizeAppend | src/services/CustomerService.ts:195 | the replacement works piece by piece: a concatenation is sanitised part by part |
| CustomerService.SanitizeBmp | src/services/CustomerService.ts:195 | for a name inside the Basic Multilingual Plane, same length, safe characters kept in place and every other one "_" |
| CustomerService.SanitizeAstral | src/services/CustomerService.ts:195 | a leading character above U+FFFF becomes "__", one "_" per surrogate, and the rest is sanitised as before |
| CustomerService.SanitizeEmojiName | src/services/CustomerService.ts:195 | "\u{1F600}.pdf" becomes "__.pdf" |
| CustomerService.SanitizeKeepsSafeNames | src/services/CustomerService.ts:195 | a name of safe characters and "_" is left unchanged |
| CustomerService.SanitizeIdempotent | src/services/CustomerService.ts:195 | sanitising twice equals sanitising once |
| CustomerService.StoredNameParts | src/services/CustomerService.ts:196 | the stored name has no slash and starts with the decimal timestamp, which reads back as that time, followed by "-" |
| CustomerService.FileStore.WriteFile | src/services/CustomerService.ts:197-198 | the store maps the name to the bytes, and every other name is unchanged |
| CustomerService.SaveFile | src/services/CustomerService.ts:179-206 | a type outside the allow-list is refused and nothing is written; otherwise the bytes are stored under `<time>-<sanitised basename>`, and the returned name is the raw basename |
| EmailVerifications.VerificationTable.Upsert | src/app/api/customers/send-otp/route.ts:27-40 | the record for that address becomes the given one, whether or not it existed, and others are unchanged |
| EmailVerifications.VerificationTable.MarkVerified | src/app/api/customers/verify-otp/route.ts:39-44 | only the verified flag of that address's record is set |
| SendOtpRoute.MatchesEmailPatternIsShape | src/app/api/customers/send-otp/route.ts:16 | the pattern accepts iff there is no whitespace and an '@' at i > 0 is followed by a '.' at j with i+1 < j < length−1 |
| SendOtpRoute.AcceptsPlainAddress | src/app/api/customers/send-otp/route.ts:16 | "a@b.co" is accepted |
| SendOtpRoute.RejectsAddressEndingInDot | src/app/api/customers/send-otp/route.ts:16 | "a@b." is rejected |
| SendOtpRoute.RejectsAddressWithSpace | src/app/api/customers/send-otp/route.ts:16 | an address containing a space is rejected |
| SendOtpRoute.OtpIsSixDigits | src/app/api/customers/send-otp/route.ts:21 | a draw in [100000, 999999) renders as six digits that read back as the draw |
| SendOtpRoute.IssuedRecord | src/app/api/customers/send-otp/route.ts:21-38 | the stored code is six digits with the drawn value; it expires 600000 ms after now; it is not verified |
| SendOtpRoute.Post | src/app/api/customers/send-otp/route.ts:8-50 | 401 without a session; 400 with the table unchanged for a rejected address; otherwise the record is upserted, then 200, or 500 when the mail fails |
| SendOtpRoute.ReissueResetsVerification | src/app/api/customers/send-otp/route.ts:29-33 | issuing a code makes the address unverified again and leaves every other address's status alone |
| VerifyOtpRoute.DecideSucceedsIff | src/app/api/customers/verify-otp/route.ts:14-36 | the chain answers 200 iff every check passes, and 400 or 404 otherwise |
| VerifyOtpRoute.Post | src/app/api/customers/verify-otp/route.ts:6-51 | 401 without a session; the reply is the first failing guard's; on 200 exactly that record is flagged verified; on any other reply the table is unchanged |
| VerifyOtpRoute.MissingInputComesFirst | src/app/api/customers/verify-otp/route.ts:14-16 | a missing address or code gives 400 whatever the table holds |
| VerifyOtpRoute.ExpiryIsInclusive | src/app/api/customers/verify-otp/route.ts:30-32 | a code is accepted at its expiry instant and refused as expired one millisecond later |
| VerifyOtpRoute.VerifyIsOneShot | src/app/api/customers/verify-otp/route.ts:26-44 | after a success the address counts as verified, and a repeat attempt is refused as already verified |
| Auth.FindUser | src/lib/auth.ts:16-18 | a user is found iff one has that username, and it is the only one |
| Auth.DisplayName | src/lib/auth.ts:26 | the stored name when present, else the username |
| Auth.CheckCredentials | src/lib/auth.ts:15-21 | success iff both fields are non-empty, the username exists and `compare` accepts the password against that user's hash |
| Auth.UserTable.Authorize | src/lib/auth.ts:14-27 | on failure, null and nothing written; on success, only that user's lastLogin becomes now, and the id and display name are returned |
| Auth.Jwt | src/lib/auth.ts:32-36 | id and name are copied onto the token only when the user supplies non-empty values; otherwise the token keeps them |
| Auth.SessionCallback | src/lib/auth.ts:37-43 | when the session has a user, its id and name are the token's |
| CustomersRoute.CodeAscendingIsTotal | src/app/api/customers/route.ts:22 | ordering by customer code ascending is a total preorder |
| CustomersRoute.CustomersByCode | src/app/api/customers/route.ts:21-22 | exactly the live customers, as a permutation, sorted by code |
| CustomersRoute.ListCustomers | src/app/api/customers/route.ts:19-39 | the total counts live customers; exactly min(pageSize, total − skip) items (none past the end), each the selected columns of the by-code list at offset skip + k, in code order |
| CustomersRoute.Get | src/app/api/customers/route.ts:10-42 | 401 without a session; otherwise 200 with exactly min(clamped size, total − skip) items (size ≤ 100, page ≥ 1, defaults 1 and 20) of the by-code list from offset skip, and the live total |
| CustomersRoute.CreateFailureReply | src/app/api/customers/route.ts:58-71 | in order: a validation error gives 400 with the first issue; P2002 gives 400 "Customer code already exists"; a message containing "Email verification" gives 400 with it; anything else gives 500 |
| CustomersRoute.GateRefusalIsBadRequest | src/app/api/customers/route.ts:66-68 | the create gate's refusal becomes 400 with its own message |
| CustomersRoute.Post | src/app/api/customers/route.ts:44-72 | 401; 400 "Invalid JSON"; 400 first issue; 400 gate message; otherwise 200 with the created customer appended to the table |
| OrdersRoute.Get | src/app/api/orders/route.ts:9-25 | 401 without a session; otherwise 200 with exactly min(clamped size, count − skip) live matching orders, item k being entry skip + k of the newest-first list for the clamped page (≥ 1, default 1) and size, and the full match count |
| OrdersRoute.CreateFailureReply | src/app/api/orders/route.ts:35-41 | 400 "Validation Error" with every issue iff validation failed; anything else gives 500 |
| OrdersRoute.Post | src/app/api/orders/route.ts:27-42 | 401; an unreadable body gives 500; an invalid order gives 400 with details and nothing stored; otherwise 201 with the created order appended |
| OrderForm.Label | src/components/OrderForm.tsx:33 | `name (code)`: starts with the name, 3 characters longer than name and code |
| OrderForm.FilterCustomers | src/components/OrderForm.tsx:35-38 | a customer is listed iff its lower-cased name or code contains the lower-cased search |
| OrderForm.EmptySearchListsEveryone | src/components/OrderForm.tsx:35-38 | an empty search lists every customer, in order |
| OrderForm.SearchIgnoresCase | src/components/OrderForm.tsx:35-38 | lower-casing the search does not change the list |
| OrderForm.Selected | src/components/OrderForm.tsx:32 | the customer with that id, or none when no customer has it |
| OrderForm.DisplayValue | src/components/OrderForm.tsx:32-33 | open: the search text; closed: the selected customer's label, or "" when none is selected |
| OrderForm.PickShowsLabel | src/components/OrderForm.tsx:32-33 | with unique ids, the closed box shows the picked customer's label |
| OrderForm.CustomerPicker.constructor | src/components/OrderForm.tsx:17-19 | the picker starts closed with an empty search |
| OrderForm.CustomerPicker.Focus | src/components/OrderForm.tsx:52 | focusing opens the list with an empty search and keeps the selection |
| OrderForm.CustomerPicker.Type | src/components/OrderForm.tsx:47-51 | typing sets the search, opens the list and clears the selection |
| OrderForm.CustomerPicker.Pick | src/components/OrderForm.tsx:69-73 | clicking selects that id, clears the search and closes the list |
| OrderForm.CustomerPicker.ClickOutside | src/components/OrderForm.tsx:22-30 | a mouse press outside the picker closes the list and keeps the search and the selection |
| OrderForm.EditDetail | src/components/OrderForm.tsx:147-151 | only the named field of the detail changes |
| OrderForm.EditContainer | src/components/OrderForm.tsx:155-159 | only the named field of the container changes |
| OrderForm.EditCharge | src/components/OrderForm.tsx:163-167 | only the named field of the charge line changes |
| OrderForm.BlOptions | src/components/OrderForm.tsx:296 | every offered bill number is non-blank after trimming, with at most one option per detail |
| OrderForm.BlOptionsMembers | src/components/OrderForm.tsx:296 | a bill number is offered iff some detail carries it with a non-blank trimmed value |
| OrderForm.BlOptionsAppend | src/components/OrderForm.tsx:296 | options keep detail order: the options of a + b are those of a followed by those of b |
| OrderForm.OrderFormState.constructor | src/components/OrderForm.tsx:104-106 | the form starts with the given lists |
| OrderForm.OrderFormState.AddDetail | src/components/OrderForm.tsx:145 | appends one default detail (qty 1), other lists unchanged |
| OrderForm.OrderFormState.RemoveDetail | src/components/OrderForm.tsx:146 | removes exactly index i, keeping the rest in order; an index out of range removes nothing |
| OrderForm.OrderFormState.UpdateDetail | src/components/OrderForm.tsx:147-151 | only element i changes, and only in the named field |
| OrderForm.OrderFormState.AddContainer | src/components/OrderForm.tsx:153 | appends one default container |
| OrderForm.OrderFormState.RemoveContainer | src/components/OrderForm.tsx:154 | removes exactly index i, keeping the rest in order |
| OrderForm.OrderFormState.UpdateContainer | src/components/OrderForm.tsx:155-159 | only element i changes, and only in the named field |
| OrderForm.OrderFormState.AddCharge | src/components/OrderForm.tsx:161 | appends one charge: qty 1, rates and VAT 0, currency "USD" |
| OrderForm.OrderFormState.RemoveCharge | src/components/OrderForm.tsx:162 | removes exactly index i, keeping the rest in order |
| OrderForm.OrderFormState.UpdateCharge | src/components/OrderForm.tsx:163-167 | only element i changes, and only in the named field |
| CustomerForm.EditAddress | src/components/CustomerForm.tsx:314-358 | only the edited field of the address changes, to the typed text |
| CustomerForm.EditContact | src/components/CustomerForm.tsx:389-423 | only the edited field of the contact changes, to the typed text |
| CustomerForm.UploadedDocument | src/components/CustomerForm.tsx:143-149 | the uploaded file's name, path, type and size, with notes "" |
| CustomerForm.CustomerFormState.constructor | src/components/CustomerForm.tsx:20-42 | the original e-mail is the initial one or ""; the form starts verified iff editing with a non-empty initial e-mail |
| CustomerForm.CustomerFormState.ChangeEmail | src/components/CustomerForm.tsx:222-230 | a value other than the original clears both flags; going back to a non-empty original sets verified; verification stays backed |
| CustomerForm.CustomerFormState.EnterOtp | src/components/CustomerForm.tsx:259 | only the code field changes |
| CustomerForm.CustomerFormState.SendOtp | src/components/CustomerForm.tsx:46-65 | an empty address does nothing; a successful request marks the code sent |
| CustomerForm.CustomerFormState.VerifyOtp | src/components/CustomerForm.tsx:67-87 | with address and code filled in, success sets verified and hides the code box; otherwise the flags are unchanged |
| CustomerForm.CustomerFormState.Submit | src/components/CustomerForm.tsx:89-97 | proceeds iff the address is empty, verified or the original; a changed non-empty address that proceeds is one the verify endpoint accepted, provided each handler runs as one step (see Left out) |
| CustomerForm.CustomerFormState.AddAddress | src/components/CustomerForm.tsx:299 | appends one empty address |
| CustomerForm.CustomerFormState.AddContact | src/components/CustomerForm.tsx:375 | appends one empty contact |
| CustomerForm.CustomerFormState.RemoveAddress | src/components/CustomerForm.tsx:161-163 | removes exactly index i, keeping the rest in order |
| CustomerForm.CustomerFormState.RemoveContact | src/components/CustomerForm.tsx:165-167 | removes exactly index i, keeping the rest in order |
| CustomerForm.CustomerFormState.RemoveDocument | src/components/CustomerForm.tsx:169-171 | removes exactly index i, keeping the rest in order |
| CustomerForm.CustomerFormState.UpdateAddress | src/components/CustomerForm.tsx:314-358 | only address i changes, and only in the edited field |
| CustomerForm.CustomerFormState.UpdateContact | src/components/CustomerForm.tsx:389-423 | only contact i changes, and only in the edited field |
| CustomerForm.CustomerFormState.UpdateDocumentNotes | src/components/CustomerForm.tsx:461-465 | only document i's notes change |
| CustomerForm.CustomerFormState.UploadSucceeded | src/components/CustomerForm.tsx:139-151 | appends exactly one document with notes "" and leaves the others unchanged |

## Left out

- Excel export (`generateOrderSummaryExcel`): a wrapper over ExcelJS, whose behaviour is not visible.
- IEEE-754 arithmetic: amounts are exact reals. `toFixed(2)` and the ISO day text of a date are function parameters.
- ReportService.GenerateOrderSummaryXml: returns the string, not the UTF-8 `Buffer` made from it.
- Prisma internals:
  - `$transaction`;
  - unique constraints, so a P2002 error is never raised inside the model, though its reply mapping is modelled;
  - the foreign-key check behind `connect`;
  - database collation: strings order by code point, and search lower-cases ASCII letters only.
- Ties in every `ORDER BY` are unspecified in the source. The model breaks them by a stable insertion sort.
- Orders without an execution date sort first under `executionDate desc`. This is PostgreSQL's default and an assumption of the model.
- bcrypt `compare` and `crypto.randomInt`: the comparison and the drawn number are parameters.
- Mail sending: only its outcome, `mailSent`, is a parameter.
- Next.js plumbing:
  - the session lookup is a `signedIn` flag;
  - a body that is not JSON is `None`;
  - `router.push` and the form `fetch` calls are left out; each form handler takes whether its request succeeded.
- `parseInt`/NaN and `new Date(...)`: query parameters arrive as optional integers, dates as timestamps.
- The filesystem: the upload directory is a map from stored names to bytes, and `mkdir` is left out.
- `Promise.all`: the list and the count are computed from one snapshot.
- SendOtpRoute.Post and VerifyOtpRoute.Post: a database failure (the catch branch with 500 "Failed to verify OTP") is not modelled. Only the failed mail gives 500.
- OrdersRoute.Get: the 500 reply for a failing database query is not modelled.
- The JSON summary, export and upload routes, and the `customers/[id]` and `orders/[id]` routes: thin wrappers over modelled service calls. The summary route never passes a currency, so it reports in USD.
- OrderService.UpdateOrder: charges arrive already typed as charge lines. No currency default is applied on update, matching the absence of parsing there.
- The grand-total row of the report page: it is computed in the page, not in the service.
- Rendering (JSX, the login page, sidebar and top bar) and the setup scripts (seed, setup-admin).
- Loading and message flags of the forms and their plain field setters (code, name, telephone and the other customer scalars; the order number and dates).
- CustomerForm.CustomerFormState.UpdateAddress, UpdateContact, UpdateDocumentNotes: the source mutates the element object in place inside a shallow copy. The model replaces the element by value, so it does not capture that aliasing.
- CustomerService.Sanitize, CustomerService.SaveFile: JavaScript strings are sequences of UTF-16 code units and the model's strings are sequences of Unicode scalars. The replacement is modelled per code unit, so a character above U+FFFF becomes "__" as in the source. A lone surrogate in a file name cannot be written as a model string and is not modelled.
- OrderForm.FilterCustomers: `toLowerCase()` folds case across all of Unicode, but the model lower-cases ASCII letters only. A search "é" does not list a customer named "Émile" in the model, though it does in the source.
- CustomerForm.CustomerFormState.VerifyOtp: each handler is modelled as one atomic step, with the request and its response together. In the source the response arrives later. The address input stays enabled meanwhile, so an address typed while the request runs can end up marked verified. That race is not modelled, and Submit's guarantee holds only for handlers that do not interleave.
- OrderForm.OrderFormState.UpdateDetail, UpdateContainer, UpdateCharge: these require an index inside the list. The source would create a partial element at an out-of-range index.
- OrderForm.EditDetail, OrderForm.EditContainer, OrderForm.EditCharge: the numeric fields (qty, weight, volume, containerWeight, the rates and the VAT percent) are edited as reals. The source stores the input's text and converts it with `Number()` only on submit, so a cleared field is sent as 0; that text state and the conversion are not modelled.
- OrderService.ParseOrder, CustomerService.CustomerIssues, SendOtpRoute.Post, VerifyOtpRoute.Post: request bodies arrive with the schemas' field types (`OrderInput`, `CustomerInput`). A missing required field or a value of the wrong type (zod's "Required" and "Expected …, received …" issues) is not modelled, so the issues are listed in zod's order only among the value rules. For send-otp and verify-otp, a body that is not JSON (500 "Failed to send OTP" / "Failed to verify OTP") is not modelled either.
