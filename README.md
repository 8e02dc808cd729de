# Qx_Billing rating and billing lifecycle, modelled in Dafny

This project models the usage-rating and billing-lifecycle core of the Qx_Billing
telecom billing backend. It covers four Express controllers, written as Dafny over an
in-memory store that stands in for the Sequelize tables:

- **billing controller**: rates a customer's unbilled usage logs against the
  customer's plan. Each usage type has an allowance; usage above it is an overage,
  charged at a per-unit rate. A 16% tax is added. The controller then issues a Bill
  and an Invoice due 30 days later, flips the consumed usage logs to billed, and
  projects the month's cost linearly (the forecast);
- **payment controller**: records payments and changes their status. A completed
  payment marks its bill paid; on creation, the invoice the request names is marked
  paid too. It also deletes payments and takes the M-Pesa settlement callback;
- **invoice controller**: lists invoices with an optional status filter. It shows one
  invoice with its subtotal and tax backed out of the amount due, updates an invoice's
  status, records a PDF path, and raises a one-off invoice for a bill or for a
  customer's latest bill;
- **report controller**: computes 30-day usage, the per-day usage trend, and the
  outstanding (pending or overdue) invoice sum per customer.

Modules:

- `Common`: option and result types, the HTTP-like failures, JavaScript truthiness, and
  decimal rendering.
- `Records`: the table rows.
- `Ledger`: unordered `findAll` and sums over rows.
- `Db`: the store, a class whose maps the controller methods update in place.
- `Rating`: the pure rating and forecast arithmetic.
- `Billing`, `Payments`, `Invoicing`, `Reports`: the controllers.
- `Scenarios`: sequences of calls that show documented behaviour.

Values and units:

- Money is an exact `real`.
- Times are integer milliseconds, and a calendar day is `t / 86400000`.
- A JavaScript truthiness test on an id or amount is `PresentId` / `PresentAmount`.

Behaviour of the code worth knowing before reading the contracts:

- `updatePaymentStatus` accepts every transition, including completed back to pending.
  `Scenarios.CompletedPaymentReverted` shows it, and the bill stays paid.
- `mpesaCallback` does not deduplicate receipts. `Scenarios.CallbackDeliveredTwice`
  shows two payments recorded for one receipt.
- Re-running `generateBill` with no new usage issues a second bill for the base price
  plus tax. `Billing.RebillChargesBasePriceOnly` and `Scenarios.BilledTwice` show it.
- The controllers answer 404 for a missing row, 400 for a missing plan or missing
  payment fields, and 500 when an exception reaches the error handler
  (`generateInvoice` without an amount, see `Invoicing.GenerateInvoice`).
- Rating is the tiered overage-plus-tax computation of `billing_controller.js`.
- A Bill row has no `amount` or `date` column: `generateBill` passes both, and the
  database drops them. A Payment row has no `invoiceId`: `updatePaymentStatus` reads it
  back as undefined, so it never marks an invoice paid.

## Model

| member | source | states |
|---|---|---|
| Common.DecimalRoundTrip | backend/controllers/Payments/payment_controller.js:53 | the decimal digits interpolated into a receipt or invoice number read back as the same number |
| Common.DecimalInjective | backend/controllers/Billing/billing_controller.js:114 | two different numbers never render as the same digits |
| Records.DateOfMonotone | backend/controllers/Reports/report_controller.js:38 | a later timestamp never falls on an earlier calendar day |
| Records.DeclaredDefaultIsUndeclared | backend/models/Bill.js:47-50 | as written, the default bill status 'unpaid' is not among the declared enum values |
| Records.BillStatusDefaultDeclared | backend/models/Bill.js:47-50 | in the corrected enum, the default status is 'unpaid' and distinct statuses have distinct names |
| Ledger.Enumerate | backend/controllers/Billing/billing_controller.js:30-32 | findAll yields every selected row exactly once, in some order |
| Ledger.EnumeratedMember | backend/controllers/Billing/billing_controller.js:30-32 | a value is among the fetched rows iff some selected key holds it |
| Ledger.EnumeratedIds | backend/controllers/Billing/billing_controller.js:121-127 | the ids of the fetched rows are exactly the selected ids |
| Ledger.DurationSumPermutation | backend/controllers/Reports/report_controller.js:25 | the duration sum does not depend on the order findAll returns rows in |
| Ledger.DurationSumNonNegative | backend/controllers/Reports/report_controller.js:25 | non-negative durations sum to a non-negative total |
| Ledger.AmountDueSumPermutation | backend/controllers/Reports/report_controller.js:56-61 | the amount-due sum does not depend on row order |
| Ledger.SortByTime | backend/controllers/Reports/report_controller.js:30-34 | ordering by timestamp ascending yields a sorted permutation of the rows |
| Db.MarkBilledConsumesUnbilled | backend/controllers/Billing/billing_controller.js:121-127 | flipping a customer's unbilled logs leaves that customer none unbilled, leaves every other customer's unbilled logs as they were, and a second flip changes nothing |
| Rating.AggregateIsTypeSums | backend/controllers/Billing/billing_controller.js:35-38 | each per-type total is the sum of durations of the logs of that type |
| Rating.RateIgnoresOrder | backend/controllers/Billing/billing_controller.js:30-55 | the rating of a set of logs does not depend on the order they are fetched in |
| Rating.AbsentTypeTotalsZero | backend/controllers/Billing/billing_controller.js:35-38 | a usage type with no logs totals zero |
| Rating.OtherUsageIgnored | backend/controllers/Billing/billing_controller.js:35-51 | logs of a type outside call, data and sms change no total and no charge |
| Rating.OverageIsExcess | backend/controllers/Billing/billing_controller.js:44-51 | the overage is the usage above the allowance, or zero when within it |
| Rating.WithinAllowanceChargesBaseOnly | backend/controllers/Billing/billing_controller.js:44-55 | usage within every allowance costs only the base price plus 16% tax |
| Rating.BreakdownIdentities | backend/controllers/Billing/billing_controller.js:53-55 | subtotal is base plus usage charges, tax is 16% of it, total is subtotal plus tax |
| Rating.ChargesNonNegative | backend/controllers/Billing/billing_controller.js:44-55 | with non-negative prices, rates and usage, the total is at least the base price |
| Rating.ChargesMonotone | backend/controllers/Billing/billing_controller.js:44-55 | more usage of each type never lowers the total |
| Rating.RateMonotone | backend/controllers/Billing/billing_controller.js:35-55 | adding non-negative usage logs never lowers the total |
| Rating.WorkedExample | backend/controllers/Billing/billing_controller.js:44-55 | a concrete plan and usage yield the expected subtotal, tax and total |
| Rating.ProjectionOnLastDay | backend/controllers/Billing/billing_controller.js:148-158 | on the last day of the month the projected total equals the current total |
| Rating.ProjectionNotBelowCurrent | backend/controllers/Billing/billing_controller.js:148-158 | before the month ends, the projection is never below the current charges |
| Rating.ConfidenceHighLate | backend/controllers/Billing/billing_controller.js:160 | confidence is high exactly after the 15th day of the month |
| Billing.CalculateCustomerCharges | backend/controllers/Billing/billing_controller.js:16-71 | 404 without the customer, 400 without its plan, otherwise the rating of exactly its unbilled logs; nothing written |
| Billing.CalculateCharges | backend/controllers/Billing/billing_controller.js:76-79 | 404 without the customer, 400 without its plan, otherwise the total of the rating of its unbilled logs |
| Billing.BillInvoiceNumberTraceable | backend/controllers/Billing/billing_controller.js:114 | equal invoice numbers come from the same bill id and the same timestamp |
| Billing.NewBill | backend/controllers/Billing/billing_controller.js:90-105 | the bill names the customer and plan, carries the rated total and the call, data and sms totals, one snapshot per consumed log with that log's id, and the default status |
| Billing.NewInvoice | backend/controllers/Billing/billing_controller.js:108-119 | the invoice names its bill, owes the bill's total, is pending, falls due 30 days after issue and has no PDF |
| Billing.GenerateBill | backend/controllers/Billing/billing_controller.js:84-134 | fails as the rating does, writing nothing; otherwise inserts one bill and one invoice under fresh ids and flips exactly the rated logs to billed |
| Billing.IssuingBillsExactlyTheConsumedRows | backend/controllers/Billing/billing_controller.js:121-127 | after issuing, a log is billed iff it was before or belongs to the customer; no other field or customer changes |
| Billing.RebillChargesBasePriceOnly | backend/controllers/Billing/billing_controller.js:121-127 | a second rating right after issuing finds no logs and charges the base price plus tax |
| Billing.GetForecast | backend/controllers/Billing/billing_controller.js:139-164 | the current usage and costs and their projection to month end, which equals the current total on the last day, with high confidence exactly after day 15; 404 without the customer, 400 without its plan |
| Invoicing.StatusListingsPartition | backend/controllers/Invoices/invoice_contoller.js:25-27 | an invoice is listed under a status name exactly when it has that status; with no filter every invoice is listed |
| Invoicing.GetInvoices | backend/controllers/Invoices/invoice_contoller.js:13-31 | lists every invoice that matches the filter, once each, and nothing else |
| Invoicing.StatusFilterSelectsOneStatus | backend/models/Invoice.js:40-44 | filtering by one status name never selects an invoice of another status |
| Invoicing.BackOutTax | backend/controllers/Invoices/invoice_contoller.js:61-65 | the shown subtotal plus tax equals the amount due, and the tax is 16% of the subtotal |
| Invoicing.BackedOutSubtotalUnique | backend/controllers/Invoices/invoice_contoller.js:61-65 | the backed-out subtotal is the only one whose taxed total is the amount due |
| Invoicing.BreakdownRecoversRating | backend/controllers/Invoices/invoice_contoller.js:60-65 | for an invoice issued by generateBill, the shown breakdown is the rating's subtotal, tax and total |
| Invoicing.GetInvoiceById | backend/controllers/Invoices/invoice_contoller.js:36-69 | 404 exactly when the invoice is absent; otherwise its fields, its bill's usage snapshot, no bill date, and the breakdown whose subtotal plus 16% tax is the amount due |
| Invoicing.UpdateInvoiceStatus | backend/controllers/Invoices/invoice_contoller.js:74-84 | 404 and nothing written without the invoice; otherwise only its status changes |
| Invoicing.PdfPathNamesInvoice | backend/controllers/Invoices/invoice_contoller.js:130 | the PDF path is the invoices folder followed by the invoice number |
| Invoicing.GeneratePdf | backend/controllers/Invoices/invoice_contoller.js:123-134 | 404 without the invoice; otherwise only its PDF path is set |
| Invoicing.LatestBill | backend/controllers/Invoices/invoice_contoller.js:97-100 | none iff the customer has no bill; otherwise one of its bills with the latest creation time |
| Invoicing.OneOffInvoice | backend/controllers/Invoices/invoice_contoller.js:107-115 | the one-off invoice names the bill and its customer, owes the given non-zero amount, is pending, and falls due on the given date or, when none or 0 is given, 14 days after issue |
| Invoicing.GenerateInvoice | backend/controllers/Invoices/invoice_contoller.js:89-118 | uses the named bill, else the customer's latest bill; 404 when there is none, 500 when the amount is missing or zero (the bill has no amount to fall back on), nothing written on either; otherwise inserts exactly one invoice for that bill |
| Payments.DefaultReceipt | backend/controllers/Payments/payment_controller.js:53 | a default receipt is "REC" followed by digits that read back as the timestamp |
| Payments.NewPayment | backend/controllers/Payments/payment_controller.js:49-58 | the new payment has the request's fields, is pending unless told otherwise, and always has a receipt |
| Payments.SettledBills | backend/controllers/Payments/payment_controller.js:60-62 | a completed payment marks exactly its bill paid; no other bill changes |
| Payments.SettledInvoices | backend/controllers/Payments/payment_controller.js:63-65 | a completed payment marks exactly the invoice the request names paid, if it names one; no other invoice changes |
| Payments.SettlementIdempotent | backend/controllers/Payments/payment_controller.js:60-66 | settling the same payment twice leaves bills and invoices as settling it once |
| Payments.SettlementKeepsPaid | backend/controllers/Payments/payment_controller.js:94-100 | a bill that is paid stays paid whatever payment is recorded |
| Payments.CreatePayment | backend/controllers/Payments/payment_controller.js:42-73 | 400 and nothing written without the required fields; otherwise one new payment, settled into its bill and the request's invoice when completed |
| Payments.UpdatePaymentStatus | backend/controllers/Payments/payment_controller.js:75-107 | 404 and nothing written without the payment; otherwise any new status is taken, completion marks the bill paid, and no invoice changes |
| Payments.DeletePayment | backend/controllers/Payments/payment_controller.js:109-124 | 404 and nothing written without the payment; otherwise exactly that payment is removed |
| Payments.MpesaPayment | backend/controllers/Payments/payment_controller.js:145-156 | the callback's payment is a completed M-Pesa payment of the bill's customer with the given receipt and amount |
| Payments.MpesaCallback | backend/controllers/Payments/payment_controller.js:126-169 | succeeds iff the reference names a bill whose customer exists; then records one payment and marks that bill paid; otherwise 404 and nothing written |
| Reports.SumDurations | backend/controllers/Reports/report_controller.js:25 | the front-to-back reduce yields the duration sum of the rows, which does not depend on their order |
| Reports.MonthlyUsage | backend/controllers/Reports/report_controller.js:12-26 | the 30-day usage is the duration sum of exactly the customer's recent logs; zero without any |
| Reports.MonthlyUsageOrderFree | backend/controllers/Reports/report_controller.js:16-25 | the 30-day usage does not depend on the order of the fetched rows |
| Reports.OutstandingFiltersOnUndeclaredColumn | backend/models/Invoice.js:4-56 | as written, the outstanding sum filters on a customerId column the Invoice table does not declare |
| Reports.OutstandingInvoices | backend/controllers/Reports/report_controller.js:56-61 | the outstanding sum is the amount due over exactly those invoices, zero without any |
| Reports.OutstandingOrderFree | backend/controllers/Reports/report_controller.js:56-61 | the outstanding sum does not depend on row order |
| Reports.TrendSelection | backend/controllers/Reports/report_controller.js:29 | a truthy customer id narrows the trend to that customer's logs, which include its 30-day logs; a missing or 0 id selects every log |
| Reports.TrendWellFormed | backend/controllers/Reports/report_controller.js:36-43 | the trend lists each day once, and exactly the days that have logs |
| Reports.TrendValueIsDaySum | backend/controllers/Reports/report_controller.js:37-43 | each day's trend value is the duration sum of that day's logs |
| Reports.TrendPreservesTotal | backend/controllers/Reports/report_controller.js:37-43 | the trend values add up to the total duration of the logs |
| Reports.TrendDatesAscending | backend/controllers/Reports/report_controller.js:33-45 | over time-sorted logs, the trend's days are strictly ascending |
| Reports.UsageTrend | backend/controllers/Reports/report_controller.js:36-45 | the loops build the per-day trend and list its points in insertion order |
| Reports.PointsAscending | backend/controllers/Reports/report_controller.js:33-45 | the points of time-sorted logs have strictly ascending dates |
| Reports.PointsAreDaySums | backend/controllers/Reports/report_controller.js:36-45 | each point's value is its day's duration sum |
| Reports.PointsCoverDays | backend/controllers/Reports/report_controller.js:36-45 | the points' dates are exactly the days with logs |
| Reports.PointsPreserveTotal | backend/controllers/Reports/report_controller.js:36-45 | the points' values add up to the total duration |
| Reports.UsageTrendData | backend/controllers/Reports/report_controller.js:28-46 | one point per day with logs, in ascending date order, each the day's duration sum, together the total duration |
| Scenarios.CompletedPaymentReverted | backend/controllers/Payments/payment_controller.js:75-107 | a completed payment can be set back to pending, and its bill stays paid |
| Scenarios.CallbackDeliveredTwice | backend/controllers/Payments/payment_controller.js:126-169 | a repeated callback records two distinct completed payments with the same receipt |
| Scenarios.BilledTwice | backend/controllers/Billing/billing_controller.js:84-134 | billing twice without new usage issues a second bill with no logs for the base price plus tax |

## Left out

- HTTP handling is not modelled: request parsing, response shapes, and the 500 answers on storage exceptions. Storage is the total in-memory `Db.Store`.
- Sequelize joins that only decorate listings are not modelled: customer and plan names in `getInvoices` and the `getAllCustomers` attribute lists.
- Number parsing (`parseInt`, NaN) is outside the model. The M-Pesa bill reference arrives as an `Option<int>`.
- Status strings outside the declared enums are not modelled: `updateInvoiceStatus` and `updatePaymentStatus` take enum values.
- Clock reads become a `now` parameter. Several reads within one request are taken as one instant, and `Math.random` in invoice numbers becomes a `draw` parameter.
- Calendar arithmetic (`setDate`, time zones, daylight saving) is not modelled. A day is 86400000 ms, and `thirtyDaysAgo` is `now` minus 30 such days.
- Floating-point rounding is not modelled. Money and durations are exact reals.
- Concurrency and transactions are not modelled. Every controller call runs atomically against the store.
- Foreign-key constraints and invoice-number uniqueness at the database level are not modelled. The model keeps the ids the controllers write.
- `Payment.js` declares no `invoiceId`, so the model's payment has none; the invoice a creating request names is taken from the request.
- `Invoice.js` declares no `customerId`. The model keeps the column the controllers write and filter on, the corrected table of the finding below.
- Billing.GetForecast: the source's `currentUsage` also carries a key per other usage type found in the logs; the model keeps the call, data and sms totals only.
- Soft deletion of plans is not modelled beyond absence: a deleted plan is simply missing from the store.
- `Invoicing.LatestBill` leaves the choice between bills with equal creation times open.
- The email, SMS and PDF-rendering services are not modelled. `GeneratePdf` records only the path.
- The other endpoints (`getAllPayments`, `getPaymentById`, customer and usage CRUD, and the other report endpoints) are outside this core.

## Findings

| source | as written | input that shows it | evidently intended | confidence | as-written member | corrected member |
|---|---|---|---|---|---|---|
| backend/models/Bill.js:47-50 | the status enum declares ' unpaid' (leading space), 'paid' and 'pending', while the default is 'unpaid' | any bill created without a status, as generateBill creates every bill: the row holds a status the declared enum does not list | the first enum value is 'unpaid', so the default is a declared value | high, not executed | Records.DeclaredDefaultIsUndeclared | Records.BillStatusDefaultDeclared |
| backend/models/Invoice.js:4-56 | the Invoice table declares no customerId, while getAllCustomers sums amountDue filtered on customerId (report_controller.js:56-60) | getAllCustomers with at least one customer: the database reports no such column and the report answers 500 | Invoice declares customerId, as generateBill and generateInvoice write it | medium, not executed | Reports.OutstandingFiltersOnUndeclaredColumn | Reports.OutstandingInvoices |
