# Supasanpan billing and dashboard logic in Dafny

This project models the business logic of the Supasanpan water-bottling
management system and proves properties about it. The system has an Express
and MySQL back end and a React dashboard.

The centre of the model is the order → invoice → payment pipeline of the
billing routes:

- **Identifiers.** Each new order, invoice and customer gets the next
  sequential identifier: `ORDnnnn`, `INVnnnn` and `CUS-YYYY-nnnn`.
- **Order creation.** An order is checked item by item against the product
  stock. The stock is taken off and one item row is inserted per item. An
  invoice holding the sum of the item totals is created. Any refusal rolls
  the whole transaction back.
- **Payments.** A payment is appended to the ledger. The invoice turns `paid`
  once the sum paid reaches its total.
- **Deletes.** Deleting an order or an invoice removes the rows that depend
  on it.

The relational store is a value (`BillingStore.Store`: products, orders,
order items, invoices, payments and the two auto-increment counters). Each
route is a function from the old store to the new store and a reply. A class
(`BillingDb.Database`) holds the same tables as fields. Its methods run the
routes statement by statement, with the item loop and the rollback, and each
is proved to end in the state the function computes. The legacy invoice
controller is modelled the same way: the loop that checks and takes stock and
adds up the catalogue prices, the one-cent total check, the item-row loop,
and the `productId:quantity:price` items string with its parser.

Smaller pieces of dashboard logic are modelled next to it:

- the order form's validator, line totals and payment pre-check (`Billing.js`);
- the daily invoice summary, the unpaid filter and the CSV export (`Invoices.js`);
- the report summary, time-range filter and paid counts (`Reports.js`);
- the product form's validator, price-input filter, stock buckets and search
  (`Products.js`);
- the shop cart (`ShopItems.js`);
- the task-creation validator and the unchecked update (`tasks.js`);
- the in-page task list (`EmployeeTasks.js`);
- the sensor page's date-range parser, grouping keys, alerts, capped history
  and notification de-duplication (`SensorReadings.js`).

Conventions:

- **Money.** All money values from the database are integer cents, since it
  stores `DECIMAL(10,2)`. The controller's `0.01` tolerance is one cent. The
  shop page's catalogue has its own prices in whole rupees, and `ShopCart`
  keeps them in that unit.
- **pH.** pH values are hundredths, so the 6.5–7.5 range is 650–750.
- **NaN and undefined.** A JavaScript value that may be `NaN` or `undefined`
  is an `Option` (`None` is NaN or absent).
- **Newest row.** "The row with the greatest id" is the last element of a
  table sequence whose surrogate keys increase (`BillingStore.ValidStore`).
- **Outside inputs.** The clock, `Date.parse`, locale date text and the
  server's answer to the shop checkout are parameters.

Modules: `Common` (sums, filters, decimal text, JavaScript `parseInt`,
`parseFloat`, `trim`, `split`), `Identifiers`, `ProductTable`,
`BillingStore`, `BillingDb`, `InvoiceController`, `BillingForm`,
`InvoiceListing`, `Reports`, `ProductForm`, `ShopCart`, `TaskRoutes`,
`EmployeeTasks`, `SensorReadings`.

## Model

| member | source | states |
|---|---|---|
| Identifiers.ParsePadded | Supasanpan_SDP/backend/src/routes/billing.js:96 | `parseInt` of a number zero-padded to four digits gives the number back |
| Identifiers.NextIdOfEmptyTable | Supasanpan_SDP/backend/src/routes/billing.js:91-106 | with no row in the table the first identifier is the prefix and `0001` |
| Identifiers.NextIdSucceeds | Supasanpan_SDP/backend/src/routes/billing.js:172-173 | after the well-formed identifier with number n comes the one with n+1 |
| Identifiers.LatestOfFormatted | Supasanpan_SDP/backend/src/routes/billing.js:100-106 | the latest number read from a well-formed identifier is its number |
| Identifiers.NextIdOfLatest | Supasanpan_SDP/backend/src/routes/billing.js:232-233 | when the latest number is n, the next identifier is the prefix and n+1 padded to four digits |
| Identifiers.FormatIdInjective | Supasanpan_SDP/backend/src/routes/billing.js:173 | different numbers give different identifiers, padding and all |
| Identifiers.IssuedInOrderNumbered | Supasanpan_SDP/backend/src/routes/billing.js:172-173 | rows inserted one after another, each taking the next identifier, are numbered 1, 2, 3, … without gaps |
| Identifiers.IssuedInOrderDistinct | Supasanpan_SDP/backend/src/routes/billing.js:172-173 | identifiers issued that way never repeat |
| Identifiers.MatchCustomerPattern | Supasanpan_SDP/backend/src/routes/billing.js:125 | the captured group of `CUS-\d{4}-(\d+)` is a non-empty run of digits |
| Identifiers.CustomerNumberOfFormatted | Supasanpan_SDP/backend/src/routes/billing.js:109-138 | the customer number read back from `CUS-<4-digit year>-<pad4(n)>` is n |
| Identifiers.MatchFormatted | Supasanpan_SDP/backend/src/routes/billing.js:125 | the pattern finds a generated customer id and captures its padded number |
| Identifiers.CustomerNumberCarriesAcrossYears | Supasanpan_SDP/backend/src/routes/billing.js:141-148 | the next customer id in a new year continues the old year's count instead of restarting at 1 |
| Identifiers.NextCustomerIdStartsAtOne | Supasanpan_SDP/backend/src/routes/billing.js:116-137 | a failed query, an empty table or a non-matching latest id gives `CUS-<year>-0001` |
| ProductTable.ReserveEffect | Supasanpan_SDP/backend/src/routes/billing.js:188-224 | a successful reservation keeps every product row but its stock, and each stock falls by exactly the total quantity the lines request of it |
| ProductTable.ReserveKeepsStockNonNegative | Supasanpan_SDP/backend/src/routes/billing.js:199-201 | the per-line stock check, re-read after each decrement, keeps every stock at 0 or above |
| ProductTable.ReserveSucceedsIff | Supasanpan_SDP/backend/src/routes/billing.js:188-224 | a reservation succeeds exactly when every line's product exists with enough stock left by the lines before it, so repeated products are checked cumulatively |
| ProductTable.ReserveErrorIsFirst | Supasanpan_SDP/backend/src/routes/billing.js:195-201 | a refused reservation names the first line that could not be served, and every line before it could be |
| ProductTable.ReserveErrorPersists | Supasanpan_SDP/backend/src/routes/billing.js:195-201 | once a line is refused, the lines after it do not change the outcome |
| BillingStore.PlaceOrderAllOrNothing | Supasanpan_SDP/backend/src/routes/billing.js:159-280 | a refused order leaves every table as it was; only the order key consumed by the rolled-back insert is gone |
| BillingStore.PlaceOrderSucceedsIff | Supasanpan_SDP/backend/src/routes/billing.js:165-201 | an order is accepted exactly when it has a non-empty item list and every item's product exists with enough stock after the earlier items |
| BillingStore.PlaceOrderReportsFirstFailure | Supasanpan_SDP/backend/src/routes/billing.js:195-201 | a refused non-empty order reports the first item whose product is missing or short, and every earlier item was served |
| BillingStore.PlaceOrderStock | Supasanpan_SDP/backend/src/routes/billing.js:219-223 | a successful order keeps the product ids, takes off each product's stock the quantity ordered of it, and leaves no stock negative |
| BillingStore.PlaceOrderRows | Supasanpan_SDP/backend/src/routes/billing.js:179-241 | a successful order appends one order row with the issued ids, one item row per item (deposit defaulting to 0, total as sent) and one invoice row; payments are untouched and both counters advance |
| BillingStore.PlaceOrderTotal | Supasanpan_SDP/backend/src/routes/billing.js:226-241 | the new invoice's total is the sum of the requested item totals |
| BillingStore.ItemsTotalOfRows | Supasanpan_SDP/backend/src/routes/billing.js:227-230 | `SUM(total)` over the new order's rows is the sum of the requested totals |
| BillingStore.PlaceOrderKeepsValid | Supasanpan_SDP/backend/src/routes/billing.js:159-280 | POST /orders keeps the store invariant: a non-negative stock, increasing keys below the counters, and no dangling references |
| BillingStore.AppendOrderKeepsValid | Supasanpan_SDP/backend/src/routes/billing.js:179-241 | an order, its rows and its invoice, appended under the next keys, keep the invariant |
| BillingStore.FindInvoice | Supasanpan_SDP/backend/src/routes/billing.js:414-423 | the lookup finds a row with that `invoice_id`, or reports that none has it |
| BillingStore.MarkPaid | Supasanpan_SDP/backend/src/routes/billing.js:452-458 | the rows with that key become `paid`; every other row stays as it was |
| BillingStore.PayRefusedIff | Supasanpan_SDP/backend/src/routes/billing.js:398-428 | a payment is refused with the store unchanged exactly when the invoice id is missing, the amount is missing or not positive, the method is missing, the invoice is unknown, or the invoice is already paid |
| BillingStore.PayLedger | Supasanpan_SDP/backend/src/routes/billing.js:436-482 | an accepted payment appends exactly one row (amount paid = amount, change 0); it reports total_paid as the old sum plus the amount and remaining_balance as total minus that, which may be negative; nothing else changes |
| BillingStore.PayStatus | Supasanpan_SDP/backend/src/routes/billing.js:443-458 | after an accepted payment the invoice is `paid` exactly when the sum of its payments reaches its total, and no other invoice changes |
| BillingStore.PayKeepsPaid | Supasanpan_SDP/backend/src/routes/billing.js:452-458 | no payment turns a `paid` invoice back |
| BillingStore.PayKeepsValid | Supasanpan_SDP/backend/src/routes/billing.js:393-496 | POST /payments keeps the store invariant |
| BillingStore.InstalmentsSettle | Supasanpan_SDP/backend/src/routes/billing.js:393-496 | positive instalments into a pending invoice are all accepted while it is unpaid; the paid sum grows by their amounts, and the invoice ends `paid` exactly when the sum reaches its total |
| BillingStore.DeleteOrderEffect | Supasanpan_SDP/backend/src/routes/billing.js:499-527 | after DELETE /orders/:id nothing of the order is left (payments, invoices, items, the order), every row of other orders is kept, and the stock is not restored |
| BillingStore.DeleteOrderKeepsValid | Supasanpan_SDP/backend/src/routes/billing.js:499-527 | the cascading order delete keeps the store invariant |
| BillingStore.DeleteInvoiceEffect | Supasanpan_SDP/backend/src/routes/billing.js:326-354 | an unknown invoice gives 404 and no change; otherwise its payments and the invoice go, and the order, its items and other invoices and payments stay |
| BillingStore.DeleteInvoiceKeepsValid | Supasanpan_SDP/backend/src/routes/billing.js:326-354 | the invoice delete keeps the store invariant |
| BillingStore.FindOrder | Supasanpan_SDP/backend/src/routes/billing.js:51-61 | the order lookup finds a row with that key, or reports that none has it |
| BillingStore.FirstInvoiceOf | Supasanpan_SDP/backend/src/routes/billing.js:543-554 | the first invoice of an order, or none when the order has no invoice |
| BillingStore.AmountSumOfFilter | Supasanpan_SDP/backend/src/routes/billing.js:565-573 | the client-side `reduce` over the invoice's listed payments equals the SQL `SUM(amount)` the payment route uses |
| BillingStore.PlacedOrderView | Supasanpan_SDP/backend/src/routes/billing.js:539-584 | a freshly placed order's invoice view shows its invoice, nothing paid and the whole total remaining |
| BillingStore.PaymentMatchesView | Supasanpan_SDP/backend/src/routes/billing.js:539-584 | after a payment, GET /invoices/order/:orderId shows the same total_paid and remaining_balance as the payment reply |
| BillingStore.ViewOfFirstInvoice | Supasanpan_SDP/backend/src/routes/billing.js:572-581 | the view's total_paid is the sum paid into the order's first invoice, and remaining_balance is its total less that |
| BillingStore.DeletedOrderNotFound | Supasanpan_SDP/backend/src/routes/billing.js:499-591 | after an order is deleted, both its detail route and its invoice route answer 404 |
| BillingDb.Database.constructor | Supasanpan_SDP/backend/src/routes/billing.js:1-593 | the tables start as the given store |
| BillingDb.Database.Rollback | Supasanpan_SDP/backend/src/routes/billing.js:270-271 | every table returns to the snapshot taken at `beginTransaction`; the auto-increment order counter is not given back |
| BillingDb.Database.CreateOrder | Supasanpan_SDP/backend/src/routes/billing.js:159-280 | POST /orders ends in the store and reply `PlaceOrder` computes with the identifiers allocated from the old tables, and keeps the invariant |
| BillingDb.Database.CreateOrderWith | Supasanpan_SDP/backend/src/routes/billing.js:163-271 | the transaction (order insert, item loop, invoice insert, or rollback) ends in `PlaceOrder`'s state and reply |
| BillingDb.Database.InsertItems | Supasanpan_SDP/backend/src/routes/billing.js:188-224 | the item loop either stops with the first refusal or leaves the stock the reservation computes and the item rows appended; no other table changes |
| BillingDb.Database.RecordPayment | Supasanpan_SDP/backend/src/routes/billing.js:393-496 | POST /payments ends in the state and reply `Pay` computes, and keeps the invariant |
| BillingDb.Database.DeleteOrder | Supasanpan_SDP/backend/src/routes/billing.js:499-536 | the four deletes in turn leave the store `BillingStore.DeleteOrder` computes, and keep the invariant |
| BillingDb.Database.DeleteInvoice | Supasanpan_SDP/backend/src/routes/billing.js:326-362 | the 404 check and the two deletes leave the store and reply `BillingStore.DeleteInvoice` computes |
| BillingDb.Accepted | Supasanpan_SDP/backend/src/routes/billing.js:226-268 | after every item was served, the tables and the reply are those of a placed order |
| BillingDb.RefusedOrder | Supasanpan_SDP/backend/src/routes/billing.js:195-201 | the refusal the loop stops with is the one `PlaceOrder` reports |
| InvoiceController.ReservedKeys | Supasanpan_SDP/backend/src/controllers/invoiceController.js:12-33 | every product a successful reservation served is still in the table |
| InvoiceController.CreateInvoiceAllOrNothing | Supasanpan_SDP/backend/src/controllers/invoiceController.js:3-79 | a refused invoice leaves the stock, the invoices, the item rows and the key counter as they were |
| InvoiceController.CreateInvoiceSucceedsIff | Supasanpan_SDP/backend/src/controllers/invoiceController.js:8-44 | an invoice is created exactly when `items` is a list whose every item is covered by the stock the earlier items left, the recomputed total is within one cent of the client's, and a customer is given |
| InvoiceController.CreateInvoiceRows | Supasanpan_SDP/backend/src/controllers/invoiceController.js:26-59 | a created invoice is `completed` with the recomputed total Σ catalogue price × quantity; there is one item row per item at the catalogue price, and each stock falls by the quantity requested of it |
| InvoiceController.ClientPricesIgnored | Supasanpan_SDP/backend/src/controllers/invoiceController.js:12-38 | two requests with the same products and quantities have the same outcome, whatever prices the client sent |
| InvoiceController.PriceKept | Supasanpan_SDP/backend/src/controllers/invoiceController.js:27-32 | taking stock changes no product's price |
| InvoiceController.LegacyDb.constructor | Supasanpan_SDP/backend/src/controllers/invoiceController.js:1-79 | the tables start as the given ledger |
| InvoiceController.LegacyDb.Rollback | Supasanpan_SDP/backend/src/controllers/invoiceController.js:72-73 | every table returns to the snapshot |
| InvoiceController.LegacyDb.CreateInvoice | Supasanpan_SDP/backend/src/controllers/invoiceController.js:3-79 | the two loops, the total check, the insert and the rollback end in the ledger and reply `Invoicing` computes |
| InvoiceController.LegacyDb.TakeStock | Supasanpan_SDP/backend/src/controllers/invoiceController.js:12-33 | the locked read, check and decrement loop stops at the first refusal or leaves the reserved stock, and `calculatedTotal` equals Σ catalogue price × quantity |
| InvoiceController.LegacyDb.InsertInvoiceItems | Supasanpan_SDP/backend/src/controllers/invoiceController.js:49-59 | the second loop appends exactly the priced rows of the items |
| InvoiceController.DecodeEncodeItems | Supasanpan_SDP/backend/src/controllers/invoiceController.js:86-113 | when the joined item texts fit MySQL's 1024-byte `GROUP_CONCAT` limit, parsing the items string gives back every row in order, with its integer product id and quantity and its two-decimal price; no rows (a null string) give the empty list |
| InvoiceController.ItemsFitLimit | Supasanpan_SDP/backend/src/controllers/invoiceController.js:86-88 | rows whose texts are at most w characters fit the limit when there are no more than 1025 / (w + 1) of them |
| InvoiceController.SplitItemTexts | Supasanpan_SDP/backend/src/controllers/invoiceController.js:106 | the comma-joined texts split back into the texts |
| InvoiceController.DecodeItemText | Supasanpan_SDP/backend/src/controllers/invoiceController.js:107-112 | one item's text parses back to its fields |
| InvoiceController.InvoiceByOrderIdTotals | Supasanpan_SDP/backend/src/controllers/invoiceController.js:164-210 | total_paid is the sum of the payments of all the order's invoices, and remaining_balance is the first invoice's total minus it |
| InvoiceController.SingleInvoiceAgrees | Supasanpan_SDP/backend/src/controllers/invoiceController.js:192-209 | for an order with one invoice the legacy route and the billing route report the same paid sum and balance |
| BillingForm.LineTotal | Supasanpan_SDP/frontend/src/components/Billing.js:764 | a line total is quantity × price − deposit when all three are numbers, NaN otherwise |
| BillingForm.FindEntry | Supasanpan_SDP/frontend/src/components/Billing.js:117 | the product found has the id looked up, and none is found only when no product has it |
| BillingForm.OrderTotalOfEdit | Supasanpan_SDP/frontend/src/components/Billing.js:463-465 | replacing one row changes the order total by exactly the difference of the two rows' totals, a NaN total counting as 0 |
| BillingForm.NoErrorsIffValid | Supasanpan_SDP/frontend/src/components/Billing.js:101-147 | `validateOrder` records no error exactly when every rule holds: some item; a product, a positive quantity within stock, and a positive price on every row; a deposit between 0 and quantity × price; a non-negative total; a payment amount of 0 or more; a payment method |
| BillingForm.ErrorsOfLookup | Supasanpan_SDP/frontend/src/components/Billing.js:101-144 | each error key ends holding exactly the message its own rule reports; a later write for the same key overrides an earlier one |
| BillingForm.ErrorsOfEmptyIff | Supasanpan_SDP/frontend/src/components/Billing.js:145-146 | the error object is empty exactly when no rule fails |
| BillingForm.OrderForm.constructor | Supasanpan_SDP/frontend/src/components/Billing.js:445-459 | the dialog opens with one blank row, no amount and cash |
| BillingForm.OrderForm.SelectItemProduct | Supasanpan_SDP/frontend/src/components/Billing.js:697-705 | the product select changes only that row: its product, name and price (or `''` and 0), and the total recomputed |
| BillingForm.OrderForm.SetQuantity | Supasanpan_SDP/frontend/src/components/Billing.js:761-765 | the quantity field changes only that row's quantity and recomputes its total |
| BillingForm.OrderForm.SetPrice | Supasanpan_SDP/frontend/src/components/Billing.js:777-781 | the price field changes only that row's price and recomputes its total |
| BillingForm.OrderForm.SetDeposit | Supasanpan_SDP/frontend/src/components/Billing.js:793-797 | the deposit field changes only that row's deposit and recomputes its total |
| BillingForm.OrderForm.ValidateOrder | Supasanpan_SDP/frontend/src/components/Billing.js:101-147 | the stored errors are exactly those the rules give, and the result is true exactly when the order is valid |
| BillingForm.ForEachItem | Supasanpan_SDP/frontend/src/components/Billing.js:107-136 | the loop over the rows records, row by row, the errors of each row |
| BillingForm.RowErrors | Supasanpan_SDP/frontend/src/components/Billing.js:108-135 | one pass of the loop body records the errors of the product, quantity, price, deposit and total rules for that row |
| BillingForm.Lookup | Supasanpan_SDP/frontend/src/components/Billing.js:110-143 | `errors[key]` is the message last written under that key |
| BillingForm.PreCheckWith | Supasanpan_SDP/frontend/src/components/Billing.js:203-239 | a request the pre-check lets through carries the selected invoice id, the `parseFloat` reading of the amount text (NaN when it has none) and the method |
| BillingForm.PreCheckWithChecks | Supasanpan_SDP/frontend/src/components/Billing.js:203-230 | for any amount taken as paid, the request is sent exactly when an invoice is selected, the amount text is non-empty and its `Number` reading is not a number ≤ 0, a method is chosen, the details load and the `parseFloat` reading does not exceed total − paid; each refusal is the first check that fails, in that order, and the balance refusal carries total − paid |
| BillingForm.MixedTextPosted | Supasanpan_SDP/frontend/src/components/Billing.js:208-239 | a text whose `Number` reading is NaN but whose `parseFloat` reading is a number within the total (`12abc`, `-5abc`) passes the check and is posted as that number |
| BillingForm.PaymentPreCheckChecks | Supasanpan_SDP/frontend/src/components/Billing.js:203-230 | as written, the balance check compares the amount with the whole invoice total (0 when it is absent), whatever was paid before |
| BillingForm.PaymentPreCheckFixedIff | Supasanpan_SDP/frontend/src/components/Billing.js:203-230 | the corrected pre-check accepts exactly the payments that do not take the order's payments beyond its total |
| BillingForm.PreCheckIgnoresEarlierPayments | Supasanpan_SDP/frontend/src/components/Billing.js:223-227 | as written, 500 more on an invoice of 1000 with 800 already paid passes the check |
| BillingForm.CanDeleteOrder | Supasanpan_SDP/frontend/src/components/Billing.js:468-470 | deletion is offered exactly to the roles `admin` and `manager` |
| BillingForm.SearchOrders | Supasanpan_SDP/frontend/src/components/Billing.js:67-77 | a blank query shows every order; otherwise only orders whose customer id contains the lower-cased query |
| BillingForm.SearchMissesUpperCase | Supasanpan_SDP/frontend/src/components/Billing.js:71-74 | a query with an upper-case letter finds no order whose customer id has no lower-case letter |
| BillingForm.GeneratedIdUpperCase | Supasanpan_SDP/backend/src/routes/billing.js:148 | generated customer ids begin with `CUS` and have no lower-case letter |
| BillingForm.SearchForPrefix | Supasanpan_SDP/frontend/src/components/Billing.js:71-74 | as written, the search for `CUS` misses an order whose id begins with it |
| BillingForm.SearchFixedForPrefix | Supasanpan_SDP/frontend/src/components/Billing.js:71-74 | the corrected search finds that order |
| BillingForm.SearchOrdersFixed | Supasanpan_SDP/frontend/src/components/Billing.js:67-77 | the corrected search keeps only orders from the list, in order |
| BillingForm.SearchOrdersFixedKeeps | Supasanpan_SDP/frontend/src/components/Billing.js:67-77 | the corrected search keeps exactly the orders whose id contains the query in any case, in order, and a blank query keeps all |
| InvoiceListing.Outstanding | Supasanpan_SDP/frontend/src/components/Invoices.js:110-114 | an invoice's pending part is never negative, is at least amount − paid, and is at most the amount when neither is negative |
| InvoiceListing.TodayInvoices | Supasanpan_SDP/frontend/src/components/Invoices.js:90-95 | keeps exactly the invoices whose local date prints as today's |
| InvoiceListing.CalculateDailySummary | Supasanpan_SDP/frontend/src/components/Invoices.js:86-131 | the summary is the sums of amounts, payments and pending parts, and the count, over today's invoices; rounding cents to two decimals changes nothing |
| InvoiceListing.Accumulate | Supasanpan_SDP/frontend/src/components/Invoices.js:104-115 | the `forEach` with its four running totals ends with the summary of the list |
| InvoiceListing.PendingBounds | Supasanpan_SDP/frontend/src/components/Invoices.js:110-115 | pendingAmount is ≥ 0 and ≥ totalSales − totalPaid, and ≤ totalSales when no amount or payment is negative |
| InvoiceListing.SummaryAppend | Supasanpan_SDP/frontend/src/components/Invoices.js:104-115 | the summary of two lists one after the other is the sum of their summaries |
| InvoiceListing.FilteredInvoices | Supasanpan_SDP/frontend/src/components/Invoices.js:189-191 | with the switch on, exactly the invoices whose status is not `paid`; otherwise all |
| InvoiceListing.UnpaidKeepsOrder | Supasanpan_SDP/frontend/src/components/Invoices.js:189-191 | the filtered list keeps the listing's order |
| InvoiceListing.Position | Supasanpan_SDP/frontend/src/components/Invoices.js:212-214 | each column has its own place in the declaration order |
| InvoiceListing.SelectedColumnsInOrder | Supasanpan_SDP/frontend/src/components/Invoices.js:212-214 | the selected columns are exactly the ticked ones, each once, in declaration order |
| InvoiceListing.TwoDigitsOf | Supasanpan_SDP/frontend/src/components/Invoices.js:234-236 | a day or month 1–31 prints as exactly two digits denoting it |
| InvoiceListing.KnownFormats | Supasanpan_SDP/frontend/src/components/Invoices.js:232-241 | the three offered format names select the day-first, month-first and ISO layouts |
| InvoiceListing.DayFirstPadded | Supasanpan_SDP/frontend/src/components/Invoices.js:233-234 | `DD/MM/YYYY` gives the day and the month in two zero-padded digits each, then the year |
| InvoiceListing.MonthFirstPadded | Supasanpan_SDP/frontend/src/components/Invoices.js:235-236 | `MM/DD/YYYY` is the same with day and month swapped |
| InvoiceListing.Table | Supasanpan_SDP/frontend/src/components/Invoices.js:244-264 | the header row appears exactly when includeHeaders is set; then one row per listed invoice; every row has as many cells as there are columns |
| InvoiceListing.TablePlain | Supasanpan_SDP/frontend/src/components/Invoices.js:244-260 | no cell holds a comma or newline when the invoices' texts hold none |
| InvoiceListing.ExportParsesBack | Supasanpan_SDP/frontend/src/components/Invoices.js:211-265 | when the texts hold no comma or newline, splitting the file at newlines and then commas gives back the table; the export adds no quoting |
| Reports.KnownRanges | Supasanpan_SDP/frontend/src/components/Reports.js:147-150 | `day`, `week`, `month` and `year` name their periods |
| Reports.FilterByTimeRange | Supasanpan_SDP/frontend/src/components/Reports.js:143-153 | keeps exactly the invoices of the named period in the same-period sense, and every invoice for any other range value |
| Reports.InvoiceSummary | Supasanpan_SDP/frontend/src/components/Reports.js:157-174 | the count, then the sums of totals, payments and pending parts (total − min(paid, total)) over the filtered invoices |
| Reports.PaidSplitCounts | Supasanpan_SDP/frontend/src/components/Reports.js:245-246 | paidCount counts exactly the invoices with paid ≥ total; notPaidCount is ≥ 0 and both add up to the number of invoices |
| Reports.PaidSplitExtremes | Supasanpan_SDP/frontend/src/components/Reports.js:245-246 | nothing is not-paid exactly when every invoice is paid, and nothing is paid exactly when none is |
| Reports.TopName | Supasanpan_SDP/frontend/src/components/Reports.js:180 | the first top product's name, or `''` when there is none |
| Reports.RevenueTextsJoined | Supasanpan_SDP/frontend/src/components/Reports.js:177 | as written, the revenue texts `1000.00` and `500.00` give the string `01000.00500.00` |
| Reports.ReduceSumOfFalsy | Supasanpan_SDP/frontend/src/components/Reports.js:177-179 | as written, a list of only NULL or empty values sums to the number 0 |
| Reports.ReduceSumJoins | Supasanpan_SDP/frontend/src/components/Reports.js:177-179 | as written, from the first non-empty decimal text on, the sum is a string: `0`, that text, then each later text (or `0` for a NULL), joined |
| Reports.NumberOfRendered | Supasanpan_SDP/backend/src/routes/reports.js:31 | `Number` reads a revenue text as MySQL renders a DECIMAL(10,2) back as its cents |
| Reports.NumberOfWhole | Supasanpan_SDP/backend/src/routes/reports.js:59 | `Number` reads the whole-number text of a bottle count back as that count |
| Reports.UpdateSummaryFixedOfRendered | Supasanpan_SDP/frontend/src/components/Reports.js:176-182 | corrected: for rows as MySQL renders them, the total revenue is the sum of their cents and the total of orders the sum of their bottles |
| Reports.UpdateSummaryAppend | Supasanpan_SDP/frontend/src/components/Reports.js:176-182 | corrected: the revenue, sales and orders of two reports one after the other add up, missing values counting as 0; the top product comes from the first list |
| Reports.UpdateSummaryNonNegative | Supasanpan_SDP/frontend/src/components/Reports.js:176-182 | corrected: with no negative figure no total is negative |
| ProductForm.EditForm | Supasanpan_SDP/frontend/src/components/Products.js:84-92 | the edit form takes the product's name, price text, numeric stock and description |
| ProductForm.PricePatternChars | Supasanpan_SDP/frontend/src/components/Products.js:126 | `^\d*\.?\d*$` admits exactly the strings of digits and points with at most one point |
| ProductForm.HandleChange | Supasanpan_SDP/frontend/src/components/Products.js:122-138 | a price edit failing the guard leaves the form unchanged; any other edit replaces its own field and nothing else |
| ProductForm.PriceStaysAllowed | Supasanpan_SDP/frontend/src/components/Products.js:122-138 | once the price field holds an allowed value, no sequence of edits takes it out |
| ProductForm.ValidateForm | Supasanpan_SDP/frontend/src/components/Products.js:140-194 | every rule is checked; the errors are those of each field's rule and isValid is true exactly when none failed |
| ProductForm.NameRule | Supasanpan_SDP/frontend/src/components/Products.js:144-154 | a name passes exactly when, trimmed, it is at least 3 UTF-16 units long and is not all digits; it is "required" exactly when blank |
| ProductForm.PriceRule | Supasanpan_SDP/frontend/src/components/Products.js:156-169 | a price passes exactly when it is given, parses to a positive number and has at most 2 UTF-16 units after its first point |
| ProductForm.StockRule | Supasanpan_SDP/frontend/src/components/Products.js:171-181 | a stock passes exactly when it is not falsy (not `''`, not the number 0) and parses to a whole number ≥ 0 |
| ProductForm.AstralNameLongEnough | Supasanpan_SDP/frontend/src/components/Products.js:148 | a name of two characters beyond U+FFFF is four UTF-16 units and passes the length rule |
| ProductForm.DescriptionRule | Supasanpan_SDP/frontend/src/components/Products.js:183-190 | a description passes exactly when it is at least 10 UTF-16 units long once trimmed; it is "required" exactly when blank |
| ProductForm.FormAcceptedIff | Supasanpan_SDP/frontend/src/components/Products.js:140-193 | the form passes exactly when each of its four fields does |
| ProductForm.OutOfStockEditRejected | Supasanpan_SDP/frontend/src/components/Products.js:87-92 | the form opened on a product with stock 0 reports the stock as required |
| ProductForm.StockErrorFixedIff | Supasanpan_SDP/frontend/src/components/Products.js:171-181 | the corrected rule accepts exactly whole numbers ≥ 0, agrees with the written rule except on the number 0, and accepts every stored non-negative stock |
| ProductForm.OutOfStockEditAcceptedFixed | Supasanpan_SDP/frontend/src/components/Products.js:84-92 | with the corrected rule, the form opened on an out-of-stock product has no stock error |
| ProductForm.StatusOf | Supasanpan_SDP/frontend/src/components/Products.js:444-456 | the chip shows Out exactly for 0, Low below 10 otherwise, and In from 10 |
| ProductForm.CardsPartition | Supasanpan_SDP/frontend/src/components/Products.js:351-378 | with no negative stock the In, Low and Out cards add up to the number of products |
| ProductForm.ChipMatchesCard | Supasanpan_SDP/frontend/src/components/Products.js:351-378 | on a non-negative stock, the chip and the card conditions agree |
| ProductForm.SearchProducts | Supasanpan_SDP/frontend/src/components/Products.js:60-72 | a blank query shows every product; otherwise exactly the products whose name, description or price text contains the lower-cased query, in order |
| ProductForm.SearchIgnoresQueryCase | Supasanpan_SDP/frontend/src/components/Products.js:64 | the search gives the same result for a query in any letter case |
| ShopCart.CatalogueIdsIncrease | Supasanpan_SDP/frontend/src/components/ShopItems.js:18-55 | the catalogue's ids increase, so no two products share one |
| ShopCart.Find | Supasanpan_SDP/frontend/src/components/ShopItems.js:82 | `find` returns the first product with the id, or nothing when none has it |
| ShopCart.Add | Supasanpan_SDP/frontend/src/components/ShopItems.js:61-66 | adding raises that product's count by 1 (an absent one counts as 0) and leaves every other entry unchanged |
| ShopCart.Removed | Supasanpan_SDP/frontend/src/components/ShopItems.js:68-78 | removing decrements a count above 1 and deletes the key otherwise; other entries are unchanged |
| ShopCart.RemoveFromCart | Supasanpan_SDP/frontend/src/components/ShopItems.js:68-78 | the copy-then-mutate update gives the removed cart |
| ShopCart.EditsKeepCartValid | Supasanpan_SDP/frontend/src/components/ShopItems.js:61-78 | adding a catalogue product and removing any product keep every stored count at least 1 |
| ShopCart.EditQuantities | Supasanpan_SDP/frontend/src/components/ShopItems.js:61-78 | after an edit the product's count is one more, or one fewer down to 0, and every other count is unchanged |
| ShopCart.RemoveUndoesAdd | Supasanpan_SDP/frontend/src/components/ShopItems.js:61-78 | adding a product and then removing it gives back the original cart |
| ShopCart.EntriesOfCart | Supasanpan_SDP/frontend/src/components/ShopItems.js:81-82 | the cart's entries are each of its products once, with its count, in ascending id order |
| ShopCart.TotalIsCatalogueSum | Supasanpan_SDP/frontend/src/components/ShopItems.js:80-85 | the total is Σ price × count over the products |
| ShopCart.TotalAfterEdit | Supasanpan_SDP/frontend/src/components/ShopItems.js:61-85 | adding a catalogue product raises the total by its price; removing a product in the cart lowers it by its price |
| ShopCart.LinesOfCart | Supasanpan_SDP/frontend/src/components/ShopItems.js:101-104 | the request lines are the cart's products with their counts |
| ShopCart.CheckoutShape | Supasanpan_SDP/frontend/src/components/ShopItems.js:87-111 | an empty customer id sends nothing and keeps the cart; otherwise the request carries one line per entry and the total, and an accepted purchase empties the cart |
| TaskRoutes.CreateTaskChecks | Supasanpan_SDP/backend/src/routes/tasks.js:32-55 | a task is created exactly when the title, priority, status and due-date checks all pass; they run in that order and the first failure is the 400 answered; a created row is the request's fields under the next key |
| TaskRoutes.BlankTitleRefused | Supasanpan_SDP/backend/src/routes/tasks.js:35-37 | a title of white space only is refused |
| TaskRoutes.UpdateTask | Supasanpan_SDP/backend/src/routes/tasks.js:63-75 | the row with that id takes every field of the request; every other row stays |
| TaskRoutes.UpdateSkipsChecks | Supasanpan_SDP/backend/src/routes/tasks.js:38-41 | a priority that create refuses is still written by update |
| EmployeeTasks.AddTask | Supasanpan_SDP/frontend/src/components/EmployeeTasks.js:27-39 | a blank input changes nothing; otherwise the trimmed text is appended, not done, under id length + 1, and the input is cleared |
| EmployeeTasks.DeleteTask | Supasanpan_SDP/frontend/src/components/EmployeeTasks.js:41-43 | keeps exactly the tasks with another id |
| EmployeeTasks.ToggleComplete | Supasanpan_SDP/frontend/src/components/EmployeeTasks.js:45-51 | flips the mark only of the tasks with that id; length, order, ids and texts are unchanged |
| EmployeeTasks.ToggleTwice | Supasanpan_SDP/frontend/src/components/EmployeeTasks.js:45-51 | toggling the same id twice restores the list |
| EmployeeTasks.DeleteKeepsOrder | Supasanpan_SDP/frontend/src/components/EmployeeTasks.js:41-43 | the remaining tasks keep their order |
| EmployeeTasks.DeleteAbsent | Supasanpan_SDP/frontend/src/components/EmployeeTasks.js:41-43 | deleting an id no task has changes nothing |
| EmployeeTasks.AddAfterDeleteDuplicatesId | Supasanpan_SDP/frontend/src/components/EmployeeTasks.js:32 | with ids 1..n (n ≥ 2), deleting task 1 and adding one gives the new task the id n of the last old task |
| EmployeeTasks.InitialListCollides | Supasanpan_SDP/frontend/src/components/EmployeeTasks.js:20-39 | the page's own starting list runs into the duplicate id |
| EmployeeTasks.NextId | Supasanpan_SDP/frontend/src/components/EmployeeTasks.js:32 | the corrected next id is above every id in use |
| EmployeeTasks.AddTaskFixed | Supasanpan_SDP/frontend/src/components/EmployeeTasks.js:27-39 | the corrected add: blank changes nothing; otherwise the trimmed text is appended under the next unused id |
| EmployeeTasks.FixedKeepsIdsDistinct | Supasanpan_SDP/frontend/src/components/EmployeeTasks.js:27-51 | with the corrected add, distinct ids stay distinct through add, delete and toggle |
| SensorReadings.FindMatchNone | Supasanpan_SDP/frontend/src/components/SensorReadings.js:124 | the pattern finds nothing exactly when no position starts a match |
| SensorReadings.FindMatchLeftmost | Supasanpan_SDP/frontend/src/components/SensorReadings.js:124 | a match gives the groups of the leftmost position that matches: all the digits there and the letters after them |
| SensorReadings.MatchIffDigitThenLetter | Supasanpan_SDP/frontend/src/components/SensorReadings.js:124 | `/(\d+)([a-zA-Z]+)/` matches exactly when a digit is followed by a letter somewhere |
| SensorReadings.DateRangeOf | Supasanpan_SDP/frontend/src/components/SensorReadings.js:122-132 | the days are n for `nd`, 30n for `nm`, 365n for `ny`, and n for any other unit |
| SensorReadings.NoMatchIsSevenDays | Supasanpan_SDP/frontend/src/components/SensorReadings.js:123-125 | a range without a digit followed by a letter means 7 days |
| SensorReadings.GroupingCoarsens | Supasanpan_SDP/frontend/src/components/SensorReadings.js:169-171 | of the three groupings (none, by hour, by day), a longer range never gets a finer one |
| SensorReadings.SelectorGroupings | Supasanpan_SDP/frontend/src/components/SensorReadings.js:586-589 | the selector's `1d` shows every point, `7d` groups by hour, `30d` and `90d` by day |
| SensorReadings.HourGroupsRefineDayGroups | Supasanpan_SDP/frontend/src/components/SensorReadings.js:139-142 | the key is the first 10 (day) or 13 (hour) characters of the timestamp, so readings of one hour group share a day group |
| SensorReadings.GroupsOfKeys | Supasanpan_SDP/frontend/src/components/SensorReadings.js:134-151 | there is one group per distinct key of the readings, and no key twice |
| SensorReadings.GroupsOfItems | Supasanpan_SDP/frontend/src/components/SensorReadings.js:136-150 | each group holds exactly the readings with its key, in their original order |
| SensorReadings.AggregateData | Supasanpan_SDP/frontend/src/components/SensorReadings.js:134-151 | the `forEach` filling the dictionary gives those groups, in order of first appearance |
| SensorReadings.CheckAlerts | Supasanpan_SDP/frontend/src/components/SensorReadings.js:90-105 | a pH alert exactly when the pH is below 6.5 or above 7.5, a water alert exactly when the level is below 20, pH first, at most two |
| SensorReadings.ShownAlert | Supasanpan_SDP/frontend/src/components/SensorReadings.js:95-102 | the message left showing is the water alert when there is one, else the pH alert, else none |
| SensorReadings.AppendKeepsNewest | Supasanpan_SDP/frontend/src/components/SensorReadings.js:188-191 | appending and keeping the newest n leaves the new reading last and at most n entries, the newest ones in order, dropping nothing while there is room |
| SensorReadings.NotifyFiresIff | Supasanpan_SDP/frontend/src/components/SensorReadings.js:293-322 | a notification is posted exactly when its value is out of range and its value or timestamp differs from the last one notified; every notification is an alert |
| SensorReadings.NotifySettles | Supasanpan_SDP/frontend/src/components/SensorReadings.js:305-320 | running the effect again for the same reading posts nothing |
| SensorReadings.NewTimestampRenotifies | Supasanpan_SDP/frontend/src/components/SensorReadings.js:295-307 | a pH still out of range is notified again at every new timestamp |
| SensorReadings.SensorStore.constructor | Supasanpan_SDP/frontend/src/components/SensorReadings.js:213-237 | the history is the generated series, the latest reading its last, and nothing has been notified |
| SensorReadings.SensorStore.PhTick | Supasanpan_SDP/frontend/src/components/SensorReadings.js:241-258 | the latest reading takes the new pH, TDS and time; the history gains the reading with the previous water level, capped at the newest 1000 |
| SensorReadings.SensorStore.WaterLevelTick | Supasanpan_SDP/frontend/src/components/SensorReadings.js:260-277 | the latest reading takes the new level and time; the history gains the reading with the previous pH and TDS, capped at the newest 1000 |
| SensorReadings.SensorStore.UpdateData | Supasanpan_SDP/frontend/src/components/SensorReadings.js:185-208 | the reading becomes the latest and is appended, capped at the newest 1000, and its alerts are those `checkAlerts` gives |
| SensorReadings.SensorStore.NotifyThresholds | Supasanpan_SDP/frontend/src/components/SensorReadings.js:292-322 | posts and remembers what the notification step gives, after which nothing would notify again |
| SensorReadings.ProcessHistoricalData | Supasanpan_SDP/frontend/src/components/SensorReadings.js:163-175 | the points are shown ungrouped exactly when the range gives no grouping; otherwise they are grouped as the range asks, with distinct keys |

## Left out

- Concurrency: the connection pool, `async`/`await`, and the race between two requests that read the same latest identifier. One request runs at a time. The `FOR UPDATE` lock of the legacy controller has no modelled effect.
- Database and network errors (the 500 answers other than the modelled refusals) are not modelled. Neither are `disableOnlyFullGroupBy`, authentication, the PDF stub and the list-all read queries.
- BillingStore.PlaceOrderRows: the status a new invoice gets is taken as `pending`. That column's default comes from billing_tables.sql, which is not part of this model.
- The `paid_amount` column the dashboards read is an input field of each listed invoice. The query that fills it is not part of this model.
- Floating point: money values are integer cents and pH values are hundredths. The averages in `aggregateData` are not modelled (the groups are). Neither are `toFixed` message text, `Math.round` (the identity on cents), float products in line totals, or a `parseFloat` of an exponent or `Infinity`.
- `parseInt` is modelled without the `0x` prefix and without precision loss on very long digit runs.
- The clock, the calendar and the locale are parameters:
  - the time-range and same-day predicates;
  - `toLocaleDateString` text;
  - `new Date().getFullYear()`;
  - the `created_at` dates behind `formatDate`.
- SensorReadings.HourGroupsRefineDayGroups: the grouping key is cut from the stored timestamp, read as the ISO text `toISOString` would print again.
- `date-fns` calls and the chart label formatting are not modelled.
- Random sensor values and the `setInterval` timers are not modelled. Each tick is a method the caller invokes with the new reading.
- A non-string argument to `parseDateRange` (its `typeof` check) cannot occur, because `dateRange` is always one of the selector's strings.
- SensorReadings.SensorStore.UpdateData: `updateData` is defined in the page but never called. It is modelled for completeness. The page's version writes only the displayed reading and history, and the next tick replaces them with the kept history. The model's store stands for both, so it does not show that loss.
- SensorReadings.NotifyFiresIff: the page posts through `addNotification` only when that callback is given. Posting is modelled as if it always is.
- JavaScript compares the pH text with the threshold after converting it to a number. The model works with those numbers directly.
- `null` and `undefined` are both `None`. So the model does not tell apart a SQL NULL (read by `Number` as 0) from a value that is NaN. In `Reports.IsPaid` this changes the outcome whenever a NULL is involved: the page counts an invoice as paid, and the model does not, when `paid_amount` is NULL and the total is 0 or less, when `total_amount` is NULL and the paid amount is 0 or more, and when both are NULL.
- The item requests of POST /orders always carry an integer `quantity` and `total`. A request with no quantity is not modelled. The page's stock check compares with `undefined`, which lets it pass, and NULL reaches the item row and the stock update.
- `BillingForm.PreCheckWith`: the payment text's two readings, `Number(text)` and `parseFloat(text)`, are inputs of the model (`PaymentAmount.Typed`), not computed from the text, and each is taken in whole cents; a text with more than two decimals is not modelled.
- `BillingStore.FindInvoice`: identifiers are compared as exact strings. MySQL compares `invoice_id = ?` under the column's collation, and the default collation ignores case, so `inv0001` finds `INV0001` there; `BillingStore.PayRefusedIff` inherits the exact comparison.
- BillingForm.SearchOrders: `toLowerCase` folds only the ASCII letters `A`–`Z` in the model. JavaScript folds every cased Unicode letter, so a query such as `É` is lower-cased by the page but not by the model.
- BillingForm.SearchOrdersFixedKeeps: "in any case" is proved only for ASCII letters, for the same reason.
- ProductForm.SearchProducts: the name, description and query are lower-cased on ASCII letters only. In the page, the query `é` finds a product named `Énergie`; in the model it does not.
- ProductForm.SearchIgnoresQueryCase: ignoring the query's case is proved only for ASCII letters.
- InvoiceController.DecodeEncodeItems: the round trip is proved only for item strings within the 1024-byte `GROUP_CONCAT` limit. A longer string is cut (`EncodeItems` models the cut), so its last item text is damaged and later rows are lost. That loss is not proved as a lemma.
- The ordering of keys in `Object.entries` is modelled for the cart (numeric keys ascending) and for the sensor groups (insertion order of non-numeric keys).
- The dashboard's React state, rendering, snackbars and the `axios`/`fetch` calls are not modelled. The shop checkout's server answer is the `accepted` parameter.
- InvoiceListing.ExportParsesBack: the export does no CSV quoting. Its round trip is proved only for texts without commas or newlines, and the `Blob` download is not modelled.
- Employees, products CRUD, mail, the report SQL queries and the sensor simulator script are outside this model.

## Findings

| source | as written | input that shows it | evidently intended | confidence | as-written member | corrected member |
|---|---|---|---|---|---|---|
| Supasanpan_SDP/frontend/src/components/Billing.js:223-227 | the payment pre-check takes `total_paid` from GET /orders/:id, which never returns that field (Supasanpan_SDP/backend/src/routes/billing.js:77-81), so the paid amount is always 0 | an invoice of 1000 with 800 already paid: a further payment of 500 passes the check | remaining balance = total − the sum of the payments the order details list | high (not executed) | BillingForm.PreCheckIgnoresEarlierPayments | BillingForm.PaymentPreCheckFixedIff |
| Supasanpan_SDP/frontend/src/components/Billing.js:71-74 | the order search lower-cases the query but not the customer id | the query `CUS` against any generated id `CUS-2025-0001` finds nothing | compare both sides lower-cased | high (not executed) | BillingForm.SearchForPrefix | BillingForm.SearchFixedForPrefix |
| Supasanpan_SDP/frontend/src/components/Products.js:172-174 | a falsy stock is "required", and the stored number 0 is falsy | editing a product with stock 0 (loaded as a number at lines 87-92) cannot be saved unchanged | only an empty field is missing; 0 is a valid stock | high (not executed) | ProductForm.OutOfStockEditRejected | ProductForm.StockErrorFixedIff |
| Supasanpan_SDP/frontend/src/components/Reports.js:177-179 | `updateSummary` adds `d.revenue \|\| 0` and `d.orders \|\| 0` without `Number`. These two columns are MySQL `SUM`s, which the driver (configured in Supasanpan_SDP/backend/config/database.js without `decimalNumbers`) hands over as decimal text, so `+` concatenates them | revenue rows `1000.00` and `500.00` give the text `01000.00500.00` | the sum of the numbers, as `Number(...)` reads them at Reports.js:161-162 | medium (not executed) | Reports.RevenueTextsJoined | Reports.UpdateSummaryFixedOfRendered |
| Supasanpan_SDP/frontend/src/components/EmployeeTasks.js:32 | a new task's id is the list length + 1 | starting list ids 1, 2, 3: delete task 1, then add one, and the new task gets id 3 like "Restock bottles"; toggling or deleting 3 then hits both | an id no task uses, such as one more than the largest | high (not executed) | EmployeeTasks.AddAfterDeleteDuplicatesId | EmployeeTasks.FixedKeepsIdsDistinct |
