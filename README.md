# Amrit Assam Tea storefront — verified model of the domain store

This project is a Dafny model of the storefront behind a tea e-commerce web
app. The storefront sells retail to customers and wholesale to approved
distributors, and it has an admin dashboard. The model covers:

- the in-memory domain store: accounts and session, catalog and stock, cart,
  orders, purchase orders and reviews;
- the pure derivations built on the store: prices, tax and totals, the
  profit-and-loss (P&L) and payment reports, the CSV export text, the tax
  invoice, the admin forms that build orders and purchase orders, review
  statistics and the home page's top reviews;
- the request handlers of the sign-in and checkout pages.

Layout, one module per file:

| file | module | models |
|---|---|---|
| `types.dfy` | `Types` | the records and enumerations of `types.ts` |
| `seqs.dfy` | `Seqs` | `findIndex`, `filter` and the rewrite-by-test `map` the store uses on its arrays |
| `pricing.dfy` | `Pricing` | `Math.round`, role price, subtotal, 5% tax and total |
| `catalog.dfy` | `Catalog` | product lookup, the stock check, stock deduction and restocking |
| `cart.dfy` | `Cart` | cart merge and remove, and the header's item count |
| `auth.dfy` | `Auth` | the login decision, new accounts, approval, input checks and the role fallthrough |
| `orders.dfy` | `Orders` | the tests and rewrites applied to orders |
| `store.dfy` | `Storefront` | class `Store`: one method per store operation, with `seq` fields |
| `reports.dfy` | `Reports` | P&L loops, the P&L export rows, low stock, online and COD totals, payment rows |
| `csv.dfy` | `Csv` | the CSV text builder, including `JSON.stringify` string escaping |
| `invoice.dfy` | `Invoice` | the invoice's rows and totals block |
| `admin_forms.dfy` | `AdminForms` | the add-user, manual-order and purchase-order forms |
| `reviews.dfy` | `Reviews` | review lists, averages, top reviews, `trim`, and the review form's submit |
| `handlers.dfy` | `Handlers` | sign-in/register handler, checkout totals, place-order handler, checkout routing |
| `scenarios.dfy` | `Scenarios` | the seed orders checked against the pricing rule and the P&L |

Conventions:

- Money is `real`. Quantities, stock and ratings are `int`.
- `Math.round(x)` is `Floor(x + 0.5)`.
- Identifiers and dates that the source takes from `Date.now()` or
  `Math.random()` are method parameters.
- `alert` messages become outcome datatypes.
- `window.confirm` answers and the payment gateway's answer are inputs.

## Model

| member | source | states |
|---|---|---|
| Pricing.Round | services/store.tsx:205-206 | `Math.round` gives the integer within half a unit, a half rounding up |
| Pricing.UnitPrice | services/store.tsx:191 | the per-unit price: the distributor price on a wholesale sale, the MRP otherwise |
| Pricing.Subtotal | services/store.tsx:190-193 | the sum of price times quantity over the lines, folded from the left as `reduce` does |
| Pricing.RoundShift | services/store.tsx:205-206 | rounding commutes with adding a whole number |
| Pricing.OrderTypeFor | services/store.tsx:212 | an order is WHOLESALE exactly when the buyer is a DISTRIBUTOR |
| Pricing.SubtotalAppend | services/store.tsx:190-193 | the subtotal of concatenated lines is the sum of their subtotals, so the fold order is irrelevant |
| Pricing.WholesaleNotAboveRetail | services/store.tsx:190-193 | with non-negative quantities and distributorPrice <= mrp, a wholesale subtotal is non-negative and at most the retail one |
| Pricing.TaxAmount | services/store.tsx:195-196 | the tax is 5% of the subtotal rounded to the nearest rupee |
| Pricing.TotalAmount | services/store.tsx:197-205 | the total is 105% of the subtotal, rounded on its own |
| Pricing.TotalMinusTaxNear | services/store.tsx:205-206 | total minus tax stays strictly within one rupee of the subtotal |
| Pricing.TotalMinusTaxExact | services/store.tsx:205-206 | for a whole-rupee subtotal, total minus tax is exactly the subtotal |
| Pricing.TotalExceedsUntaxed | services/store.tsx:197-205 | from a subtotal of 10 on, the rounded total is strictly above the untaxed subtotal |
| Pricing.PricedConsistently | services/store.tsx:190-206 | an order's recorded tax and total are those its own lines give at the price its type selects |
| Seqs.FirstIndex | services/store.tsx:254 | `findIndex` returns the first index that passes, or -1 exactly when none passes |
| Seqs.FirstIndexStable | services/store.tsx:253-263 | rewriting elements without changing the test's answers keeps every `findIndex` result |
| Seqs.Filter | services/store.tsx:174 | `filter` keeps exactly the elements that pass and never grows |
| Seqs.FilterAppend | services/store.tsx:174 | filtering commutes with concatenation, so the original order is kept |
| Seqs.FilterKeepsAll | services/store.tsx:174 | a filter that every element passes is the identity |
| Seqs.FilterDropsOne | services/store.tsx:174 | a filter that fails exactly one element removes exactly that element |
| Seqs.FilterEmptyIff | pages/Home.tsx:9 | a filter is empty exactly when no element passes |
| Seqs.FilterLengthMonotone | pages/Dashboard.tsx:761 | a test that passes wherever another passes keeps at least as many elements |
| Seqs.MapWhere | services/store.tsx:280 | the rewrite-by-test `map` rewrites exactly the selected elements and keeps positions |
| Catalog.IndexOfProduct | services/store.tsx:183 | product lookup by id gives the first product with that id, or -1 when there is none |
| Catalog.FindProduct | services/store.tsx:183 | `find` gives a product with that id from the catalog, or nothing exactly when none has it |
| Catalog.IndexOfOwnId | services/store.tsx:183 | with unique ids, looking up a product's own id finds that product |
| Catalog.FirstShortage | services/store.tsx:182-188 | the stock-check loop finds the first cart line whose catalog stock is below its quantity, and nothing exactly when stock suffices |
| Catalog.Short | services/store.tsx:183-186 | a line is short when its product is in the catalog with stock below the line's quantity; a product missing from the catalog is never short |
| Catalog.StockSufficient | services/store.tsx:182-188 | no line of the cart is short |
| Catalog.DeductFirstMatch | services/store.tsx:233-243 | the as-written `addOrder` deduction: each product loses only the quantity of the first line naming it |
| Catalog.QuantityOrderedAppend | services/store.tsx:216-222 | quantities ordered add up over concatenated lines |
| Catalog.QuantityOrderedNonNegative | services/store.tsx:216-222 | non-negative line quantities order a non-negative quantity |
| Catalog.DeductAll | services/store.tsx:233-243 | deducting an order takes from each product the total it orders of that product |
| Catalog.DeductAllComposes | services/store.tsx:233-243 | deducting two orders in turn equals deducting their lines together |
| Catalog.FirstLineIsAllWhenUnique | services/store.tsx:217 | with one line per product, the first line's quantity is the whole quantity ordered |
| Catalog.DeductionsAgreeWhenUnique | services/store.tsx:216-222 | with one line per product, first-match deduction and full deduction agree |
| Catalog.CheckedDeductionKeepsStock | services/store.tsx:182-222 | an order that passed the stock check never takes stock below zero |
| Catalog.RestockedAddsQuantities | services/store.tsx:266-275 | receiving items adds to each product exactly the units of it received and changes nothing else |
| Catalog.RestockedOnlyRaises | services/store.tsx:266-275 | receiving non-negative quantities changes only stock and never lowers it |
| Catalog.Restocked | services/store.tsx:266-275 | each received line in turn adds its quantity to the stock of the first product with its id |
| Cart.RemoveLine | services/store.tsx:173-175 | removing keeps exactly the lines for other products |
| Cart.AddLine | services/store.tsx:161-171 | `addToCart`: the existing line for the product gains the quantity, or the product is appended as a new line |
| Cart.CartCount | components/Layout.tsx:9 | the header's item count: the sum of the line quantities |
| Cart.CartCountBump | components/Layout.tsx:9 | raising one line by q raises the item count by q |
| Cart.BumpKeepsQuantities | services/store.tsx:163-167 | bumping one line keeps one line per product and adds to that product's quantity only |
| Cart.AddLineSpec | services/store.tsx:161-171 | adding merges into the existing line or appends one line; one line per product is kept, snapshots are kept, exactly `quantity` units of that product are added, and the count rises by `quantity` |
| Cart.RemoveLineKeepsOrder | services/store.tsx:173-175 | removing an existing product's line takes out exactly that line and keeps the others in order |
| Cart.RemoveAbsentLine | services/store.tsx:173-175 | removing a product not in the cart leaves the cart as it was |
| Cart.RemoveLineKeepsUnique | services/store.tsx:173-175 | removing keeps one line per product |
| Auth.MobileTaken | services/store.tsx:153 | `some` holds exactly when an account has that mobile |
| Auth.LoginCheck | services/store.tsx:110-125 | no account for that mobile and role gives NoAccount, and the converse holds; a login succeeds only with the stored password, for that mobile and role, and for a distributor only when approved |
| Auth.LoginOwnRole | services/store.tsx:110-125 | with unique mobiles, logging in under the account's own role fails only for a wrong password or an unapproved distributor |
| Auth.LoginOtherRole | services/store.tsx:111 | with unique mobiles, logging in under another role finds no account |
| Auth.FallthroughLogin | App.tsx:53 | the page signs in an account with that mobile and password, and nobody exactly when all three role attempts fail |
| Auth.FallthroughFindsAccount | App.tsx:53 | with unique mobiles, the page signs in the one account exactly when its password matches and it is not an unapproved distributor |
| Auth.FallthroughUnknownMobile | App.tsx:51-64 | an unknown mobile signs in nobody |
| Auth.NewAccount | services/store.tsx:133-143 | a registered account is approved exactly when it is not a distributor, and keeps the given mobile, password and role |
| Auth.WithDefaultPassword | services/store.tsx:157 | a missing or empty password becomes a non-empty one, nothing else changes, and a set password is kept |
| Auth.DistributorLoginNeedsApproval | services/store.tsx:132-150 | a newly registered distributor cannot sign in until approved, and can with the same password afterwards |
| Auth.CheckAuthInput | App.tsx:23-30 | inputs pass exactly when the mobile is 10 UTF-16 code units long (JavaScript `length`) and a password is given; the mobile is checked first; for text inside the Basic Multilingual Plane that is 10 characters |
| Auth.Utf16Length | App.tsx:23 | JavaScript `length`: between one and two code units per character, and exactly one per character only when no character lies outside the Basic Multilingual Plane |
| Storefront.CheckoutOrder | services/store.tsx:190-214 | the placed order holds the cart's lines, is priced consistently with them at the buyer's price, is Processing, carries the chosen method and status, and is WHOLESALE exactly for a distributor |
| Storefront.ReceiveEffect | services/store.tsx:253-277 | `receivePurchaseOrder`'s effect: an unknown or already received purchase order changes nothing; otherwise it becomes Received and its lines restock the catalog |
| Storefront.ReceiveIsIdempotent | services/store.tsx:253-258 | receiving the same purchase order a second time changes nothing |
| Storefront.ReceiveRestocks | services/store.tsx:253-277 | receiving an unreceived purchase order marks only it Received and adds exactly its units to each product |
| Storefront.Store.constructor | services/store.tsx:56-96 | the store starts from the loaded collections with an empty cart |
| Storefront.Store.Login | services/store.tsx:110-125 | the session is set exactly on a successful login and otherwise left alone |
| Storefront.Store.Logout | services/store.tsx:127-130 | the session is cleared and the cart emptied |
| Storefront.Store.Register | services/store.tsx:132-150 | one account is appended with no duplicate check; it is signed in unless it is a distributor; a distributor registered under a free mobile (mobiles unique) cannot then sign in at all |
| Storefront.Store.AddUser | services/store.tsx:152-159 | a taken mobile changes nothing; otherwise the account is appended with the default password; unique mobiles stay unique |
| Storefront.Store.AddToCart | services/store.tsx:161-171 | the cart becomes AddLine of the old cart, keeps one line per product, gains exactly `quantity` units of that product and raises the count by `quantity` |
| Storefront.Store.RemoveFromCart | services/store.tsx:173-175 | the cart loses that product's line and keeps one line per product |
| Storefront.Store.ClearCart | services/store.tsx:177 | the cart is empty |
| Storefront.Store.PlaceOrder | services/store.tsx:179-227 | the outcome is NoSession exactly without a session, InsufficientStock (naming the first short line's product and its stock) exactly for a signed-in buyer with a short line, and Placed otherwise; only Placed changes anything: the checkout order is prepended, every product loses the quantity ordered and the cart is emptied; stock stays non-negative |
| Storefront.Store.DeleteOrder | services/store.tsx:229-231 | exactly the orders with that id go; stock is outside the method's frame |
| Storefront.Store.AddOrder | services/store.tsx:233-243 | the order is prepended and stock is deducted with every line counted, which equals the source's first-match deduction when lines are unique |
| Storefront.Store.AddPurchaseOrder | services/store.tsx:245-247 | the purchase order is prepended and stock is untouched |
| Storefront.Store.DeletePurchaseOrder | services/store.tsx:249-251 | exactly the purchase orders with that id go |
| Storefront.Store.ReceivePurchaseOrder | services/store.tsx:253-277 | the loop leaves purchase orders and catalog as ReceiveEffect says |
| Storefront.Store.UpdateOrderStatus | services/store.tsx:279-281 | only the status of orders with that id changes |
| Storefront.Store.UpdatePaymentStatus | services/store.tsx:283-285 | only the payment status of orders with that id changes |
| Storefront.Store.ApproveDistributor | services/store.tsx:287-289 | only the approval of accounts with that id changes, and mobiles stay unique |
| Storefront.Store.UpdateProduct | services/store.tsx:291-293 | products with that id are replaced whole, and ids stay unique |
| Storefront.Store.DeleteProduct | services/store.tsx:295-297 | exactly the products with that id go |
| Storefront.Store.AddProduct | services/store.tsx:299-301 | the product is appended; ids stay unique when the id was new |
| Storefront.Store.UpdateStock | services/store.tsx:303-305 | only the stock of products with that id changes, and ids stay unique |
| Storefront.Store.AddReview | services/store.tsx:315-317 | the review is prepended |
| Reports.UnitCost | pages/Dashboard.tsx:674-675 | a line whose product is gone costs 0; a non-zero cost is that product's catalog cost price |
| Reports.DeliveredOrders | pages/Dashboard.tsx:667 | exactly the Delivered orders are reported |
| Reports.Revenue | pages/Dashboard.tsx:670-681 | revenue: every line of every order at its order's selling price |
| Reports.Cogs | pages/Dashboard.tsx:670-681 | cost of goods: every line at its product's current cost price, 0 for a deleted product |
| Reports.Margin | pages/Dashboard.tsx:684-685 | the margin is 0 without revenue, between 0 and 100 for a profit no larger than revenue, and negative for a loss |
| Reports.ProfitAndLoss | pages/Dashboard.tsx:666-685 | the nested loops compute revenue and COGS over Delivered orders only; gross profit is revenue minus COGS |
| Reports.LineStep | pages/Dashboard.tsx:672-681 | one more line adds its selling total and its cost |
| Reports.OrderStep | pages/Dashboard.tsx:671-682 | one more order adds its subtotal, its cost and its rows |
| Reports.DeliveredOnlyCount | pages/Dashboard.tsx:667 | adding an order changes revenue and COGS only when it is Delivered |
| Reports.DeletedProductCostsNothing | pages/Dashboard.tsx:674-675 | after its product is deleted a line costs nothing |
| Reports.ExportPnlRows | pages/Dashboard.tsx:629-651 | the export loops produce PnlRows over the Delivered orders |
| Reports.PnlRows | pages/Dashboard.tsx:633-650 | the export rows: one per line, order after order, in line order |
| Reports.ColumnsAppend | pages/Dashboard.tsx:629-651 | the Revenue and COGS columns add up over concatenated rows |
| Reports.OrderRowsTotal | pages/Dashboard.tsx:633-650 | an order's rows add up to its subtotal and its cost |
| Reports.PnlRowsMatchTotals | pages/Dashboard.tsx:629-651 | the exported columns add up to the dashboard's revenue and COGS; there is one row per line; every row's profit is revenue minus COGS |
| Reports.LowStockCount | pages/Dashboard.tsx:761 | the low-stock count is at most the number of products |
| Reports.NoLowStockIffAllAbove | pages/Dashboard.tsx:761 | the count is 0 exactly when every product's stock is above its threshold |
| Reports.RestockNeverRaisesLowStock | pages/Dashboard.tsx:761 | receiving stock never raises the low-stock count |
| Reports.OrderNeverLowersLowStock | pages/Dashboard.tsx:761 | placing an order never lowers the low-stock count |
| Reports.PaymentsPartitionSales | pages/Dashboard.tsx:688-690 | online revenue plus COD total plus unpaid online orders is all sales |
| Reports.OnlineRevenue | pages/Dashboard.tsx:688-689 | the summed totals of the orders paid by a method other than COD |
| Reports.CodTotal | pages/Dashboard.tsx:690 | the summed totals of the COD orders, paid or not |
| Reports.CodIgnoresPaymentStatus | pages/Dashboard.tsx:690 | the COD total does not depend on payment statuses |
| Reports.MarkPaidAddsOnline | pages/Dashboard.tsx:688-689 | marking an unpaid online order Paid adds its total to online revenue |
| Reports.PaymentId | pages/Dashboard.tsx:820 | a payment row always shows an id, 'N/A' when none was recorded |
| Reports.PaymentRows | pages/Dashboard.tsx:817-825 | there is one payment row per online-paid order |
| Reports.PaymentRowIsPaidOnline | pages/Dashboard.tsx:817-825 | every payment row is Captured and comes from an online-paid order |
| Reports.PnlExportHeader | pages/Dashboard.tsx:629-654 | the P&L export is refused exactly when there are no rows, and otherwise its header lists the seven keys in order |
| Reports.PnlRecord | pages/Dashboard.tsx:640-648 | a P&L row as an export record under the keys Date, OrderId, Product, Quantity, Revenue, COGS, Profit |
| Reports.PaymentExportHeader | pages/Dashboard.tsx:812-827 | the payments export is refused exactly when no order is paid online, and otherwise its header lists the six keys in order |
| Reports.PaymentRecord | pages/Dashboard.tsx:817-825 | a payment row as an export record under the keys Date, PaymentID, OrderID, Method, Amount, Status |
| Csv.SplitOn | pages/Dashboard.tsx:15-24 | the reference inverse of the `join(',')` and `join('\r\n')` calls, used only to check what the builder produces (the source never splits): splitting yields at least one piece |
| Csv.SplitWithoutSeparator | pages/Dashboard.tsx:15-24 | text without the separator is one piece |
| Csv.SplitAfterPiece | pages/Dashboard.tsx:15-24 | a separator after a separator-free piece splits it off |
| Csv.SplitJoin | pages/Dashboard.tsx:15-24 | splitting a join of separator-free parts gives the parts back |
| Csv.JoinAvoids | pages/Dashboard.tsx:15-24 | joining parts and a separator free of a character keeps the result free of it |
| Csv.JoinCrlf | pages/Dashboard.tsx:24 | joining with "\r\n" is joining with "\n" after adding "\r" to every line but the last |
| Csv.EscapeChar | pages/Dashboard.tsx:22 | every character escapes to at least one character |
| Csv.JsonQuote | pages/Dashboard.tsx:22 | `JSON.stringify` of a string starts and ends with a double quote |
| Csv.UnescapeOne | pages/Dashboard.tsx:22 | decoding an escaped character gives the character back |
| Csv.UnescapeEscape | pages/Dashboard.tsx:22 | decoding a JSON-escaped string gives the string back |
| Csv.EscapeIsPrintable | pages/Dashboard.tsx:22 | escaped text has no control characters and a comma only where the input had one |
| Csv.Cell | pages/Dashboard.tsx:18-22 | a string cell is always quoted |
| Csv.CellComma | pages/Dashboard.tsx:18-22 | a cell holds a comma exactly when its string or number text does |
| Csv.CellLineFeed | pages/Dashboard.tsx:18-22 | a cell holds a line feed only from a raw-quoted comma string or a number text |
| Csv.Cells | pages/Dashboard.tsx:17-23 | a row has one cell per header key |
| Csv.Keys | pages/Dashboard.tsx:14 | `Object.keys` for records whose keys are not integer-like (as every exported record's are): one key per field, in field order |
| Csv.Lookup | pages/Dashboard.tsx:18 | `row[fieldName]`: the value of the first field with that key, missing when none has it |
| Csv.Join | pages/Dashboard.tsx:16-24 | `join`: the parts with the separator between neighbours |
| Csv.Escape | pages/Dashboard.tsx:22 | the body of `JSON.stringify` of a string: each character escaped in turn |
| Csv.RowLine | pages/Dashboard.tsx:17-23 | a data line: the record's cells under the header keys, joined by commas |
| Csv.CsvLines | pages/Dashboard.tsx:14-24 | there is a header line plus one line per record |
| Csv.CsvText | pages/Dashboard.tsx:9-24 | no text exactly for empty data |
| Csv.RowSplitsIntoCells | pages/Dashboard.tsx:17-23 | a row of comma-free values splits back into its cells |
| Csv.HeaderSplitsIntoKeys | pages/Dashboard.tsx:14-16 | the header splits back into the first record's keys |
| Csv.LinesSplitOnLineFeed | pages/Dashboard.tsx:15-24 | text of plain values splits on line feeds into the lines, each but the last ending in "\r" |
| Invoice.InvoiceNumberShown | pages/Dashboard.tsx:82 | the invoice number is shown when set and non-empty, otherwise the order id |
| Invoice.AddressShown | pages/Dashboard.tsx:94 | an address is always shown: the order's when non-empty, otherwise the placeholder |
| Invoice.StatusBadge | pages/Dashboard.tsx:85 | the payment badge: the payment status in upper case |
| Invoice.Row | pages/Dashboard.tsx:111-124 | a row shows the order type's unit price, the line total and the fixed HSN 0902 |
| Invoice.Rows | pages/Dashboard.tsx:111-124 | there is one row per order line, in order |
| Invoice.RowsAddUpToSubtotal | pages/Dashboard.tsx:111-124 | the Total column adds up to the order's subtotal |
| Invoice.Totals | pages/Dashboard.tsx:132-146 | CGST and SGST are equal halves of the tax; subtotal plus both is the grand total, which is the order total |
| Invoice.InvoiceSubtotalMatchesRows | pages/Dashboard.tsx:111-146 | for a consistently priced order, the shown subtotal is within one rupee of the rows' sum, and equal to it for a whole-rupee sum |
| AdminForms.NewUserFromForm | pages/Dashboard.tsx:167-182 | nothing is submitted without a name and a mobile; otherwise the account is approved whatever its role, and an empty password becomes '123456' |
| AdminForms.FormAccountCanLogIn | pages/Dashboard.tsx:167-182 | an admin-added account under a free mobile, distributors included, can sign in at once |
| AdminForms.FindUser | pages/Dashboard.tsx:402 | the selected buyer is an account with that id, or none exactly when no account has it |
| AdminForms.AddItem | pages/Dashboard.tsx:391-399 | adding appends one line for the chosen catalog product and never merges; with no choice or an unknown product nothing changes |
| AdminForms.ManualOrder | pages/Dashboard.tsx:407-429 | nothing is submitted without a buyer or lines; otherwise the order is consistently priced, Delivered, Cash, Paid, addressed to 'Counter Sale' when the address is empty, and WHOLESALE exactly for a distributor |
| AdminForms.ManualTotal | pages/Dashboard.tsx:401-405 | `calculateTotal`: the untaxed subtotal at the selected buyer's price |
| AdminForms.ManualDisplayTotal | pages/Dashboard.tsx:478 | the total the form shows: the untaxed subtotal with 5% added, rounded |
| AdminForms.CounterAddress | pages/Dashboard.tsx:418 | an absent or empty address becomes 'Counter Sale', and a given one is kept |
| AdminForms.DisplayedTotalIsOrderTotal | pages/Dashboard.tsx:401-419 | the total the form shows is the total the order records |
| AdminForms.DuplicateLinesUnderDeduct | services/store.tsx:233-243 | adding the same product twice gives two lines; first-match deduction then leaves 8 where 6 units remain |
| AdminForms.AddPoItem | pages/Dashboard.tsx:499-504 | adding appends one line for a catalog product, with that product's id and name and the given quantity and unit cost; an unknown product changes nothing |
| AdminForms.AddPoItemKeepsCosted | pages/Dashboard.tsx:502 | every line the form builds costs quantity times unit cost |
| AdminForms.PoTotal | pages/Dashboard.tsx:516 | `items.reduce((sum, i) => sum + i.totalCost, 0)`, folded from the left |
| AdminForms.PoTotalAppend | pages/Dashboard.tsx:516 | the total of concatenated lines is the sum of their totals, so the fold's direction does not matter |
| AdminForms.LinesCost | pages/Dashboard.tsx:502 | the reference cost of lines, quantity times unit cost, independent of the recorded `totalCost` |
| AdminForms.PoTotalIsLinesCost | pages/Dashboard.tsx:502-516 | for lines costed as the form costs them, the recorded total is the reference cost |
| AdminForms.PoTotalNonNegative | pages/Dashboard.tsx:516 | non-negative line costs give a non-negative total |
| AdminForms.NewPurchaseOrder | pages/Dashboard.tsx:507-519 | nothing is submitted without a supplier or lines; otherwise the purchase order is Pending with those lines, that supplier and number, and the lines' summed `totalCost` as its total |
| AdminForms.FormPurchaseOrderConsistent | pages/Dashboard.tsx:499-519 | a purchase order submitted from lines the form costed records the lines' quantity-times-unit-cost sum as its total, and a further line raises it by that line's cost |
| Reviews.ProductReviews | components/ReviewModal.tsx:11 | the list is exactly the reviews of that product |
| Reviews.ProductReviewsAfterAdd | services/store.tsx:315-317 | a new review heads its product's list and leaves the others alone |
| Reviews.RatingSumBounds | components/ReviewModal.tsx:12-14 | ratings in 1-5 sum to between the count and five times the count |
| Reviews.AverageRating | components/ReviewModal.tsx:12-14 | the average is 0 without reviews, and otherwise the count times the average is the rating sum |
| Reviews.AverageInRange | components/ReviewModal.tsx:12-14 | with documented ratings a non-empty average lies in [1, 5] |
| Reviews.ProductStats | App.tsx:272-277 | the count is the product's number of reviews; it is 0 exactly when no review names the product, and then the average is 0 |
| Reviews.ProductStatsInRange | App.tsx:272-277 | a reviewed product's average lies in [1, 5] |
| Reviews.TopReviews | pages/Home.tsx:9 | at most three reviews, each rated 4 or more and taken from the list; empty exactly when none is rated 4 or more |
| Reviews.TopReviewsOfCons | pages/Home.tsx:9 | a positive review at the head is selected first, and a head rated below 4 changes nothing |
| Reviews.TopReviewsPrefix | pages/Home.tsx:9 | the selection takes the first qualifying reviews in order: a prefix of the reviews selects a prefix of the selection |
| Reviews.TrimStart | components/ReviewModal.tsx:22 | leading JavaScript whitespace is removed and nothing else |
| Reviews.TrimEnd | components/ReviewModal.tsx:22 | trailing JavaScript whitespace is removed and nothing else |
| Reviews.Trim | components/ReviewModal.tsx:22 | `trim`: leading and then trailing JavaScript whitespace removed |
| Reviews.TrimEmptyIffBlank | components/ReviewModal.tsx:22 | a trimmed comment is empty exactly when it is all whitespace |
| Reviews.ReviewSubmission | components/ReviewModal.tsx:16-34 | no session is refused, then a blank comment; an accepted review carries the product, the user's id and name, the rating and the comment |
| Reviews.SubmitReview | components/ReviewModal.tsx:16-37 | a refusal adds nothing and keeps the form; an accepted review is added first and the form resets to 5 stars and an empty comment |
| Handlers.HandleAuth | App.tsx:21-66 | bad input changes nothing; registering refuses a taken mobile and otherwise registers; login signs in exactly when the role fallthrough finds an account, and reports a missing account exactly when no account has the mobile |
| Handlers.LoginOutcomeForExistingAccount | App.tsx:53-63 | with unique mobiles an existing mobile is never reported missing, and it signs in exactly with the right password and approval |
| Handlers.ShopPrice | App.tsx:286 | a distributor sees the distributor price and everyone else the MRP |
| Handlers.CheckoutTotal | App.tsx:418-421 | the cart drawer's and checkout page's total: the lines at the session's price, without tax |
| Handlers.GatewayAmount | App.tsx:437 | the amount sent to the gateway: the checkout total in paise |
| Handlers.CheckoutChargesLessThanOrderTotal | App.tsx:418-437 | the order total is the shown checkout total with tax, and from 10 rupees on it exceeds what the gateway is asked to charge |
| Handlers.PaymentOf | App.tsx:428-482 | COD is placed Pending with no id; otherwise the order is placed Paid with an id exactly on a gateway success or a confirmed simulation |
| Handlers.HandlePlaceOrder | App.tsx:423-486 | an empty address stops it; placeOrder runs exactly when PaymentOf allows, and then reports no session, insufficient stock or a placed order exactly as placeOrder decides, with its effects; a refused payment changes nothing |
| Handlers.CheckoutRoute | App.tsx:804-807 | checkout leads to the checkout page exactly for a signed-in user |
| Scenarios.SeedOrdersPricedConsistently | constants.ts:88-113 | both seed orders' tax and total follow the pricing rule |
| Scenarios.SeedProfitAndLoss | constants.ts:88-113 | the seed P&L counts only ORD-001: revenue 240, COGS 130 |

## Left out

- Persistence: loading from and saving to `localStorage` and the `useEffect`
  mirroring (services/store.tsx:56-108). The constructor takes the loaded
  collections.
- Rendering, tabs, navigation, markup and chart data; the hard-coded "98.5%"
  and the 0.98 settlement factor.
- Browser side effects: the CSV download, `window.print`, FileReader image
  uploads and the mailto enquiry.
- `updateInvoiceSettings` and `updatePaymentSettings`
  (services/store.tsx:307-313): they replace a settings record wholesale and
  feed only display text.
- The payment gateway SDK. Its answer is the input `GatewayAnswer`.
- Store operations that the dashboard and home page use but the store never
  defines (`brandAssets`, `updateBrandAssets`, `clearOnlineOrders`,
  `updateUserPassword`, `updateReview`, `deleteReview`, `addFakeReview`).
  The admin review form is left out for the same reason.
- Number-to-text conversion in the CSV export. `Csv.Value.Num` carries the
  text JavaScript would print.
- `toFixed` and `toLocaleString` formatting. Averages and margins are exact
  reals before formatting.
- IEEE floating point. Money is exact `real`, so, for example, `0.1 + 0.2`
  rounding effects are not modelled.
- Lone UTF-16 surrogates in `JSON.stringify`. Strings are sequences of
  Unicode scalar values.
- The duplicate review modal in App.tsx:148-265. It is identical to
  components/ReviewModal.tsx and is modelled once.
- Storefront.Store.PlaceOrder: the non-negative-stock guarantee is stated
  only for a catalog with unique product ids. With duplicate ids, the
  source's stock check looks only at the first product with an id.
- Storefront.Store.PlaceOrder: the source accepts only UPI, Card and COD, so
  Cash is excluded by a precondition.

Where the code and the specification text differ, the model follows the
code:

- A `null` CSV value renders as the two characters `""`. The replacer maps
  null to the empty string, and `JSON.stringify` then quotes it.
- `register` does no duplicate-mobile check of its own. Only the sign-in page
  checks.
- `receivePurchaseOrder` refuses only a Received order, so a Cancelled
  purchase order can still be received and restocked.
- The checkout page moves on whatever `placeOrder` returned. A refused order,
  for example for low stock, still shows the success message.
- The seeded purchase order's `totalAmount` (50000) is not the sum of its
  line costs (38000) (constants.ts:118-130). No purchase-order invariant is
  stated over the seed data.

## Findings

| source | as written | input that shows it | evidently intended | confidence | as-written member | corrected member |
|---|---|---|---|---|---|---|
| services/store.tsx:233-243 | `addOrder` takes from each product only the quantity of the FIRST order line naming it (`items.find`), while the manual-order form never merges lines (pages/Dashboard.tsx:391-399) | product p1 with stock 10; a manual order that adds p1 with quantity 2 twice | stock falls by the total ordered, to 6, not 8 | high (not executed) | Catalog.DeductFirstMatch, AdminForms.DuplicateLinesUnderDeduct | Catalog.DeductAll, Catalog.DeductAllComposes, Storefront.Store.AddOrder |
