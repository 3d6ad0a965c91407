# StockFlow point of sale: sales, M-Pesa payments and reports

This project models the sale and payment path of the StockFlow point-of-sale web application,
and the reports built on top of it, in Dafny. It covers these parts of the application:

- **Recording a sale** (`POST /api/sales`). The cart is validated. The subtotal and the
  discounted total are computed, and the sale is numbered `SL000042`-style from the number of
  sales so far. Then, all or nothing, every line is checked against stock, the sale is appended
  and each product's stock is decremented.
- **Paying by M-Pesa.** `POST /api/mpesa/initiate` sends an STK push for a sale through the
  gateway and stores the returned checkout request id as the sale's payment code.
  `POST /api/mpesa/callback` finds the first sale whose code equals either request id. It marks
  that sale completed, with the receipt number as its code, or failed.
- **The gateway helpers** (`src/lib/mpesa.ts`):
  - phone-number normalisation to the `254…` form;
  - the 14-digit timestamp;
  - the fields of the push and query payloads.
- **The reports:**
  - `GET /api/analytics`: revenue, profit, sales per day, the ten best sellers, totals per
    payment method and the low-stock list of a period;
  - `GET /api/dashboard/stats`: product counts, seven-day totals and the latest five sales.
- **The side navigation:** the store's initials and which link is highlighted.

The database is a `Schema.Db` object with a product table and a sale table. Each table is a
sequence of rows that the route methods reassign. Its invariant `Valid()` requires:

- ids are distinct;
- the i-th sale carries sale number `SaleNumber(i)`;
- every sale line references an existing product.

The loops of the routes are methods with loop invariants. Each is proved equal to a
specification function: `Decremented`, `Group`, `Profit`, `Revenue`. The properties the
application relies on are proved about those functions as lemmas.

Modules, one per file:

| Module | What it holds |
|---|---|
| `SaleNumbers` | decimal rendering, padding, the sale number and its round trip |
| `Schema` | rows, lookups, the `Db` class and its invariant |
| `SalesRoute` | the sale route |
| `MpesaLib` | phone numbers, the timestamp, payloads, the gateway calls |
| `MpesaInitiate` | the initiate route |
| `MpesaCallback` | the callback route |
| `Rows` | sums, filters, `take` |
| `Sorting` | stable sort and top-n |
| `Grouping` | keyed running totals, a JavaScript object filled in a loop |
| `SaleTotals` | revenue, profit, day keys |
| `Analytics` | the analytics report |
| `DashboardStats` | the dashboard statistics |
| `DashboardNav` | the navigation |

## Model

| member | source | states |
|---|---|---|
| SaleNumbers.Decimal | src/app/api/sales/route.ts:40 | `String(n)` of a natural: at least one digit, all digits, leading zero only for 0 |
| SaleNumbers.PadStart | src/app/api/sales/route.ts:40 | `padStart`: length is the larger of the width and the input's, the input is a suffix, the rest is fill |
| SaleNumbers.SaleNumberRoundTrip | src/app/api/sales/route.ts:39-40 | the number starts with "SL", has at least 6 digits, and parsing the digits gives count + 1 |
| SaleNumbers.SaleNumberInjective | src/app/api/sales/route.ts:39-40 | different counts give different sale numbers |
| SaleNumbers.SaleNumberExample | src/app/api/sales/route.ts:40 | count 41 gives "SL000042" |
| SaleNumbers.SaleNumberPastSixDigits | src/app/api/sales/route.ts:40 | count 999999 gives "SL1000000": the padding never truncates |
| SaleNumbers.ParseDecimalOfDecimal | src/app/api/sales/route.ts:40 | parsing the decimal rendering of n gives n back |
| Schema.FindProduct | src/app/api/sales/route.ts:46-48 | `findUnique` by id: the row found has that id; none only when no row has it |
| Schema.FindSale | src/app/api/mpesa/initiate/route.ts:23-25 | `findUnique` by id: the sale found has that id; none only when no sale has it |
| Schema.OrElse | src/app/api/mpesa/callback/route.ts:50 | JavaScript `v \|\| fallback` on strings: a missing or empty value gives the fallback |
| Schema.AppendKeepsNumbering | src/app/api/sales/route.ts:39-40 | appending a sale numbered from the current count keeps every sale numbered by its position |
| Schema.SaleNumbersUnique | src/app/api/sales/route.ts:39-40 | in a valid table no two sales share a sale number |
| Schema.ReplaceSaleKeepsInvariant | src/app/api/mpesa/callback/route.ts:46-62 | rewriting one sale's payment fields keeps ids distinct, numbering and product references |
| SalesRoute.ParsePaymentMethod | src/app/api/sales/route.ts:14 | exactly "CASH", "MPESA" and "BANK_TRANSFER" are accepted, and each gives its own method: cash, M-Pesa, bank transfer |
| SalesRoute.ValidateLines | src/app/api/sales/route.ts:6-10 | the lines pass iff every quantity is a positive whole number and every price positive; validated lines carry the input values |
| SalesRoute.Validate | src/app/api/sales/route.ts:6-17 | rejected iff no lines, a bad quantity or price, a negative discount or an unknown method; otherwise the cart carries the inputs and the discount defaults to 0 |
| SalesRoute.Total | src/app/api/sales/route.ts:36 | `max(subtotal − discount, 0)`: never above the subtotal, discount and total add up to the subtotal when the discount fits, zero iff the discount covers the subtotal |
| SalesRoute.InitialStatus | src/app/api/sales/route.ts:62-63 | pending iff paid by M-Pesa, never failed |
| SalesRoute.ToItems | src/app/api/sales/route.ts:67-72 | one stored item per cart line, carrying its product, quantity and unit price, with subtotal unit price × quantity |
| SalesRoute.ItemsAddUpToSubtotal | src/app/api/sales/route.ts:32-35 | the stored items' subtotals (price × quantity) add up to the sale's subtotal |
| SalesRoute.NewSale | src/app/api/sales/route.ts:56-74 | the new row has the given id, the next sale number, the stored items of the lines, subtotal Σ price × quantity, total `max(subtotal − discount, 0)` ≤ subtotal, the cart's method, status pending iff M-Pesa and never failed, no payment code, the seller and the time; the discount is not stored |
| SalesRoute.Decremented | src/app/api/sales/route.ts:91-100 | the product table after the sale keeps every row and its id |
| SalesRoute.CheckStock | src/app/api/sales/route.ts:45-53 | the check loop finds no failing line iff every line's product exists with enough stock; otherwise it reports the first failing line |
| SalesRoute.CreateSale | src/app/api/sales/route.ts:19-119 | unauthorised, invalid or out of stock: nothing changes and the error is 401, 400 or 500 "Insufficient stock for …" of the first failing line; otherwise the new sale is appended, stock is decremented by the lines, and the invariant holds |
| SalesRoute.DecrementStock | src/app/api/sales/route.ts:91-100 | the in-place decrement loop leaves the product table equal to `Decremented` of the old table |
| SalesRoute.StoreStaysValid | src/app/api/sales/route.ts:56-100 | appending a checked sale and decrementing stock keeps the database invariant |
| SalesRoute.DecrementStep | src/app/api/sales/route.ts:91-100 | one decrement of the loop moves the table from the state after i lines to the state after i + 1 |
| SalesRoute.DistinctLinesKeepStockNonNegative | src/app/api/sales/route.ts:45-100 | with one line per product, a sale that passes the check leaves no stock negative |
| SalesRoute.RepeatedLineDrivesStockNegative | src/app/api/sales/route.ts:45-100 | two lines of 1 for a product with 1 in stock both pass the check, and stock ends at −1 |
| SalesRoute.InactiveProductPassesCheck | src/app/api/sales/route.ts:46-52 | a product switched inactive still passes the stock check |
| SalesRoute.CheckoutExample | src/app/api/sales/route.ts:32-36 | 2 × 100 + 1 × 50 with discount 20: subtotal 250, total 230 |
| MpesaLib.Clean | src/lib/mpesa.ts:34 | removing whitespace, '-' and '+' never lengthens the string |
| MpesaLib.CleanRemovesSeparators | src/lib/mpesa.ts:34 | the cleaned string holds no whitespace, '-' or '+' |
| MpesaLib.CleanKeepsClean | src/lib/mpesa.ts:34 | cleaning a string without separators changes nothing |
| MpesaLib.CleanConcat | src/lib/mpesa.ts:34 | cleaning distributes over concatenation |
| MpesaLib.WithCountryCode | src/lib/mpesa.ts:36-44 | a leading 0 is replaced by 254; a number starting with 7 or 1 gets 254 in front; other inputs are returned as they are; the result never starts with 0, 7 or 1 and is empty iff its input was |
| MpesaLib.FormatPhoneNumber | src/lib/mpesa.ts:32-47 | the result has no separators, never starts with 0, 7 or 1, and is empty iff the cleaned input is |
| MpesaLib.FormatIdempotent | src/lib/mpesa.ts:32-47 | formatting a formatted number changes nothing |
| MpesaLib.SeparatorsIgnored | src/lib/mpesa.ts:34 | inserting separators anywhere in a number does not change its format |
| MpesaLib.LocalFormsAgree | src/lib/mpesa.ts:36-44 | "0" + s, s and "254" + s all become "254" + s for a subscriber number s starting with 7 or 1 |
| MpesaLib.LeadingZeroExample | src/lib/mpesa.ts:37-39 | "0712345678" becomes "254712345678" |
| MpesaLib.BareNumberExample | src/lib/mpesa.ts:42-44 | "712345678" becomes "254712345678" |
| MpesaLib.InternationalForm | src/lib/mpesa.ts:32-47 | "+254" + s becomes "254" + s |
| MpesaLib.InternationalExample | src/lib/mpesa.ts:32-47 | "+254712345678" becomes "254712345678" |
| MpesaLib.SpacedExample | src/lib/mpesa.ts:32-47 | "0712 345-678" becomes "254712345678" |
| MpesaLib.DigitsOf | src/lib/mpesa.ts:59 | removing non-digits leaves only digits, never more characters |
| MpesaLib.Timestamp | src/lib/mpesa.ts:57-60 | the timestamp is all digits, at most 14 of them, is the first digits of the ISO string, and has 14 iff the string has at least 14 digits |
| MpesaLib.IsoTimestamp | src/lib/mpesa.ts:57-60 | for `YYYY-MM-DDTHH:MM:SS.mmmZ` the timestamp is `YYYYMMDDHHMMSS` |
| MpesaLib.StkPush | src/lib/mpesa.ts:62-84 | shortcode defaults to "174379" and is also PartyB; PartyA and PhoneNumber are the formatted phone; the password input is shortcode + passkey (default "") + timestamp; amount, reference, description and callback URL are passed through |
| MpesaLib.StkQuery | src/lib/mpesa.ts:114-126 | the query carries the same shortcode, password input and timestamp rules and the checkout request id |
| MpesaLib.QuerySharesCredentials | src/lib/mpesa.ts:107-126 | a push and a query at the same instant carry the same shortcode, timestamp and password input |
| MpesaLib.InitiatePayment | src/lib/mpesa.ts:50-103 | no token: "Failed to get M-Pesa token"; a refused push: the gateway's error message if non-empty, otherwise "Failed to initiate M-Pesa payment"; an accepted push returns the gateway's answer to exactly `StkPush(…)` |
| MpesaLib.QueryPayment | src/lib/mpesa.ts:107-143 | succeeds iff a token is issued and the gateway answers the query payload; failures carry the fixed token or query message |
| MpesaInitiate.StatusCode | src/app/api/mpesa/initiate/route.ts:13-61 | 401 for no session, 404 for an unknown sale, 500 for a bad body or a failed payment |
| MpesaInitiate.AwaitingCallback | src/app/api/mpesa/initiate/route.ts:40-45 | only the payment code changes, to the checkout request id when the gateway returned one |
| MpesaInitiate.CompletedSaleLosesReceipt | src/app/api/mpesa/initiate/route.ts:23-45 | a completed cash sale with a receipt stays completed and loses its receipt to the checkout id |
| MpesaInitiate.Initiate | src/app/api/mpesa/initiate/route.ts:12-62 | errors change nothing; without a session a 401; a missing field or a phone number under ten characters is the schema failure (500); an unknown sale a 404; the push carries the sale's total, number and "Payment for " + number; on success only that sale's code changes |
| MpesaInitiate.PushCarriesSale | src/app/api/mpesa/initiate/route.ts:32-37 | the push amount is the sale total, the reference its number, the description "Payment for " + number, the phone fields the formatted phone |
| MpesaCallback.StatusCode | src/app/api/mpesa/callback/route.ts:11-13 | 400 iff the callback is invalid, 200 otherwise |
| MpesaCallback.FindItem | src/app/api/mpesa/callback/route.ts:41-44 | `find` by name: the first item with that name, none iff no item has it |
| MpesaCallback.ReceiptNumber | src/app/api/mpesa/callback/route.ts:41-44 | the receipt is the value of the first item named MpesaReceiptNumber; none when there is no such item or no metadata |
| MpesaCallback.FindMatch | src/app/api/mpesa/callback/route.ts:25-32 | `findFirst`: the first sale whose code equals either request id; none iff no sale matches |
| MpesaCallback.Settled | src/app/api/mpesa/callback/route.ts:40-62 | result code 0: completed with the receipt or else the checkout id as code; any other: failed with the code kept; nothing else changes and the old status is not consulted |
| MpesaCallback.Apply | src/app/api/mpesa/callback/route.ts:9-71 | invalid iff the body parsed without `Body.stkCallback`; same number of sales; only the first matching sale can change |
| MpesaCallback.HandleCallback | src/app/api/mpesa/callback/route.ts:4-72 | the route's reply and new sale table are those of `Apply`; products are not touched; the invariant holds |
| MpesaCallback.SuccessCompletes | src/app/api/mpesa/callback/route.ts:40-52 | success completes the matched sale with the non-empty receipt, or the checkout id without one; other sales unchanged |
| MpesaCallback.FailureFails | src/app/api/mpesa/callback/route.ts:55-62 | failure marks the matched sale failed and keeps its code; other sales unchanged |
| MpesaCallback.UnmatchedIsAcknowledged | src/app/api/mpesa/callback/route.ts:34-37 | an unmatched or unparsable callback is acknowledged and changes nothing |
| MpesaCallback.CompletedCanBecomeFailed | src/app/api/mpesa/callback/route.ts:55-62 | a completed sale matched by a failure callback becomes failed |
| MpesaCallback.SettledIdempotent | src/app/api/mpesa/callback/route.ts:40-62 | settling a sale twice with one callback equals settling it once |
| MpesaCallback.RedeliveryIsHarmless | src/app/api/mpesa/callback/route.ts:25-62 | when at most one sale carries either request id, delivering a callback twice equals delivering it once |
| MpesaCallback.DistinctCodesAreNotEnough | src/app/api/mpesa/callback/route.ts:25-52 | with distinct codes equal to the checkout and the merchant id, a redelivery completes a second sale under the same receipt |
| Rows.Filter | src/app/api/analytics/route.ts:52-59 | a `where` clause: every kept row passes and comes from the list, and every passing row is kept |
| Rows.Take | src/app/api/analytics/route.ts:125 | `slice(0, n)`: the first min(n, length) rows |
| Sorting.Insert | src/app/api/analytics/route.ts:100-102 | insertion adds exactly one row to the multiset of rows |
| Sorting.SortBy | src/app/api/analytics/route.ts:100-102 | the sort is a permutation of its input |
| Sorting.SortBySorted | src/app/api/analytics/route.ts:100-102 | the sort is ordered by its key |
| Sorting.SortByDistinct | src/app/api/analytics/route.ts:100-102 | rows with distinct identities stay distinct after sorting |
| Sorting.SumOfSortBy | src/app/api/analytics/route.ts:100-102 | sorting leaves any sum over the rows unchanged |
| Sorting.TopN | src/app/api/analytics/route.ts:123-125 | the first n of the sort are ordered, no kept row has a larger key than a dropped one, kept and dropped rows are the input |
| Sorting.TopNMembers | src/app/api/analytics/route.ts:123-125 | kept rows come from the input, a dropped row has no smaller key than any kept one, nothing is dropped from n or fewer |
| Grouping.IndexOf | src/app/api/analytics/route.ts:88 | the object lookup: an entry with that key, none iff no entry has it |
| Grouping.GroupTotals | src/app/api/analytics/route.ts:83-98 | keys are distinct, each key's count and sum are the totals over its elements, and a key has an entry iff some element carries it |
| Grouping.GroupConserves | src/app/api/analytics/route.ts:129-140 | the entries' counts and sums add up to the elements' totals |
| Grouping.GroupEntries | src/app/api/analytics/route.ts:83-98 | every entry is its key's entry and every element's key has one |
| Grouping.TallyInto | src/app/api/analytics/route.ts:108-121 | the grouping loop continued over more elements gives the grouping of all of them |
| Grouping.Tally | src/app/api/analytics/route.ts:85-98 | the grouping loop gives `Group` of its input |
| Grouping.Count | src/app/api/analytics/route.ts:88-97 | create-at-zero-then-add counts one element in |
| SaleTotals.DayOf | src/app/api/analytics/route.ts:86 | `startOfDay`: the day number's 24-hour slot contains the local instant |
| SaleTotals.SameDayIff | src/app/api/analytics/route.ts:86 | two sales share a day key iff they lie in the same local 24-hour slot |
| SaleTotals.AllItems | src/app/api/analytics/route.ts:108-109 | every line of every sale is among the lines |
| SaleTotals.LinesProfit | src/app/api/analytics/route.ts:75-78 | the inner profit loop over one sale's lines gives Σ (price − cost) × quantity |
| SaleTotals.TotalsAdd | src/app/api/analytics/route.ts:69-79 | revenue and profit add up over consecutive runs of sales |
| SaleTotals.DiscountLeavesProfit | src/app/api/analytics/route.ts:73-79 | a discount lowers revenue but leaves profit unchanged |
| Analytics.PeriodDays | src/app/api/analytics/route.ts:34-48 | "30days" gives 30, "90days" 90, anything else or nothing 7 |
| Analytics.WindowMembers | src/app/api/analytics/route.ts:52-59 | the report covers exactly the completed sales from the period's start up to now |
| Analytics.LongerPeriodCovers | src/app/api/analytics/route.ts:36-59 | a longer period covers every sale of a shorter one |
| Analytics.TotalProfit | src/app/api/analytics/route.ts:73-79 | the nested profit loop gives `Profit` of the sales |
| Analytics.ProductSales | src/app/api/analytics/route.ts:106-121 | the nested best-seller loop gives `Group` of all lines by product |
| Analytics.DailySalesShape | src/app/api/analytics/route.ts:83-102 | one entry per day with sales, days strictly ascending, each with that day's count and revenue |
| Analytics.DailySalesConserve | src/app/api/analytics/route.ts:83-102 | daily counts add up to the number of sales, daily revenues to total revenue |
| Analytics.BestSellersOrdered | src/app/api/analytics/route.ts:123-125 | at most ten products, each once, revenue non-increasing |
| Analytics.BestSellersTotals | src/app/api/analytics/route.ts:106-125 | each entry holds its product's quantity and revenue; no product left out earned more than one listed; ten or fewer are all listed |
| Analytics.PaymentMethodsShape | src/app/api/analytics/route.ts:129-140 | one entry per method with its count and total; counts add up to the number of sales, totals to revenue |
| Analytics.LowStockOrdered | src/app/api/analytics/route.ts:144-158 | at most ten products, least stock first |
| Analytics.LowStockRows | src/app/api/analytics/route.ts:144-158 | only active products with stock ≤ 10; none left out has less stock than a listed one; ten or fewer are all listed |
| Analytics.Summarize | src/app/api/analytics/route.ts:162-171 | average × count = revenue, or 0 without sales; margin × revenue = profit × 100, or 0 unless revenue is positive |
| Analytics.EmptyPeriodReport | src/app/api/analytics/route.ts:162-176 | with no sale in the period all summary figures are 0 and the lists are empty |
| Analytics.GetAnalytics | src/app/api/analytics/route.ts:27-177 | 401 without a session; otherwise the report `ReportOf` of the tables |
| DashboardStats.CountsBounded | src/app/api/dashboard/stats/route.ts:16-28 | low-stock count ≤ active count ≤ products; no active products gives 0, all active gives all |
| DashboardStats.RevenueAndProfit | src/app/api/dashboard/stats/route.ts:46-55 | the fold gives `Revenue` and `Profit` of the recent sales |
| DashboardStats.LatestSalesOrdered | src/app/api/dashboard/stats/route.ts:58-66 | at most five sales, newest first |
| DashboardStats.LatestSalesRows | src/app/api/dashboard/stats/route.ts:58-66 | latest sales come from the table, none left out is newer, five or fewer are all listed |
| DashboardStats.LatestIncludesPending | src/app/api/dashboard/stats/route.ts:31-66 | a pending sale is among the latest but not among the totals |
| DashboardStats.GetStats | src/app/api/dashboard/stats/route.ts:6-82 | 401 without a session; otherwise `StatsOf` the tables |
| DashboardStats.AgreesWithWeeklyAnalytics | src/app/api/dashboard/stats/route.ts:12-55 | with no future-dated sale, the seven-day totals equal the analytics report's default-period totals |
| DashboardStats.QuietWeek | src/app/api/dashboard/stats/route.ts:46-55 | no completed sale in seven days gives zero revenue, profit and transactions |
| DashboardNav.Split | src/components/dashboard/nav.tsx:36 | `split(" ")` gives at least one piece, none containing a space |
| DashboardNav.SplitJoin | src/components/dashboard/nav.tsx:36 | joining the pieces with the separator gives the string back |
| DashboardNav.FirstLetters | src/components/dashboard/nav.tsx:37-38 | one letter per non-empty word, in order: the i-th letter is the first character of the i-th non-empty word |
| DashboardNav.UpperAll | src/components/dashboard/nav.tsx:39 | upper-casing keeps the length and maps each character |
| DashboardNav.NonEmptyWords | src/components/dashboard/nav.tsx:37-38 | the words that give a letter: exactly the non-empty words, never more than the words |
| DashboardNav.Initials | src/components/dashboard/nav.tsx:35-40 | min(2, non-empty words) characters, the i-th being the upper-cased first character of the i-th non-empty word |
| DashboardNav.LeadingSpaceIgnored | src/components/dashboard/nav.tsx:36-38 | a space in front of the name changes nothing |
| DashboardNav.ThreeWordInitials | src/components/dashboard/nav.tsx:35-40 | three words give the upper-cased first letters of the first two |
| DashboardNav.TwoWordInitials | src/components/dashboard/nav.tsx:35-40 | two words give their upper-cased first letters |
| DashboardNav.NoPathNoLink | src/components/dashboard/nav.tsx:60 | without a path no link is highlighted |
| DashboardNav.SiblingPathInactive | src/components/dashboard/nav.tsx:59-60 | "/inventory-old" and the like do not highlight "/inventory" |
| DashboardNav.DescendantActive | src/components/dashboard/nav.tsx:59-60 | every path below a link highlights it |
| DashboardNav.SalesListHighlightsNothing | src/components/dashboard/nav.tsx:20-28 | "/sales" highlights none of the seven links |
| DashboardNav.UnrelatedNotBothActive | src/components/dashboard/nav.tsx:59-60 | no path highlights two links of which neither lies below the other |
| DashboardNav.NavigationUnrelated | src/components/dashboard/nav.tsx:20-28 | no link path equals or lies below another |
| DashboardNav.AtMostOneActive | src/components/dashboard/nav.tsx:58-61 | whatever the path, at most one of the seven links is highlighted |

## Left out

- Concurrency: the store is sequential. The sale count read outside the transaction (so two
  concurrent sales can get one number), transaction isolation and racing callbacks are not
  modelled; the transaction is one all-or-nothing step.
- The OAuth token request, the HTTP calls to the gateway and the base64 encoding of the
  password: the token is a boolean, the gateway a function parameter, and the payload holds
  the password's input string.
- `Math.round` of the amount: money is whole units throughout, so rounding is the identity.
- JSON parsing and zod's error details: bodies arrive as datatypes and the validation error
  carries no message.
  - The sale request arrives well-typed: its lines, quantities, prices and payment method are
    always present with the right types. Its one optional field is the discount, where `None`
    means "absent", which defaults to 0.
  - A sale request whose fields have the wrong JSON type is not modelled, so zod's 400 for it is
    not modelled either. Only the value rules (whole positive quantity, positive price,
    non-negative discount, a known payment method, at least one line) are.
  - In the initiate request, a field that is missing or not a string is `None`.
- Prisma's treatment of an `undefined` request id in the callback filter (no filter at all):
  both request ids are assumed to be strings. A database error in the callback, which is also
  acknowledged, is not modelled.
- Row order: `findFirst` and `findMany` return rows in table order, and ties in a sort keep
  that order (a stable sort); the database's real tie order is unspecified.
- Floating point: the average order value and the profit margin are exact reals.
- Calendar: `subDays` and `startOfDay` use a fixed offset from UTC; daylight-saving changes
  are not modelled. A daily entry is keyed by its day number rather than the ISO string of its
  midnight, which orders the same way.
- `toUpperCase` upper-cases ASCII letters only, and lengths count characters, not UTF-16 code
  units.
- The unread-alert count of the dashboard: the alert table is not part of this model.
- Columns the reports return but no property depends on: the product record inside a
  best-seller entry, the category of a low-stock product, the seller's name of a latest sale.
- The session: `auth()` is a boolean parameter.
- MpesaCallback.RedeliveryIsHarmless: it requires that at most one sale carries either request
  id, which is stronger than "no two sales share a payment code". Distinct codes are not enough:
  `DistinctCodesAreNotEnough` gives the case.
