# vendas-backend — a verified model of its rules

vendas-backend is an Express/Mongoose REST backend for a small sales business. It
has users (sellers and administrators), customers, products and sales. This project
models in Dafny the parts of it that hold logic:

- **Role gate and error handler.** These are the `authorize(requiredRoles)` middleware and the
  `handleError` middleware (`Authorization`, `ErrorHandling`).
- **Record-store rules of the sale and user handlers.** Each store is a class over a map from
  document id to record (`SaleController.SaleStore`, `UserController.UserStore`).
- **`saleCode` sequence initialisation.** It is a create-if-absent on the sequence
  collection (`Commons`).
- **Three report handlers** (`ReportController`):
  - the query objects they build;
  - the per-product accumulation of `getProductsReport`;
  - the rows of `getCommissionsReport`.
- **Five dashboard handlers** (`DashboardController`):
  - the day chart with its zero-filled calendar;
  - the month summary with its divide-by-zero guards;
  - the ten latest sales;
  - the twelve-month chart;
  - the seller ranking with its top-four-plus-"Outros" bucketing.

Conventions:
- Money is integer cents and percentages are `real`.
- A JavaScript division by zero is the value `NotFinite`.
- Document ids are naturals.
- A sale's `date` is an abstract instant.
- The handlers' timezone arithmetic is a `Clock` value. It gives the calendar day and month of an instant, and the instant `getEndOfToday()` stands for on a given local date.
- Calendar dates (`Calendar`) carry the year, month and day of a JavaScript `Date`.
- `setMonth` is modelled with its day roll-over (`Calendar.AddMonths`).
- Database stages (`find`, `$match`, `$group`, `$sort`, `$limit`, `$lookup`/`$unwind`) are spec functions over a sequence of documents (`SaleModel.Where`, `Grouping`, `Sorting`).
- What the JavaScript does with their results is modelled as written, loops as loops.

The code does plain CRUD on sales. It has no proration of a header discount or addition
across items, no sale-code assignment (nothing increments the sequence) and no soft
cancellation (`destroy` deletes the document). The model follows the code. The sales
schema has no `canceledAt` path, but the dashboard pipelines filter on
`canceledAt: null`. So a stored document (`SaleModel.SaleDoc`) may carry that field, and
the dashboard counts only documents without it.

## Model

| member | source | states |
|---|---|---|
| Common.PercentOf | src/controllers/DashboardController.js:391 | `(a / b) * 100` is finite exactly when `b != 0`, and then multiplied back by `b` gives `a * 100` |
| SaleModel.Where | src/controllers/ReportController.js:37 | a `find`/`$match` keeps exactly the documents of the collection satisfying the filter, each no more often than stored |
| SaleModel.WhereExtensional | src/controllers/ReportController.js:37 | two filters that agree on every document select the same sequence |
| Authorization.Authorize | src/middlewares/authorization.js:1-35 | no user gives 401 "Usuário não autenticado"; a missing or empty role gives 403; a role outside the list gives 403 "Usuário não possui permissão"; the request passes exactly when the role is in the list |
| Authorization.DashboardGuard | src/routes/dashboardRoutes.js:8-12 | a dashboard route is reached exactly by an authenticated user whose role is "admin"; anyone else gets 401 without a user and 403 with one |
| Authorization.AuthenticationFirst | src/middlewares/authorization.js:7-31 | a request without a user is refused with 401 whatever roles are required; any other refusal is the 403 error |
| ErrorHandling.StatusOf | src/middlewares/errorHandling.js:3 | a missing or zero `statusCode` becomes 500, any other is kept |
| ErrorHandling.HandleError | src/middlewares/errorHandling.js:3-7 | the response has that status; its body is the error's message unless the status is 500, which always gets the generic message |
| ErrorHandling.ServerErrorsHideDetail | src/middlewares/errorHandling.js:4-7 | a 500 never shows the error's own message; any other status shows exactly it and nothing else |
| ErrorHandling.AuthorizationErrorsSurface | src/middlewares/errorHandling.js:3-4 | the 401/403 errors of `authorize` reach the client with their own code and message |
| Commons.Initialized | src/utils/commons.js:8-13 | 'saleCode' is created with `seq = 0` when absent, an existing one is untouched, and no other document changes |
| Commons.InitializeIdempotent | src/utils/commons.js:8-13 | initialising twice gives the state of initialising once |
| Commons.SequenceStore.InitializeSequence | src/utils/commons.js:3-17 | look-up then conditional insert; a failing look-up or insert is swallowed and leaves the collection as it was |
| Commons.InitializeTwice | src/utils/commons.js:3-17 | two fault-free runs on the store leave the state of one |
| SaleController.Stamped | src/controllers/SaleController.js:28-32 | the created record is the body with `user` set to the requester |
| SaleController.StampIgnoresBodyUser | src/controllers/SaleController.js:31 | whatever `user` the client sends has no effect on the created record |
| SaleController.Overwrite | src/controllers/SaleController.js:53-59 | exactly customer, date, subtotal, discount, addition, total and items come from the body; `user` stays |
| SaleController.OverwriteIdempotent | src/controllers/SaleController.js:53-59 | applying an update twice equals applying it once, and the body's `user` is ignored |
| SaleController.SaleStore.constructor | src/models/Sale.js:3-19 | an empty sales collection |
| SaleController.SaleStore.Index | src/controllers/SaleController.js:5 | every stored sale with its `_id`, and nothing else; one entry per stored document |
| SaleController.SaleStore.Show | src/controllers/SaleController.js:13-25 | the sale with that id, or 404 "Venda não encontrada" |
| SaleController.SaleStore.Store | src/controllers/SaleController.js:27-38 | a fresh id maps to the stamped record; nothing else changes |
| SaleController.SaleStore.Update | src/controllers/SaleController.js:40-66 | absent id: 404; a requester other than the recorded user: 404 with the not-owner message and store unchanged; otherwise only that sale is overwritten; no sale ever changes owner |
| SaleController.SaleStore.Destroy | src/controllers/SaleController.js:68-81 | absent id: 404 and no change; otherwise that sale is removed |
| UserController.Public | src/controllers/UserController.js:130 | the projection `{ password: 0 }`: the id and every other field of the record, `imageUrl` included |
| UserController.RegistrationRole | src/controllers/UserController.js:12-13 | "admin" exactly when no user is an active admin, "user" otherwise |
| UserController.FirstAdmin | src/controllers/UserController.js:12-13 | the first registration into an empty collection yields an admin; none yields one while an active admin exists |
| UserController.UserStore.constructor | src/models/User.js:4-18 | an empty users collection |
| UserController.UserStore.Index | src/controllers/UserController.js:128-136 | every user, each without the password |
| UserController.UserStore.Show | src/controllers/UserController.js:138-150 | the user without the password, or 404 "Usuário não encontrado" |
| UserController.UserStore.RecoverPassword | src/controllers/UserController.js:108-126 | success exactly when the e-mail is stored, else 404 "Email não encontrado." |
| UserController.UserStore.Insert | src/models/User.js:5 | a new record under a fresh id keeps e-mails unique |
| UserController.UserStore.RegisterUser | src/controllers/UserController.js:7-37 | a used e-mail: 401 and no change; otherwise a new active user with the registration role; e-mails stay unique |
| UserController.UserStore.Store | src/controllers/UserController.js:152-180 | a used e-mail: 401 and no change; otherwise a new active user with the schema default role "user" and the given commission |
| UserController.UserStore.Update | src/controllers/UserController.js:182-218 | absent id: 404; a role outside the schema enum or another user's e-mail: 500 and no change; succeeds exactly otherwise, overwriting e-mail, name, role, active and commission only |
| UserController.UserStore.Destroy | src/controllers/UserController.js:220-238 | absent id: 404 and no change; otherwise that user is removed |
| UserController.UserStore.ReplacePassword | src/controllers/UserController.js:82-106 | an unknown e-mail: 404 and no change; otherwise only that user's password digest is replaced |
| ReportController.SalesQuery | src/controllers/ReportController.js:13-34 | fails exactly when `endDate` comes without `startDate`; otherwise the query selects exactly the sales in the window with the given user and customer |
| ReportController.ProductsQuery | src/controllers/ReportController.js:51-66 | the same date rule, with the user filter |
| ReportController.UserIds | src/controllers/ReportController.js:148 | a scalar `userId` becomes a one-element list, a list is used as given |
| ReportController.CommissionsQuery | src/controllers/ReportController.js:133-150 | always built; selects exactly the sales in the window whose user is among the ids, a scalar id becoming `$in: [id]` |
| ReportController.Find | src/controllers/ReportController.js:37 | exactly the stored sales the query matches |
| ReportController.GetSalesReport | src/controllers/ReportController.js:7-44 | 500 exactly when `endDate` comes without `startDate`; otherwise exactly the sales in the window with the given user and customer |
| ReportController.Accumulate | src/controllers/ReportController.js:75-92 | an item's product gets an entry on first sight with its name and cost, appended to the key order; that entry gains the item's quantity, `quantity * cost` and price, and its result is sales less cost; every other entry stays |
| ReportController.Accumulated | src/controllers/ReportController.js:72-94 | after all items, the key order lists exactly the entries, each entry sits under its own product id, and its result is its sales less its cost |
| ReportController.AccumulatedRows | src/controllers/ReportController.js:72-94 | one entry per product that occurs; each has the product's name and cost, the summed quantities, `quantity * cost` and prices, and `resultValue == totalSales - totalCost`; keys listed once, ordered by the position of each product's first item |
| ReportController.NotOccurs | src/controllers/ReportController.js:76-87 | a product that occurs in no item has nothing summed for it |
| ReportController.Finalize | src/controllers/ReportController.js:98 | an entry gets `resultPercent = resultValue / totalCost * 100`, every other field unchanged |
| ReportController.ValuesIn | src/controllers/ReportController.js:119 | `Object.values` lists the entries in key insertion order |
| ReportController.SelectProduct | src/controllers/ReportController.js:107-120 | with a product id, `[entry]` if it has one and `[]` if not; without, all entries |
| ReportController.FindIsProductsSelection | src/controllers/ReportController.js:51-69 | the built query selects the same sales as the product report's filter |
| ReportController.AccumulateProducts | src/controllers/ReportController.js:72-94 | the nested `forEach` loops compute the accumulation, and fail exactly when some item's product is missing |
| ReportController.FlattenResolvable | src/controllers/ReportController.js:75 | an item whose product is missing makes the whole selection fail |
| ReportController.FinalRows | src/controllers/ReportController.js:97-104 | every entry finalised, the same keys |
| ReportController.FinalizeAll | src/controllers/ReportController.js:97-104 | the `for ... in` loop finalises every entry exactly once |
| ReportController.FinalRowsWellFormed | src/controllers/ReportController.js:72-104 | after finalising, each entry still holds its product's sums, and its percent is its result over its cost |
| ReportController.ProductsReportOf | src/controllers/ReportController.js:97-120 | the finalised, selected entries: with a product id at most one, of that product; without, one per key of the order; each with `resultPercent = resultValue / totalCost * 100` |
| ReportController.SelectWellFormed | src/controllers/ReportController.js:107-120 | the response has one entry (of that product) exactly when the requested product occurs; without a product id, one entry per product, no product twice |
| ReportController.ProductsReportContents | src/controllers/ReportController.js:46-126 | the full products report: per product sold, its totals and percent; the product filter as above |
| ReportController.Priced | src/controllers/ReportController.js:79-90 | exactly the stored products that have a cost, with their name and cost |
| ReportController.GetProductsReport | src/controllers/ReportController.js:46-126 | 500 exactly when the query throws, a sold item's product is missing, or a sold product has no cost (`unitCost.toFixed` throws); otherwise the report of the selected sales over the priced products |
| ReportController.CommissionOf | src/controllers/ReportController.js:160 | an undefined commission counts as 0 |
| ReportController.SchemaStored | src/controllers/UserController.js:162 | what strict mode saves of a user: no commission, every other field kept |
| ReportController.StrictModePaysNoCommission | src/controllers/ReportController.js:156-164 | with the users as strict mode saves them, the report succeeds exactly when it would otherwise, and every row has commission 0 and commission value 0 |
| ReportController.CommissionRows | src/controllers/ReportController.js:156-171 | one row per sale, in query order, with the sale's id, date and total, its customer and seller, and `comissionValue * 100 == total * commission`; fails exactly when some customer or user is missing |
| ReportController.GetCommissionsReport | src/controllers/ReportController.js:128-178 | the rows of the sales in the window for the given users, or 500 when a row cannot be built |
| Calendar.IndexInjective | src/controllers/DashboardController.js:202-205 | two months with the same index are the same month |
| Calendar.Digits | src/controllers/DashboardController.js:292 | `String(n)` is a non-empty string of decimal digits |
| Calendar.DigitsInjective | src/controllers/DashboardController.js:292 | different numbers print differently |
| Calendar.Pad2 | src/controllers/DashboardController.js:292 | `padStart(2, "0")` of a month number is its two decimal digits |
| Calendar.Pad2Injective | src/controllers/DashboardController.js:292 | different month numbers pad differently |
| Calendar.MonthIdParts | src/controllers/DashboardController.js:292 | "YYYY-MM" ends in the two month digits, after the year's digits and a dash |
| Calendar.MonthIdInjective | src/controllers/DashboardController.js:292 | different months have different "YYYY-MM" ids, so the look-up by id finds that month only |
| Calendar.MonthLabels | src/controllers/DashboardController.js:297-298 | the id is "YYYY-MM" and the name "MM/YYYY", the month always two digits |
| Calendar.DaysIn | src/controllers/DashboardController.js:192 | a month has 28 to 31 days, 29 exactly for February of a leap year |
| Calendar.NextMonth | src/controllers/DashboardController.js:207 | the following month, December rolling into January |
| Calendar.MonthsStarting | src/controllers/DashboardController.js:197-208 | `n` consecutive months from the first |
| Calendar.ShiftMonth | src/controllers/DashboardController.js:192 | the month `k` months away |
| Calendar.AddMonths | src/controllers/DashboardController.js:192 | `setMonth(getMonth() + k)` keeps the day when the target month has it, and otherwise rolls over into the next month |
| Calendar.NotAfterMonths | src/controllers/DashboardController.js:201 | a date not after another is in the same or an earlier month |
| DashboardController.Matched | src/controllers/DashboardController.js:27-34 | exactly the documents without `canceledAt` dated within the window |
| DashboardController.DayList | src/controllers/DashboardController.js:13-24 | the `while` loop gives one zero entry per day from the first to the last, in ascending order |
| DashboardController.SalesByDay | src/controllers/DashboardController.js:26-59 | one group per day that has sales, no day twice, carrying that day's count and amount |
| Grouping.FindById | src/controllers/DashboardController.js:65 | `find` by id: a row with that id exactly when one exists, and then the first such row |
| DashboardController.Merge | src/controllers/DashboardController.js:64-67 | same length and order as the day list; each slot is the day's group when it has one, else the zero entry |
| DashboardController.DaySlots | src/controllers/DashboardController.js:14-67 | the intended chart: per day its count and amount of counted sales |
| DashboardController.MergeIsDaySlots | src/controllers/DashboardController.js:61-67 | merging the zero list with the groups gives each day its count and amount, zero for a day without sales |
| DashboardController.GetSalesCurrentMonth | src/controllers/DashboardController.js:5-74 | the response is one slot per day of the month so far, each that day's count and amount |
| DashboardController.DaySlotsStep | src/controllers/DashboardController.js:47-53 | one more document adds its total and one sale to the chart if its day is in range, and nothing otherwise |
| DashboardController.DayChartConserves | src/controllers/DashboardController.js:47-67 | when every counted sale falls on a chart day, the slots add up to the number of sales and their total |
| DashboardController.ZeroChart | src/controllers/DashboardController.js:14-24 | a chart of no sales sums to zero |
| DashboardController.Average | src/controllers/DashboardController.js:106-110 | `n > 0 ? sum / n : 0`: times `n` gives back `sum`; 0 for a non-positive divisor |
| DashboardController.TotalSalesCurrentMonth | src/controllers/DashboardController.js:77-130 | total and count of the counted sales; the averages per sale and per elapsed day; all four zero when no sale is counted |
| DashboardController.ChartMatchesSummary | src/controllers/DashboardController.js:82-98 | with a day function that never goes back in time, the day chart sums to the month summary's total and count |
| DashboardController.WhereSorted | src/controllers/DashboardController.js:155-176 | dropping documents without customer or user keeps the newest-first order |
| DashboardController.WhereAll | src/controllers/DashboardController.js:155-176 | when every document has its customer and user, the joins drop nothing |
| DashboardController.Newest | src/controllers/DashboardController.js:147-154 | `$sort: { date: -1 }` then `$limit: 10` keeps min(n, 10) of the documents, newest first, and drops none newer than one it keeps |
| DashboardController.LastSales | src/controllers/DashboardController.js:137-177 | at most ten sales, each counted and with its customer and user documents, newest first |
| DashboardController.LastSalesNewestFirst | src/controllers/DashboardController.js:132-186 | when every counted sale has its customer and user, the response is exactly the ten most recent of them, newest first |
| DashboardController.MonthsFrom | src/controllers/DashboardController.js:198-208 | the months the loop as written visits, all between the first and the last month |
| DashboardController.MonthListAsWritten | src/controllers/DashboardController.js:198-208 | the `while` loop with `setMonth(getMonth() + 1)` produces exactly those months |
| DashboardController.MonthsFromPush | src/controllers/DashboardController.js:201-208 | one loop step appends the current month and moves to the date one month on |
| DashboardController.WindowStart | src/controllers/DashboardController.js:191-192 | the window start as written: `getEndOfToday()` moved back eleven months with `setMonth` is a valid date |
| DashboardController.MonthsFromStep | src/controllers/DashboardController.js:201-208 | a date not after the end contributes its month, and the loop goes on one month later |
| DashboardController.SkipSteps | src/controllers/DashboardController.js:207 | each of the eleven dates the loop visits from 30 April contributes its month and steps to the next |
| DashboardController.SkipFrom | src/controllers/DashboardController.js:198-208 | from the k-th of those dates the loop visits `11 - k` months, none of them February |
| DashboardController.MonthsFromSkipsFebruary | src/controllers/DashboardController.js:198-208 | started on 30 April, the loop to 30 March visits 11 months and leaves February out |
| DashboardController.MonthChartMissesFebruary | src/controllers/DashboardController.js:190-208 | on 30 March the window starts on 30 April of the year before, and the month list as written has 11 entries and misses February, which lies inside the window |
| DashboardController.MonthList | src/controllers/DashboardController.js:197-208 | the corrected loop lists every month from the first to the last, in order |
| DashboardController.MonthsStartingEnds | src/controllers/DashboardController.js:197-208 | the corrected list starts at the window's first month and ends at the current one |
| DashboardController.SalesByMonth | src/controllers/DashboardController.js:210-282 | no document when nothing is counted; otherwise one row per month with sales, no month twice, carrying its id, name and total |
| DashboardController.MonthRowsOf | src/controllers/DashboardController.js:237-264 | the projected rows are exactly the rows of the months that have sales, with distinct ids |
| DashboardController.MonthTotal | src/controllers/DashboardController.js:237-264 | a month's row has its "YYYY-MM" id, its "MM/YYYY" name and the `$sum` of its counted sales' totals; a month without sales has the placeholder row |
| DashboardController.MonthSlot | src/controllers/DashboardController.js:291-301 | a month's entry has the month's id; it is the pipeline's row with that id when there is one, else the placeholder, which is also the entry of every month when the pipeline gave no document |
| DashboardController.ZeroMonth | src/controllers/DashboardController.js:296-300 | the placeholder has the month's "YYYY-MM" id, its "MM/YYYY" name and total 0 |
| DashboardController.FillMonths | src/controllers/DashboardController.js:287-313 | one entry per month of the list, in order: the found row or the placeholder, all placeholders when the pipeline gave no document |
| DashboardController.PushSlot | src/controllers/DashboardController.js:293-301 | pushing a month's entry keeps the entries before it |
| DashboardController.MonthSlotIsMonthTotal | src/controllers/DashboardController.js:291-302 | a month's filled entry is its own row: its id, its name and the total of its counted sales, 0 without sales |
| DashboardController.MonthChartOf | src/controllers/DashboardController.js:198-313 | per month of the list, its id, name and total |
| DashboardController.MonthChart | src/controllers/DashboardController.js:198-313 | month list, pipeline and fill together give each month of the window its total |
| DashboardController.GetSalesByMonth | src/controllers/DashboardController.js:188-318 | with the corrected window and month list: twelve entries, one per month from the month eleven back to the current one, each its total of the sales counted from the first day of that first month to the end of today |
| DashboardController.IntendedWindowStart | src/controllers/DashboardController.js:190-192 | the corrected window start: the first day of the month eleven months back, so the window spans twelve whole months |
| DashboardController.WindowMonths | src/controllers/DashboardController.js:190-195 | the window as written starts eleven months back, or ten when today's day does not exist in that month, so it spans 12 or 11 months |
| DashboardController.WindowStartsMidMonth | src/controllers/DashboardController.js:191-192 | on a day the month eleven back has, the window as written starts in the intended first month but on today's day of the month (14 October 2026 gives 14 November 2025, not 1 November) |
| DashboardController.FirstMonthPartial | src/controllers/DashboardController.js:212-219 | a sale from the start of the intended window up to the end of the as-written start day is in the corrected selection and not in the `$match` as written |
| DashboardController.WindowSkipsApril | src/controllers/DashboardController.js:191-192 | on 31 March the window as written starts on 1 May of the year before, spans 11 months and leaves out April, the intended first month |
| DashboardController.SumSellersSplit | src/controllers/DashboardController.js:368-372 | the sellers' grand total is the top four's plus the rest's |
| DashboardController.Plain | src/controllers/DashboardController.js:368 | the first four sellers pass unchanged, without a percent |
| DashboardController.SumRowsOfTotals | src/controllers/DashboardController.js:372 | the grand total depends only on the rows' totals |
| DashboardController.BucketSellers | src/controllers/DashboardController.js:366-395 | more than five sellers: the first four plus "Outros" with the rest's total; five or fewer: each seller with `percent = total / sum * 100`; the grand total is kept either way |
| DashboardController.Shares | src/controllers/DashboardController.js:386-392 | every seller unchanged but for its share of the grand total |
| DashboardController.SumPercentsScaled | src/controllers/DashboardController.js:387-392 | the percentages times the grand total give 100 times the sum of totals |
| DashboardController.PercentsAddUp | src/controllers/DashboardController.js:387-392 | shares of a non-zero grand total add up to 100 |
| DashboardController.SharesAddUp | src/controllers/DashboardController.js:386-392 | with five sellers or fewer the percentages add up to 100, or are all NaN/Infinity when the grand total is 0 |
| DashboardController.Joined | src/controllers/DashboardController.js:339-349 | the counted sales whose user document exists |
| DashboardController.SellerGroups | src/controllers/DashboardController.js:350-356 | one entry per seller with sales, no seller twice: the seller's id, name and summed totals |
| DashboardController.SellerGroupsOf | src/controllers/DashboardController.js:350-356 | the entries built are exactly the sellers' groups |
| DashboardController.SalesBySeller | src/controllers/DashboardController.js:329-362 | the seller groups, no seller twice, ordered by descending total |
| DashboardController.GetSalesBySeller | src/controllers/DashboardController.js:320-400 | the bucketing above applied to the ranked sellers of the window as written, from the end of the day eleven months back to the end of today |
| Sorting.Insert | src/controllers/DashboardController.js:357-361 | inserting into a descending sequence keeps it descending and adds exactly that element |
| Sorting.SortDesc | src/controllers/DashboardController.js:357-361 | the result is descending and a permutation of the input |
| Sorting.TakeSorted | src/controllers/DashboardController.js:152-154 | a prefix of a descending sequence is descending, and nothing after it has a larger key |
| Sorting.DistinctKeysPermuted | src/controllers/DashboardController.js:357-361 | reordering a sequence whose elements have distinct keys keeps the keys distinct |
| Grouping.GroupKeys | src/controllers/DashboardController.js:48-52 | each key that occurs, exactly once |
| Grouping.AbsentKey | src/controllers/DashboardController.js:48-52 | a key without documents has count 0 and amount 0 |
| Grouping.PresentKey | src/controllers/DashboardController.js:48-52 | a key with documents has a positive count |

## Left out

- Database access, `populate` and `$lookup`/`$unwind` are replaced by spec functions over in-memory sequences and maps. A missing referenced document is the only effect of a join modelled.
- The bcrypt hash is an input string, the password digest. The model leaves out passport and JWT, so `loginUser` and `generateToken` are not modelled. So is the `pre('save')` hook of src/models/User.js.
- Timezone conversion is not modelled. `getFirstDayOfMonth`, `getEndOfToday`, the start of a local day and `format`/`$dateToString` are the fields of `DashboardController.Clock`. The model assumes that `format` without a timezone and `$dateToString` with one agree on a date's day. A formatted day or month is its number, not its string; `Calendar.MonthIdInjective` shows the month strings are distinct.
- The day-of-month difference taken as the elapsed days of the month is abstracted as `Clock.dateOf`.
- Day and month numbers do not model daylight-saving shifts.
- `Calendar.NotAfter` compares two dates with the same time of day.
- The months pipeline groups by the UTC `$year`/`$month`, while the list iterates local dates. This is `Clock.monthOf` and is not reconciled with the local month.
- ReportController.Finalize: does not model the `toFixed(2)` rounding of lines 99-103. Rounding is floating-point detail; values are exact reals and integer cents.
- Floating-point details are not modelled. A zero divisor gives `NotFinite`; NaN and Infinity are not told apart.
- An invalid ObjectId string or an `Invalid Date` string in a filter is not modelled. Both end in the 500 branch.
- The model leaves out an array-valued `userId` in `getSalesReport` and `getProductsReport`, and an array-valued `productId`.
- The model leaves out the order `$sort: { _id: 1 }` gives to the day and month groups. The handlers look groups up by id, so that order does not reach the response.
- Mongo's `%Y` renders years below 1000 with four digits; the model prints them plainly, with `String(year)`.
- DashboardController.SalesBySeller: the order among sellers with equal totals is the model's insertion sort, not Mongo's. The contract states only descending totals, the same elements and distinct sellers.
- DashboardController.WindowStart: requires a year of at least 1, and `Calendar.AddMonths` moves by less than twelve months either way. These are the only distances the handlers use.
- DashboardController.GetSalesByMonth: uses the corrected window and month list (see Findings). It counts the whole first month, from its first day, while the source counts from the end of today's day of the month eleven months back (`DashboardController.FirstMonthPartial`). The window start as written is `DashboardController.WindowStart` and the loop as written is `DashboardController.MonthListAsWritten`.
- SaleController.SaleStore.Update: every body field is present. The handler assigns each destructured field even when the body omits it, so saving unsets that field; bodies with missing fields are not modelled.
- SaleController.SaleStore.Store: every body field is present; a body without some field would create a sale without it, which is not modelled.
- UserController.UserStore.Update: every body field is present. An omitted field is assigned `undefined` and unset on save, and an omitted `role` passes the `enum` check; bodies with missing fields are not modelled.
- SaleModel.Item: item quantities are whole numbers. The schema's `quantity` is a JavaScript Number, and a fractional quantity (a weight, say) is not modelled; the products report sums quantities and multiplies them by the cost in integer arithmetic.
- Concurrency is not modelled, including the check-then-create race of `initializeSequence`. Stores are sequential.
- CustomerController and ProductController are not part of this model. They are plain CRUD with a 404 on a missing id.
- UserController.UserStore.Store: stores the commission as the controllers intend. The User schema declares no `commission` path, so Mongoose's strict mode would drop it (see Findings, where `ReportController.SchemaStored` models the save as written).
- UserController.UserStore.Update: keeps the assigned commission in the stored record, as the controllers intend; strict mode would not save it (see Findings).
- Console logging is not modelled.
- The server-error branches (`catch` returning 500) of the sale and user handlers are not modelled, except for the save failures of `update`.

## Findings

| source | as written | input that shows it | evidently intended | confidence | as-written member | corrected member |
|---|---|---|---|---|---|---|
| src/controllers/DashboardController.js:198-208 | the month list advances with `currentDate.setMonth(currentDate.getMonth() + 1)` from a date that keeps today's day of the month, so a 29th, 30th or 31st overflows a shorter month into the next one and that month is never listed | today 30 March of year y: the window starts 30 April of y-1; the loop reaches 30 January y, jumps to 2 (or 1) March y, and lists 11 months without February y, though February's sales lie inside the `$match` window | one entry for every month from the window's first month to the current month | not executed | DashboardController.MonthChartMissesFebruary | DashboardController.MonthList |
| src/controllers/DashboardController.js:191-192 | the window start moves `getEndOfToday()` back with `initialDate.setMonth(initialDate.getMonth() - 11)`. That keeps today's day of the month and its end-of-day time. On a day the month eleven back has, the `$match` (and, with lines 323-324, the seller ranking) starts partway into the first month, so the first entry holds only part of its month. On a day that month lacks, the date overflows into the month after. | today 14 October 2026: the window starts at the end of 14 November 2025, so sales of 1-14 November 2025 are missing from the November entry (WindowStartsMidMonth, FirstMonthPartial). Today 31 March of year y: "31 April" of y-1 becomes 1 May of y-1, so the `$match` and the month list start in May, April of y-1 is left out, and the chart has 11 entries (WindowSkipsApril) | the month chart covers the last 12 months including the current one, each whole, from the first day of the month eleven back; the seller ranking's comment asks only for "12 months back from the current date", so the model keeps its window as written | not executed | DashboardController.WindowStartsMidMonth | DashboardController.IntendedWindowStart |
| src/models/User.js:4-18 | the User schema declares no `commission` path, so under Mongoose's default strict mode `User.create` at UserController.js:162 and the save at UserController.js:198-201 drop the commission the handlers pass | a user stored with commission 10 who makes a sale of 1000: the saved user has no commission, lines 159-161 of ReportController.js read `undefined`, and the report pays 0 | the schema declares `commission: Number`, so the report pays `total * commission / 100` | not executed | ReportController.StrictModePaysNoCommission | ReportController.CommissionRows |
