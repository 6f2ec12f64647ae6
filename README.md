# Restaurant billing: orders, bills and the daily report

This project models the order and billing core of a restaurant billing
system. A waiter builds a draft order from menu items on the Orders page and
submits it. The server validates and stores it. Staff move it through preparing
and served, and the Bills page takes payment by cash or card. The server prints
a bill whose totals are recomputed from the order's lines, and produces a daily
sales report.

The modules follow the program's files:

- `Common` (common.dfy): JavaScript white space, `trim`, and `filter`
  with its order-preservation property.
- `MenuModel` (menu_model.dfy): the menu-item schema of
  `server/models/Menu.js`.
- `OrderModel` (order_model.dfy): the order schema of
  `server/models/Order.js`. It also holds the record updates the order routes
  perform.
- `OrderRoutes` (order_routes.dfy): the handlers of
  `server/routes/orders.js` as methods of a class `OrderStore`. The class
  holds a map from id to order and the ids in creation order. The model lists
  the orders in that order; `find()` without a sort promises none.
- `BillRoutes` (bill_routes.dfy): the bill content and the daily report
  of `server/routes/bills.js`. The bill is a pure function. The item loop is a
  method with a loop proved against that function.
- `JsParse` (js_parse.dfy): `parseInt` as applied to the table-number
  field.
- `OrdersPage` (orders_page.dfy): `client/src/pages/Orders.jsx`. It has
  the draft order as a class whose methods update its fields, the create
  request, and the buttons as predicates. Lemmas prove that the buttons lead
  an order through pending, preparing, served, paid and completed, one step
  per click.
- `BillsPage` (bills_page.dfy): `client/src/pages/Bills.jsx`. It covers
  the split into unpaid and paid bills and the payment request each button
  sends.

Money is modelled as follows:

- Prices, quantities and every bill amount are whole rupees (`int`).
- The stored `subtotal`, `tax` and `total` of an order are exact reals. The
  Orders page sends the unrounded `subtotal * 0.1` as the tax, and the model
  keeps it exactly as a tenth.
- The bill's `Math.round(subtotal * 0.1)` is `(subtotal + 5) / 10`. It is
  specified by the rounding window, because `Math.round` rounds halves up.

The code behaves as follows, and so does the model:

- The server does not validate status or payment transitions. Any enum value
  is accepted from any state. The order is enforced only by the buttons of the
  Orders page.
- The daily report selects paid orders by `createdAt`, not by settlement
  time.
- `paymentMethod` defaults to `cash` on every new order, so it is set while
  the order is still unpaid.
- Paying an already paid order again with another method succeeds and
  replaces the method.
- A save refreshes `updatedAt` only when it changes the order, so an update
  that sends the values the order already has leaves it as it was.
- The bill's rounded tax and the stored unrounded tax can differ. A subtotal
  of 455 is stored with total 500.5 and billed as 501.

## Model

| member | source | states |
|---|---|---|
| Common.TrimStart | server/models/Menu.js:4-8 | the result drops only JavaScript white space from the front and starts with a non-white-space character |
| Common.TrimStartIsSuffix | server/models/Menu.js:4-8 | what `TrimStart` returns is the input's own suffix |
| Common.TrimEnd | server/models/Menu.js:4-8 | the result is a prefix of the input, only white space is dropped, and it ends in a non-white-space character |
| Common.Filter | client/src/pages/Bills.jsx:128-132 | an element is kept exactly when it is in the input and satisfies the condition, and the result is no longer than the input |
| Common.FilterMultiplicity | client/src/pages/Bills.jsx:128-132 | every occurrence of an element that satisfies the condition is kept, and no other element is |
| Common.FilterIsSubsequence | client/src/pages/Bills.jsx:128-132 | filtering keeps the relative order of the kept elements |
| MenuModel.ParseCategory | server/models/Menu.js:14-18 | the enum accepts a string exactly when it names one of the four categories, and returns that category |
| MenuModel.Trim | server/models/Menu.js:7 | trimming never lengthens a string; which characters it keeps is stated by `TrimKeepsInner` and by the contracts of `TrimStart` and `TrimEnd`, and that the result has no white space at its ends by `TrimIsTrimmed` |
| MenuModel.TrimKeepsInner | server/models/Menu.js:7 | the trimmed string is a run of the input's own characters, starting right after the leading white space |
| MenuModel.TrimIsTrimmed | server/models/Menu.js:4-8 | a trimmed string has white space at neither end |
| MenuModel.TrimOfTrimmed | server/models/Menu.js:19-22 | a string without white space at its ends is stored unchanged |
| MenuModel.TrimIdempotent | server/models/Menu.js:4-8 | trimming twice is trimming once |
| MenuModel.ValidMenuItem | server/models/Menu.js:3-22 | a stored menu item has a non-empty trimmed name, a price of at least 0, and a trimmed description if it has one |
| MenuModel.AcceptsMenuInput | server/models/Menu.js:3-18 | a create request is valid exactly when it has a name that is not blank after trimming, a price of at least 0 and a category in the enum |
| MenuModel.NewMenuItem | server/models/Menu.js:3-33 | a menu item is created exactly when the name is non-blank after trimming, the price is at least 0 and the category is in the enum; the stored item has the given id, the trimmed name, the price, the category named, the trimmed description when one is given and none otherwise, the given image or else an empty one, and the given availability or else true |
| OrderModel.ParseStatus | server/models/Order.js:27-31 | the status enum accepts exactly the five names and returns the status named |
| OrderModel.ParsePaymentStatus | server/models/Order.js:44-48 | the payment-status enum accepts exactly "pending" and "paid" |
| OrderModel.ParseMethod | server/models/Order.js:49-53 | the payment-method enum accepts exactly "cash", "card" and "upi" |
| OrderModel.NewLine | server/models/Order.js:3-19 | a line is accepted exactly when it has a menu item, a quantity of at least 1 and a price; a negative price is accepted; notes are optional |
| OrderModel.NewLines | server/models/Order.js:26 | the lines are accepted exactly when each one is, and are stored in request order |
| OrderModel.ValidOrder | server/models/Order.js:9-13 | every line of a stored order has a quantity of at least 1 |
| OrderModel.AcceptsOrderFields | server/models/Order.js:22-53 | the order-level fields are valid exactly when the table number and the three totals are present and any method given is in the enum |
| OrderModel.NewOrder | server/routes/orders.js:30-43 | an order is created exactly when table number, subtotal, tax and total are present, any method is in the enum and every line is accepted; it is pending and unpaid, the method defaults to cash, both timestamps are the creation time, and the aggregates are stored as sent without being related to each other |
| OrderModel.NewOrderIgnoresRequestedState | server/routes/orders.js:31-35 | the status and payment status a create request carries have no effect |
| OrderModel.WithStatus | server/routes/orders.js:53-54 | a status update sets the status and changes nothing else; the update time becomes the save time only when the status actually changes (`timestamps`, server/models/Order.js:55) |
| OrderModel.WithPayment | server/routes/orders.js:69-71 | a payment update sets the payment status and the method and changes nothing else; the update time becomes the save time only when either value actually changes |
| OrderRoutes.OrdersIn | server/routes/orders.js:9 | the listed orders are the stored orders under the ids, in id order |
| OrderRoutes.OrderStore.All | server/routes/orders.js:7-14 | GET / returns every stored order once, listed in creation order, the order the model fixes for `find()` |
| OrderRoutes.OrderStore.Get | server/routes/orders.js:17-27 | GET /:id returns the stored order, or 404 for an unknown id |
| OrderRoutes.OrderStore.Create | server/routes/orders.js:30-43 | POST / stores the new order under a fresh id and returns 201, or stores nothing and returns 400 |
| OrderRoutes.OrderStore.UpdateStatus | server/routes/orders.js:46-59 | 404 for an unknown id, 400 for a value outside the enum with the order unchanged, otherwise only that order's status and update time change, whatever its current status |
| OrderRoutes.OrderStore.UpdatePayment | server/routes/orders.js:62-76 | 404 for an unknown id, 400 when either value is outside its enum with the order unchanged, otherwise only that order's payment status, method and update time change |
| OrderRoutes.StatusLastWriteWins | server/routes/orders.js:53-55 | two status updates in a row leave the same order as the second alone except for the update time, which is the time of the last update that changed the status |
| OrderRoutes.RepayReplacesMethod | server/routes/orders.js:69-72 | paying a paid order again succeeds and only replaces the method; the update time moves only when the method differs |
| OrderRoutes.ResendChangesNothing | server/models/Order.js:55 | a status or payment update that sends the values the order already has leaves it exactly as it was, update time included |
| BillRoutes.DisplayName | server/routes/bills.js:97-99 | a name of at most 25 characters is shown unchanged; a longer one becomes its first 22 characters and "...", so it is exactly 25 characters |
| BillRoutes.Upper | server/routes/bills.js:157 | `toUpperCase` maps each character, keeps the length and leaves no lower-case letter |
| BillRoutes.UpperIdempotent | server/routes/bills.js:64 | upper-casing twice is upper-casing once |
| BillRoutes.BillNumber | server/routes/bills.js:64 | the bill number is the last eight characters of the id, or the whole id when it is shorter, upper-cased |
| BillRoutes.RoundedTax | server/routes/bills.js:126 | the tax is the integer nearest to a tenth of the subtotal, with halves rounded up, and is not negative for a non-negative subtotal |
| BillRoutes.RoundedTaxUnique | server/routes/bills.js:126 | any integer in the rounding window is the rounded tax |
| BillRoutes.RowFor | server/routes/bills.js:97-101 | a row shows the display name of the menu item's current name, the line's quantity and price, and their product as the amount |
| BillRoutes.ResolvedLines | server/routes/bills.js:90-94 | the lines kept are exactly those whose menu item resolves |
| BillRoutes.ResolvedLinesInOrder | server/routes/bills.js:90-94 | the resolved lines keep the order of the order's lines |
| BillRoutes.ResolvedLinesKeepRepeats | server/routes/bills.js:90-102 | a resolved line that occurs several times is kept, and so printed and summed, as often as it occurs |
| BillRoutes.Rows | server/routes/bills.js:90-113 | the item table has at most one row per line; its rows are stated by `RowsAreResolvedLines` |
| BillRoutes.RowsAreResolvedLines | server/routes/bills.js:90-113 | the item table has one row per resolved line, in order, made from that line and its menu item |
| BillRoutes.BillSubtotalSkipsUnresolved | server/routes/bills.js:87-102 | the sum of the row amounts is the quantity times price summed over the resolved lines only |
| BillRoutes.FilterAll | server/routes/bills.js:90-94 | when every menu item resolves, no line is skipped |
| BillRoutes.BillOf | server/routes/bills.js:63-160 | the bill's subtotal is the resolved lines' sum and the sum of its rows, its tax is the rounded tenth, its total is subtotal plus tax, its rows are the rows of the resolved lines, one for one and in order, and every name fits the budget; the payment block is present exactly when the order is paid and shows the upper-cased method, the recomputed total and the update time |
| BillRoutes.BillIgnoresStoredTotals | server/routes/bills.js:86-127 | the stored subtotal, tax and total have no effect on the bill |
| BillRoutes.BillWithAllResolved | server/routes/bills.js:87-102 | with every menu item resolved, the bill lists every line and its subtotal is the sum over all lines |
| BillRoutes.TabulateItems | server/routes/bills.js:87-113 | the item loop produces exactly the item table and the subtotal over the resolved lines |
| BillRoutes.GenerateBill | server/routes/bills.js:17-160 | an unknown order id gives 404 and no bill; otherwise the response is the bill of that order |
| BillRoutes.SalesTotal | server/routes/bills.js:206 | the sales of orders whose totals are not negative are not negative |
| BillRoutes.CountWith | server/routes/bills.js:208-210 | the count of a method is at most the number of orders and is zero exactly when no order has that method |
| BillRoutes.Report | server/routes/bills.js:203-212 | the report is dated the start of the day, counts no more orders than the store holds, counts none exactly when no order is paid and from today, and no method count exceeds the order count |
| BillRoutes.ReportedOrders | server/routes/bills.js:198-201 | the report counts exactly the paid orders created at or after the start of the day |
| BillRoutes.MethodCountsPartition | server/routes/bills.js:207-211 | the cash, card and upi counts add up to the number of orders counted |
| BillRoutes.ReportCountsAddUp | server/routes/bills.js:203-212 | the per-method counts of the report add up to its order count |
| BillRoutes.ReportEmpty | server/routes/bills.js:203-212 | with no paid order from today, every field of the report is zero and it is dated the start of the day |
| BillRoutes.SalesTotalAppend | server/routes/bills.js:206 | the sales of two lists together is the sum of their sales |
| BillRoutes.ReportAddOrder | server/routes/bills.js:198-211 | one more order changes the report exactly when it is paid and from today: the count by one, the sales by its total and its method's count by one |
| JsParse.LeadingDigits | client/src/pages/Orders.jsx:98 | the longest prefix of decimal digits |
| JsParse.ParseDigits | client/src/pages/Orders.jsx:98 | a number is produced exactly when the text starts with a digit, and it is not negative |
| JsParse.ParseDigitsThen | client/src/pages/Orders.jsx:98 | digits followed by anything that does not start with a digit give the value of those digits |
| JsParse.ParseInt | client/src/pages/Orders.jsx:98 | leading white space, an optional sign and the longest digit run; when it is defined and what it returns are stated by `ParseIntDefinedExactly`, `ParseIntRoundTripThen` and `ParseIntNegatedRoundTripThen` |
| JsParse.ParseSigned | client/src/pages/Orders.jsx:98 | a number is produced exactly when a digit follows the optional sign, and it is negative only after a minus sign |
| JsParse.ParseIntDefinedExactly | client/src/pages/Orders.jsx:98 | `parseInt` gives a number exactly when a digit follows the leading white space and the optional sign, and the number is negative only after a minus sign |
| JsParse.ParseIntOfUnsigned | client/src/pages/Orders.jsx:98 | text starting with a digit is read from its first character |
| JsParse.ParseIntOfNegated | client/src/pages/Orders.jsx:98 | a minus sign in front negates the value of the digits after it |
| JsParse.ParseIntRoundTripThen | client/src/pages/Orders.jsx:98 | the decimal text of a natural number followed by anything that does not start with a digit ("12.5", "12e3") parses to that number |
| JsParse.ParseIntNegatedRoundTripThen | client/src/pages/Orders.jsx:98 | the same with a minus sign in front parses to the negated number |
| JsParse.ParseIntRoundTrip | client/src/pages/Orders.jsx:98 | the decimal text of a natural number parses back to it |
| JsParse.ParseIntNegatedRoundTrip | client/src/pages/Orders.jsx:98 | the decimal text of a negated natural number parses back to it |
| OrdersPage.AddedItems | client/src/pages/Orders.jsx:55-74 | the new line list holds a line for the clicked item, and is one line longer exactly when the draft had none for it |
| OrdersPage.BumpedKeepsItems | client/src/pages/Orders.jsx:61-65 | raising quantities keeps a line for every item the draft had one for |
| OrdersPage.Bumped | client/src/pages/Orders.jsx:61-65 | every line for the clicked item has its quantity raised by one; every other line is unchanged |
| OrdersPage.AddExistingItem | client/src/pages/Orders.jsx:55-66 | clicking an item already in the draft raises that line's quantity by one and changes no other line |
| OrdersPage.AddNewItem | client/src/pages/Orders.jsx:67-73 | clicking a new item appends a line of quantity one and the item's current price |
| OrdersPage.AddPreservesDraft | client/src/pages/Orders.jsx:55-74 | adding keeps one line per item and positive quantities, never drops a line, and keeps each line's item and snapshotted price |
| OrdersPage.DraftSubtotal | client/src/pages/Orders.jsx:77-80 | the subtotal of lines with prices and quantities that are not negative is not negative |
| OrdersPage.DraftTax | client/src/pages/Orders.jsx:81 | the draft's tax is exactly a tenth of its subtotal |
| OrdersPage.DraftSubtotalAppend | client/src/pages/Orders.jsx:77-80 | the subtotal of two lists of lines together is the sum of their subtotals |
| OrdersPage.DraftSubtotalBump | client/src/pages/Orders.jsx:77-80 | one more of a line's item raises the subtotal by that line's price |
| OrdersPage.AddedItemsSubtotal | client/src/pages/Orders.jsx:55-91 | clicking an item already in the draft raises the subtotal by the price snapshotted on its line, not by the current menu price |
| OrdersPage.AddedNewItemSubtotal | client/src/pages/Orders.jsx:55-91 | clicking a new item raises the subtotal by its price |
| OrdersPage.Payload | client/src/pages/Orders.jsx:97-109 | the create request carries the parsed table number, the request lines of the draft's lines, the draft's totals, pending status and payment status, and no method |
| OrdersPage.PayloadLines | client/src/pages/Orders.jsx:99-103 | each request line carries the menu item's id, the quantity and the price, and no notes |
| OrdersPage.SubmittedLines | client/src/pages/Orders.jsx:99-103 | the order lines the server stores for the draft lines, one per line, in order |
| OrdersPage.PayloadAccepted | client/src/pages/Orders.jsx:97-111 | with a parsable table number, the server accepts the request; the order is pending, unpaid, by cash, and holds the draft's lines and totals |
| OrdersPage.PayloadLinesAccepted | client/src/pages/Orders.jsx:99-103 | the server accepts every draft line with a positive quantity, as the matching order line |
| OrdersPage.SubmittedLinesTotal | client/src/pages/Orders.jsx:77-80 | the stored lines sum to the draft's subtotal |
| OrdersPage.CreatedFromDraft | client/src/pages/Orders.jsx:97-111 | an order created from the draft holds the draft's lines, subtotal, tax and total |
| OrdersPage.BillCloseToStored | server/routes/bills.js:126-127 | when all lines resolve and the stored totals are the exact ones, the bill's subtotal equals the stored one, and its tax and total are above the stored ones by more than -0.5 and at most 0.5 |
| OrdersPage.BillAgreesWithDraft | client/src/pages/Orders.jsx:76-111 | the bill of an order created from a draft lists every line, shows the draft's subtotal, and differs from the stored tax and total only by the rounding |
| OrdersPage.StoredTotalDiffersFromBill | client/src/pages/Orders.jsx:81 | a subtotal of 455 is stored with tax 45.5 but billed with tax 46 |
| OrdersPage.Draft.constructor | client/src/pages/Orders.jsx:16-24 | the empty draft: no table number, no lines, zero totals |
| OrdersPage.Draft.SetTableNumber | client/src/pages/Orders.jsx:216-217 | editing the field changes only the table number |
| OrdersPage.Draft.UpdateTotals | client/src/pages/Orders.jsx:76-91 | the lines are replaced and the totals recomputed from them |
| OrdersPage.Draft.AddItem | client/src/pages/Orders.jsx:55-74 | a click on a menu item merges or appends its line, keeps the totals matching the lines, and grows the draft by at most one line |
| OrdersPage.Draft.Reset | client/src/pages/Orders.jsx:114-122 | the form is cleared to the empty draft |
| OrdersPage.Draft.Submit | client/src/pages/Orders.jsx:93-130 | submitting is possible only while Create Order is enabled (line 317); on success the store holds, under a new id appended to its ids, the order created from the draft's request, which has the draft's lines and so at least one, and the draft is cleared; on failure neither the store, its ids nor the draft changes |
| OrdersPage.CreateEnabled | client/src/pages/Orders.jsx:317 | Create Order is enabled exactly when the draft has a line |
| OrdersPage.ActiveOrders | client/src/pages/Orders.jsx:341 | the list shows exactly the orders that are not completed, in fetched order |
| OrdersPage.ShowsProcessPayment | client/src/pages/Orders.jsx:382 | Process Payment replaces the kitchen buttons exactly for a served, unpaid order |
| OrdersPage.PreparingEnabled | client/src/pages/Orders.jsx:398 | Preparing is enabled exactly for a pending order |
| OrdersPage.ServedEnabled | client/src/pages/Orders.jsx:409 | Served is enabled exactly for an order being prepared |
| OrdersPage.ShowsComplete | client/src/pages/Orders.jsx:415 | Complete is shown exactly for a paid order |
| OrdersPage.CompleteEnabled | client/src/pages/Orders.jsx:423 | Complete is enabled exactly for a served order |
| OrdersPage.Offered | client/src/pages/Orders.jsx:341-427 | an action is offered exactly when the order is listed (not completed) and the action's button is shown and enabled |
| OrdersPage.Perform | client/src/pages/Orders.jsx:132-155 | a kitchen or Complete click sets that status and leaves the payment alone; a payment click marks the order paid with that method and leaves the status alone; nothing but the status, the payment, the method and the update time changes |
| OrdersPage.OfferedExactlyNextStep | client/src/pages/Orders.jsx:382-427 | along the path, a pending order is offered only Preparing, a preparing one only Served, a served unpaid one only a payment, and a paid served one only Complete; a completed one is offered nothing |
| OrdersPage.OfferedStepAdvances | client/src/pages/Orders.jsx:382-427 | each offered click moves the order one step along the path |
| OrdersPage.OfferedRunAdvances | client/src/pages/Orders.jsx:382-427 | a sequence of offered clicks moves the order one step per click |
| OrdersPage.ClicksFromNewOrder | client/src/pages/Orders.jsx:382-479 | through the page, a new order takes at most four clicks, is never cancelled, and reaches completed only once it is paid, after exactly four clicks |
| BillsPage.UnpaidBills | client/src/pages/Bills.jsx:128-130 | the unpaid bills are exactly the served, unpaid orders, in fetched order |
| BillsPage.PaidBills | client/src/pages/Bills.jsx:132 | the paid bills are exactly the paid orders, whatever their status, in fetched order |
| BillsPage.BillListsDisjoint | client/src/pages/Bills.jsx:128-132 | no order is listed in both sections |
| BillsPage.BillListsFitInOrders | client/src/pages/Bills.jsx:128-132 | the two sections together list no more orders than were fetched |
| BillsPage.PayingMovesBill | client/src/pages/Bills.jsx:31-39 | paying one unpaid bill of the list leaves one fewer unpaid bill and one more paid bill |
| BillsPage.RefetchReplacesOne | client/src/pages/Bills.jsx:35-39 | the orders fetched again after an update are the previous list with only the updated order replaced |
| BillsPage.RefetchedBillsAfterPayment | client/src/pages/Bills.jsx:31-48 | paying an unpaid bill of the store and fetching again shows one fewer unpaid bill and one more paid bill |
| BillsPage.PaymentFor | client/src/pages/Bills.jsx:35-38 | the request names the order and the method given and asks for "paid" |
| BillsPage.CashPayment | client/src/pages/Bills.jsx:203 | the Pay Cash button asks to mark that order paid by cash |
| BillsPage.CardPaymentSucceeded | client/src/pages/Bills.jsx:56-61 | after a successful card payment a request is sent exactly when an order is selected, marking it paid by card |
| BillsPage.PayCash | client/src/pages/Bills.jsx:31-48 | sending Pay Cash makes the stored order paid by cash, changing nothing else, or gives 404 for an order no longer stored |
| BillsPage.HandlePaymentSuccess | client/src/pages/Bills.jsx:56-61 | a selected stored order becomes paid by card, an order no longer stored gives 404, and with none selected the store is unchanged |

## Left out

- The PDF layout (fonts, coordinates, rules, footer and terms text) is not modelled. Only the bill's content is: rows, totals and the payment block.
- Locale formatting is not modelled: `Intl.NumberFormat`, `toLocaleString` and the `toFixed(2)` display. Dates are integer timestamps.
- `new Date()` and `setHours(0, 0, 0, 0)` are not modelled. The creation time, the update time and the start of the day are parameters, and time zones are not modelled.
- Floating-point drift of `subtotal * 0.1` and of the sums is not modelled. The client's tax is an exact tenth.
- The card-payment provider is not modelled: the payment intent, the paise conversion `Math.round(amount * 100)` and the payment modal. Its success is the call of `HandlePaymentSuccess`.
- Mongoose persistence is modelled as a map. `populate` is a map lookup that may fail, and ids are given by the caller.
- Concurrent requests are not modelled: each handler runs to completion on its own.
- Malformed ObjectId strings, which make `findById` throw (500 or 400), are not modelled. An unknown id gives 404.
- The fields of a create request are values that are either present or absent (`Option`). JavaScript type coercion of wrongly typed fields is not modelled.
- OrderRoutes.OrderStore.UpdateStatus and OrderRoutes.OrderStore.UpdatePayment: a body that leaves out `status`, `paymentStatus` or `paymentMethod` is not modelled. Their values are strings that are always present. The code assigns `undefined`, which unsets the field; the field is not required, so the save succeeds with 200 and the field left unset.
- OrderRoutes.OrderStore.All: `find()` without a sort promises no order. The model fixes it as creation order.
- Lines that are `null` are not modelled, and neither is the per-item `try`/`catch` of the bill loop. With every field present nothing in the loop can throw.
- A `null` order inside the fetched list is not modelled. So the `order &&` guards are not modelled: those of the Orders page's filters (`client/src/pages/Orders.jsx:331,341`) and those of the Bills page's renders (`client/src/pages/Bills.jsx:165,249`). The Bills page's filters themselves have no such guard.
- Upper: only ASCII `a` to `z` are upper-cased. `toUpperCase` on other letters is not modelled, and the method names and order ids are ASCII.
- String lengths count characters, not UTF-16 code units, which differ only outside the Basic Multilingual Plane.
- JsParse.ParseInt: the `0x` prefix of `parseInt` without a radix is not modelled, since a number input cannot hold it. The result is an unbounded integer, so precision loss beyond 2^53 is not modelled.
- The menu's HTTP routes and the Menu page (`client/src/pages/Menu.jsx`) are not part of this model. The page and the bill take arbitrary menu-item values; the schema's validation is stated by `MenuModel.NewMenuItem` and is not assumed of the menu items they are given. The menu timestamps are not modelled.
- The draft's unused `paymentStatus` and `paymentMethod` fields are not modelled. They never reach the create request.
- The error state a page enters when a request fails is not modelled. The handlers return the server's response instead, but the loading flags and the selected-order and modal state are not modelled.
- The Reports page's average order value is not modelled.
- The daily report's `date` is the start of the day as a timestamp.
- Common.TrimStart: contiguity (the result is the input with a prefix removed) is stated in `TrimStartIsSuffix`. It is not stated as a single slice equality.
