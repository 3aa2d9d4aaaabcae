# Restaurant cart and checkout — Dafny model

This project models the customer's cart of a restaurant ordering web application and the logic around it:

- **The order.** It is a list of order lines: a menu item (id, name, price) plus a quantity.
- **Five updaters.** The App component applies `addToOrder`, `increaseQuantity`, `decreaseQuantity`, `removeFromOrder` and `clearOrder` to the list through `setOrder`.
- **The order total.** It is the sum of price × quantity over the lines.
- **The payment panel.** It holds a one-entry discount table and applies a code to set the rate. It shows the discounted total. On pay, it builds a payload for a non-empty order and then clears the order.
- **The order-history query builder.** It builds the constraint list that `getOrders` passes to the document store.

Modules, one per source file:

- `Cart` (`cart.dfy`, src/App.jsx): the data model (`MenuItem`, `Line`, the sample `MenuItems`) and the updaters as pure functions on `seq<Line>`. It also holds the invariant `Valid` (unique ids, every quantity ≥ 1) and the lemmas about the updaters.
- `AppState` (`app_state.dfy`, src/App.jsx): class `App` with the `order` field. Each handler method assigns the updater's result, as `setOrder` does, and keeps `Valid`.
- `OrderTotal` (`order_total.dfy`, src/components/Order.jsx): `Reduce`, the left fold `reduce` performs, and `TotalAmount`. The fold is proved equal to the reference sum `Sum`. The module also has lemmas on how adding, increasing, decreasing and removing change the total. Clearing yields the empty order, whose total is 0 by the contract of `TotalAmount`.
- `Payment` (`payment.dfy`, src/components/Payment.jsx): the discount table, `DiscountFor`, `TotalWithDiscount`, the payload (`OrderItem`, `OrderData`, `Checkout`) and class `PaymentPanel`. The class holds the `discountCode` and `discount` state and the two handlers.
- `OrderService` (`order_service.dfy`, src/services/orderService.js): the constraint datatype, the imperative `BuildConstraints` that pushes step by step, its specification `Constraints`, and the lemmas about it.
- `Wrappers` (`wrappers.dfy`): `Option`.

Modelling choices:

- Prices and the discount rate are `real`, so 0.1 is exact and there is no floating-point rounding.
- Quantities are `int`, and ids are `int`, as in the sample menu.
- In `getOrders`, a filter property that was not passed is `None`. JavaScript's truthiness test on a string that may be `undefined` becomes `Given`: present and non-empty.
- `Timestamp.fromDate(new Date(text))` is kept as the uninterpreted constructor `TimestampOf(text)`. `where` and `orderBy` are datatype constructors.
- The discount lookup is truthy only when the code is a key of the table with a non-zero rate, which matches `if (validDiscountCodes[discountCode])` for the keys of the table.
- The payload has only `orderItems` and `totalAmount`. The code records no payment method, table or client with it, persists no cart and submits nothing to an order store, so the model has none of these either.
- `decreaseQuantity` filters out every line whose quantity is ≤ 0, not only the one it lowered. The model keeps that filter as written (`DecreaseQuantity`). Under the invariant only the lowered line can reach 0 (`DecreaseLine`).

## Model

| member | source | states |
|---|---|---|
| Cart.MenuItemsWellFormed | src/App.jsx:6-11 | the four sample menu items have distinct ids and positive prices |
| Cart.Find | src/App.jsx:18 | `find` yields a line exactly when some line has that id; the line it yields has that id and belongs to the order |
| Cart.FindFirst | src/App.jsx:18 | `find` yields the first line with that id: the line at `k` when no earlier line has the id |
| Cart.AddedItemHasLine | src/App.jsx:16-29 | after an add the order has a line for the item; the order keeps its length when it already had such a line and grows by one otherwise |
| Cart.AddAbsentAppends | src/App.jsx:25-27 | adding an item whose id has no line appends `{...item, quantity: 1}` at the end; all earlier lines are unchanged |
| Cart.AddPresentMerges | src/App.jsx:18-24 | with unique ids, adding an item whose id has a line raises only that line's quantity by 1; the length and every other line are unchanged |
| Cart.RepeatedAddsMerge | src/App.jsx:16-29 | starting from an order without the item, n ≥ 1 adds give the old order followed by exactly one line for that id, with quantity n |
| Cart.IncreaseQuantity | src/App.jsx:31-39 | an increase keeps the order's length and the id of every line in place |
| Cart.IncreaseAbsentUnchanged | src/App.jsx:31-39 | increasing an id that has no line leaves the order unchanged |
| Cart.IncreasePresentIsAdd | src/App.jsx:31-39 | increasing an id that has a line gives the same order as adding that item |
| Cart.DecreaseQuantity | src/App.jsx:41-51 | after a decrease no line has a quantity below 1, and the order is no longer than before |
| Cart.DecreaseLine | src/App.jsx:41-51 | on a valid order, decreasing the line's id lowers that line by 1 and drops it when it was 1; the other lines keep their values and relative order |
| Cart.DecreaseSplice | src/App.jsx:41-51 | on a valid order, the decrease puts the lowered line, when it is still positive, between the untouched lines before and after it |
| Cart.DecreaseAbsentUnchanged | src/App.jsx:41-51 | decreasing an id that has no line leaves an order whose quantities are all ≥ 1 unchanged |
| Cart.RemoveFromOrder | src/App.jsx:53-55 | after a remove no line has that id |
| Cart.RemoveLine | src/App.jsx:53-55 | with unique ids, removing an id drops its line whatever its quantity and keeps the other lines in order |
| Cart.RemoveAbsentUnchanged | src/App.jsx:53-55 | removing an id that has no line is a no-op |
| Cart.AddPreservesValid | src/App.jsx:16-29 | add keeps ids unique and every quantity ≥ 1 |
| Cart.IncreasePreservesValid | src/App.jsx:31-39 | increase keeps ids unique and every quantity ≥ 1 |
| Cart.DecreasePreservesValid | src/App.jsx:41-51 | decrease keeps ids unique and every quantity ≥ 1 |
| Cart.RemovePreservesValid | src/App.jsx:53-55 | remove keeps ids unique and every quantity ≥ 1 |
| Cart.TacosScenario | src/App.jsx:6-51 | add Tacos, add Tacos, decrease Tacos leaves one Tacos line with quantity 1 |
| AppState.App.constructor | src/App.jsx:14 | the order starts empty and valid |
| AppState.App.AddToOrder | src/App.jsx:16-29 | the handler replaces the order with the add updater's result and keeps the invariant |
| AppState.App.IncreaseQuantity | src/App.jsx:31-39 | the handler replaces the order with the increase updater's result, keyed by the line's id, and keeps the invariant |
| AppState.App.DecreaseQuantity | src/App.jsx:41-51 | the handler replaces the order with the decrease updater's result and keeps the invariant |
| AppState.App.RemoveFromOrder | src/App.jsx:53-55 | the handler replaces the order with the remove updater's result and keeps the invariant |
| AppState.App.ClearOrder | src/App.jsx:57-59 | clearing yields the empty order, which is valid |
| OrderTotal.LineAmount | src/components/Order.jsx:21 | a line's amount is non-negative for a non-negative price and quantity; it is the unit price for quantity 1 and 0 for quantity 0 |
| OrderTotal.Reduce | src/components/Order.jsx:4 | the left fold from any accumulator equals the accumulator plus the sum of price × quantity over the lines |
| OrderTotal.TotalAmount | src/components/Order.jsx:4 | the total is the sum over the lines of price × quantity; an empty order totals 0 |
| OrderTotal.TotalIsOrderIndependent | src/components/Order.jsx:4 | two orders holding the same lines in any arrangement have the same total |
| OrderTotal.TotalNonNegative | src/components/Order.jsx:4 | with non-negative prices and quantities the total is non-negative |
| OrderTotal.SumReplace | src/components/Order.jsx:4 | replacing one line changes the total by the difference of the two line amounts (price × quantity) |
| OrderTotal.TotalAfterAddNew | src/components/Order.jsx:4 | adding an item whose id has no line raises the total by the item's price |
| OrderTotal.TotalAfterAddMerge | src/components/Order.jsx:4 | adding an item whose id has a line raises the total by that line's price |
| OrderTotal.TotalAfterIncrease | src/components/Order.jsx:4 | increasing a line raises the total by its price |
| OrderTotal.TotalAfterRemove | src/components/Order.jsx:4 | removing a line lowers the total by its price × quantity |
| OrderTotal.TotalAfterDecrease | src/components/Order.jsx:4 | decreasing a line lowers the total by its price, whether or not the line is dropped |
| OrderTotal.SampleTotal | src/components/Order.jsx:4 | Tacos 50 × 2 and Enchiladas 60 × 1 total 160 |
| Payment.DiscountFor | src/components/Payment.jsx:7-18 | the lookup succeeds exactly for the code "EMMETT" (exact, case-sensitive), which sets rate 0.1; any other code sets 0 |
| Payment.TotalWithDiscount | src/components/Payment.jsx:50 | the discounted total is the total × (1 − rate); with rate 0 it is the total; with rate in [0,1) and a non-negative total it lies between 0 and the total |
| Payment.DiscountedTotalBounds | src/components/Payment.jsx:49-50 | for an order with quantities ≥ 1, non-negative prices and a rate in [0,1), the discounted total lies between 0 and the raw total |
| Payment.EmmettScenario | src/components/Payment.jsx:49-50 | a raw total of 160 with "EMMETT" gives 144 |
| Payment.OrderItems | src/components/Payment.jsx:25-30 | the payload entries have the order's length and order; each copies name, price and quantity and has total price × quantity |
| Payment.ItemTotalsMatchOrderTotal | src/components/Payment.jsx:25-31 | the payload's per-line totals add up to the order total |
| Payment.Checkout | src/components/Payment.jsx:21-32 | there is no payload exactly when the order is empty; otherwise its entries are the per-line entries of the order, its total is the discounted order total, and that total equals the sum of the entry totals × (1 − rate) |
| Payment.PaymentPanel.constructor | src/components/Payment.jsx:4-5 | the code starts empty and the rate at 0 |
| Payment.PaymentPanel.SetDiscountCode | src/components/Payment.jsx:58 | typing replaces the code |
| Payment.PaymentPanel.HandleApplyDiscount | src/components/Payment.jsx:11-19 | the stored rate is the rate for the current code, whatever was applied before; the success notice is shown exactly for "EMMETT" |
| Payment.PaymentPanel.HandlePay | src/components/Payment.jsx:21-47 | for an empty order: no payload and the order unchanged; otherwise the checkout payload for the current rate, and the order cleared; with non-negative prices the payload total lies between 0 and the raw total |
| OrderService.SortField | src/services/orderService.js:40 | the sort field is "total" exactly when `sortBy` is "total", and "timestamp" otherwise, including for "date" or no value |
| OrderService.Constraints | src/services/orderService.js:10-40 | the list has one to four constraints, and it is the ordering alone exactly when no client name, start date or end date is given |
| OrderService.BuildConstraints | src/services/orderService.js:10-40 | the pushes build the specified constraint list, whose last entry is the ordering |
| OrderService.OrderingIsLastAndUnique | src/services/orderService.js:40 | exactly one ordering constraint, and it is last |
| OrderService.ConstraintOrder | src/services/orderService.js:13-40 | client, start bound, end bound, ordering: each at most once and always in this order |
| OrderService.ClientFilterIff | src/services/orderService.js:13-15 | a client constraint is present exactly when a client name is given, and it is `client == clientName` |
| OrderService.StartBoundIff | src/services/orderService.js:18-24 | a `>=` bound is present exactly when a start date is given; it compares with `startDate T startTime :00` when a start time is given and with `startDate T00:00:00` otherwise |
| OrderService.EndBoundIff | src/services/orderService.js:27-33 | a `<=` bound is present exactly when an end date is given; it compares with `endDate T endTime :59` when an end time is given and with `endDate T23:59:59` otherwise |
| OrderService.StartTimeWithoutStartDateIgnored | src/services/orderService.js:18-24 | without a start date, the start time has no effect on the list, whatever the other filters |
| OrderService.EndTimeWithoutEndDateIgnored | src/services/orderService.js:27-33 | without an end date, the end time has no effect on the list, whatever the other filters |
| OrderService.NoFiltersOrderByTimestamp | src/services/orderService.js:5-40 | called with no filters, the list is just the ordering on `timestamp` |

## Left out

- Query execution in `getOrders` is not modelled: `getDocs`, the mapping of documents and the error rethrow. `addOrder` is not modelled either. Both are calls into the document store's library.
- The conversion of the composed date-time text by `new Date(...)` and `Timestamp.fromDate` is not modelled. It is host-library time parsing, so only the text is modelled (`TimestampOf`).
- The download in `handlePay` is left out: the JSON serialisation, Blob, object URL and link click. The `alert` notices are left out too. These are I/O. The payload value and the clear that follows are modelled.
- The pay button's `disabled` flag is not modelled separately. It is rendering, and it uses the same emptiness test as the guard in `HandlePay`.
- Floating-point behaviour is left out: JavaScript number rounding and the `toFixed(2)` presentation. Prices and rates are exact `real`s.
- The discount lookup does not model JavaScript object-prototype keys: the table is a map that contains only "EMMETT".
- `MenuItem` and `Line` keep only `id`, `name` and `price`. The spreads `{ ...item, quantity: 1 }` and `{ ...orderItem, quantity }` copy every field of the menu object, such as a `description` the menu may render. No modelled operation reads those extra fields.
- `console.log` calls are left out because they are logging only.
- The rest of the repository is not part of this model: menu, table, product and authentication services, the session manager and the React components that only render or call the backend.
