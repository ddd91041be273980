# Guest ordering bookkeeping, modelled in Dafny

This project models two pieces of a table-side restaurant ordering client, the guest's side.

- **The menu page** (`client/src/app/guest/menu/menu-order.tsx`). The guest builds a cart: a list of
  `{dishId, quantity}` entries. `handleQuantityChange` updates it. Quantity 0 removes the dish.
  A dish not yet in the cart is appended. A dish already there gets the new quantity at its first entry.
  The `-` and `+` buttons of a dish card pass the shown quantity minus one (never below 0) or plus one.
  The order button shows `totalPrice`, a fold over the dish catalogue.
  The catalogue is shown 8 dishes per page, and hidden dishes are filtered out of each page.
- **The orders page** (`client/src/app/guest/orders/orders-cart.tsx`). A fold over the fetched orders
  builds two totals, each an amount and an item count:
  - `waitingForPaying` holds pending, processing and delivered orders;
  - `paid` holds paid orders;
  - rejected orders count in neither.

  An effect registers four socket handlers (`update-order`, `payment`, `connect`, `disconnect`), and its
  cleanup removes the same four. `update-order` and `payment` each show a toast and call `refetch()`.
  `connect` and `disconnect` only log.

Files and modules:

| file | module | contents |
|---|---|---|
| `seqs.dfy` | `Seqs` | the subsequence relation |
| `menu_cart.dfy` | `MenuCart` | cart entries, `find`/`findIndex`/`filter`, the quantity updater, the cart invariant, the buttons, the total price |
| `menu_pages.dfy` | `MenuPages` | `Array.prototype.slice`, pages of 8, page count, hidden-dish filter |
| `menu_order.dfy` | `MenuOrder` | class `MenuOrderView`: the page's `orders` and `currentPage` state and its handlers |
| `orders_summary.dfy` | `OrdersSummary` | orders, the reducer, its fold, and a classify-then-sum reference definition |
| `orders_events.dfy` | `OrdersEvents` | the socket's handler registry, the four handlers, class `OrdersCartView` with effect counters |

Modelling choices:

- Prices and quantities are mathematical integers.
- A toast, a `refetch()` call and a console line are each a counter. The list a refetch eventually
  brings back arrives through `OrdersCartView.ReceiveOrders`.
- The `update-order` handler does not merge the pushed order into the list by id. It refetches
  (orders-cart.tsx:88), and the model does the same: no handler changes the order list.
- The socket's registry is a list of `(event, handler)` registrations. `on` appends one; `off` removes
  that registration. A handler's identity is the function it is plus the effect run that created it,
  because each run of the effect creates new closures.
- Delivering an event calls every handler registered under its name, in registration order, with the
  event's payload. What a handler does depends on which handler it is (`Handler.kind`), not on the
  event it was registered under. A handler that throws ends the delivery.
- `onPayment` reads `data[0].guest` before it toasts. On an empty batch `data[0]` is `undefined`, so
  the destructuring throws: no toast and no refetch. The model keeps that behaviour (`Invoke`, `Deliver`).
- The socket passes `disconnect` its reason string. Only a handler registered under the wrong event
  could see it: `onPayment` would destructure the string's first character without error and toast
  (`MistypedDelivery`). The effect never registers handlers that way.
- `slice` follows its JavaScript behaviour for any start and end: negative indices count from the end,
  and indices are clamped. So `HandlePageChange` accepts any integer page.

## Model

| member | source | states |
|---|---|---|
| `MenuCart.FindIndex` | client/src/app/guest/menu/menu-order.tsx:39 | the result is -1 exactly when no entry has the dish; otherwise it is an index holding the dish with no earlier entry holding it |
| `MenuCart.Find` | client/src/app/guest/menu/menu-order.tsx:28 | nothing is found exactly when no entry has the dish; what is found is the first entry of the cart for that dish: it sits at an index with no earlier entry for the dish |
| `MenuCart.QuantityOf` | client/src/app/guest/menu/menu-order.tsx:118 | the shown quantity `find(...)?.quantity ?? 0`; specified by `QuantityOfValidCart`, `QuantityOfChangedDish` and `QuantityOfOtherDish` |
| `MenuCart.QuantityChanged` | client/src/app/guest/menu/menu-order.tsx:35-46 | the updater passed to `setOrders`; specified by `ZeroQuantityRemoves`, `AbsentDishAppended`, `PresentDishReplacedAtFirstIndex`, `QuantityOfChangedDish`, `QuantityOfOtherDish` and `QuantityChangedKeepsValid` |
| `MenuCart.PressedQuantity` | client/src/app/guest/menu/menu-order.tsx:113-120 | the quantity the `-` or `+` button passes; specified by `ButtonArithmetic` |
| `MenuCart.ApplyPress` | client/src/app/guest/menu/menu-order.tsx:113-120 | one button click through the updater; specified by `PressesKeepCartValid` and, on the page, by `MenuOrderView.PressMinus`/`PressPlus` |
| `MenuCart.ApplyPresses` | client/src/app/guest/menu/menu-order.tsx:113-120 | a series of clicks in order; specified by `PressesKeepCartValid` |
| `MenuCart.TotalPrice` | client/src/app/guest/menu/menu-order.tsx:26-32 | the `totalPrice` reduce over the catalogue; specified by `TotalPriceOfEmptyCart`, `TotalPriceLastStep`, `TotalPriceAfterChange` and `UncataloguedDishContributesNothing` |
| `MenuCart.WithoutDish` | client/src/app/guest/menu/menu-order.tsx:37 | an entry is kept exactly when it is in the cart and is for another dish |
| `MenuCart.WithoutDishIsOrderedFilter` | client/src/app/guest/menu/menu-order.tsx:37 | the filtered cart is a subsequence of the old one, shorter by the number of entries for the dish |
| `MenuCart.ZeroQuantityRemoves` | client/src/app/guest/menu/menu-order.tsx:36-37 | quantity 0 leaves no entry for the dish, keeps every other entry, keeps their order, and removes exactly the dish's entries |
| `MenuCart.AbsentDishAppended` | client/src/app/guest/menu/menu-order.tsx:39-41 | a non-zero quantity for a dish not in the cart appends `{dishId, quantity}` after the old entries |
| `MenuCart.PresentDishReplacedAtFirstIndex` | client/src/app/guest/menu/menu-order.tsx:39-45 | a non-zero quantity for a dish in the cart changes only the entry at its first index, and only its quantity; the length and all other entries stay |
| `MenuCart.QuantityOfChangedDish` | client/src/app/guest/menu/menu-order.tsx:34-47 | after a change to quantity q the page shows q for that dish, whatever the cart held before |
| `MenuCart.QuantityOfOtherDish` | client/src/app/guest/menu/menu-order.tsx:34-47 | a change to one dish leaves the quantity shown for every other dish as it was |
| `MenuCart.QuantityOfValidCart` | client/src/app/guest/menu/menu-order.tsx:118 | in a valid cart the shown quantity is never negative, and it is 0 exactly when the dish has no entry |
| `MenuCart.ButtonArithmetic` | client/src/app/guest/menu/menu-order.tsx:113-120 | `-` gives the shown quantity minus one, clamped at 0; `+` gives the shown quantity plus one; an absent dish reads as 0, so `-` gives 0 and `+` gives 1 |
| `MenuCart.WithoutDishKeepsDistinct` | client/src/app/guest/menu/menu-order.tsx:37 | filtering a cart with distinct dishes keeps them distinct |
| `MenuCart.QuantityChangedKeepsValid` | client/src/app/guest/menu/menu-order.tsx:34-47 | any quantity of 0 or more keeps the cart invariant: no dish twice, every quantity positive |
| `MenuCart.PressesKeepCartValid` | client/src/app/guest/menu/menu-order.tsx:113-120 | from a valid cart (the initial empty one included), any series of `-`/`+` presses keeps the cart invariant |
| `MenuCart.TotalPriceOfEmptyCart` | client/src/app/guest/menu/menu-order.tsx:26-32 | an empty cart costs 0, whatever the catalogue |
| `MenuCart.TotalPriceLastStep` | client/src/app/guest/menu/menu-order.tsx:27-31 | each catalogue dish adds the quantity of its first cart entry times its price, and nothing when it has no entry |
| `MenuCart.TotalPriceAfterChange` | client/src/app/guest/menu/menu-order.tsx:26-32 | changing a dish's quantity moves the total by (new − old quantity) × that dish's catalogue price |
| `MenuCart.CataloguePriceAbsent` | client/src/app/guest/menu/menu-order.tsx:26-32 | a dish id that no catalogue dish has carries catalogue price 0 |
| `MenuCart.UncataloguedDishContributesNothing` | client/src/app/guest/menu/menu-order.tsx:26-32 | removing the entries of a dish that is not in the catalogue leaves the total unchanged |
| `MenuCart.PlusRaisesTotal` | client/src/app/guest/menu/menu-order.tsx:120 | a `+` click raises the order button's total by the dish's catalogue price |
| `MenuCart.MinusLowersTotal` | client/src/app/guest/menu/menu-order.tsx:113 | a `-` click on a dish shown with a positive quantity lowers the total by the dish's catalogue price |
| `MenuCart.MinusAtZeroKeepsCart` | client/src/app/guest/menu/menu-order.tsx:113 | in a valid cart, a `-` click on a dish shown as 0 leaves the cart, and so the total, as it was |
| `MenuCart.WithoutAbsentDish` | client/src/app/guest/menu/menu-order.tsx:37 | filtering out a dish the cart does not hold leaves the cart unchanged |
| `MenuPages.StartIndex` | client/src/app/guest/menu/menu-order.tsx:61 | `startIndex` of a page; specified with the pages by `PageContents` and `EveryIndexOnExactlyOnePage` |
| `MenuPages.Slice` | client/src/app/guest/menu/menu-order.tsx:62 | `Array.prototype.slice`; specified by `SliceIndex` and, for pages, by `PageContents` |
| `MenuPages.Paginated` | client/src/app/guest/menu/menu-order.tsx:61-62 | `paginatedDishes`; specified by `PageContents`, `PagesPastTheEndAreEmpty`, `EveryIndexOnExactlyOnePage` and `PagesCoverCatalogue` |
| `MenuPages.DisplayedDishes` | client/src/app/guest/menu/menu-order.tsx:74-75 | the dishes rendered for a page; specified by `DisplayedDishesOfPage` |
| `MenuPages.SliceIndex` | client/src/app/guest/menu/menu-order.tsx:62 | a resolved slice index never exceeds the length |
| `MenuPages.PageCount` | client/src/app/guest/menu/menu-order.tsx:65 | the page count r is the ceiling of n / 8: 8·(r − 1) < n ≤ 8·r |
| `MenuPages.PageContents` | client/src/app/guest/menu/menu-order.tsx:61-62 | every page holds at most 8 dishes; page p ≥ 1 is exactly `dishes[(p−1)·8 .. min(n, p·8))` |
| `MenuPages.PagesPastTheEndAreEmpty` | client/src/app/guest/menu/menu-order.tsx:61-65 | a page after the last one is empty |
| `MenuPages.EveryIndexOnExactlyOnePage` | client/src/app/guest/menu/menu-order.tsx:61-65 | index i < n is shown on page i / 8 + 1, which lies in 1..pageCount, at position i − start; no other page in 1..pageCount covers it |
| `MenuPages.PagesUpToIsPrefix` | client/src/app/guest/menu/menu-order.tsx:61-62 | pages 1..k laid end to end are the first min(n, 8k) dishes |
| `MenuPages.PagesCoverCatalogue` | client/src/app/guest/menu/menu-order.tsx:61-65 | pages 1..pageCount laid end to end are exactly the catalogue |
| `MenuPages.Visible` | client/src/app/guest/menu/menu-order.tsx:75 | a dish is kept exactly when it is on the page and not hidden |
| `MenuPages.VisibleIsSubsequence` | client/src/app/guest/menu/menu-order.tsx:75 | the filtered dishes keep the page's order |
| `MenuPages.DisplayedDishesOfPage` | client/src/app/guest/menu/menu-order.tsx:74-75 | a page shows no hidden dish and every other dish of its slice, as a subsequence of the slice |
| `MenuOrder.MenuOrderView.constructor` | client/src/app/guest/menu/menu-order.tsx:16-21 | the cart starts empty (so valid), the current page is 1 and the order button shows 0 |
| `MenuOrder.MenuOrderView.TotalPrice` | client/src/app/guest/menu/menu-order.tsx:26-32 | the price on the order button; 0 for an empty cart; how each handler moves it is stated by `HandleQuantityChange`, `PressMinus`, `PressPlus` and `HandlePageChange` |
| `MenuOrder.MenuOrderView.Displayed` | client/src/app/guest/menu/menu-order.tsx:61-75 | the dish cards of the current page: its slice holds at most 8 dishes, no card is a hidden dish, every visible dish of the slice has a card, in the slice's order |
| `MenuOrder.MenuOrderView.HandleQuantityChange` | client/src/app/guest/menu/menu-order.tsx:34-47 | the new cart is the updater applied to the old one: removal on 0, append when absent, first-index replacement when present; the page then shows the new quantity; the order button's total moves by (new − old quantity) × the dish's catalogue price; the current page and its cards are unchanged |
| `MenuOrder.MenuOrderView.PressMinus` | client/src/app/guest/menu/menu-order.tsx:113 | the `-` button: the shown quantity drops by one, but not below 0, a valid cart stays valid, and the total drops by the dish's catalogue price unless the quantity was already 0 |
| `MenuOrder.MenuOrderView.PressPlus` | client/src/app/guest/menu/menu-order.tsx:120 | the `+` button: the shown quantity rises by one, a valid cart stays valid, and the total rises by the dish's catalogue price |
| `MenuOrder.MenuOrderView.HandlePageChange` | client/src/app/guest/menu/menu-order.tsx:67-69 | only the current page changes, to the given page; the cards shown become that page's visible dishes; the cart and its total stay |
| `OrdersSummary.Step` | client/src/app/guest/orders/orders-cart.tsx:24-51 | the reducer; specified by `StepAddsContribution` |
| `OrdersSummary.Fold` | client/src/app/guest/orders/orders-cart.tsx:22-63 | the `reduce` from a given start; specified by `FoldAddsClassSums` |
| `OrdersSummary.Aggregate` | client/src/app/guest/orders/orders-cart.tsx:22-63 | `{ waitingForPaying, paid }`; specified by `AggregateIsClassSums`, `AggregateOfNoOrders`, `AggregateConcat`, `AggregatePermutation` and `QuantityAccounting` |
| `OrdersSummary.StepAddsContribution` | client/src/app/guest/orders/orders-cart.tsx:24-51 | one reducer step adds `price × quantity` and `quantity` to `waitingForPaying` for a pending, processing or delivered order, to `paid` for a paid order, and to neither otherwise |
| `OrdersSummary.FoldAddsClassSums` | client/src/app/guest/orders/orders-cart.tsx:22-63 | folding from any start adds the per-class sums of the list to that start |
| `OrdersSummary.AggregateIsClassSums` | client/src/app/guest/orders/orders-cart.tsx:25-48 | `waitingForPaying` is the sum over pending, processing and delivered orders; `paid` is the sum over paid orders |
| `OrdersSummary.AggregateOfNoOrders` | client/src/app/guest/orders/orders-cart.tsx:52-61 | no orders give amount 0 and count 0 in both totals |
| `OrdersSummary.SumOfConcat` | client/src/app/guest/orders/orders-cart.tsx:22-63 | a class sum over two joined lists is the sum of the two class sums |
| `OrdersSummary.AggregateConcat` | client/src/app/guest/orders/orders-cart.tsx:22-63 | the totals of two joined lists are the component-wise sums of their totals |
| `OrdersSummary.SumOfPermutation` | client/src/app/guest/orders/orders-cart.tsx:22-63 | a class sum depends only on the multiset of orders |
| `OrdersSummary.AggregatePermutation` | client/src/app/guest/orders/orders-cart.tsx:22-63 | the totals are the same for any reordering of the same orders |
| `OrdersSummary.ClassSumsPartition` | client/src/app/guest/orders/orders-cart.tsx:25-50 | the outstanding, settled and dropped sums add up to the sum over all orders |
| `OrdersSummary.ExcludedQuantityZero` | client/src/app/guest/orders/orders-cart.tsx:50 | with positive quantities, the dropped item count is 0 exactly when no order is rejected |
| `OrdersSummary.QuantityAccounting` | client/src/app/guest/orders/orders-cart.tsx:25-50 | the two totals' counts plus the rejected count equal all items; with positive quantities the two counts are at most all items, with equality exactly when no order is rejected |
| `OrdersEvents.On` | client/src/app/guest/orders/orders-cart.tsx:99-103 | `socket.on`; specified through `Subscribe` by `SubscribeAddsOneEach` and `ListenerCountConcat` |
| `OrdersEvents.Subscribe` | client/src/app/guest/orders/orders-cart.tsx:99-103 | the four `on` calls of one effect run; specified by `SubscribeAddsOneEach` and `CleanupUndoesSubscribe` |
| `OrdersEvents.Unsubscribe` | client/src/app/guest/orders/orders-cart.tsx:105-110 | the four `off` calls of the cleanup; specified by `CleanupUndoesSubscribe` |
| `OrdersEvents.Invoke` | client/src/app/guest/orders/orders-cart.tsx:70-97 | the body of one handler called with a payload; specified by `DeliveryEffects` and `MistypedDelivery` |
| `OrdersEvents.Emit` | client/src/app/guest/orders/orders-cart.tsx:70-103 | one delivery to every handler registered under the event; specified by `DeliveryEffects` and `MistypedDelivery` |
| `OrdersEvents.Off` | client/src/app/guest/orders/orders-cart.tsx:106-109 | a registration survives `off` exactly when it was there and is not the one named |
| `OrdersEvents.DeliveryEffects` | client/src/app/guest/orders/orders-cart.tsx:70-97 | when every handler is registered under its own event, with n listeners for the event: `update-order` gives n toasts and n refetches and no log; a non-empty `payment` gives the same; an empty `payment` throws with no toast and no refetch; `connect` and `disconnect` give n logs and no toast or refetch |
| `OrdersEvents.MistypedDelivery` | client/src/app/guest/orders/orders-cart.tsx:78-96 | `onUpdateOrder` or `onPayment` reached by another event's payload throws at its destructuring, before any toast or refetch, and ends the delivery; the one exception is `onPayment` on a non-empty `disconnect` reason string, whose first character destructures without error, so it toasts and refetches |
| `OrdersEvents.ListenerCountConcat` | client/src/app/guest/orders/orders-cart.tsx:99-103 | the listener count of two joined registries is the sum of their counts |
| `OrdersEvents.SubscribeAddsOneEach` | client/src/app/guest/orders/orders-cart.tsx:99-103 | one run of the effect adds exactly one handler to each of the four events, each under its own event |
| `OrdersEvents.SubscribeKeepsRunsBelow` | client/src/app/guest/orders/orders-cart.tsx:99-103 | a run adds handlers of its own number only, each under its own event, so a registry of earlier runs holds none of the new run's handlers |
| `OrdersEvents.OffConcat` | client/src/app/guest/orders/orders-cart.tsx:106-109 | `off` on two joined registries is `off` on each |
| `OrdersEvents.OffAbsent` | client/src/app/guest/orders/orders-cart.tsx:106-109 | `off` of a registration that is not there changes nothing |
| `OrdersEvents.CleanupUndoesSubscribe` | client/src/app/guest/orders/orders-cart.tsx:99-110 | the cleanup of a run returns the registry to exactly what it was before that run |
| `OrdersEvents.RemountLeavesOneHandlerEach` | client/src/app/guest/orders/orders-cart.tsx:99-111 | mount, cleanup, mount equals a single mount: one more handler per event, and from an empty registry one `update-order` gives one toast and one refetch |
| `OrdersEvents.MissingCleanupDoubles` | client/src/app/guest/orders/orders-cart.tsx:99-103 | two mounts without the cleanup handle one `update-order` twice: two toasts, two refetches |
| `OrdersEvents.OrdersCartView.constructor` | client/src/app/guest/orders/orders-cart.tsx:16-20 | nothing is registered, nothing fetched, no effect counted yet |
| `OrdersEvents.OrdersCartView.RunEffect` | client/src/app/guest/orders/orders-cart.tsx:65-103 | logs once when the socket is already connected, then registers this run's four handlers; nothing else changes |
| `OrdersEvents.OrdersCartView.Cleanup` | client/src/app/guest/orders/orders-cart.tsx:105-110 | removes the four handlers of the given run; nothing else changes |
| `OrdersEvents.OrdersCartView.Remount` | client/src/app/guest/orders/orders-cart.tsx:65-111 | from any reachable view, one more mount, its cleanup and a second mount, on top of whatever is already registered, leave the registry as one run on it would, with one more handler per event; only the log counter and the run number change besides |
| `OrdersEvents.OrdersCartView.Rerun` | client/src/app/guest/orders/orders-cart.tsx:65-111 | the effect re-running on a dependency change: the cleanup of the live run, then a new run; the registry is the one the live run was added to plus the new run's four handlers, so each event keeps exactly one handler from the effect |
| `OrdersEvents.OrdersCartView.Deliver` | client/src/app/guest/orders/orders-cart.tsx:70-97 | the toast, refetch and log counters grow as `DeliveryEffects` says, and the order list (so its totals) and the registry stay unchanged |
| `OrdersEvents.OrdersCartView.ReceiveOrders` | client/src/app/guest/orders/orders-cart.tsx:17-22 | a resolved fetch replaces the order list, and the totals become the fold of the new list |
| `OrdersEvents.OrdersCartView.Totals` | client/src/app/guest/orders/orders-cart.tsx:22-63 | the totals shown: `waitingForPaying` is the sum over pending, processing and delivered orders, `paid` the sum over paid orders |
| `OrdersEvents.MountAndRerun` | client/src/app/guest/orders/orders-cart.tsx:65-111 | a fresh view mounted and then re-run any number of times holds exactly one `update-order` handler, with its run live on the empty registry, and no toast or refetch yet |
| `OrdersEvents.RerunScenario` | client/src/app/guest/orders/orders-cart.tsx:65-111 | mount, then any number of re-runs of the effect, then one `update-order` event: exactly one toast and one refetch |
| `OrdersEvents.RemountScenario` | client/src/app/guest/orders/orders-cart.tsx:65-111 | mount, cleanup, mount, then one `update-order` event: exactly one toast and one refetch |

## Left out

- `client/src/app/guest/menu/page.tsx` only renders the menu component. It is not part of this model.
- The session bootstrap in `client/src/app/(public)/(auth)/login/oauth/page.tsx` is not part of this model. This covers token decoding, the one-shot counter and the cookie exchange.
- `handleOrder` (menu-order.tsx:49-58) sends the cart over the network, navigates, and reports errors. That is foreign I/O, so it is left out. So is the order button being disabled for an empty cart (line 151).
- The data queries `useDishListQuery` and `useGuestGetOrderListQuery` are external. The catalogue is a constant of `MenuOrderView`, and a fetched order list only arrives through `ReceiveOrders`. `refetch()` is only counted.
- Markup, styling, images, `formatCurrency`, `getVietnameseOrderStatus`, and the text of toasts and console lines are presentation, so they are left out. The payment toast's guest name, table number and batch length are not modelled.
- Unavailable dish cards are made unclickable with CSS only (menu-order.tsx:82). `PressMinus`/`PressPlus` do not model that.
- React scheduling is not modelled. Each handler runs as one atomic step. In the `-`/`+` buttons, the quantity read by the click and the `prevOrders` the updater receives are taken to be the same cart. Re-renders and effect timing are not modelled.
- The socket.io transport, connection and reconnection are not modelled. `OrdersCartView.connected` is fixed when the view is created. The real `on`/`off` live in a library that is not shown. The model's `off` removes every equal registration. A handler of one effect run is registered only once, so removing one copy or all copies gives the same result.
- The socket's presence and identity are not modelled. The source calls `socket?.on`/`socket?.off`, so while the app context has no socket the effect and its cleanup do nothing; and when `socket` changes (an effect dependency, orders-cart.tsx:111) the cleanup unregisters from the old socket while the new run registers on the new one. The model has one registry that always exists and never changes identity; `OrdersCartView.Rerun` covers only a re-run on the same socket.
- The payloads are modelled by their shape only (an order, a batch, a disconnect reason string, nothing). What a handler cannot see in them, such as the guest's name, is left out.
- JavaScript numbers are doubles, so integers above 2^53 lose precision. They are modelled as unbounded integers, and prices and quantities are whole numbers.
