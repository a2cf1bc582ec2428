# Canteen ordering app — a Dafny model of its client-side core

The app is a browser front end for a campus canteen. Its logic lives in five
scripts, and each one is modelled as a Dafny module:

- **Cart** (`cart.js`): a cart of named lines with a price and a quantity.
  - Quantities stay between 1 and 99.
  - Adding an item already in the cart merges it into that line.
  - A quantity change can remove a line.
  - The cart computes its total and its item count.
- **Orders** (`orders.js`): a list of orders.
  - Each order has a token, an item, a price, a quantity, a status and a timestamp.
  - Orders are placed one at a time or as a whole-cart checkout under one shared token.
  - The list is capped at 1000 orders.
  - Orders can be looked up by token and have their status changed.
- **Notifications** (`notification.js`): an inbox of at most 100 notifications, newest first, with a separate unread counter.
  - Notifications can be added, marked read, deleted, cleared and loaded from storage.
  - Text is escaped for HTML.
  - Each notification type has an icon.
- **Search** (`search.js`): the search box.
  - It builds a flat list of entries from the canteen cards, the menu cards, the notifications and the orders.
  - It filters them by a case-insensitive substring match on a composite text.
  - It groups the matches by entry type.
  - It labels times as "Just now", "5m ago", "Yesterday" and so on.
- **LegacyCart** (`script.js`): the older single-page cart.
  - It has no quantity cap.
  - Removal is by name.
  - Checkout summarises the cart and empties it.
  - It also has a menu name filter.

Supporting modules:

- **Wrappers** holds the `Option`, `Result` and `Stored` types. `Stored` is what a `localStorage` read yields: absent, malformed JSON, not an array, or a list.
- **Text** holds ASCII lower-casing, substring search, trimming, replacement, `join`, and decimal rendering and parsing of integers.
- **Sequences** holds subsequences and `map`.

### How state is modelled

Each script's global state is a class:

| Class | Fields |
|---|---|
| `Cart.CartManager` | `lines` |
| `Orders.OrderManager` | `orders` |
| `Notifications.NotificationCenter` | `notifications`, `unreadCount` |
| `Search.SearchIndex` | `searchableItems` |
| `LegacyCart.LegacyCartState` | `cart` |

Each mutating method is specified by a pure function of the old state, for example `lines == AddItem(old(lines), name, price)`. Lemmas about those functions state what the scripts promise. Loops in the source (summing the cart, checking out a cart, updating matching orders, collecting search entries, finding a legacy line) are `while` loops with invariants.

### Representation choices

- Prices and quantities are unbounded integers. A price is a whole number of rupees, the unit the pages display and the search text renders.
- The clock (`Date.now()`) and `Math.random()` are parameters: `now` and `random`, where `random` is the three-digit random part of a token.
- A notification's id is the `now` it was created with.

### Behaviour of the code as written

- **Order status.** `updateOrderStatus` (orders.js:195-221) enforces no transition order: any of the five statuses may replace any other, and the model does the same.
- **Cart checkout.**
  - `placeCartOrder` (orders.js:79-136) pushes the orders of the valid lines before the first invalid one. It then throws without removing them, so a failed checkout leaves a partial batch in the list and keeps the cart. The model keeps this behaviour.
  - orders.js:121 reads `window.cartFunctions?.cart = []`. An optional chain is not a valid assignment target, so this is a syntax error and orders.js as written does not load at all.
  - `placeCartOrder` also reads `window.cartFunctions.cart`, but cart.js:241-248 exports only functions, not the cart. Even with line 121 repaired, every checkout as written would fail with "Your cart is empty".
  - The model rebuilds the evident intent: `PlaceCartOrder` takes the cart as a `Cart.CartManager` parameter, reads its lines, and clears that cart on success.
- **Unread counter.** `addNotification` evicts the oldest notification when the inbox holds 100 or more (notification.js:30-32) but never decrements `unreadCount` for an unread evicted one. The counter is therefore not always equal to the number of unread notifications. The model keeps this drift (`EvictionDrift`) and proves the weaker invariant that does hold: the counter never falls below the true unread count (`Covers`).
- **Search index refresh.** search.js:322-328 rebuilds the index on `notificationsUpdated` and `ordersUpdated`, but no script dispatches either event. As written, the index is built once at search.js:282 and never rebuilt. `SearchIndex.Refresh` models what those handlers would do.
- **Search inputs.** `search.js` reads `window.notifications` and `window.orders`, which the other scripts declare with `let` and never attach to `window`. Those inputs are `Option` parameters, and `None` is the case that actually happens.

## Model

| member | source | states |
|---|---|---|
| Cart.AddItem | cart.js:54-86 | computes the cart after `addToCart`: unchanged for an invalid item or a line already at 99, the first line with the name gaining one unit, or a new line of quantity 1 appended |
| Cart.RemoveAt | cart.js:117-132 | computes the cart after `removeFromCart(index)`: unchanged for an index outside the cart, otherwise the cart without line `index` |
| Cart.UpdateQuantityAt | cart.js:89-114 | computes the cart after `updateQuantity(index, change)`: unchanged for a bad index or a result above 99, the line removed below 1, otherwise the line's quantity set to the new value |
| Cart.Total | cart.js:156-162 | computes the cart total, the sum of price times quantity over the lines |
| Cart.ItemCount | cart.js:148 | computes the badge count, the sum of the lines' quantities |
| Cart.ValidateCartItem | cart.js:10-17 | an item is accepted iff its name is non-empty and its price positive; an empty name is reported as an invalid name before the price is looked at |
| Cart.FindLine | cart.js:58-59 | the index found is the first line with that name; none is found iff no line has it |
| Cart.SumsAppend | cart.js:148-162 | total and item count add up over concatenated carts |
| Cart.SumsReplace | cart.js:148-162 | replacing one line changes total and count by exactly that line's difference |
| Cart.SumsRemove | cart.js:117-132 | removing a line lowers total and count by exactly that line's share |
| Cart.RemoveAtShape | cart.js:117-132 | an out-of-range index leaves the cart unchanged; a valid one removes just that line, keeping the others in order |
| Cart.AddItemInvalid | cart.js:54-57 | an invalid item leaves the cart unchanged |
| Cart.AddItemExisting | cart.js:58-68 | a known name at quantity 99 leaves the cart unchanged; below 99 the quantity of that line rises by one and the total by its price |
| Cart.AddItemNew | cart.js:69-77 | a new name is appended with quantity 1; total rises by the price, count by one |
| Cart.AddTwiceMerges | cart.js:54-86 | adding the same new item twice yields one line of quantity 2 |
| Cart.UpdateQuantityBadIndex | cart.js:89-93 | an out-of-range index changes nothing |
| Cart.UpdateQuantityAboveMax | cart.js:95-99 | a change past 99 is refused and changes nothing |
| Cart.UpdateQuantityInRange | cart.js:102-106 | an in-range change sets the new quantity; total changes by price times change, count by change |
| Cart.UpdateQuantityBelowMin | cart.js:107-109 | a change below 1 removes the line |
| Cart.RemoveAtPreserves | cart.js:117-132 | removal keeps names unique and quantities in 1..99 |
| Cart.AddItemPreserves | cart.js:54-86 | adding keeps names unique and quantities in 1..99 |
| Cart.UpdateQuantityPreserves | cart.js:89-114 | a quantity change keeps names unique and quantities in 1..99 |
| Cart.CartManager.constructor | cart.js:2 | a new cart is empty |
| Cart.CartManager.AddToCart | cart.js:54-86 | the new cart is `AddItem` of the old; well-formedness is kept; the signal reports a failure, a merge, the maximum, or an addition |
| Cart.CartManager.RemoveFromCart | cart.js:117-132 | the new cart is `RemoveAt` of the old; the signal names the removed item or reports a bad index |
| Cart.CartManager.UpdateQuantity | cart.js:89-114 | the new cart is `UpdateQuantityAt` of the old; the signal reports a bad index, the maximum, a removal or an update |
| Cart.CartManager.ComputeTotal | cart.js:157-162 | the loop's sum is the cart total, price times quantity over all lines |
| Orders.StatusName | orders.js:197 | gives each status the name the source stores for it |
| Orders.ParseStatus | orders.js:197-199 | a name is accepted iff it is one of the five status names, and then it parses to that status |
| Orders.StatusNameRoundTrip | orders.js:197-199 | every status parses back from its name |
| Orders.ValidateOrder | orders.js:10-20 | an order is accepted iff the item is non-empty, the price positive and the quantity in 1..99 |
| Orders.GenerateToken | orders.js:23-34 | computes the token from the clock and the random draw: "T", the last four digits of the clock, and the draw padded to three digits |
| Orders.TokenDecodes | orders.js:23-34 | a token is "T", then the last four digits of the clock, then the random number as three zero-padded digits: 8 characters, all digits after the "T", each part decoding to its value |
| Orders.AppendBounded | orders.js:41-56 | computes the list after `placeOrder` pushes an order: the newest 999 are kept first when the list holds 1000 or more, then the order is appended |
| Orders.KeepLast | orders.js:106-108 | `slice(-n)` keeps the newest orders: all of them when there are fewer than n, exactly n otherwise, as the suffix of the list |
| Orders.AppendBoundedShape | orders.js:41-56 | placing one order ends the list with the new one after the most recent old ones; below 1000 orders nothing is dropped, and at 1000 or more exactly 1000 remain |
| Orders.OrderFor | orders.js:93-101 | builds the pending order for one cart line, with the checkout's token and timestamp |
| Orders.Batch | orders.js:90-103 | a checkout batch has one order per cart line, in cart order, each built from its line |
| Orders.FirstInvalid | orders.js:90-92 | the index found is the first line that fails validation; none is found iff every line passes |
| Orders.BatchShared | orders.js:84-101 | every order of a checkout shares the one token and timestamp and starts pending |
| Orders.CheckoutBound | orders.js:105-108 | after a successful checkout all orders are kept when there are fewer than 1000 and exactly 1000 otherwise, and the whole batch ends the list when the cart holds at most 1000 lines |
| Orders.FailedCheckoutExceedsBound | orders.js:90-108 | a checkout that fails on its second line after a valid first line leaves 1001 orders, because the throw skips the trimming |
| Orders.FilterToken | orders.js:187 | the lookup keeps the list's order, returns only orders with the token, and misses none |
| Orders.FilterTokenCount | orders.js:187 | the lookup holds each order carrying the token as often as the list does, so equal orders are all kept, and no other order |
| Orders.OrdersWithToken | orders.js:182-192 | an empty token finds nothing; any other token finds exactly the orders carrying it |
| Orders.LookupEmpty | orders.js:182-192 | the lookup is empty iff the token is empty or no order carries it |
| Orders.SetStatus | orders.js:206-208 | computes the list after every order under the token gets the new status, other orders untouched |
| Orders.SetStatusOtherTokens | orders.js:208-210 | updating one token leaves the orders of every other token as they were |
| Orders.SetStatusAll | orders.js:208-210 | after updating a token, every order with it has the new status and the rest of each order is unchanged |
| Orders.OrderManager.constructor | orders.js:7 | a new order list is empty |
| Orders.OrderManager.PlaceOrder | orders.js:37-76 | an invalid order returns nothing and changes nothing; a valid one returns the new pending order, which is appended after keeping the most recent 999 |
| Orders.OrderManager.PlaceCartOrder | orders.js:79-136 | an empty cart fails and changes nothing; a first invalid line k fails, leaves the orders of lines before k appended, and keeps the cart; otherwise the token is returned, the batch appended, the last 1000 orders kept and the cart emptied |
| Orders.OrderManager.UpdateOrderStatus | orders.js:195-221 | succeeds iff the status name is valid and some order carries the token; on success every order with the token has the new status; on failure nothing changes |
| Notifications.ParseKind | notification.js:19-21 | a type is accepted iff it is success, error, warning or info |
| Notifications.ValidateNotification | notification.js:12-22 | a notification is accepted iff title and message are non-empty and the type is known |
| Notifications.IconForType | notification.js:134-142 | each known type gets its own icon; any other string gets the info icon |
| Notifications.KindIconsDistinct | notification.js:135-140 | different types have different icons |
| Notifications.EscapeHtml | notification.js:124-131 | computes the five chained global replacements of `escapeHtml`, `&` first |
| Notifications.EscapeHtmlAppend | notification.js:124-131 | escaping distributes over concatenation |
| Notifications.EscapeHtmlSingle | notification.js:124-131 | the five chained replacements map each single character to its entity or itself |
| Notifications.EscapeHtmlIsCharwise | notification.js:124-131 | the chained replacements equal one pass of per-character escaping, so an escaped `&` is never escaped again |
| Notifications.EscapedIsInert | notification.js:124-131 | escaped text contains no `<`, `>`, `"` or `'` |
| Notifications.EscapeEachInert | notification.js:124-131 | per-character escaping leaves no `<`, `>`, `"` or `'` |
| Notifications.UnescapeEntity | notification.js:124-131 | each entity decodes back to the character it replaced |
| Notifications.EscapeRoundTrip | notification.js:124-131 | escaping loses nothing: decoding the escaped text gives back the original |
| Notifications.EscapeEachRoundTrip | notification.js:124-131 | decoding per-character escaping gives back the original |
| Notifications.FindById | notification.js:295 | the index found is the first notification with the id; none is found iff no notification has it |
| Notifications.CountUnread | notification.js:381 | the number of unread notifications is at most their number |
| Notifications.CountUnreadAppend | notification.js:381 | unread counts add up over concatenation |
| Notifications.CountUnreadSplit | notification.js:294-320 | the unread count splits around any one notification |
| Notifications.Decrement | notification.js:298 | computes `Math.max(0, unreadCount - 1)`, the counter decrement floored at zero (also used at notification.js:310) |
| Notifications.Add | notification.js:25-44 | computes the inbox after `addNotification`: the oldest entry dropped at 100 or more, the new unread entry put first, the counter raised by one |
| Notifications.MarkRead | notification.js:294-303 | computes the inbox after `markAsRead`: the first entry with the id marked read and the counter decremented, or nothing changed when it is absent or already read |
| Notifications.Delete | notification.js:306-320 | computes the inbox after `deleteNotification`: the first entry with the id removed, the counter decremented if it was unread |
| Notifications.ClearAll | notification.js:323-331 | computes the inbox after `clearAllNotifications`: unchanged when empty, otherwise no entries and a zero counter |
| Notifications.Loaded | notification.js:379-381 | computes the inbox after loading a stored list: that list with the counter set to its unread count |
| Notifications.AddShape | notification.js:29-43 | the new notification goes first; below 100 all old ones follow; at 100 the oldest is dropped |
| Notifications.AddCounter | notification.js:43-44 | after adding an unread notification, the gap between the counter and the true unread count grows by one exactly when an unread notification was evicted, and is unchanged otherwise |
| Notifications.MarkReadShape | notification.js:294-303 | an unknown id changes nothing; otherwise only the first match becomes read, and the counter drops by one, not below zero, iff it was unread |
| Notifications.MarkReadIdempotent | notification.js:294-303 | marking read twice is marking read once |
| Notifications.DeleteShape | notification.js:306-320 | an unknown id changes nothing; otherwise the first match is removed, and the counter drops iff it was unread |
| Notifications.ClearAllShape | notification.js:323-340 | clearing an empty inbox changes nothing; otherwise it empties the list and zeroes the counter |
| Notifications.ExactPreserved | notification.js:294-340 | loading makes the counter exact, and marking read, deleting and clearing keep it exact |
| Notifications.CoversPreserved | notification.js:25-56 | every operation keeps the counter at or above the true unread count |
| Notifications.EvictionDrift | notification.js:29-44 | evicting an unread notification at the cap leaves the counter one above the true unread count |
| Notifications.NotificationCenter.constructor | notification.js:8-9 | a new inbox is empty with counter zero |
| Notifications.NotificationCenter.AddNotification | notification.js:25-56 | an invalid notification reports its error and changes nothing; a valid one is added as unread with the counter raised; the size stays at most 100 and the counter invariant is kept |
| Notifications.NotificationCenter.MarkAsRead | notification.js:294-303 | the new state is `MarkRead` of the old; the exact and covering counter invariants are kept |
| Notifications.NotificationCenter.DeleteNotification | notification.js:306-320 | the new state is `Delete` of the old; both counter invariants are kept |
| Notifications.NotificationCenter.ClearAllNotifications | notification.js:323-340 | reports whether there was anything to clear; the new state is `ClearAll` of the old |
| Notifications.NotificationCenter.LoadNotifications | notification.js:374-391 | a stored list replaces the inbox with an exact counter; malformed data empties it; an absent or non-list value leaves it unchanged |
| Search.CanteenLabel | search.js:24-26 | gives a menu card's canteen: none outside a section, "Common Canteen" when the section id contains "common", else "Parking Canteen" |
| Search.CanteenEntryOf | search.js:12-20 | builds the entry for a canteen card from its title and description |
| Search.MenuEntryOf | search.js:23-38 | builds the entry for a menu card, with missing description and item number as empty text and its canteen label |
| Search.NotificationEntryOf | search.js:41-52 | builds the entry for a notification from its title and message |
| Search.PriceText | search.js:109 | renders an order's price for the search text, a zero price as empty text since it is falsy |
| Search.OrderEntryOf | search.js:55-67 | builds the entry for an order: "Order #" and its token, "item - Quantity: n", its price and status name |
| Search.Collected | search.js:8-70 | computes the entry list: canteen cards, menu cards, then notifications and orders when those lists exist |
| Search.CollectedInTypeOrder | search.js:8-70 | collection puts canteens, then menu items, then notifications, then orders, with one entry per record |
| Search.OrderEntryText | search.js:56-64 | an order is listed as "Order #" plus its token, described by its item and quantity |
| Search.SearchText | search.js:109 | joins name, description, item number, price, canteen and status with single spaces |
| Search.Matches | search.js:109-110 | an entry matches when its lower-cased search text contains the lower-cased query |
| Search.FilterMatches | search.js:108-111 | the results keep entry order, all match the query, and include every matching entry |
| Search.FilterMatchesCount | search.js:108-111 | the results hold each matching entry as often as the index does, so equal entries are all kept, and no other entry |
| Search.OfType | search.js:115-118 | computes one group, the results of one entry type in result order |
| Search.OfTypeSelects | search.js:114-119 | a group keeps result order, holds only its type, and misses none of that type |
| Search.ShowSearchResults | search.js:102-119 | computes what the panel shows: hidden for an empty query, the placeholder when nothing matches, else the four groups |
| Search.OnInput | search.js:285-287 | computes the panel for the box's text after trimming it |
| Search.BlankInputInactive | search.js:103-106 | the panel is hidden iff the input is all whitespace |
| Search.NoResultsExactly | search.js:204-216 | "No results found" is shown iff the query is non-empty and matches no entry |
| Search.OfTypeCount | search.js:114-119 | a group holds each entry of its type exactly as often as the results do, and no entry of another type |
| Search.GroupsPartition | search.js:114-119 | the four groups together hold each result exactly as often as the results do |
| Search.GroupShown | search.js:108-119 | the group cut for one type is an in-order subsequence of the results holding only matching entries of that type, every one of them, each as often as the index holds it |
| Search.GroupedContents | search.js:108-119 | each of the four shown groups holds, in result order, exactly the matching entries of its type with their multiplicities |
| Search.MatchAcrossFields | search.js:109 | fields are joined by spaces, so a query spanning the name and the description matches |
| Search.MatchIgnoresCase | search.js:109-110 | matching does not depend on the case of the query |
| Search.FormatTime | search.js:80-99 | computes the time label from the elapsed milliseconds with the source's floor divisions and branch order |
| Search.FormatTimeBuckets | search.js:80-99 | the label by elapsed milliseconds: under a minute "Just now", then minutes below an hour, hours below a day, "Yesterday" from 24 to 48 hours, days below a week, then the date; a future time gives a negative minute count |
| Search.SearchIndex.Query | search.js:285-287 | computes the panel for the box's text against the current index |
| Search.SearchIndex.constructor | search.js:5 | a new index is empty |
| Search.SearchIndex.PushAll | search.js:12-19 | one `forEach` pass appends the entry of every record, in order |
| Search.SearchIndex.CollectSearchableItems | search.js:8-70 | the entries built are exactly the collected list of the four sources |
| Search.SearchIndex.Refresh | search.js:322-328 | what the update handlers would do (no script fires their events): the index is rebuilt from the current sources |
| LegacyCart.FirstNamed | script.js:11 | the index found is the first line with the name; -1 iff there is none |
| LegacyCart.Added | script.js:10-16 | computes the cart after `addToCart`: the first line with the name gains one unit, or a new line of quantity 1 is appended |
| LegacyCart.Without | script.js:23 | computes the cart without every line of the name |
| LegacyCart.OrderDetails | script.js:58 | computes the checkout summary: each line as "name x quantity", joined with ", " |
| LegacyCart.SearchShows | script.js:66-76 | an item stays visible iff its lower-cased name contains the lower-cased input |
| LegacyCart.AddExistingIncrements | script.js:11-13 | a name already present raises the first matching line's quantity by one with no upper bound; the number of lines is unchanged |
| LegacyCart.AddNewAppends | script.js:14-16 | a new name is appended at the end with quantity 1 |
| LegacyCart.CountIsLines | script.js:40 | the badge counts lines, not units: adding a new name twice adds one line of quantity 2 |
| LegacyCart.WithoutSpec | script.js:22-23 | removal keeps the other lines in order and leaves none with the name |
| LegacyCart.WithoutCount | script.js:22-23 | removal keeps each line of another name as often as the cart holds it, so equal lines are all kept |
| LegacyCart.WithoutIdempotent | script.js:22-23 | removing a name twice is removing it once |
| LegacyCart.DetailsListEveryLine | script.js:58 | the order summary contains every line's "name x quantity" |
| LegacyCart.DetailsShape | script.js:58 | the summary of no lines is empty, of one line is its text, and each further line adds ", " and its text at the end, so the texts appear in cart order |
| LegacyCart.DetailsLength | script.js:58 | the summary is exactly as long as the line texts plus a two-character separator between each pair |
| LegacyCart.SearchShowsAll | script.js:66-76 | an empty input shows every item, and the case of the input does not matter |
| LegacyCart.LegacyCartState.CartCount | script.js:40 | the badge, the number of lines in the cart |
| LegacyCart.LegacyCartState.constructor | script.js:4 | the cart starts as the saved list, or empty when nothing is saved |
| LegacyCart.LegacyCartState.AddToCart | script.js:10-20 | the new cart is `Added` of the old |
| LegacyCart.LegacyCartState.RemoveFromCart | script.js:22-26 | the new cart is the old one without lines of that name |
| LegacyCart.LegacyCartState.PlaceOrder | script.js:53-63 | an empty cart reports "empty" and is unchanged; otherwise the summary of the old cart is reported and the cart emptied |

## Left out

- DOM rendering, `innerHTML` templates, panels, modals, the overlay, toasts and `alert`.
  - These are view code.
  - The outcome of each operation is returned as a signal value instead.
  - `showNotificationDetails` (notification.js:228-233) matters only through its call to `markAsRead`, which is modelled.
- `highlightText`, `navigateToResult`, `selectCanteen`, the modal functions and the global event wiring. These are navigation and UI.
- Writes to `localStorage` are side effects with nothing to prove about them.
- Loading from storage is modelled for notifications (`LoadNotifications`) and for the legacy cart, whose constructor takes the saved list (or an empty one when nothing is saved). Loading the cart of cart.js and the orders is not modelled.
- script.js:4 parses the saved legacy cart without a `try`, so malformed storage throws an uncaught error and stops the script. That path, and a saved value that is not a list, are not modelled.
- Order ids (`Date.now()` and `Date.now() + Math.random()`) are not modelled. No operation of the core reads them.
- A successful `placeOrder` or `placeCartOrder` also calls `addNotification` (orders.js:60-64, 114-118). That call adds an unread inbox entry, may evict the oldest one, and raises the counter. `PlaceOrder` and `PlaceCartOrder` do not model this cross-manager effect; `AddNotification` models the call itself. The failure path's `showToastNotification` is UI.
- The `catch` fallback of `generateTokenNumber` (orders.js:31-32) cannot be reached. The code in its `try` cannot throw.
- Each call of `Date.now()` / `new Date()` inside one operation is read from a single `now`.
- Type checks (`typeof`, `isNaN`, non-integer numbers) are not modelled. Arguments are typed, and integers stand for JS numbers.
- Default parameters (`type = 'info'`, `quantity = 1`) are not modelled. Callers pass them explicitly.
- `getIconForType` (notification.js:134-142) looks the type up in a plain object, so `"constructor"` or `"toString"` would find a prototype member. The model treats every unknown string as unknown.
- `toLowerCase`, `trim` and `includes` are modelled over ASCII only. There is no Unicode case folding or Unicode whitespace.
- `toLocaleDateString` is locale formatting. A date older than a week is represented by `CalendarDate(time)`.
- The label texts ("Just now", "5m ago", …) are view strings. The model stops at the `TimeLabel` value.
- Fractional prices (`toFixed(2)` renders paise) are not modelled: prices are whole rupees.
- `Notifications.NotificationCenter.AddNotification`: the unread counter is not kept exact across evictions, because the source does not keep it exact. Only `Covers` is promised.
- `formatTime` in notification.js:343-361 has the same branches as the search module's `formatTime`. It is modelled once, as `Search.FormatTime`.
