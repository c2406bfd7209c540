# Order lifecycle of the QR table-ordering demo

A customer scans the QR code of a table, browses the menu of that table and
fills a cart (`TableMenu`), reviews and edits the cart and places the order
under their name (`Cart`), pays for it (`Payment`), and is shown the paid
order with its status and a countdown of the estimated preparation time
(`OrderConfirmation`). The four pages hand data to each other through the
browser's local storage under four keys: `cart`, `tableId`, `currentOrder`
and `orders`.

This project models that lifecycle in Dafny:

- `Records` — the menu item, the cart line (a menu item plus a quantity), the
  pending order record and the paid order record. Prices and amounts are
  integer cents.
- `Storage` — local storage as a map from the four keys to typed values
  (`WellTyped`), the two readers the pages use (`StoredOrders`, with an absent
  list read as empty, and `StoredDraft`), and a `LocalStorage` class with
  `GetItem`, `SetItem` and `RemoveItem`.
- `JsStrings` — what `String.prototype.trim` strips (ECMAScript white space
  and line terminators) and the decimal rendering of a non-negative integer.
- `TableMenu` — the sample catalogue, the distinct category list, the cart
  updaters `addToCart` and `removeFromCart` as pure functions, the quantity
  and total folds, and the page state as the class `MenuPage`, whose
  `GoToCart` writes the cart and the table identifier to storage.
- `CartPage` — `removeItem` (a filter), `updateQuantity` (0 means remove,
  anything else overwrites), the order identifier `ORD-<now>-<tableId>`, the
  order record with its name check, and the page state as the class
  `CartView`, whose `PlaceOrder` writes `currentOrder`.
- `Payment` — the settlement of the pending order as a function on storage
  (`Settle`) and the page state as the class `PaymentView`: load guard,
  method choice, and the one-way `isProcessing` flag.
- `Confirmation` — the find-first lookup by order identifier, the three
  status mappings, the countdown step, and the page state as the class
  `ConfirmationView`.
- `Lifecycle` — the end-to-end chain: open the cart, place the order, pay,
  and look the order up by the identifier handed over.

The updaters act on every cart line whose item id matches, as the `map`,
`filter` and `reduce` calls do. That a cart holds at most one line per item,
each with a quantity of at least 1 (`CartInvariant`), is proved to be kept by
every operation the buttons can trigger (`AddToCartKeepsInvariant`,
`RemoveFromCartKeepsInvariant`, `RemoveItemKeepsInvariant`,
`StepButtonsKeepInvariant`). It is not assumed by the updaters.

In these places the model follows the code, not what one might expect of an
ordering system:

- `addToCart` does not look at `available`. Only the page hides the Add
  button of an unavailable item.
- `updateQuantity` stores a negative number as it is. The page only ever
  passes a line's quantity plus or minus one, and
  `CartPage.StepButtonsKeepInvariant` shows that this never leaves a line at
  0 or below.
- The menu page writes the cart to storage only when the cart is opened
  (`goToCart`), not after each addition.
- The confirmation page treats an empty order identifier like a missing one.
  Both are falsy, so both redirect home.

## Model

| member | source | states |
|---|---|---|
| TableMenu.MenuCatalogue | src/pages/TableMenu.tsx:31-80 | the sample catalogue has six dishes with distinct identifiers and positive prices, and only the Grilled Salmon is unavailable |
| TableMenu.Distinct | src/pages/TableMenu.tsx:82 | `[...new Set(xs)]` is never longer than `xs`; what it holds and in which order is stated by `DistinctElements` and `DistinctFirstAppearanceOrder` |
| TableMenu.Categories | src/pages/TableMenu.tsx:82 | `categories` has at most one entry per menu item; `CategoriesAreDistinctInOrder` characterises it fully |
| Storage.StoredOrders | src/pages/Payment.tsx:44 | the stored `orders` list, read as empty when the key is absent (also OrderConfirmation.tsx line 34); `Settle` and `FindOrderAppend` state how it changes and is searched |
| Storage.StoredDraft | src/pages/Payment.tsx:28-30 | the pending order is present exactly when `currentOrder` is stored |
| Storage.LocalStorage.GetItem | src/pages/Cart.tsx:28-29 | `getItem` returns the stored value, and null exactly when the key is absent |
| Storage.LocalStorage.SetItem | src/pages/TableMenu.tsx:133-134 | `setItem` writes exactly the one key |
| Storage.LocalStorage.RemoveItem | src/pages/Payment.tsx:55-56 | `removeItem` removes exactly the one key, and does nothing when it is absent |
| TableMenu.DistinctElements | src/pages/TableMenu.tsx:82 | the de-duplicated list holds exactly the elements of the input, each once |
| TableMenu.DistinctFirstAppearanceOrder | src/pages/TableMenu.tsx:82 | the de-duplicated list orders its elements by their first position in the input |
| TableMenu.CategoriesAreDistinctInOrder | src/pages/TableMenu.tsx:82 | `categories` holds a category iff some menu item has it, lists each once, in order of first appearance |
| TableMenu.MenuCategories | src/pages/TableMenu.tsx:31-82 | the sample catalogue yields Main Course, Appetizers, Desserts, Sides |
| TableMenu.FindLine | src/pages/TableMenu.tsx:86 | the `find` result is absent iff no line has the id; otherwise it is the line at the first position holding the id |
| TableMenu.FindLineFirst | src/pages/TableMenu.tsx:86 | a line preceded by no line of the same item is exactly what `find` returns, whatever comes after it |
| TableMenu.FindLineAt | src/pages/TableMenu.tsx:86 | with one line per item, `find` returns the item's own line |
| TableMenu.IncrementMatching | src/pages/TableMenu.tsx:88-92 | the `map` keeps the length and the menu item at every position, changing quantities only; `RemoveUndoesIncrement` shows the `reduce` of `removeFromCart` undoes it |
| TableMenu.AddToCart | src/pages/TableMenu.tsx:84-96 | after adding, the item has a line, and the cart grows by one line exactly when the item had none; the lemmas below give the new cart in full |
| TableMenu.AddToCartExisting | src/pages/TableMenu.tsx:86-92 | with one line per item, adding an item already present raises that line's quantity by exactly 1; length, order and every other line unchanged |
| TableMenu.AddToCartNew | src/pages/TableMenu.tsx:93-95 | adding an absent item appends one line with quantity 1 at the end |
| TableMenu.AddToCartKeepsInvariant | src/pages/TableMenu.tsx:84-96 | adding keeps one line per item and every quantity at least 1 |
| TableMenu.AddTwiceToEmpty | src/pages/TableMenu.tsx:84-96 | adding the same item twice to an empty cart gives one line of quantity 2 |
| TableMenu.AddToCartQuantities | src/pages/TableMenu.tsx:84-122 | for every cart, duplicate lines included, `getItemQuantity` of the added item rises by 1 and that of every other item is unchanged |
| TableMenu.AddToCartTotals | src/pages/TableMenu.tsx:124-130 | with one line per item, each addition raises `getTotalItems` by exactly 1 and `getTotalPrice` by the unit price of the item's line |
| TableMenu.RemoveFromCart | src/pages/TableMenu.tsx:104-117 | the `reduce` never lengthens the cart; `RemoveFromCartShape`, `RemoveFromCartAbsent` and `RemoveAfterAdd` state what it leaves |
| TableMenu.RemoveFromCartShape | src/pages/TableMenu.tsx:104-117 | with one line per item, a line above 1 loses one, a line at 1 is deleted, all other lines keep their order |
| TableMenu.RemoveFromCartAbsent | src/pages/TableMenu.tsx:104-117 | removing an absent id leaves the cart unchanged |
| TableMenu.RemoveFromCartKeepsInvariant | src/pages/TableMenu.tsx:104-117 | removing keeps one line per item and every quantity at least 1 |
| TableMenu.RemoveFromCartCounts | src/pages/TableMenu.tsx:104-126 | with one line per item and every quantity at least 1, removing lowers the item's quantity by 1 (never below 0) and the total item count by 1 exactly when the item was present |
| TableMenu.RemoveAfterAdd | src/pages/TableMenu.tsx:84-117 | with every quantity at least 1, `removeFromCart(item.id)` right after `addToCart(item)` restores the cart |
| TableMenu.RemoveUndoesIncrement | src/pages/TableMenu.tsx:88-117 | with positive quantities, the decrementing `reduce` undoes the incrementing `map` |
| TableMenu.ItemQuantity | src/pages/TableMenu.tsx:119-122 | `getItemQuantity` is 0 for an absent item, and with positive quantities it is at least 1 exactly when the item is present |
| TableMenu.ItemQuantityAt | src/pages/TableMenu.tsx:119-122 | with one line per item, `getItemQuantity` reads the quantity of the item's line |
| TableMenu.TotalItems | src/pages/TableMenu.tsx:124-126 | the item count is 0 for the empty cart and at least the number of lines when quantities are positive |
| TableMenu.TotalPrice | src/pages/TableMenu.tsx:128-130 | the total is 0 for the empty cart and never negative when quantities are positive |
| TableMenu.TotalsAppend | src/pages/TableMenu.tsx:124-130 | both folds are additive over concatenation |
| TableMenu.TotalsUpdateAt | src/pages/TableMenu.tsx:124-130 | replacing one line changes the folds by exactly that line's difference |
| TableMenu.TotalsDeleteAt | src/pages/TableMenu.tsx:124-130 | deleting one line lowers the folds by exactly that line's contribution |
| TableMenu.MenuPage.constructor | src/pages/TableMenu.tsx:25-28 | the page starts with the route's table and an empty cart |
| TableMenu.MenuPage.Add | src/pages/TableMenu.tsx:84-96 | the Add button replaces the cart by `addToCart` of it and keeps the cart invariant |
| TableMenu.MenuPage.Remove | src/pages/TableMenu.tsx:104-117 | the minus button replaces the cart by `removeFromCart` of it and keeps the cart invariant |
| TableMenu.MenuPage.GoToCart | src/pages/TableMenu.tsx:132-136 | exactly `cart` and `tableId` (empty when the route has none) are written; every other key is unchanged |
| CartPage.RemoveItem | src/pages/Cart.tsx:52-55 | the `filter` never lengthens the cart; `RemoveItemMembers` states exactly which lines it keeps |
| CartPage.RemoveItemMembers | src/pages/Cart.tsx:52-55 | `removeItem` keeps exactly the lines of other items and leaves no line of the removed one |
| CartPage.RemoveItemAbsent | src/pages/Cart.tsx:52-55 | removing an absent id leaves the cart unchanged |
| CartPage.RemoveItemShape | src/pages/Cart.tsx:52-55 | with one line per item, `removeItem` deletes exactly the item's line and keeps the rest in order |
| CartPage.OverwriteQuantity | src/pages/Cart.tsx:45-47 | the `map` keeps the length and the menu item at every position, changing quantities only; `UpdateQuantityShape` gives the new cart |
| CartPage.UpdateQuantity | src/pages/Cart.tsx:39-49 | a non-zero number keeps the length, and no call lengthens the cart; the lemmas below give the result in full |
| CartPage.RemoveItemKeepsInvariant | src/pages/Cart.tsx:52-55 | the trash button (`removeItem`) keeps one line per item and every quantity at least 1 |
| CartPage.UpdateToZero | src/pages/Cart.tsx:39-43 | `updateQuantity(id, 0)` gives exactly the cart of `removeItem(id)`, with no line of the item left |
| CartPage.UpdateQuantityShape | src/pages/Cart.tsx:45-49 | with one line per item and a non-zero number, only the item's line changes, to that quantity; length and order unchanged |
| CartPage.UpdateQuantityAbsent | src/pages/Cart.tsx:39-49 | for an absent id, any number leaves the cart unchanged |
| CartPage.UpdateQuantityReadBack | src/pages/Cart.tsx:39-49 | for an item in the cart, duplicate lines included, after `updateQuantity(id, n)` the quantity read for the item is `n` (0 once removed) |
| CartPage.UpdateQuantityKeepsInvariant | src/pages/Cart.tsx:39-50 | a non-negative number keeps one line per item and every quantity at least 1 |
| CartPage.StepButtonsKeepInvariant | src/pages/Cart.tsx:189-199 | the minus and plus buttons (quantity − 1, quantity + 1) never leave a line at 0 or below |
| CartPage.UpdateQuantityTotals | src/pages/Cart.tsx:63-69 | with one line per item, setting a line to `n` changes the item count by `n − q` and the total by `price × n − price × q` |
| JsStrings.Trim | src/pages/Cart.tsx:72 | the trimmed string is no longer than the input and neither starts nor ends with white space |
| JsStrings.TrimSlice | src/pages/Cart.tsx:72 | the trimmed string is the slice of the input between a leading and a trailing run of white space |
| JsStrings.IsBlank | src/pages/Cart.tsx:72 | `!customerName.trim()` holds iff every character of the name is white space (the empty name included) |
| JsStrings.Decimal | src/pages/Cart.tsx:89 | the rendering of `Date.now()` is a non-empty run of digits that denotes `now`, with a leading `0` only for 0 |
| JsStrings.DecimalInjective | src/pages/Cart.tsx:89 | different numbers render differently |
| CartPage.OrderId | src/pages/Cart.tsx:89 | the identifier starts with `ORD-` and ends with the table identifier; `OrderIdInjective` shows it determines both parts |
| CartPage.OrderIdInjective | src/pages/Cart.tsx:89 | the identifier `ORD-<now>-<tableId>` determines both the moment and the table |
| CartPage.BuildOrder | src/pages/Cart.tsx:71-90 | refused exactly when the name is blank; otherwise the record holds the cart as items, `getTotalPrice` as amount, the identifier, the table, the untrimmed name and instructions and the time |
| CartPage.CartView.constructor | src/pages/Cart.tsx:22-25 | the page starts with an empty cart, table, name and instructions |
| CartPage.CartView.Load | src/pages/Cart.tsx:27-37 | a stored cart replaces the page's cart; a stored non-empty table id replaces its table; the form is untouched |
| CartPage.CartView.SetQuantity | src/pages/Cart.tsx:39-50 | the cart becomes `updateQuantity` of it and only the `cart` key is rewritten, so the stored pending order is not affected |
| CartPage.CartView.Remove | src/pages/Cart.tsx:52-56 | the cart becomes `removeItem` of it and only the `cart` key is rewritten |
| CartPage.CartView.PlaceOrder | src/pages/Cart.tsx:71-113 | only callable with a non-empty cart; a blank name writes nothing; otherwise exactly `currentOrder` is written, holding the built order |
| Payment.Settle | src/pages/Payment.tsx:42-56 | the paid order (`status` `paid`, method, time, every draft field unchanged) is appended after all stored orders (none when absent); `cart` and `currentOrder` are gone; no other key changes |
| Payment.SettleKeepsHistory | src/pages/Payment.tsx:44-52 | settlement adds exactly one order and keeps every earlier one at its position |
| Payment.PaymentView.constructor | src/pages/Payment.tsx:23-25 | no order, method `qr`, not processing |
| Payment.PaymentView.Load | src/pages/Payment.tsx:27-34 | redirects home iff `currentOrder` is absent; otherwise the stored order is loaded |
| Payment.PaymentView.SelectMethod | src/pages/Payment.tsx:131-166 | the method is one of `qr`, `card`, `mobile` |
| Payment.PaymentView.HandlePayment | src/pages/Payment.tsx:36-67 | with no order nothing changes; otherwise processing starts, storage becomes the settled storage and the order's identifier is handed on; `isProcessing` is never reset |
| Confirmation.FindOrder | src/pages/OrderConfirmation.tsx:34-35 | absent iff no stored order has the identifier; otherwise the first order that has it |
| Confirmation.FindOrderAppend | src/pages/OrderConfirmation.tsx:35 | appending an order keeps an earlier match, and otherwise finds the new order by its own identifier |
| Confirmation.FindFreshOrder | src/pages/OrderConfirmation.tsx:35 | a freshly appended order with a new identifier is exactly what the lookup returns |
| Confirmation.LookupOrder | src/pages/OrderConfirmation.tsx:26-41 | no lookup and a redirect when the identifier is missing or empty; not found iff no stored order has it; a found order has it and is stored |
| Confirmation.StatusIcon | src/pages/OrderConfirmation.tsx:51-62 | the clock icon is shown exactly for statuses other than `paid`, `preparing`, `ready` |
| Confirmation.StatusText | src/pages/OrderConfirmation.tsx:64-75 | the label is `Processing` exactly for statuses other than `paid`, `preparing`, `ready` |
| Confirmation.StatusColor | src/pages/OrderConfirmation.tsx:77-88 | the grey badge is shown exactly for statuses other than `paid`, `preparing`, `ready` |
| Confirmation.SameCaseSplit | src/pages/OrderConfirmation.tsx:51-88 | icon, label and colour each tell two statuses apart exactly when they fall in different ones of the four cases |
| Confirmation.CountdownStep | src/pages/OrderConfirmation.tsx:45 | the step never yields a negative value, never increases a non-negative one, and yields 0 exactly from 1 or below |
| Confirmation.CountdownFormula | src/pages/OrderConfirmation.tsx:44-46 | from `p ≥ 0`, `k` ticks give `p − k`, or 0 once `k ≥ p` |
| Confirmation.CountdownFromEstimate | src/pages/OrderConfirmation.tsx:24-46 | from 25 the estimate never increases, stays positive for 24 ticks, and is 0 from the 25th tick on |
| Confirmation.DisplayedSubtotal | src/pages/OrderConfirmation.tsx:178 | the subtotal shown is the stored `totalAmount`, not recomputed from the items; `OrderLifecycle` shows it equals `getTotalPrice` of the cart the order was placed from |
| Confirmation.ConfirmationView.constructor | src/pages/OrderConfirmation.tsx:23-24 | no order, estimate 25 |
| Confirmation.ConfirmationView.Load | src/pages/OrderConfirmation.tsx:26-41 | redirects home iff the lookup finds nothing; otherwise shows the order found |
| Confirmation.ConfirmationView.Tick | src/pages/OrderConfirmation.tsx:44-46 | one timer firing applies the countdown step and keeps the estimate within 0..25 |
| Lifecycle.OrderLifecycle | src/pages/Payment.tsx:42-65 | placing then paying an order with a new identifier makes the lookup of the handed-over identifier find the paid order, with the cart as items and `getTotalPrice` as the shown subtotal, and clears `cart` and `currentOrder` |
| Lifecycle.PlaceFromMenu | src/pages/Cart.tsx:27-94 | opening the cart and placing the order stores the pending order holding the menu page's cart and total, and leaves `orders` alone |
| Lifecycle.PayAndConfirm | src/pages/Payment.tsx:27-67 | with a new identifier, loading, paying and confirming shows exactly the paid order and appends it to `orders` |
| Lifecycle.Checkout | src/pages/TableMenu.tsx:132-136 | with a new identifier, the whole chain from the menu page's cart ends with the confirmation page showing the paid order of that cart |
| Lifecycle.TwoBurgers | src/pages/TableMenu.tsx:31-96 | two Classic Burgers from an empty cart make one line of two, 2 items, 2598 cents |

## Left out

- Rendering, styling, icons as components, and toast notifications. The
  status icon is modelled as a glyph name plus its colour class.
- Router navigation. A redirect home is a boolean result (or the `Lookup`
  outcome); the hand-over of the order identifier is an `Option<string>`.
  `goBackToMenu` and the confirmation page's back-to-menu button are not
  modelled.
- Tax and the displayed totals with tax (`* 0.08`, `* 1.08`, `toFixed(2)`):
  floating-point arithmetic. Prices and totals are exact integer cents, so the
  floating-point rounding of the sums is not modelled either.
- The 2-second payment timer and the one-minute confirmation interval with its
  cleanup. Settlement happens in the same step as `handlePayment`, and
  `ConfirmationView.Tick` is one firing of the interval.
- `JSON.stringify`/`JSON.parse`. Storage holds typed values, so malformed
  stored text and values written by other code are not modelled. The JSON
  text stored under `cart`, `currentOrder` and `orders` is never empty, so
  the pages' truthiness checks on those keys reduce to "the key is present".
  `tableId` is stored as raw text and can be empty (`goToCart` writes
  `tableId || ''`); the cart page ignores an empty one, as `CartView.Load`
  states.
- `Date.now()` and `new Date().toISOString()` are parameters (`now` as a
  natural number of milliseconds, the ISO times as strings).
- Several tabs writing `orders` at the same time.
- The optional `image` field of a menu item, and the narrower `CartItem` type
  of the cart page (the model keeps the whole line).
- Typing into the name and instructions fields: these are plain assignments
  to `CartView.customerName` and `CartView.specialInstructions`.
- Payment.PaymentView.HandlePayment: like the source, it does not itself
  check `isProcessing`. Only the page hides the pay button while processing,
  so the model does not rule out a second settlement of the same order.
- Lifecycle.OrderLifecycle: requires that no stored order already has the new
  identifier. Two orders placed at the same table in the same millisecond
  get the same identifier, and the lookup then finds the older one.
- Lifecycle.PayAndConfirm: requires a new identifier too, for the same reason.
- Lifecycle.Checkout: requires a new identifier too, for the same reason.
- The landing page has no ordering logic and is not part of this model.
