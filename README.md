# Point-of-sale cart, totals and payment flow

A Dafny model of the logic inside the two point-of-sale page components of
the storefront: the newer page `PointOfSaleNew` (catalog from a realtime item
store, cart editing, stock decrement and a transaction record on charge) and
the older page `PointOfSale` (a seeded cart and a simulated payment).

- `Money` (money.dfy): the calculator both pages share. The subtotal is the
  left-to-right sum of price × quantity. Each tax component is
  `Math.round(subtotal × rate)`. JavaScript rounds to the nearest integer,
  halves going up. With rates written as whole percentages this is exactly
  `(2·s·p + 100) / 200` with floor division, for every integer subtotal. The
  rates are tip 3 %, restaurant tax 10 % and VAT 10 %. In closed form the tip
  is `(3s + 50) / 100` and each 10 % component is `(s + 5) / 10`.
- `Text`, `Seqs` (text.dfy, seqs.dfy): ASCII lower-casing, `includes`, and
  the subsequence relation that `filter` guarantees.
- `Catalog` (catalog.dfy): the product record and the `filteredProducts`
  predicate (category, case-insensitive search on name or description, stock > 0).
- `Draft` (draft.dfy): the item draft built on a product click, and the
  quantity stepper and typed-input clamps.
- `Cart` (cart.dfy): cart lines and the pure effect of `handleAddToCart`
  (merge on id and variant, else append), `updateQuantity` (remove, or set the
  quantity of every line of the product) and `clearCart`. It also holds the
  invariant these keep: distinct keys, positive quantities, default variants.
- `Stock` (stock.dfy): the `handleCharge` loop of `updateStock` writes. The
  item store is a map from product id to stored stock, and each write's
  success is an input.
- `Payment` (payment.dfy): the payment flags as one record. Each timer
  callback or button is one guarded transition. `Run` applies a sequence of
  events.
- `PosNew` (pos_new.dfy): the newer page as a class with one field per
  `useState` hook and one method per handler. Each method's frame names
  exactly the hooks its handler sets.
- `PointOfSale` (pos_classic.dfy): the older page. Its cart is a `const`,
  because the page never calls `setCart`.

The code behaves as follows, and the model follows it:

- The merge key of `handleAddToCart` is product id and variant only. The
  sales type is not part of it. A merged line keeps its own notes, sales
  type and price.
- `updateQuantity` takes a product id. It acts on every line of that
  product, whatever the line's variant or sales type.
- `handleCharge` has no empty-cart guard. Only the disabled Charge button
  keeps it from running on an empty cart, so `PosNew.Page.Charge` requires a
  non-empty cart.
- The payment view's Cancel/close button is there in every step, not only
  while the payment is pending.
- The step timer of the newer page closes the payment view on its own.
  The transaction-status route is a second way to the receipt.

## Model

| member | source | states |
|---|---|---|
| `Text.Lower` | src/pages/PointOfSaleNew.jsx:106-107 | lower-casing keeps the length and lower-cases each character (ASCII) |
| `Text.Includes` | src/pages/PointOfSaleNew.jsx:106-107 | `includes` is true exactly when the term occurs at some position of the string |
| `Text.EmptyIsIncluded` | src/pages/PointOfSaleNew.jsx:106 | the empty term is included in every string |
| `Catalog.FilteredProducts` | src/pages/PointOfSaleNew.jsx:104-109 | the shown list is an order-preserving subsequence of the catalog; every product in it passes `Catalog.Listed` (the category and search tests `MatchesCategory` and `MatchesSearch`, and stock > 0); every product that passes is in it, as often as in the catalog |
| `Catalog.EmptySearchMatchesEverything` | src/pages/PointOfSaleNew.jsx:106-107 | an empty search term matches every product |
| `Catalog.InitialFilterShowsStockedProducts` | src/pages/PointOfSaleNew.jsx:43-44 | with the initial filter ('all', empty search) a product is shown exactly when it is in the catalog with stock > 0 |
| `Money.Subtotal` | src/pages/PointOfSaleNew.jsx:224-226 | an empty cart sums to 0, a single line to its amount, and lines with non-negative amounts to a non-negative subtotal |
| `Money.SubtotalAppend` | src/pages/PointOfSaleNew.jsx:224-226 | the subtotal of two carts laid end to end is the sum of their subtotals |
| `Money.SubtotalUpdate` | src/pages/PointOfSaleNew.jsx:224-226 | replacing one line changes the subtotal by the difference of the two line amounts |
| `Money.RoundedShare` | src/pages/PointOfSaleNew.jsx:228-230 | the tax is the integer nearest subtotal × rate, halves rounded up: `100r - 50 <= s·p < 100r + 50` |
| `Money.RoundedShareUnique` | src/pages/PointOfSale.jsx:88-90 | those bounds determine the rounded tax uniquely |
| `Money.TipClosedForm` | src/pages/PointOfSaleNew.jsx:234 | the 3 % tip equals `(3s + 50) / 100` |
| `Money.TenPercentClosedForm` | src/pages/PointOfSaleNew.jsx:235-236 | the restaurant tax and the VAT each equal `(s + 5) / 10` |
| `Money.Total` | src/pages/PointOfSaleNew.jsx:232-238 | the total lies within 1.5 of 123 % of the subtotal, and is at least the subtotal when that is non-negative |
| `Draft.DraftOfListedProduct` | src/pages/PointOfSaleNew.jsx:141-163 | the draft of a shown product copies id, name, price, stock, description and category, takes variant 'Default', quantity 1, no discounts, Dine In and empty notes, and is within `[1, stock]` |
| `Draft.DraftFor` | src/pages/PointOfSaleNew.jsx:141-163 | the draft copies the product's id, name, price, stock, description and category, with variant 'Default', quantity 1, no discounts, Dine In and empty notes; it is within stock exactly when the product has some |
| `Draft.Decremented` | src/pages/PointOfSaleNew.jsx:587-590 | minus never goes below 1: one step down from above 1, else 1 |
| `Draft.Incremented` | src/pages/PointOfSaleNew.jsx:607-610 | plus never goes above the stock: one step up from below the stock, else the stock |
| `Draft.Typed` | src/pages/PointOfSaleNew.jsx:598-601 | the typed quantity is at most the stock and, with some stock, at least 1; an in-range number is kept, a larger one becomes the stock, NaN or a number below 1 becomes 1 |
| `Draft.QuantityEditsKeepRange` | src/pages/PointOfSaleNew.jsx:587-613 | each quantity edit keeps a draft within `[1, stock]`; inside that range minus and plus move by one and stop at 1 and at the stock |
| `Cart.Subtotal` | src/pages/PointOfSaleNew.jsx:224-226 | the page subtotal, the fold of `Cart.LineTotal` (price × quantity): 0 for an empty cart and non-negative when no line has a negative price or quantity |
| `Cart.FindIndex` | src/pages/PointOfSaleNew.jsx:169-172 | the index of the first line with the draft's id and variant, or -1 exactly when there is none |
| `Cart.Added` | src/pages/PointOfSaleNew.jsx:165-190 | with no line of the draft's id and variant, exactly one line carrying the draft's fields is appended; otherwise only the first such line changes, growing by the draft's quantity, and the length stays |
| `Cart.AddMergesIntoFirstMatch` | src/pages/PointOfSaleNew.jsx:174-178 | on a key match the length stays, the first matching line grows by the draft quantity without a stock clamp, and every other line is unchanged |
| `Cart.AddAppendsNewLine` | src/pages/PointOfSaleNew.jsx:179-190 | with no key match exactly one line is appended at the end, carrying the draft's id, name, price, quantity, variant, notes and sales type |
| `Cart.AddRaisesSubtotal` | src/pages/PointOfSaleNew.jsx:169-190 | adding raises the subtotal by draft quantity × the price of the line it lands in |
| `Cart.WithoutProduct` | src/pages/PointOfSaleNew.jsx:197-198 | removal keeps the other lines in their order (a subsequence), drops every line with the id and keeps every line without it, with its multiplicity |
| `Cart.WithQuantity` | src/pages/PointOfSaleNew.jsx:199-202 | the length stays, every line with the id (any variant) gets the new quantity, and every other line is unchanged |
| `Cart.UpdatedQuantity` | src/pages/PointOfSaleNew.jsx:196-204 | a quantity of 0 or less removes every line of the product and keeps the others in order with their multiplicity; a positive one sets every line of the product to it and leaves the rest and the length unchanged |
| `Cart.AddKeepsWellFormed` | src/pages/PointOfSaleNew.jsx:165-190 | adding a draft of positive quantity keeps keys distinct and quantities positive |
| `Cart.WithoutProductKeepsUniqueKeys` | src/pages/PointOfSaleNew.jsx:196-198 | removing the lines of a product keeps keys distinct |
| `Cart.UpdateKeepsWellFormed` | src/pages/PointOfSaleNew.jsx:196-204 | `updateQuantity` keeps keys distinct and quantities positive, for any quantity |
| `Cart.ClearedCartIsEmpty` | src/pages/PointOfSaleNew.jsx:206-208 | the cleared cart has subtotal 0 and is well formed |
| `Cart.DefaultVariantsMakeProductsUnique` | src/pages/PointOfSaleNew.jsx:149-172 | with every variant 'Default', distinct merge keys mean one line per product |
| `Cart.AddKeepsDefaultVariants` | src/pages/PointOfSaleNew.jsx:165-194 | adding a 'Default' draft keeps every variant 'Default' |
| `Cart.UpdateKeepsDefaultVariants` | src/pages/PointOfSaleNew.jsx:196-204 | `updateQuantity` keeps every variant 'Default' |
| `Stock.FindProduct` | src/pages/PointOfSaleNew.jsx:213 | the index of the first snapshot product with the id, or -1 exactly when there is none |
| `Stock.StockWritten` | src/pages/PointOfSaleNew.jsx:210-222 | one write changes no other product; a successful write of a product in the snapshot stores snapshot stock minus the quantity; a failed write or an unknown product leaves the store as it was |
| `Stock.StockAfter` | src/pages/PointOfSaleNew.jsx:242-244 | the writes never remove a product from the store and add only products some line is for |
| `Stock.WriteStock` | src/pages/PointOfSaleNew.jsx:242-244 | the loop leaves the store as the writes for the lines, applied in cart order |
| `Stock.StockAfterLeavesOthers` | src/pages/PointOfSaleNew.jsx:210-222 | a product no line is for keeps its stored stock (and its absence) |
| `Stock.StockAfterWritesLine` | src/pages/PointOfSaleNew.jsx:210-222 | with one line per product, a successful write for a product in the snapshot leaves snapshot stock minus the line's quantity |
| `Stock.SkippedLineLeavesStock` | src/pages/PointOfSaleNew.jsx:210-222 | with one line per product, a line whose write failed or whose product is not in the snapshot leaves that product's stored stock (and its absence) as it was |
| `Stock.StockAfterPerLine` | src/pages/PointOfSaleNew.jsx:242-244 | with one line per product, every line at once: a successful write leaves snapshot stock minus the quantity, any other line leaves its product's stored stock |
| `Stock.LaterWriteWins` | src/pages/PointOfSaleNew.jsx:213-217 | writes are absolute: two lines of one product subtract only the later quantity |
| `Stock.NoLowerBound` | src/pages/PointOfSaleNew.jsx:215-217 | no lower-bound check: selling 3 of a snapshot stock of 1 writes -2 |
| `Payment.StepTimer` | src/pages/PointOfSaleNew.jsx:112-126 | with the payment view closed nothing changes; with it open the step flips, the view stays open only from waiting, the receipt opens from success, and the status is never touched |
| `Payment.StatusTimer` | src/pages/PointOfSaleNew.jsx:129-139 | with payment open and status success, payment closes, the receipt opens and the status clears; otherwise nothing changes; the step is never touched |
| `Payment.StatusWritten` | src/pages/PointOfSaleNew.jsx:268-274 | a successful write sets the status to success whatever the other flags; a failed one changes nothing; no other flag is touched |
| `Payment.ChargeOpened` | src/pages/PointOfSaleNew.jsx:262-266 | a recorded charge opens the payment view at waiting with status pending and leaves the receipt flag |
| `Payment.ClassicCharge` | src/pages/PointOfSale.jsx:100-103 | the older page's charge opens the payment view at waiting and leaves the receipt and status |
| `Payment.ClosePayment` | src/pages/PointOfSale.jsx:356-359 | Cancel closes the payment view and changes no other flag |
| `Payment.Done` | src/pages/PointOfSale.jsx:480-482 | Done closes the receipt and changes no other flag |
| `Payment.TimersFireOnlyUnderTheirGuards` | src/pages/PointOfSaleNew.jsx:112-139 | the step timer changes the flags exactly when the payment view is open; the status timer exactly when it is open with status success |
| `Payment.ChargeEndsOnReceiptByStepTimer` | src/pages/PointOfSaleNew.jsx:112-126 | after a charge of either page, two step-timer events close the payment view, open the receipt and reset the step to waiting |
| `Payment.ChargeEndsOnReceiptByStatus` | src/pages/PointOfSaleNew.jsx:129-139 | after a charge, a successful status write then the status timer close the payment view, open the receipt and reset the status to none |
| `Payment.FailedChargeChangesNothing` | src/pages/PointOfSaleNew.jsx:262-277 | a charge whose transaction record fails changes no flag |
| `Payment.TimersInertWhilePaymentHidden` | src/pages/PointOfSaleNew.jsx:112-139 | with the payment view closed, timer events never open it, never touch the receipt or the step |
| `Payment.ReceiptStaysUntilDone` | src/pages/PointOfSaleNew.jsx:776 | the receipt, once shown, stays shown until Done |
| `Payment.ClassicRunsHaveNoStatus` | src/pages/PointOfSale.jsx:30-63 | no event of the older page sets a transaction status |
| `PosNew.TransactionFor` | src/pages/PointOfSaleNew.jsx:247-258 | the record holds the cart, the customer name and order type, status pending, the subtotal, tip `(3s+50)/100`, both 10 % components `(s+5)/10`, and total = subtotal + the three components |
| `PosNew.CalculateTotal` | src/pages/PointOfSaleNew.jsx:232-238 | the page total is the shared calculator's total of the cart's subtotal, and at least the subtotal when no line is negative |
| `PosNew.Page.constructor` | src/pages/PointOfSaleNew.jsx:40-56 | the initial state: empty catalog and cart, filter 'all' and '', every modal closed, step waiting, no status |
| `PosNew.Page.ReceiveProducts` | src/pages/PointOfSaleNew.jsx:87-92 | a snapshot replaces the catalog and nothing else |
| `PosNew.Page.SetSearchTerm` | src/pages/PointOfSaleNew.jsx:341 | typing sets the search term only |
| `PosNew.Page.SetCategory` | src/pages/PointOfSaleNew.jsx:347 | the select sets the category only |
| `PosNew.Page.ProductClick` | src/pages/PointOfSaleNew.jsx:141-163 | clicking a shown product opens the item modal on its draft and keeps the page invariant |
| `PosNew.Page.CancelItem` | src/pages/PointOfSaleNew.jsx:549 | Cancel closes the item modal only |
| `PosNew.Page.DecrementQuantity` | src/pages/PointOfSaleNew.jsx:587-590 | minus sets the draft quantity to `max(1, q-1)` and nothing else |
| `PosNew.Page.IncrementQuantity` | src/pages/PointOfSaleNew.jsx:607-610 | plus sets the draft quantity to `min(stock, q+1)` and nothing else |
| `PosNew.Page.TypeQuantity` | src/pages/PointOfSaleNew.jsx:598-601 | typing sets the draft quantity to `min(stock, max(1, parsed or 1))` |
| `PosNew.Page.SelectSalesType` | src/pages/PointOfSaleNew.jsx:626-632 | the chosen sales type replaces the draft's |
| `PosNew.Page.EditNotes` | src/pages/PointOfSaleNew.jsx:645 | the notes are stored verbatim in the draft |
| `PosNew.Page.AddToCart` | src/pages/PointOfSaleNew.jsx:165-194 | without a draft nothing changes; otherwise the cart becomes the merge-or-append of the draft, the item modal closes and the draft is cleared; the cart stays well formed |
| `PosNew.Page.UpdateQuantity` | src/pages/PointOfSaleNew.jsx:196-204 | the cart becomes the removal (q <= 0) or the quantity update (q > 0) for the id, and stays well formed |
| `PosNew.Page.ClearCart` | src/pages/PointOfSaleNew.jsx:206-208 | the cart becomes empty, with subtotal 0 |
| `PosNew.Page.Charge` | src/pages/PointOfSaleNew.jsx:240-278 | the store gets the line-by-line stock writes, each successful one leaving snapshot stock minus the quantity and each failed or unknown one leaving the stored stock; the record is the consistent transaction; only a created record opens payment at waiting/pending, a failure changes no flag |
| `PosNew.Page.StepTimerFired` | src/pages/PointOfSaleNew.jsx:112-126 | waiting becomes success; success closes payment, opens the receipt and resets the step |
| `PosNew.Page.StatusTimerFired` | src/pages/PointOfSaleNew.jsx:129-139 | status success with payment open closes payment, opens the receipt and clears the status |
| `PosNew.Page.StatusWriteFinished` | src/pages/PointOfSaleNew.jsx:269-274 | a successful status write sets the status to success, unguarded; a failed one changes nothing |
| `PosNew.Page.ClosePaymentView` | src/pages/PointOfSaleNew.jsx:662 | the close button closes the payment view only |
| `PosNew.Page.ReceiptDone` | src/pages/PointOfSaleNew.jsx:776 | Done closes the receipt only |
| `PointOfSale.CalculateSubtotal` | src/pages/PointOfSale.jsx:84-86 | an empty cart sums to 0, and non-negative lines give a non-negative subtotal |
| `PointOfSale.CalculateTax` | src/pages/PointOfSale.jsx:88-90 | the tax is the integer nearest subtotal × rate, halves up, and non-negative for a non-negative subtotal |
| `PointOfSale.CalculateTotal` | src/pages/PointOfSale.jsx:92-98 | the total is the shared calculator's total of the subtotal, and at least the subtotal when no line is negative |
| `PointOfSale.TaxIgnoresName` | src/pages/PointOfSale.jsx:88-90 | the tax depends on subtotal and rate only, never on the name, and is the nearest integer to subtotal × rate |
| `PointOfSale.SeededCartTotals` | src/pages/PointOfSale.jsx:84-98 | the seeded cart 16000×1, 20000×2, 18000×1 gives subtotal 74000, tip 2220, restaurant tax 7400, VAT 7400, total 91020 |
| `PointOfSale.ClassicDraftFor` | src/pages/PointOfSale.jsx:65-81 | a product click copies the product, selects Chocolate, quantity 2, Dine In, empty notes and all six discounts off |
| `PointOfSale.Page.constructor` | src/pages/PointOfSale.jsx:24-37 | the page starts with the seeded cart (a constant: never replaced), no draft and every modal closed |
| `PointOfSale.Page.ProductClick` | src/pages/PointOfSale.jsx:65-82 | a click opens the item modal on the product's draft |
| `PointOfSale.Page.CloseItemModal` | src/pages/PointOfSale.jsx:261 | the close button closes the item modal only |
| `PointOfSale.Page.Charge` | src/pages/PointOfSale.jsx:100-103 | the payment view opens at waiting; nothing else changes, the cart included |
| `PointOfSale.Page.TimerFired` | src/pages/PointOfSale.jsx:49-63 | with payment open, waiting becomes success; success closes payment, opens the receipt and resets the step |
| `PointOfSale.Page.CancelPayment` | src/pages/PointOfSale.jsx:356-359 | Cancel closes the payment view only and leaves the step as it was |
| `PointOfSale.Page.ReceiptDone` | src/pages/PointOfSale.jsx:480-482 | Done closes the receipt only |

## Left out

- Item and transaction store I/O (`getDocs`, `onSnapshot`, `addDoc`, `updateDoc`). Each write's success is an input. A snapshot arrives through `PosNew.Page.ReceiveProducts`. The store's own `isActive` query is assumed, so products carry no active flag.
- The category list fetch and `getCategoryName`. They supply the category labels on the product cards and in the item modal, and the options of the category select. `PosNew.Page.SetCategory` accepts any string. A failed fetch shows the error screen, which is left out with the loading screen.
- The loading and error screens, and the `error` state that a failed category or item fetch sets. They are presentation.
- The transaction record's own status in the store after the delayed update. Only the outcome of that write is modelled, through `PosNew.Page.StatusWriteFinished`.
- Timer durations (3 s, 2 s, 20 s), `clearTimeout`, and any ordering between timers. Each callback is a discrete event.
- Floating point. `subtotal * 0.03` is computed in exact arithmetic. Binary rounding of the rate at a .5 boundary is not modelled.
- Unicode `toLowerCase`. Lower-casing is ASCII only.
- `formatPrice` and `getCurrentDateTime`. They wrap locale formatting and the clock.
- The `createdAt: new Date()` field of the transaction record. It is a clock reading, so `PosNew.Transaction` has no such field.
- The receipt view. It only displays the cart and the totals defined here.
- The cart buttons' calls to `updateQuantity` with four arguments. `updateQuantity` is modelled as defined.
- Stock.StockWritten: does not model documents missing from the item store. `updateDoc` rejects a write to a missing document, so such a write has `ok` false. The model does not tie `ok` to the store's keys, and a successful write of an absent id creates its entry.
- The in-place `updatedCart[i].quantity +=` of `handleAddToCart`. It changes a line object shared with the previous cart state. The model replaces the line by value, so that aliasing is not captured.
- The customer-name and order-type inputs. They only set two strings passed into the transaction record.
- The older page's sample product grid. It holds nine sample products ('Pocky', 15000) that differ only in id and favourite flag. It is only rendered, and a click passes one of them to `PointOfSale.Page.ProductClick`, which takes any product.
- `showSuccessModal` on both pages. Each declares it and never sets it.
- The older page's variant buttons, notes box and discount toggles. None of them has a handler, and no discount is ever applied to a price.
- The sidebar and the application shell. They are navigation only.
- PosNew.Page.Charge: `handleCharge` awaits each `updateStock` and then `addDoc` (src/pages/PointOfSaleNew.jsx:242-263), and the page stays interactive meanwhile. The model takes the whole charge as one atomic step, so it does not capture a second Charge click during those awaits, whose writes would start from the same stale `products` snapshot.
