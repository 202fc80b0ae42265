# Cart page bookkeeping of the e-commerce storefront client

This project models the state logic of the storefront's cart page
(`client/src/pages/CartPage.js`): removing an item from the cart and
persisting the result to browser storage, the checkout step that submits a
payment and clears the cart, and the two conditions that decide whether the
payment drop-in is shown and whether its pay button can be pressed.

- `wrappers.dfy` — `Option`, for a storage slot with no entry, a missing user
  profile or a missing widget instance.
- `cart.dfy` (module `Cart`) — the cart item, `FindIndex` (the semantics of
  `Array.prototype.findIndex` on the product id) and `SpliceDelete` (the
  semantics of `Array.prototype.splice` without inserted items, including the
  negative start that counts from the end). `RemovedCart` is their
  composition, the cart that `removeCartItem` leaves. `DeleteFirst` is an
  independent reference definition of "remove the first item with this id",
  and the lemmas relate the two.
- `checkout.dfy` (module `Checkout`) — the session, the widget handle, the
  payment request body and the gating predicates of lines 194 and 212. Each
  JavaScript truthiness test is written out: a string is truthy when it is
  non-empty, and an absent value is falsy.
- `cart_page.dfy` (module `CartPage`) — class `Page`. Its fields are the
  cart (from the cart context), the storage slot `"cart"`, the client token,
  the widget instance, the loading flag and the session. Its methods are the
  page's event handlers.

One non-obvious behaviour is pinned down. When no item has the given id,
`findIndex` yields -1, and `splice(-1, 1)` then removes the **last** item
(`Cart.RemoveAbsentDropsLast`). In that case the result differs from the
reference "remove the first match" (`Cart.RemoveAgreesWithReference`). The
page's own Remove buttons always pass the id of a rendered row, so they never
reach this case (`CartPage.Page.ClickRemove`).

External effects are parameters of the methods. The storage write may throw
(`writeSucceeds`). The drop-in's nonce request may reject (`nonce`). The
payment POST may fail (`postAccepted`). `HandlePayment` returns the body it
posts.

## Model

| member | source | states |
|---|---|---|
| Cart.FindIndex | client/src/pages/CartPage.js:51 | the result is -1 exactly when no item has id `pid`; otherwise it is the index of the first item with that id |
| Cart.RemovedIndex | client/src/pages/CartPage.js:51-52 | on a non-empty cart, the dropped index is the first match, or the last index when nothing matches |
| Cart.SpliceStart | client/src/pages/CartPage.js:52 | the actual start of `splice` lies within the array; a start in range is kept, and a negative start within range counts back from the end |
| Cart.SpliceCount | client/src/pages/CartPage.js:52 | the number removed by `splice` fits between the actual start and the end, and equals the requested count when that fits |
| Cart.SpliceDelete | client/src/pages/CartPage.js:52 | `splice` without insertion shortens the array by the clamped count and keeps every element before the actual start |
| Cart.RemovedCart | client/src/pages/CartPage.js:50-52 | the cart left by removal is `splice(findIndex(...), 1)` applied to a copy; its properties are the lemmas below |
| Cart.SpliceOneAt | client/src/pages/CartPage.js:52 | `splice(k, 1)` at a valid index removes exactly element `k` |
| Cart.SpliceMinusOne | client/src/pages/CartPage.js:52 | `splice(-1, 1)` on a non-empty array removes its last element |
| Cart.SpliceOnEmpty | client/src/pages/CartPage.js:52 | splicing an empty array leaves it empty |
| Cart.RemoveDropsOne | client/src/pages/CartPage.js:50-52 | removal from a non-empty cart drops exactly the item at `RemovedIndex`; every other item keeps its relative order |
| Cart.RemoveFirstMatch | client/src/pages/CartPage.js:50-52 | when item `k` is the first with id `pid`, the result is the cart without item `k` |
| Cart.RemoveAbsentDropsLast | client/src/pages/CartPage.js:51-52 | when no item has id `pid` and the cart is non-empty, `findIndex` gives -1 and the last item is removed |
| Cart.RemoveLength | client/src/pages/CartPage.js:50-52 | a non-empty cart loses exactly one item; an empty cart stays empty |
| Cart.RemoveAgreesWithReference | client/src/pages/CartPage.js:50-52 | with a match present, the result equals the reference "delete first occurrence"; with none present and a non-empty cart, it differs from it |
| Cart.RemoveCountsOne | client/src/pages/CartPage.js:51-52 | exactly one item with id `pid` is removed when one exists, so later duplicates stay |
| Cart.RemovePermutes | client/src/pages/CartPage.js:52 | the result plus the dropped item is the original multiset of items |
| Checkout.PaymentShown | client/src/pages/CartPage.js:194 | the payment section is rendered unless the client token is empty, the session token is empty or the cart is empty |
| Checkout.PayDisabled | client/src/pages/CartPage.js:212 | the pay button is disabled when there is no widget instance or the user has no non-empty address |
| Checkout.PayClickable | client/src/pages/CartPage.js:194-212 | a click reaches the payment handler when the section is rendered, the button is not disabled and it is not in its loading state |
| CartPage.Page.constructor | client/src/pages/CartPage.js:25-29 | the initial state is the context values, an empty client token, no instance and `loading` false |
| CartPage.Page.RemoveCartItem | client/src/pages/CartPage.js:48-58 | the new cart is `RemovedCart` of the old cart; after a successful write the slot holds exactly the new cart; after a failed write the cart is still updated and the slot keeps its old value; no other field changes; removing the only item hides the payment section |
| CartPage.Page.ClickRemove | client/src/pages/CartPage.js:138-143 | pressing Remove on row `k` removes the first item with that row's id, found at or before `k`, and the cart shrinks by one |
| CartPage.Page.ReceiveClientToken | client/src/pages/CartPage.js:61-68 | a token reply sets the client token; a failed request changes nothing |
| CartPage.Page.ReceiveInstance | client/src/pages/CartPage.js:205 | the drop-in's callback records the instance and changes nothing else |
| CartPage.Page.HandlePayment | client/src/pages/CartPage.js:74-91 | the posted body is the nonce and the cart, sent only when an instance exists and the nonce was obtained; `loading` ends false; on success the cart is empty, the slot is removed and the payment section is hidden; on any failure the cart and slot are unchanged; a mirrored slot stays mirrored |
| CartPage.Page.ClickPay | client/src/pages/CartPage.js:194-213 | a click when the button is not pressable changes nothing; a pressable click runs the payment handler, with its posted body, `loading` false, and the cart and slot cleared on success or kept on failure; any payment request sent was made while the section was shown and the button enabled, and carries a non-empty cart from a logged-in user with an address, a client token and a widget instance |

## Left out

- `totalPrice` (`CartPage.js:33-46`) is left out. It sums `parseFloat` results and formats them as currency for a locale, which is floating-point and locale work.
- The token request is not modelled (`CartPage.js:61-71`). This covers the HTTP GET and the effect hook that re-runs it when the session token changes. Only its effect on the state is modelled, as `ReceiveClientToken`, and the token is an opaque string.
- The drop-in widget, `requestPaymentMethod`, the payment POST, `navigate` and `toast` are reduced to outcomes supplied as parameters. The navigation to the orders page and the success toast after a payment are not modelled.
- HandlePayment is atomic. Other events (a Remove click, a new token) cannot interleave at the two `await` points. The `loading = true` state that lasts while the calls are pending is therefore never observable between events.
- The rule that a removal does not change the caller's cart array (the copy at `CartPage.js:50`) holds trivially. Sequences are values in Dafny, so no caller's cart can change, and JavaScript array aliasing is not represented.
- JSON serialisation of the stored cart is treated as exact: the slot holds the item sequence itself. Other storage keys are not modelled.
- A `null` or `undefined` cart is not modelled. With one, `[...cart]` would throw and the removal would only log. The cart context's initial value is defined in `client/src/context/cart`, which is not part of this model. Likewise the session is always an object, and an absent token is `""`.
- `PayClickable` relies on a convention of the UI library: a button in its loading state does not accept clicks.
- The JSX layout, the greeting, the item text with its 30-character description truncation, and the address and login buttons are presentation only.
- `console.log` on the error paths is left out.
- `client/src/index.js` is left out. It only builds the theme, nests the providers and the router, mounts the root and reports web vitals.
