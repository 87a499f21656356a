# Shopping-cart controller: decision logic

This project models the decision logic of the cart controller in
`src/components/cart.js` of the buy-button widget. The controller holds a
snapshot of the remote cart and a visibility flag. It routes quantity changes
to an update or a removal, resolves which remote cart the browser owns, and
derives view flags and analytics properties from what it holds.

The model is functional. `Controller.CartState` is an immutable record of
visibility, the held cart snapshot (`model`), and two render counters: one
for `render()` and one for the companion toggle's `render()`. Every remote
call (`fetchCart`, `createCart`, `updateLineItem`, `addVariants`) becomes a
parameter. An operation receives the service's `Reply` (`Resolved(cart)` or
`Rejected`) and reports, in an `Outcome`, the calls it issued, the new
state, and what its promise settles to. Storage is a `map<string, string>`,
and whether `setItem` throws is also a parameter.

Modules:
- `Wrappers`: `Option` and `Result`.
- `CartTypes`: line items, variants, cart snapshots, remote calls, replies and failures.
- `LineItems`: the first-match lookup by line item id.
- `Controller`: the visibility state machine, add, update, remove, the quantity routing rule and the view flags.
- `Identity`: cart-identity resolution through persistent storage (`fetchData`).
- `Tracking`: the analytics projections and the CART_ADD and CART_REMOVE events.
- `History`: sequences of settled mutations ("last response wins").

Code facts the model keeps:
- `addVariantToCart` re-renders both views but never assigns the returned cart to the held model. `Controller.AddVariantToCart` keeps the model unchanged.
- `removeItem` re-renders the companion toggle but not the controller's own view. `Controller.RemoveItem` counts no self-render.
- The stored cart id is tested for truthiness, so a stored empty string counts as no id and a new cart is created. `Identity.StoredCartId` models this.
- For an id with no line item, `setQuantity` reads `quantity` of `undefined` and throws before any remote call, and so does the CART_REMOVE projector wrapped around `removeItem`. The model returns `Err(LookupMiss(id))` and leaves the state unchanged.

## Model

| member | source | states |
|---|---|---|
| LineItems.MatchingItems | src/components/cart.js:152 | the filter keeps exactly the line items with the id, at most as many as there are; it is empty iff no item has the id, and otherwise its head is the item at the first matching position |
| LineItems.LineItemFromId | src/components/cart.js:161-163 | the lookup is undefined (None) exactly when no line item has the id, and otherwise returns the item at the first matching position |
| LineItems.LookupReturnsEarliest | src/components/cart.js:161-163 | whenever position k is the first with the id, the lookup returns exactly items[k] (first-match semantics) |
| Controller.Close | src/components/cart.js:93-96 | close hides the cart whatever its prior state, keeps the held model and renders once |
| Controller.ToggleVisibility | src/components/cart.js:98-101 | toggle negates visibility, keeps the held model and renders once |
| Controller.CloseIdempotent | src/components/cart.js:93-96 | closing twice gives the same visibility and model as closing once, with two renders |
| Controller.ToggleInvolutive | src/components/cart.js:98-101 | toggling twice restores the original visibility and model |
| Controller.BeginAdd | src/components/cart.js:185-188 | when addVariants is issued, the cart is already visible and rendered, the model is untouched, and the call carries the variant and the given quantity, or 1 when none is given |
| Controller.SettleAdd | src/components/cart.js:188-192 | on success both views re-render and the returned cart is handed back without being stored; on rejection nothing changes and the failure propagates |
| Controller.AddVariantToCart | src/components/cart.js:185-193 | after an add the cart is visible whatever the reply, the held model is unchanged, exactly one addVariants call is sent, and the result is the returned cart or a failure |
| Controller.AddOpensBeforeCall | src/components/cart.js:185-188 | the optimistic visibility is in place in the state at the moment the call goes out, and the settled state keeps it |
| Controller.UpdateItem | src/components/cart.js:137-144 | sends updateLineItem(id, qty); on success the returned cart replaces the held model wholesale and is returned, with one render of each view; on rejection the state is unchanged |
| Controller.RemoveItem | src/components/cart.js:111-115 | always sends updateLineItem(id, 0); on success the returned cart replaces the held model and only the toggle re-renders; on rejection the state is unchanged |
| Controller.SetQuantity | src/components/cart.js:150-159 | no call is made iff the id is absent (a lookup failure); otherwise exactly one updateLineItem is sent, with the new quantity when it is positive and 0 otherwise, so a negative quantity never reaches the service |
| Controller.OnQuantityIncrement | src/components/cart.js:107-109 | the new quantity is the first matching item's quantity plus the step; a positive result is sent as is and anything else is sent as the removal quantity 0 |
| Controller.OnQuantityBlur | src/components/cart.js:103-105 | an existing item set to a positive value sends that value, and set to 0 or below it is removed |
| Controller.SetQuantityRoutes | src/components/cart.js:150-159 | for an existing item, setQuantity is exactly updateItem when the new quantity is positive and exactly removeItem otherwise |
| Controller.BlurRoutes | src/components/cart.js:103-105 | for an existing item, setting the quantity from the input is exactly updateItem with a positive value and exactly removeItem otherwise |
| Controller.DecrementFromOneRemoves | src/components/cart.js:107-109 | decrementing an item of quantity 1 is exactly a removal |
| Controller.ViewFlagsOf | src/components/cart.js:49-57 | isEmpty holds iff there are no line items; wrapperClass is 'is-active' iff the cart is visible and '' iff it is hidden |
| Controller.RemovingLastItemEmptiesView | src/components/cart.js:55 | a removal answered by an empty cart makes isEmpty true and leaves wrapperClass as it was |
| Controller.WrapperFollowsVisibility | src/components/cart.js:51 | after close the wrapper class is ''; once an add has begun it is 'is-active' |
| Identity.StoredCartId | src/components/cart.js:60 | a stored id counts only when the key is present and its value is non-empty (JavaScript truthiness) |
| Identity.Remember | src/components/cart.js:64-69 | a successful write stores the id under lastCartId and leaves every other key alone; a throwing write changes nothing |
| Identity.FetchData | src/components/cart.js:59-73 | creates a cart iff no id is stored; with an id it fetches exactly that id and leaves storage alone; a created cart is returned even when the write throws; a rejection propagates and leaves storage alone |
| Identity.CreatedIdentityIsReused | src/components/cart.js:59-73 | after a cart is created and its non-empty id stored, the next resolution fetches that id and creates nothing; an empty id leads to another creation |
| Identity.FailedWriteCreatesAgain | src/components/cart.js:63-71 | when the write throws, the created cart is still returned, but the next resolution creates again |
| Tracking.LineItemProps | src/components/cart.js:165-173 | the projection reports the variant id, title and price of the line item, the given quantity, and a null SKU |
| Tracking.VariantProps | src/components/cart.js:175-183 | the projection reports the variant's id, product title and price and a null SKU; quantity is the given one, or 0 when none is given |
| Tracking.ProjectionsAgree | src/components/cart.js:165-183 | a line item and the variant it holds project to identical properties |
| Tracking.RemovalEvent | src/components/cart.js:23-24 | the CART_REMOVE projector fails with a lookup miss iff no line item has the id; otherwise it is exactly the first such item projected by lineItemProps with quantity 0 |
| Tracking.TrackedRemoveItem | src/components/cart.js:23-24 | the instrumented removeItem issues no call and changes nothing iff the id is absent (the projector throws first); otherwise it is exactly removeItem |
| Tracking.SetQuantityRemovalIsTracked | src/components/cart.js:150-159 | when setQuantity routes an existing item to removal, the instrumented removal does not throw and behaves exactly as removeItem |
| Tracking.AddEventAsWritten | src/components/cart.js:21-22 | CART_ADD as wired: variantProps applied to the caller's own arguments, so a call without a quantity reports 0 |
| Tracking.AddEventAsWrittenMisreportsDefault | src/components/cart.js:21-22 | for every variant, an add without a quantity reports 0 in CART_ADD while 1 is sent to the service |
| Tracking.AddEvent | src/components/cart.js:21-22 | corrected CART_ADD (not the code as written): the reported quantity equals the quantity addVariants sends, the default included |
| History.LastResponseWins | src/components/cart.js:113-115 | after any sequence of settled mutations, the held model is the cart of the latest successful update or removal, or the original when there is none |
| History.ToggleRenderedOncePerResolved | src/components/cart.js:137-143 | the companion toggle re-renders exactly once per mutation that received a cart |
| History.VisibleAfterAnyAdd | src/components/cart.js:185-187 | after a sequence of mutations the cart is visible iff it was visible before or one of the mutations was an add |
| History.EventFor | src/components/cart.js:21-24 | as wired: an add is tracked with variantProps of the caller's arguments, an update is never tracked, and a removal is tracked iff the line item exists, the projector failing otherwise |
| History.EventQuantityMatchesCall | src/components/cart.js:21-24 | a tracked removal reports the quantity 0 its call sends, and a tracked add reports the sent quantity whenever the caller gave one |

## Left out

- DOM work is not modelled: the wrapper node, `parentNode` traversal, the `is-hidden` class, the `transitionend` listener, deferred element removal and the iframe `is-active` class. These are browser side effects. The element `removeItem` returns is represented by its line item id (`Routed.Removed`).
- HTML generation (`Template.render`, `lineItemsHtml`) is not modelled. The template engine is an external library.
- `viewData`'s `lodash.merge` into the model, and the `DOMEvents` binding map, are not modelled. Both are a foreign library's deep merge. Only the `wrapperClass` and `isEmpty` flags of `viewData` are modelled.
- Promise timing and interleaving are not modelled. Each remote call is a single given reply. `History` applies settled mutations in the order their replies land, and does not model which landing orders overlapping calls can produce.
- The `withTracking` transport, `Checkout.open`, the `CartToggle` widget, the base `Component` lifecycle (`init`, `render`, `destroy`, `updateConfig`) and `onCheckout` are not modelled. They are collaborators whose code is not part of this model. Toggle renders are only counted.
- Controller.OnQuantityBlur: takes the typed value as an integer. JavaScript's string-to-number coercion of `target.value` is not modelled.
- Controller.SetQuantity: quantities are unbounded integers. JavaScript's floating-point numbers (fractions, NaN) are not modelled.
- `getItem` itself is assumed not to throw. The source does not guard it.
- The held cart is modelled as an immutable snapshot that changes only when the controller assigns a returned cart. The client library's cart object is mutable, and the source calls `updateLineItem` and `addVariants` on it and merges view data into it. Any in-place update of that object by the library is outside the model. This includes whatever `addVariants` does to the held object before `Controller.AddVariantToCart` leaves the model unchanged.
- Tracking.RemovalEvent: assumes the tracking wrapper runs the projector before the wrapped call and lets the projector's exception propagate. The wrapper is not part of this model. If it caught the error instead, the removal would still go out untracked.
- History.EventFor: describes the events as projected. Their delivery by the tracking wrapper is not modelled.

## Findings

| source | as written | input that shows it | evidently intended | confidence | as-written member | corrected member |
|---|---|---|---|---|---|---|
| src/components/cart.js:21-22 | the CART_ADD projector receives the caller's arguments, so a quantity left out reaches `variantProps` as undefined and is reported as 0 | `addVariantToCart(variant)`: `addVariants` is sent quantity 1, but CART_ADD reports quantity 0 | CART_ADD reports the quantity actually added, with the default of 1 applied | medium, not executed (depends on the wrapper passing the caller's arguments unchanged) | Tracking.AddEventAsWrittenMisreportsDefault | Tracking.AddEvent |
