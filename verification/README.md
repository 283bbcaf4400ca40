# Shopping-cart store, modelled in Dafny

The storefront page keeps a cart: a mapping from product id to a line item
`{name, price, quantity}`. Three operations change it: `addToCart`,
`removeFromCart` and `updateQuantity`. Two aggregates are derived from it: the
money total (`calculateTotal`) and the item count on the cart badge (the
reduction inside `updateCartUI`). This project models the cart as an immutable
`map<string, LineItem>` and each operation as a pure function from the old
cart to the new one. It then proves what each operation does to every key, that
the quantity ≥ 1 invariant is kept, and how the aggregates move.

- `cart_store.dfy` (module `CartStore`): `LineItem`, `Cart`, the invariant
  `Valid`, and the three operations with their exact per-key effect.
- `cart_totals.dfy` (module `CartTotals`): the reference sum `SumOf` over a
  map, which takes out an arbitrary entry each step. `SumOfRemove` proves that
  any entry may be taken out first. So in the model, where prices are
  integers, the order in which the cart's values are enumerated cannot change
  the result. `CalculateTotal` and `TotalItems` are the loops the page runs,
  proved equal to the reference sums. The laws relating the aggregates to the
  operations are here too.
- `cart_history.dfy` (module `CartHistory`): sequences of operations
  (`Op`, `Apply`, `Run`), the invariant for every cart built from the empty
  cart, repeated adds, independence of different ids, removal as if the
  product had never been added, and three worked
  scenarios (add twice; add then set quantity; add then remove).

The page's presence test `if (cart[productId])` is modelled as key membership.
A stored line item is an object, so in the page it is always truthy.

## Model

| member | source | states |
|---|---|---|
| CartStore.EmptyCart | cart.js:2 | the cart starts with no entries and satisfies the quantity invariant |
| CartStore.AddToCart | cart.js:6-15 | keys become old keys plus id; a present id gets one more unit and keeps its stored name and price; a new id gets quantity 1 with the given name and price; every other entry is unchanged; the invariant is kept |
| CartStore.RemoveFromCart | cart.js:21-26 | exactly the key id disappears, other entries keep their values, an absent id leaves the cart equal to before, and the invariant is kept |
| CartStore.UpdateQuantity | cart.js:28-37 | an absent id leaves the cart unchanged; a quantity ≤ 0 drops exactly that key; a positive quantity is stored exactly, with no clamping or upper bound, keeping name and price; other entries are unchanged; the invariant is kept |
| CartStore.UpdateToNonPositiveIsRemove | cart.js:30-31 | setting a quantity ≤ 0 yields the same cart as removing the id |
| CartStore.RemoveForgetsAdd | cart.js:6-26 | removing an id after adding it gives the same cart as removing it before the add |
| CartStore.RemoveForgetsUpdate | cart.js:21-37 | removing an id after updating its quantity gives the same cart as removing it before the update |
| CartStore.AddAfterRemoveIsFresh | cart.js:9-14 | after a removal, the next add of the id starts a fresh line with one unit and the new name and price |
| CartStore.RemoveIsDrop | cart.js:21-26 | removing an id, present or absent, yields the cart without that key |
| CartStore.AddCommutesWithDrop | cart.js:6-15 | adding one id and dropping another id's entry can be done in either order |
| CartStore.RemoveCommutesWithDrop | cart.js:21-26 | removing one id and dropping another id's entry can be done in either order |
| CartStore.UpdateCommutesWithDrop | cart.js:28-37 | setting one id's quantity and dropping another id's entry can be done in either order |
| CartStore.RemoveIdempotent | cart.js:21-26 | removing the same id twice equals removing it once |
| CartStore.UpdateIdempotent | cart.js:28-37 | setting the same quantity twice equals setting it once |
| CartTotals.SumOfRemove | cart.js:40 | any entry can be taken out of the sum first, so with integer prices the enumeration order of the values does not change the sum |
| CartTotals.SumOfStoreDelta | cart.js:40 | storing a line under an id changes the sum by the new line's share minus the share of the line it replaces |
| CartTotals.SumOfNonNegative | cart.js:40 | the reduction over the cart's values is non-negative when no entry contributes a negative amount |
| CartTotals.SumOfAtLeastSize | cart.js:50 | when every entry contributes at least 1, the sum is at least the number of entries |
| CartTotals.SumLines | cart.js:40 | the reduction loop, starting at 0 and visiting entries in any order, equals the reference sum |
| CartTotals.CalculateTotal | cart.js:39-41 | the returned total is the sum of price × quantity over all entries, and 0 for the empty cart |
| CartTotals.TotalItems | cart.js:50 | the returned count is the sum of quantities, 0 for the empty cart, and at least the number of entries in a valid cart |
| CartTotals.EmptyCartAggregates | cart.js:39-50 | the total and the item count of the empty cart are both 0 |
| CartTotals.CountZeroIffEmpty | cart.js:50-52 | on a valid cart the badge count is 0 exactly when the cart has no entries |
| CartTotals.TotalNonNegative | cart.js:39-41 | a valid cart with non-negative prices has a non-negative total |
| CartTotals.AddRaisesTotal | cart.js:6-15 | adding raises the total by the stored price when the id is present, and by the given price when it is new |
| CartTotals.AddRaisesCount | cart.js:6-15 | adding raises the item count by exactly 1 |
| CartTotals.RemoveLowersAggregates | cart.js:21-26 | removing a present id lowers the total by its price × quantity and the count by its quantity |
| CartTotals.UpdateAdjustsAggregates | cart.js:32-33 | setting a positive quantity changes the total by price × (new − old quantity) and the count by (new − old quantity) |
| CartHistory.Apply | cart.js:6-37 | one operation keeps the invariant and leaves every entry under another id unchanged, present or absent |
| CartHistory.Run | cart.js:6-37 | a sequence of operations applied to a valid cart yields a valid cart |
| CartHistory.BuiltCartsAreValid | cart.js:6-37 | every cart built from the empty cart by any sequence of operations keeps quantity ≥ 1 in every entry |
| CartHistory.OtherIdsUnchanged | cart.js:6-37 | operations that never name an id leave that id's entry exactly as it was |
| CartHistory.ApplyAwayFromOwnId | cart.js:6-37 | away from the id an operation names, the cart after it equals the cart before |
| CartHistory.ApplyCommutesWithDrop | cart.js:6-37 | an operation on one id commutes with dropping another id's entry |
| CartHistory.ApplyAgreesAwayFrom | cart.js:6-37 | two carts that agree on every id but one still agree on those ids after any one operation |
| CartHistory.RunAgreesAwayFrom | cart.js:6-37 | two carts that agree on every id but one still agree on those ids after any sequence of operations |
| CartHistory.RemovedProductLeavesNoTrace | cart.js:21-26 | away from an id, what any sequence of operations builds does not depend on that id's earlier entry, so a removed product leaves no trace on the rest of the cart |
| CartHistory.Without | cart.js:6-37 | the filtered history names id nowhere, is no longer than the original, holds only operations of the original, and keeps every operation of the original that names another id |
| CartHistory.RunAwayFromId | cart.js:6-37 | away from id, a history builds the same cart as the history with id's entry dropped at the start and every operation on id taken out |
| CartHistory.RunAppend | cart.js:6-37 | running two histories one after the other is running their concatenation |
| CartHistory.RemoveIsAsIfNeverAdded | cart.js:21-26 | a history ending in the removal of id builds exactly the cart that the history without any operation on id builds from the start without id |
| CartHistory.RepeatedAddsAccumulate | cart.js:7-8 | n adds of a present id raise its quantity by n and keep its stored name and price |
| CartHistory.RepeatedAddsFromFresh | cart.js:6-15 | n ≥ 1 adds of a fresh id leave quantity n with the first add's name and price |
| CartHistory.AddsRaiseCount | cart.js:6-15 | any sequence of n adds raises the item count by n |
| CartHistory.SingleLineAggregates | cart.js:39-50 | a one-entry cart has total price × quantity and count quantity |
| CartHistory.ScenarioAddTwice | cart.js:6-15 | adding ("p1", "Widget", 10) twice gives one line of quantity 2 and total 20 |
| CartHistory.ScenarioSetQuantity | cart.js:28-41 | adding at price 10 and then setting the quantity to 5 gives total 50 |
| CartHistory.ScenarioAddRemove | cart.js:6-50 | adding then removing a product gives count 0 and total 0 |

## Left out

- Rendering in `updateCartUI` (cart.js:43-103) apart from the count reduction: markup, element lookups and translation lookups are presentation only.
- `showCartNotification` (cart.js:121-130): it only builds a DOM element and sets a timer.
- `toggleCart` (cart.js:108-119): the open flag flips only when the modal element exists, so its behaviour depends on the page, not the cart.
- `checkout` (cart.js:132-140): the order message depends on the object's key enumeration order, on number-to-string formatting and on `encodeURIComponent` and `window.open`, all outside the model.
- Persistence (cart.js:105, cart.js:143-154): `localStorage` and `JSON.stringify`/`JSON.parse` are foreign calls. The restored data is not validated, so a restored cart need not satisfy the quantity invariant. The invariant is stated only for carts built from the empty cart by the operations (`CartHistory.BuiltCartsAreValid`).
- The modal-background click handler (cart.js:156-164): event wiring only. The page-load listener around it (cart.js:143-165) is the restore covered by the persistence line above.
- JavaScript numbers: prices and quantities are unbounded integers, so there is no floating-point rounding in `price * quantity` and no loss of precision above 2^53. The page adds doubles, so its total can depend on the order in which the cart's keys are enumerated (0.1, 0.2, 0.3 sum to 0.6000000000000001 in one order and 0.6 in the reverse); the order-independence proved by `CartTotals.SumOfRemove` holds for the integer sums of the model only.
- JavaScript prototype keys: in the page, an id that names an `Object.prototype` property (`"constructor"`, `"toString"`) passes the presence test without being a key of the cart. The model treats presence as key membership only.
