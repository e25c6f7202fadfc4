# EBAC Shoes cart store, modelled in Dafny

The storefront script keeps an in-memory shopping cart on its page object
`EBACShoes`. The cart has two fields. `cart` is a list of line items
`{id, name, price, quantity}`. `cartCount` is a running count of units that
drives the cart badge. Four operations change or read them:

- the commit step of add-to-cart bumps an existing entry or appends a new one, then bumps the counter;
- `removeFromCart` deletes an entry and subtracts its whole quantity;
- `clearCart` empties both fields;
- `getCartTotal` and `getCartItems` read the cart.

The counter is never recomputed. It equals the number of units only because
every mutator moves it by hand. The model proves that invariant, together with
unique ids and quantities of at least 1.

Files:

- `line_items.dfy` (module `LineItems`) holds the `Item` value and the pure operations on a sequence of items. These are the lookup `FindIndex`, which models `find`/`findIndex`; the reference definitions `Added` and `Removed`; the sums `Quantities` and `Total`; the left fold `ReduceTotal` that `getCartTotal` performs; and the lemmas about them.
- `cart_store.dfy` (module `Store`) holds the class `CartStore` with the fields `cart: seq<Item>` and `cartCount: int`. Its `Valid()` is the invariant. Its methods update the fields step by step as the script does and are proved against `Added` and `Removed`. A client method replays the two-adds scenario.

Prices are integers counting cents, so 49.90 is 4990.

## Model

| member | source | states |
|---|---|---|
| `LineItems.FindIndex` | app.js:290-292 | Returns -1 exactly when no entry has the id. Otherwise it returns the index of the first entry carrying the id. This models the lookup that `find` (line 70) and `findIndex` (line 291) perform. |
| `LineItems.ReduceTotal` | app.js:276-278 | The left-to-right fold of price × quantity from a start value equals that start value plus the sum of the line totals. |
| `LineItems.AddedExisting` | app.js:70-73 | Adding an id already present adds no entry. That entry gains exactly one unit and keeps its name and price. Every other entry is unchanged. |
| `LineItems.AddedNew` | app.js:74-81 | Adding an absent id appends exactly one entry at the end, with the given id, name and price and quantity 1. |
| `LineItems.AddedQuantities` | app.js:70-84 | Every add raises the number of units by exactly 1, matching the counter's `+= 1`. |
| `LineItems.AddedTotal` | app.js:70-81 | Every add raises the total by one unit price. For a present id that is the price already recorded, not the one passed in. |
| `LineItems.AddedKeepsInvariant` | app.js:70-84 | If the ids are unique, the quantities are at least 1 and the counter equals the units, all three still hold after an add with the counter plus one. The id is present afterwards. |
| `LineItems.RemovedPresent` | app.js:290-295 | Removing a present id deletes exactly the first entry with it. The other entries keep their order. |
| `LineItems.RemovedAbsent` | app.js:291-292 | Removing an absent id leaves the cart unchanged. |
| `LineItems.RemovedQuantities` | app.js:293-294 | Removing lowers the number of units by the removed entry's whole quantity, or by 0 when the id is absent. |
| `LineItems.RemovedTotal` | app.js:290-295 | Removing lowers the total by the removed entry's line total, or by 0 when the id is absent. |
| `LineItems.RemovedKeepsInvariant` | app.js:290-295 | The invariant survives a removal, with the counter lowered by the removed quantity. The id is absent afterwards. |
| `LineItems.RemoveUndoesAddNew` | app.js:290-295 | Removing an id right after adding it as a new entry gives back the original cart. |
| `LineItems.CounterBounds` | app.js:84 | Under the invariant the counter is at least the number of entries. It is 0 exactly when the cart is empty. |
| `Store.CartStore.constructor` | app.js:3-5 | A new store has an empty cart and a counter of 0, and the invariant holds. |
| `Store.CartStore.AddItem` | app.js:70-84 | The new cart is `Added` of the old one. The counter is one higher and the invariant is kept. |
| `Store.CartStore.RemoveFromCart` | app.js:290-298 | The new cart is `Removed` of the old one. The counter drops by the removed quantity and the invariant is kept. An absent id changes neither field. |
| `Store.CartStore.ClearCart` | app.js:284-288 | From any prior state the cart becomes empty, the counter becomes 0 and the invariant holds. |
| `Store.CartStore.CartTotal` | app.js:276-278 | The result is the sum of price × quantity over the items, and 0 for an empty cart. As a function it changes no state. |
| `Store.CartStore.CartItems` | app.js:280-282 | Returns the current items. Under the invariant their ids are unique and their quantities sum to the counter, which is at least their number. |
| `Store.SneakerTwice` | app.js:70-84 | Adding product p1 "Sneaker" at 49.90 twice gives one entry with quantity 2, a counter of 2 and a total of 99.80. |

## Left out

- The display and feedback side effects are not modelled: `updateCartDisplay`, `showNotification`, `animateCartButton`, and the button's loading, disabled and label writes. They only write to page elements.
- The 800 ms delay before the commit step and the other timers are not modelled. `AddItem` is the commit body run synchronously, and it is atomic, so interleaved adds are sequences of these calls.
- Price parsing with `parseFloat` and floating point are not modelled. A price is an integer number of cents, so a non-numeric price that would become NaN has no counterpart.
- The product attributes read from the button's data set are always strings here. A missing attribute would be `undefined`, which is not modelled.
- `Store.CartStore.CartItems`: it returns the cart's value, not the live array. A caller that mutates the returned array or its item objects could break the invariant in the script; that aliasing is not captured.
- Line items are values in a sequence. The in-place `existingItem.quantity += 1` on a shared object is modelled as replacing that entry with an updated copy.
- Navigation, smooth scrolling, scroll animations, the mobile menu, hover effects, event listener registration, global exposure, visibility logging, the service worker check, analytics, error reporting, Escape key handling and touch swipe detection are not modelled. They are page wiring with no cart state.
