# Shopping cart of the nursery storefront, in Dafny

This project models the cart of the storefront script `script.js`. The cart is
the `itemList` array of line items. The shopper adds, removes and re-quantifies
those items. After each change the list is written to `localStorage` under
`cartItems`. Every other open tab of the site reloads it from there when a
`storage` event arrives.

The model has four modules:

- `Wrappers` (`wrappers.dfy`): the `Option` type. It stands for an absent
  storage key, a quantity input that parsed to `NaN`, and a title that was not
  found.
- `CartItems` (`cart_items.dfy`): the line item and the computations over a
  list of them.
  - `Find` is the loop behind `itemList.find`. It is proved equal to the
    specification function `FirstIndex`.
  - `Without` is `itemList.filter`.
  - `ClampQuantity` is the quantity floor.
  - `ComputeTotals` is the accumulating loop of `updateTotal`. It is proved
    equal to the sums `TotalPrice` and `ItemCount`.
  - Lemmas relate these sums and the filter to the list operations.
  - `WellFormed` is the cart invariant: titles are unique and every quantity
    is at least 1.
- `CartState` (`cart_state.dfy`): the mutable state.
  - `Store` is the origin's storage slot `cartItems`, shared by all tabs.
    `None` means that nothing is stored.
  - `Cart` is one tab. It holds `itemList`, a reference to the shared store,
    and the three values `updateTotal` writes to the page: the total, the
    count, and whether the count badge is shown.
  - Each handler of the script is a method. Its postcondition gives the new
    list, the new stored value and the header, all in terms of the old state.
    Add, remove and quantity change also state that the cart invariant is
    preserved. A synced tab's list is only as well formed as the stored list
    it reloads, since another tab may have written anything there.
- `CartScenarios` (`cart_scenarios.dfy`): client methods that replay sessions
  with one or two tabs. They cover a duplicate add, a total of Rs.350.00 for
  4 items, an unconfirmed removal, and a second tab's cart replacing the
  first tab's cart.

Unit prices are whole paise (hundredths of a rupee). So "Rs.100.00" is
`10000`, and totals are exact.

Two behaviours of the code are easy to misread, and the model keeps them as
the code has them:

- An absent `cartItems` key, or stored JSON that parses to a falsy value
  (`null`, `false`, `0`, `""`), falls back to the empty cart through `|| []`.
  Stored text that does not parse makes `JSON.parse` throw; it is not
  recovered from. The model stores parsed lists only, and an absent key loads
  as `[]`.
- Removing an absent title after confirmation still calls `updateCart`, so
  the list is written to the store again. `RemoveItem` states that the store
  then holds the list.

## Model

| member | source | states |
|---|---|---|
| `CartItems.FirstIndex` | script.js:101 | the result is absent exactly when no line has the title; otherwise it is the position of a line with that title, and no earlier line has it |
| `CartItems.Find` | script.js:42 | the loop over the list returns the position of the first line with the title, or none when no line has it |
| `CartItems.Without` | script.js:93 | a line survives the filter exactly when it was in the list and its title differs; the result is never longer |
| `CartItems.WithoutAppend` | script.js:93 | filtering a concatenation is the concatenation of the filtered parts, so the surviving lines keep their relative order |
| `CartItems.WithoutAbsent` | script.js:93 | removing a title that no line has leaves the list unchanged |
| `CartItems.WithoutDeletesOne` | script.js:93 | in a list with unique titles, removing the title of line i deletes exactly line i and keeps the others in order |
| `CartItems.WithoutWellFormed` | script.js:93 | filtering keeps titles unique and quantities at least 1 |
| `CartItems.ClampQuantity` | script.js:104 | the stored quantity is at least 1 and at least the parsed value; it is 1 or the parsed value, so it is max(1, q) for a parsed q and 1 for NaN |
| `CartItems.ComputeTotals` | script.js:142-154 | the accumulated total is the sum of unit price times quantity, the count is the sum of quantities, and the badge is shown exactly when the count is positive |
| `CartItems.TotalsAppend` | script.js:145-150 | the total and the count of a concatenation are the sums of those of its parts |
| `CartItems.TotalsAddLine` | script.js:49-50 | appending a line with quantity 1 raises the total by its unit price and the count by 1 |
| `CartItems.TotalsSetQuantity` | script.js:104 | setting one line's quantity to q replaces that line's share (price times quantity) of the total by its share at q, and moves the count by the quantity difference; no other line contributes differently |
| `CartItems.TotalsRemoveLine` | script.js:93 | with unique titles, filtering out line i's title lowers the total by that line's price times quantity and the count by its quantity |
| `CartItems.CountBounds` | script.js:154 | with every quantity at least 1, the count is at least the number of lines and the total is not negative, so the badge shows exactly when the cart has lines |
| `CartState.Load` | script.js:6 | the value read back under `cartItems` (also at script.js:160): an absent key reads as the empty list, a stored list reads as itself |
| `CartState.Cart.constructor` | script.js:6 | a tab starts with the stored list, or with the empty cart when nothing is stored, and its header shows that list's total and count |
| `CartState.Cart.UpdateTotal` | script.js:140-155 | the header afterwards shows the list's total, its count, and the badge exactly when the count is positive; the list is not touched |
| `CartState.Cart.UpdateCart` | script.js:133-137 | afterwards the stored value equals the in-memory list and the header matches it |
| `CartState.Cart.AddCartItem` | script.js:35-53 | a title already present is refused and neither the list, the header nor the store changes; otherwise exactly one line with quantity 1 is appended after the unchanged earlier lines, the store equals the list, the total rises by the price and the count by 1, and the invariant is kept |
| `CartState.Cart.RemoveItem` | script.js:91-96 | without confirmation nothing changes; with it the list is the filtered list, no line has the title, an absent title leaves the list as it was, the store equals the list, the sums drop by the removed line's share, and the invariant is kept |
| `CartState.Cart.ChangeQuantity` | script.js:99-107 | an unknown title changes nothing; otherwise only the first line with the title changes, to the clamped quantity, so length, order and other lines stay; the store equals the list, the sums move by that line's difference, and quantities stay at least 1 |
| `CartState.Cart.SyncCartAcrossTabs` | script.js:158-164 | for the keys `cartUpdated` and `cartItems` the list becomes the stored one (empty if nothing is stored) and the header follows it; a well-formed stored list gives a well-formed tab list; for any other key the tab is unchanged; the store is never written |

## Left out

- The DOM: element lookups, opening and closing the cart sidebar, listener wiring, and the rendering of each line in `displayCartItems` and `createCartItem`. Rendering draws every line in list order and has no logic beyond that.
- `showAddToCartMessage` and its two-second timer: a transient notice with no effect on the cart.
- `alert` and `confirm`: the confirmation answer is the `confirmed` parameter of `RemoveItem`, and the duplicate alert is the `false` result of `AddCartItem`.
- `JSON.stringify` and `JSON.parse`: the store holds the item list itself, so a write followed by a read gives back the same list. Stored text that does not parse (where `JSON.parse` throws) and stored JSON that parses to a falsy value such as `null` (which `|| []` turns into the empty cart) are not modelled.
- Reading the title, price and image from the product card: `AddCartItem` takes them as parameters.
- `parseFloat`, `replace("Rs.", "")` and `toFixed(2)`: prices are whole paise and totals exact integers, so float rounding is not modelled. `parseInt` is the `parsed` parameter of `ChangeQuantity`, with `None` for `NaN`.
- The browser's delivery of `storage` events: `SyncCartAcrossTabs` is called with the event's key. Races between tabs and last-write-wins on the store are not modelled.
