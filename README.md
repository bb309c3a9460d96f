# Storefront cart and product-page state, in Dafny

This project models the client-side state of two React components of an AEM-hosted
storefront single-page application:

- **The shopping cart.** Its state is a list of line items, a loading flag and an
  open/closed flag for the cart drawer. Two handlers change the list:
  - `handleUpdateQuantity` ignores a quantity below 1 and otherwise sets the quantity
    of every item with the given id.
  - `handleRemoveItem` filters out every item with the given id.

  The cart also shows four derived values: subtotal (the sum of price × quantity),
  tax (subtotal × 0.0825), total (subtotal + tax) and item count (the sum of
  quantities).
- **The product page.** Its state is the fetched product, a loading flag, the
  selected colour and size, and a quantity. Three guarded handlers keep the quantity
  between 1 and 10: typing in the number field (read with JavaScript's `parseInt`),
  the minus button and the plus button.

Layout:

- `CartItems.dfy` (module `CartItems`): the line-item datatype, the list rewrites,
  the aggregates and the lemmas relating them.
- `ShoppingCart.dfy` (module `ShoppingCart`): class `CartState`, with one method per
  handler and accessors for the four derived values.
- `NumberParsing.dfy` (module `NumberParsing`): `parseInt` without a radix argument.
- `ProductDetail.dfy` (module `ProductDetail`): the quantity transition function
  `Step` and its lemmas, and class `DetailState`, with one method per handler.
- `Wrappers.dfy`: `Option`. It models JavaScript's `null` product and `parseInt`'s
  `NaN` result.

Prices are exact `real` values, and the tax rate is exactly 0.0825. Each class has
a `Valid()` invariant:

- The cart's invariant: every quantity is at least 1, ids are unique and prices
  are non-negative.
- The product page's invariant: 1 ≤ quantity ≤ 10.

Every handler keeps its class's invariant. Each fetch effect is one atomic step,
with a `succeeded` parameter in place of the network:

- On success, the component's own fixture is loaded (`mockCartItems` or
  `mockProduct`).
- On failure, the `catch` branch runs, which only clears the loading flag.

In four places the code behaves differently from what a description of a cart
might suggest. The model follows the code:

- The remove handler drops every item with the id, not just one.
- A failed fetch ends loading. The cart then shows as empty, and the product page
  shows "Product not found". A failed fetch does not leave either component
  loading.
- The handlers do not check the loading flag. They act on whatever list is
  current.
- Unknown ids are ignored silently.

## Model

| member | source | states |
|---|---|---|
| `CartItems.MockCartFacts` | ui.frontend/src/components/commerce/ShoppingCart/ShoppingCart.js:22-45 | the loaded fixture has quantities ≥ 1, unique ids, non-negative prices, subtotal 204.00, tax 16.83, total 220.83 and 3 items |
| `ShoppingCart.CartState.constructor` | ui.frontend/src/components/commerce/ShoppingCart/ShoppingCart.js:67-69 | on mount the cart is empty, loading and closed, and valid |
| `ShoppingCart.CartState.FetchCartItems` | ui.frontend/src/components/commerce/ShoppingCart/ShoppingCart.js:72-87 | success loads the fixture; either outcome ends loading; failure keeps the items; the drawer flag and the invariant are kept |
| `ShoppingCart.CartState.ToggleCart` | ui.frontend/src/components/commerce/ShoppingCart/ShoppingCart.js:89-91 | the open flag is negated and nothing else changes, so two toggles restore it |
| `CartItems.WithQuantity` | ui.frontend/src/components/commerce/ShoppingCart/ShoppingCart.js:96-100 | every item with the id becomes that item with the new quantity; every other item is the same; the length is the same |
| `CartItems.UpdateQuantity` | ui.frontend/src/components/commerce/ShoppingCart/ShoppingCart.js:93-101 | a quantity below 1 leaves the cart exactly as it was; otherwise matching items get the quantity; all other fields, all other items, length and order are kept |
| `ShoppingCart.CartState.HandleUpdateQuantity` | ui.frontend/src/components/commerce/ShoppingCart/ShoppingCart.js:93-101 | the new list is `UpdateQuantity` of the old one; loading and drawer flags are kept; the invariant (quantities ≥ 1) is kept |
| `CartItems.UpdateAbsentId` | ui.frontend/src/components/commerce/ShoppingCart/ShoppingCart.js:97-98 | updating an id that no item carries leaves the cart unchanged |
| `CartItems.WithQuantityAbsentId` | ui.frontend/src/components/commerce/ShoppingCart/ShoppingCart.js:97-98 | the `map` with an id no item carries is the identity |
| `CartItems.RemoveItem` | ui.frontend/src/components/commerce/ShoppingCart/ShoppingCart.js:103-105 | no item with the id remains; an item is kept iff it was there with another id; the length drops by the number of matches; the result is a subsequence (order kept) |
| `ShoppingCart.CartState.HandleRemoveItem` | ui.frontend/src/components/commerce/ShoppingCart/ShoppingCart.js:103-105 | the new list is `RemoveItem` of the old one; in a valid cart the length drops by exactly 1 if the id was present and by 0 otherwise; the flags and the invariant are kept |
| `CartItems.RemoveAbsentId` | ui.frontend/src/components/commerce/ShoppingCart/ShoppingCart.js:104 | removing an id no item carries leaves the cart unchanged |
| `CartItems.RemoveTwice` | ui.frontend/src/components/commerce/ShoppingCart/ShoppingCart.js:104 | removing the same id a second time is a no-op |
| `CartItems.CountId` | ui.frontend/src/components/commerce/ShoppingCart/ShoppingCart.js:104 | the number of items with an id is at most the length, and is zero iff no item carries it |
| `CartItems.CountIdUnique` | ui.frontend/src/components/commerce/ShoppingCart/ShoppingCart.js:104 | with unique ids a present id matches exactly one item, whose quantity and line total are those of the matches |
| `CartItems.RemovePresentUnique` | ui.frontend/src/components/commerce/ShoppingCart/ShoppingCart.js:103-105 | with unique ids, removing a present id shortens the cart by exactly one |
| `CartItems.SubtotalAppend` | ui.frontend/src/components/commerce/ShoppingCart/ShoppingCart.js:108 | the subtotal of two carts joined is the sum of their subtotals |
| `CartItems.SubtotalSnoc` | ui.frontend/src/components/commerce/ShoppingCart/ShoppingCart.js:108 | appending an item adds its price × quantity: the step of the `reduce` |
| `CartItems.SubtotalNonNegative` | ui.frontend/src/components/commerce/ShoppingCart/ShoppingCart.js:107-109 | with non-negative prices and positive quantities the subtotal is non-negative |
| `ShoppingCart.CartState.CalculateSubtotal` | ui.frontend/src/components/commerce/ShoppingCart/ShoppingCart.js:107-109 | returns the subtotal of the current items, which is non-negative in a valid cart |
| `CartItems.TotalIsTaxedSubtotal` | ui.frontend/src/components/commerce/ShoppingCart/ShoppingCart.js:111-118 | tax = subtotal × 825/10000 and total = subtotal × 1.0825; with non-negative prices the tax is non-negative and the total is never below the subtotal |
| `ShoppingCart.CartState.CalculateTax` | ui.frontend/src/components/commerce/ShoppingCart/ShoppingCart.js:111-114 | returns subtotal × 825/10000, which is non-negative in a valid cart |
| `ShoppingCart.CartState.CalculateTotal` | ui.frontend/src/components/commerce/ShoppingCart/ShoppingCart.js:116-118 | returns subtotal × 1.0825, which is never below the subtotal in a valid cart |
| `CartItems.EmptyCartTotals` | ui.frontend/src/components/commerce/ShoppingCart/ShoppingCart.js:107-120 | the empty cart has subtotal, tax, total and item count 0 |
| `CartItems.ItemCountAppend` | ui.frontend/src/components/commerce/ShoppingCart/ShoppingCart.js:120 | the item count of two carts joined is the sum of their counts |
| `CartItems.ItemCountSnoc` | ui.frontend/src/components/commerce/ShoppingCart/ShoppingCart.js:120 | appending an item adds its quantity: the step of the `reduce` |
| `CartItems.ItemCountAtLeastLength` | ui.frontend/src/components/commerce/ShoppingCart/ShoppingCart.js:120 | with quantities ≥ 1 the count is at least the number of lines, and is zero iff the cart is empty |
| `ShoppingCart.CartState.ItemCount` | ui.frontend/src/components/commerce/ShoppingCart/ShoppingCart.js:120 | returns the sum of quantities, at least the number of lines in a valid cart |
| `CartItems.ItemCountAfterRemove` | ui.frontend/src/components/commerce/ShoppingCart/ShoppingCart.js:103-105 | removing an id lowers the count by the total quantity of the removed items |
| `CartItems.SubtotalAfterRemove` | ui.frontend/src/components/commerce/ShoppingCart/ShoppingCart.js:103-109 | removing an id lowers the subtotal by the removed lines' totals |
| `CartItems.QuantityOfAbsent` | ui.frontend/src/components/commerce/ShoppingCart/ShoppingCart.js:104 | an id no item carries has quantity 0 and line total 0 |
| `CartItems.RemovePresentTotals` | ui.frontend/src/components/commerce/ShoppingCart/ShoppingCart.js:103-120 | with unique ids, removing a present item lowers the count by its quantity and the subtotal by its line total |
| `CartItems.TotalsAfterWithQuantity` | ui.frontend/src/components/commerce/ShoppingCart/ShoppingCart.js:96-100 | with unique ids, the new quantity replaces the old one in the count, and the new line total replaces the old one in the subtotal |
| `CartItems.TotalsAfterUpdate` | ui.frontend/src/components/commerce/ShoppingCart/ShoppingCart.js:93-120 | with unique ids, updating an item from q0 to q ≥ 1 changes the count by q − q0 and swaps its line total; a rejected update changes neither |
| `CartItems.QuantityButtons` | ui.frontend/src/components/commerce/ShoppingCart/ShoppingCart.js:177-190 | minus on an item at quantity 1 (a request for 0) leaves the cart unchanged; minus otherwise lowers the count by 1; plus raises it by 1 |
| `CartItems.MutationsKeepQuantitiesPositive` | ui.frontend/src/components/commerce/ShoppingCart/ShoppingCart.js:93-105 | both handlers keep every quantity ≥ 1 |
| `CartItems.MutationsKeepPricesNonNegative` | ui.frontend/src/components/commerce/ShoppingCart/ShoppingCart.js:93-105 | both handlers keep every price ≥ 0 |
| `CartItems.MutationsKeepIdsUnique` | ui.frontend/src/components/commerce/ShoppingCart/ShoppingCart.js:93-105 | both handlers keep ids unique |
| `CartItems.MockCartScenarios` | ui.frontend/src/components/commerce/ShoppingCart/ShoppingCart.js:94-105 | on the fixture: asking item 1 for quantity 0 changes nothing; removing item 2 leaves item 1, count 1 and subtotal 54.00 |
| `NumberParsing.DigitValue` | ui.frontend/src/components/commerce/ProductDetail/ProductDetail.js:99 | a character's digit value is at most 36, where 36 means it is a digit in no base |
| `NumberParsing.DigitChar` | ui.frontend/src/components/commerce/ProductDetail/ProductDetail.js:99 | the decimal digit character for d has digit value d |
| `NumberParsing.TrimStart` | ui.frontend/src/components/commerce/ProductDetail/ProductDetail.js:99 | `parseInt`'s leading white-space skip returns a suffix that does not start with white space, and everything it drops is white space |
| `NumberParsing.DigitPrefix` | ui.frontend/src/components/commerce/ProductDetail/ProductDetail.js:99 | the digits `parseInt` reads are the longest prefix of digits in the base |
| `NumberParsing.DecimalString` | ui.frontend/src/components/commerce/ProductDetail/ProductDetail.js:99 | the decimal text of a number is a non-empty string of digits, with no leading zero unless the number is 0 |
| `NumberParsing.DigitsValueOfDecimal` | ui.frontend/src/components/commerce/ProductDetail/ProductDetail.js:99 | reading back the decimal digits of n gives n |
| `NumberParsing.DigitPrefixStopsAtNonDigit` | ui.frontend/src/components/commerce/ProductDetail/ProductDetail.js:99 | the digit run ends exactly at the first non-digit |
| `NumberParsing.ParseMagnitudeOfDecimal` | ui.frontend/src/components/commerce/ProductDetail/ProductDetail.js:99 | decimal digits followed by a non-digit other than 'x' or 'X' give their value |
| `NumberParsing.ParseIntOfIntString` | ui.frontend/src/components/commerce/ProductDetail/ProductDetail.js:99 | `parseInt` of any integer's decimal text gives that integer, also when a non-digit suffix such as ".5" follows |
| `NumberParsing.TrimStartKeeps` | ui.frontend/src/components/commerce/ProductDetail/ProductDetail.js:99 | text that does not start with white space is not trimmed |
| `NumberParsing.SignedDigits` | ui.frontend/src/components/commerce/ProductDetail/ProductDetail.js:99 | text starting with a digit is read unsigned, and a '-' in front negates the value |
| `NumberParsing.ParseIntOfSigned` | ui.frontend/src/components/commerce/ProductDetail/ProductDetail.js:99 | text starting with '-' or a digit is read by the sign step with no trimming |
| `NumberParsing.TrimStartSkips` | ui.frontend/src/components/commerce/ProductDetail/ProductDetail.js:99 | the white-space skip ignores any white space put in front |
| `NumberParsing.ParseIntSkipsWhiteSpace` | ui.frontend/src/components/commerce/ProductDetail/ProductDetail.js:99 | leading white space does not change what `parseInt` returns |
| `NumberParsing.ParseIntWithoutDigits` | ui.frontend/src/components/commerce/ProductDetail/ProductDetail.js:99 | text with no decimal digit, such as the empty field, parses to `NaN` |
| `ProductDetail.AcceptTyped` | ui.frontend/src/components/commerce/ProductDetail/ProductDetail.js:100-102 | the quantity either stays the same or becomes the parsed value, which must be in 1..10; a parsed value in 1..10 is always taken |
| `ProductDetail.Step` | ui.frontend/src/components/commerce/ProductDetail/ProductDetail.js:98-103 | every event keeps a quantity in 1..10 in range; minus changes the quantity (by −1) iff it is above 1; plus changes it (by +1) iff it is below 10 |
| `ProductDetail.Presses` | ui.frontend/src/components/commerce/ProductDetail/ProductDetail.js:200-216 | k presses of one button are k copies of that event |
| `ProductDetail.RunStaysInRange` | ui.frontend/src/components/commerce/ProductDetail/ProductDetail.js:68-103 | starting in 1..10, every sequence of typed, minus and plus events stays in 1..10 |
| `ProductDetail.PlusPresses` | ui.frontend/src/components/commerce/ProductDetail/ProductDetail.js:215-216 | k presses of plus add k, capped at 10 |
| `ProductDetail.MinusPresses` | ui.frontend/src/components/commerce/ProductDetail/ProductDetail.js:200-201 | k presses of minus subtract k, floored at 1 |
| `ProductDetail.TypedNumber` | ui.frontend/src/components/commerce/ProductDetail/ProductDetail.js:98-103 | typing the decimal text of n (with any fraction) sets the quantity to n iff n is in 1..10; an empty field changes nothing |
| `ProductDetail.DetailState.constructor` | ui.frontend/src/components/commerce/ProductDetail/ProductDetail.js:64-68 | on mount: no product, loading, empty selections, quantity 1 |
| `ProductDetail.DetailState.CurrentView` | ui.frontend/src/components/commerce/ProductDetail/ProductDetail.js:116-131 | the page shows the spinner iff loading, "not found" iff loaded without a product, and otherwise the stored product |
| `ProductDetail.DetailState.FetchProduct` | ui.frontend/src/components/commerce/ProductDetail/ProductDetail.js:71-88 | success stores the product, selects its first colour and second size and shows it; failure only ends loading, so a page that had no product shows "not found"; the quantity is kept |
| `ProductDetail.MockProductSelectable` | ui.frontend/src/components/commerce/ProductDetail/ProductDetail.js:37-38 | the fixture has a first colour (Black) and a second size (M) to select by default |
| `ProductDetail.DetailState.HandleColorChange` | ui.frontend/src/components/commerce/ProductDetail/ProductDetail.js:90-92 | the selected colour becomes exactly the argument and nothing else changes |
| `ProductDetail.DetailState.HandleSizeChange` | ui.frontend/src/components/commerce/ProductDetail/ProductDetail.js:94-96 | the selected size becomes exactly the argument and nothing else changes |
| `ProductDetail.DetailState.HandleQuantityChange` | ui.frontend/src/components/commerce/ProductDetail/ProductDetail.js:98-103 | the quantity becomes `parseInt(text)` only when that is in 1..10, and is otherwise unchanged; nothing else changes; the 1..10 invariant is kept |
| `ProductDetail.DetailState.DecrementQuantity` | ui.frontend/src/components/commerce/ProductDetail/ProductDetail.js:200 | the quantity drops by one only when above 1; nothing else changes |
| `ProductDetail.DetailState.IncrementQuantity` | ui.frontend/src/components/commerce/ProductDetail/ProductDetail.js:215 | the quantity rises by one only when below 10; nothing else changes |

## Left out

- Rendering is not modelled: JSX, CSS class choices, `aria-*` attributes and the
  disabled state of buttons. Only the handlers' effects on state are modelled.
- `handleAddToCart` in ProductDetail.js is not modelled. It only calls
  `console.log` and `alert` and changes no state.
- `console.error` in both fetch effects is not modelled. It is an I/O side effect
  that changes no state.
- The 500 ms and 800 ms `setTimeout` delays are not modelled, nor is the
  `async`/`await` plumbing. Each fetch is one atomic step, and its outcome is a
  parameter.
- Each fetch always returns its component's fixture. The model therefore does not
  cover a product with no colours, or with only one size. In JavaScript such a
  product would set a selection to `undefined`.
- `toFixed(2)` display rounding is not modelled, nor is floating-point arithmetic.
  Prices, the subtotal, the tax and the total are exact reals.
- The cart handlers' quantity argument is a mathematical integer. The UI only ever
  passes `item.quantity ± 1`, so the fractional and `NaN` numbers that JavaScript
  would also accept are not modelled.
- `NumberParsing.ParseInt`: as white space it skips only the ASCII white space, U+00A0,
  U+FEFF, U+2028 and U+2029. It does not skip the other Unicode space separators,
  for example U+3000.
- `NumberParsing.ParseInt`: numbers above 2^53 are exact in the model. JavaScript
  would round them, which changes nothing for the 1..10 check.
- The AEM edit-config `isEmpty` predicates are left out. So are `MapTo`
  registration, the Apollo GraphQL client, `App.js`, `env-config.js` and the
  presentational components (ProductList, FeatureCards, HeroBanner). They hold no
  state rule of these two components.
- Unique ids and non-negative prices are part of the cart invariant. The source
  does not check them. The fixture satisfies them and both handlers preserve them.
