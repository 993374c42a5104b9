# Cart view logic of the plant shop

This project models the logic of the shopping-cart view `src/CartItem.jsx`
(module `CartItem`, file `cart_item.dfy`). The file holds two groups of logic:

- **Quantity handlers.** The "+", "-" and "Delete" buttons each turn a cart
  line into exactly one store action. "+" asks for `quantity + 1`. "-" asks
  for `quantity - 1` while more than one unit is left and otherwise asks for
  the line to be removed, so the view never asks the store for a quantity
  below one. "Delete" always asks for removal.
- **Totals.** A line's sub-total is quantity times unit cost. The cart total
  is a left fold of the sub-totals starting at zero.

Each handler is a pure function from an `Item` to an `Action`. The two remove
actions carry payloads of different shapes in the source: decrement sends a
record `{ name }` and delete sends the bare name. They are kept as two payload
constructors, `ByRecord` and `ByName`, and `RemovePayloadsDiffer` states that
they differ for the same line. The store's reducers live in a separate module
and are not part of this model, so the model says what the view asks for and
not what the store then does. `RequestedQuantity` reads an action as the
quantity it asks the line to have, with removal read as zero. It serves to
state laws relating the handlers to each other and to the totals; it is not
a model of the store.

Amounts are exact. A unit cost is a `real` and a quantity an `int`. The
reducer loop is `FoldTotal`, and the lemmas relate it to the front-to-back sum
`SumOfLines`.

The store operations (set quantity, remove) are the reducers of
`./CartSlice`, imported at src/CartItem.jsx:3, and are not modelled; this
file only dispatches actions. Its total is a floating-point fold, which is
not order-independent in general. Order-independence
(`TotalAmountPermutation`) is proved for the exact-arithmetic model only.

## Model

| member | source | states |
|---|---|---|
| `CartItem.HandleIncrement` | src/CartItem.jsx:33-37 | always an update for the same line name, asking for exactly one more unit, with no upper bound; from any non-negative quantity the request is at least one |
| `CartItem.HandleDecrement` | src/CartItem.jsx:39-48 | the action is an update exactly when the quantity is above one, and then asks for one unit fewer; otherwise it is a removal with the record payload; it never asks for a quantity below one; always about the same line name |
| `CartItem.HandleRemove` | src/CartItem.jsx:50-52 | always a removal of the line's name with the bare-name payload, whatever the quantity |
| `CartItem.DecrementRequestsOneFewer` | src/CartItem.jsx:39-47 | on a line with quantity at least one, decrement asks for exactly quantity - 1 (removal counting as zero), and removes exactly when the quantity is one |
| `CartItem.DecrementAfterIncrement` | src/CartItem.jsx:33-43 | decrementing the quantity that increment asked for gives back an update to the original quantity |
| `CartItem.IncrementAfterDecrement` | src/CartItem.jsx:33-43 | when decrement does not remove, incrementing the quantity it asked for gives back an update to the original quantity |
| `CartItem.RemovePayloadsDiffer` | src/CartItem.jsx:44-52 | for a line at quantity one or less, decrement and delete both remove the same name but dispatch different payloads (record against bare name) |
| `CartItem.CalculateTotalCost` | src/CartItem.jsx:23-24 | line sub-total with no rounding: zero when quantity or cost is zero, non-negative for non-negative inputs, at least one unit cost when at least one unit is held |
| `CartItem.SumOfLines` | src/CartItem.jsx:13-19 | the sum of the line sub-totals is non-negative when every cost and quantity is |
| `CartItem.FoldIsSum` | src/CartItem.jsx:13-19 | the left fold `FoldTotal` of sub-totals from any starting value equals that value plus the sum of the sub-totals |
| `CartItem.CalculateTotalAmount` | src/CartItem.jsx:13-19 | the unformatted cart total (`FoldTotal` is the fold of lines 15-19, started at zero) equals the sum of the line sub-totals, is zero for the empty cart and is non-negative when all costs and quantities are |
| `CartItem.SumOfLinesAppend` | src/CartItem.jsx:13-19 | the sum of sub-totals of two concatenated carts is the sum of their sums |
| `CartItem.TotalAmountAppend` | src/CartItem.jsx:13-19 | the cart total of a concatenation is the sum of the two cart totals |
| `CartItem.SumOfLinesPermutation` | src/CartItem.jsx:13-19 | with exact amounts, two carts holding the same lines in any order have the same sum of sub-totals |
| `CartItem.TotalAmountPermutation` | src/CartItem.jsx:13-19 | with exact amounts, the cart total does not depend on the order of the lines |
| `CartItem.RequestedLineTotals` | src/CartItem.jsx:33-43 | the line at the quantity increment asks for is worth exactly one unit cost more; the line at the quantity a non-removing decrement asks for is worth one unit cost less |
| `CartItem.ExampleCart` | src/CartItem.jsx:13-47 | 2 x 5.00 plus 1 x 3.50 totals 13.50; decrementing the single cactus removes it; incrementing the fern asks for 3; with three ferns the total is 18.50 |

## Left out

- Rendering, styling and the stylesheet import (src/CartItem.jsx:4, 61-133): presentation only.
- Reading the cart and dispatching (src/CartItem.jsx:7-8): the store hooks are replaced by passing the cart or the line as an argument and returning the action.
- The `updateQuantity` and `removeItem` reducers (imported at src/CartItem.jsx:3): `src/CartSlice` is not part of this model, so nothing is said about the cart after an action is applied.
- `toFixed(2)` formatting of the cart total (src/CartItem.jsx:20): string formatting, left out; the model stops at the exact number.
- Floating-point arithmetic: costs and sub-totals are exact reals, so rounding in `quantity * cost` and in the fold is not modelled, and the order-independence lemmas do not hold for the source's floating-point sum.
- Non-integer or non-numeric quantities and costs: a quantity is an `int` and a cost a `real`.
- Quantities are modelled as unbounded integers, while the source's are IEEE doubles, so `item.quantity + 1` (src/CartItem.jsx:35) is exact only below 2^53; the handler laws `DecrementAfterIncrement`, `IncrementAfterDecrement` and `RequestedLineTotals` hold for the source only for quantities below 2^53 (at 2^53, increment asks for 2^53 again).
- `handleContinueShopping` (src/CartItem.jsx:28-31) and `handleCheckoutShopping` (src/CartItem.jsx:55-57): a parent callback and a browser alert with no logic of their own.
