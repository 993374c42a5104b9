/**
 * The logic of the shopping-cart view: the three quantity handlers, which turn
 * a cart line into exactly one store action, and the two total helpers, which
 * derive money amounts from the cart lines.
 *
 * Amounts are exact: a unit cost is a `real` and a quantity an `int`, so a
 * line total is their exact product and the cart total an exact sum. The
 * display formatting of the cart total to two decimals is not modelled.
 */
module CartItem {

  /** One cart line as the store hands it to the view. */
  datatype Item = Item(name: string, image: string, cost: real, quantity: int)

  /**
   * The argument of a remove action. The decrement handler sends a record
   * holding the name, the delete handler sends the bare name; the two are kept
   * apart on purpose.
   */
  datatype RemovePayload = ByRecord(name: string) | ByName(name: string)

  /** The store actions the view dispatches. */
  datatype Action =
    | UpdateQuantity(name: string, quantity: int)
    | RemoveItem(payload: RemovePayload)

  /** The name of the cart line an action is about. */
  function Subject(a: Action): string
  {
    match a
    case UpdateQuantity(n, _) => n
    case RemoveItem(p) => p.name
  }

  /** The quantity an action asks the line to have, removal counting as zero. */
  function RequestedQuantity(a: Action): int
  {
    match a
    case UpdateQuantity(_, q) => q
    case RemoveItem(_) => 0
  }

  /** An action never asks the store to keep a line with a quantity below one. */
  predicate KeepsQuantityPositive(a: Action)
  {
    a.UpdateQuantity? ==> a.quantity >= 1
  }

  // ---------------------------------------------------------------------------
  // Event handlers
  // ---------------------------------------------------------------------------

  /** The "+" button: ask for one more unit of the same line, with no upper bound. */
  function HandleIncrement(item: Item): (r: Action)
    ensures r.UpdateQuantity?
    ensures Subject(r) == item.name
    ensures r.quantity == item.quantity + 1
    ensures item.quantity >= 0 ==> KeepsQuantityPositive(r)
  {
    UpdateQuantity(item.name, item.quantity + 1)
  }

  /**
   * The "-" button: one unit fewer while more than one is left, otherwise the
   * line is removed rather than set to zero.
   */
  function HandleDecrement(item: Item): (r: Action)
    ensures Subject(r) == item.name
    ensures r.UpdateQuantity? <==> item.quantity > 1
    ensures r.UpdateQuantity? ==> r.quantity == item.quantity - 1
    ensures r.RemoveItem? ==> r.payload.ByRecord?
    ensures KeepsQuantityPositive(r)
  {
    if item.quantity > 1 then
      UpdateQuantity(item.name, item.quantity - 1)
    else
      RemoveItem(ByRecord(item.name))
  }

  /** The "Delete" button: remove the line whatever its quantity. */
  function HandleRemove(item: Item): (r: Action)
    ensures r.RemoveItem? && r.payload.ByName?
    ensures Subject(r) == item.name
  {
    RemoveItem(ByName(item.name))
  }

  /** On a line of a valid cart (quantity at least one) decrement asks for exactly one unit fewer. */
  lemma DecrementRequestsOneFewer(item: Item)
    requires item.quantity >= 1
    ensures RequestedQuantity(HandleDecrement(item)) == item.quantity - 1
    ensures item.quantity == 1 <==> HandleDecrement(item).RemoveItem?
  {
  }

  /** Decrement undoes increment on a line that holds at least one unit. */
  lemma DecrementAfterIncrement(item: Item)
    requires item.quantity >= 1
    ensures HandleDecrement(item.(quantity := RequestedQuantity(HandleIncrement(item))))
         == UpdateQuantity(item.name, item.quantity)
  {
  }

  /** Increment undoes decrement whenever decrement did not remove the line. */
  lemma IncrementAfterDecrement(item: Item)
    requires HandleDecrement(item).UpdateQuantity?
    ensures HandleIncrement(item.(quantity := RequestedQuantity(HandleDecrement(item))))
         == UpdateQuantity(item.name, item.quantity)
  {
  }

  /**
   * A last-unit decrement and a delete remove the same line but dispatch
   * different payloads: a record holding the name against the bare name.
   */
  lemma RemovePayloadsDiffer(item: Item)
    requires item.quantity <= 1
    ensures HandleDecrement(item).RemoveItem? && HandleRemove(item).RemoveItem?
    ensures Subject(HandleDecrement(item)) == Subject(HandleRemove(item))
    ensures HandleDecrement(item) != HandleRemove(item)
  {
  }

  // ---------------------------------------------------------------------------
  // Totals
  // ---------------------------------------------------------------------------

  /** All costs and quantities of the cart are non-negative. */
  predicate NonNegativeLines(cart: seq<Item>)
  {
    forall i :: 0 <= i < |cart| ==> cart[i].cost >= 0.0 && cart[i].quantity >= 0
  }

  /** Sub-total of one line: quantity times unit cost, with no rounding. */
  function CalculateTotalCost(item: Item): (r: real)
    ensures item.quantity == 0 || item.cost == 0.0 ==> r == 0.0
    ensures item.quantity >= 0 && item.cost >= 0.0 ==> r >= 0.0
    ensures item.quantity >= 1 && item.cost >= 0.0 ==> r >= item.cost
  {
    item.quantity as real * item.cost
  }

  /** The sum of the line sub-totals, element by element from the front. */
  function SumOfLines(cart: seq<Item>): (r: real)
    ensures NonNegativeLines(cart) ==> r >= 0.0
  {
    if cart == [] then 0.0 else CalculateTotalCost(cart[0]) + SumOfLines(cart[1..])
  }

  /** The reducer loop of the cart total: a left fold from the accumulator `acc`. */
  function FoldTotal(acc: real, cart: seq<Item>): real
    decreases cart
  {
    if cart == [] then acc else FoldTotal(acc + CalculateTotalCost(cart[0]), cart[1..])
  }

  /** The left fold adds the sum of the line sub-totals to its starting value. */
  lemma {:induction false} FoldIsSum(acc: real, cart: seq<Item>)
    ensures FoldTotal(acc, cart) == acc + SumOfLines(cart)
    decreases cart
  {
    if cart != [] {
      FoldIsSum(acc + CalculateTotalCost(cart[0]), cart[1..]);
    }
  }

  /** The cart total before formatting: the fold started at zero. */
  function CalculateTotalAmount(cart: seq<Item>): (r: real)
    ensures r == SumOfLines(cart)
    ensures cart == [] ==> r == 0.0
    ensures NonNegativeLines(cart) ==> r >= 0.0
  {
    FoldIsSum(0.0, cart);
    FoldTotal(0.0, cart)
  }

  /** The sum of the sub-totals splits over a concatenation. */
  lemma {:induction false} SumOfLinesAppend(a: seq<Item>, b: seq<Item>)
    ensures SumOfLines(a + b) == SumOfLines(a) + SumOfLines(b)
  {
    if a == [] {
      assert a + b == b;
    } else {
      assert (a + b)[1..] == a[1..] + b;
      SumOfLinesAppend(a[1..], b);
    }
  }

  /** The cart total of two carts put together is the sum of their totals. */
  lemma TotalAmountAppend(a: seq<Item>, b: seq<Item>)
    ensures CalculateTotalAmount(a + b) == CalculateTotalAmount(a) + CalculateTotalAmount(b)
  {
    SumOfLinesAppend(a, b);
  }

  /** Taking one line out of a cart takes its sub-total out of the sum. */
  lemma SumOfLinesRemoveAt(b: seq<Item>, k: nat)
    requires k < |b|
    ensures SumOfLines(b) == CalculateTotalCost(b[k]) + SumOfLines(b[..k] + b[k + 1..])
  {
    var front, tail := b[..k], b[k..];
    assert b == front + tail;
    assert tail[1..] == b[k + 1..];
    SumOfLinesAppend(front, tail);
    SumOfLinesAppend(front, b[k + 1..]);
  }

  /** Taking one line out of a cart takes one copy of it out of the cart's multiset. */
  lemma MultisetRemoveAt<T>(b: seq<T>, k: nat)
    requires k < |b|
    ensures multiset(b) == multiset(b[..k] + b[k + 1..]) + multiset{b[k]}
  {
    calc {
      multiset(b);
      { assert b == b[..k] + [b[k]] + b[k + 1..]; }
      multiset(b[..k] + [b[k]] + b[k + 1..]);
      multiset(b[..k]) + multiset{b[k]} + multiset(b[k + 1..]);
      multiset(b[..k] + b[k + 1..]) + multiset{b[k]};
    }
  }

  /** Adding the same element to two multisets keeps them apart unless they were equal. */
  lemma MultisetCancel<T>(m1: multiset<T>, m2: multiset<T>, x: T)
    requires m1 + multiset{x} == m2 + multiset{x}
    ensures m1 == m2
  {
    forall y ensures m1[y] == m2[y] {
      assert (m1 + multiset{x})[y] == (m2 + multiset{x})[y];
    }
  }

  /** An element of a sequence's multiset sits at some position of the sequence. */
  lemma PositionOf<T>(b: seq<T>, x: T) returns (k: nat)
    requires x in multiset(b)
    ensures k < |b| && b[k] == x
  {
    assert x in b;
    k :| 0 <= k < |b| && b[k] == x;
  }

  /**
   * When two carts hold the same lines, the first line of one sits at some
   * position of the other, and the rests hold the same lines.
   */
  lemma PermutationSplit<T>(a: seq<T>, b: seq<T>) returns (k: nat)
    requires a != [] && multiset(a) == multiset(b)
    ensures k < |b| && b[k] == a[0]
    ensures multiset(a[1..]) == multiset(b[..k] + b[k + 1..])
  {
    assert a[0] in multiset(a);
    k := PositionOf(b, a[0]);
    MultisetRemoveAt(b, k);
    MultisetRemoveAt(a, 0);
    assert a[..0] + a[1..] == a[1..];
    MultisetCancel(multiset(a[1..]), multiset(b[..k] + b[k + 1..]), a[0]);
  }

  /** With exact amounts the sum of the sub-totals does not depend on line order. */
  lemma {:induction false} SumOfLinesPermutation(a: seq<Item>, b: seq<Item>)
    requires multiset(a) == multiset(b)
    ensures SumOfLines(a) == SumOfLines(b)
    decreases |a|
  {
    if a == [] {
      assert |b| == |multiset(b)| == 0;
    } else {
      var k := PermutationSplit(a, b);
      SumOfLinesPermutation(a[1..], b[..k] + b[k + 1..]);
      SumOfLinesRemoveAt(b, k);
    }
  }

  /** With exact amounts the cart total does not depend on the order of the lines. */
  lemma TotalAmountPermutation(a: seq<Item>, b: seq<Item>)
    requires multiset(a) == multiset(b)
    ensures CalculateTotalAmount(a) == CalculateTotalAmount(b)
  {
    SumOfLinesPermutation(a, b);
  }

  /**
   * Asking for the quantity an increment requests raises the line's sub-total
   * by exactly one unit cost; asking for the quantity a non-removing decrement
   * requests lowers it by one unit cost.
   */
  lemma RequestedLineTotals(item: Item)
    ensures CalculateTotalCost(item.(quantity := RequestedQuantity(HandleIncrement(item))))
         == CalculateTotalCost(item) + item.cost
    ensures HandleDecrement(item).UpdateQuantity? ==>
              (CalculateTotalCost(item.(quantity := RequestedQuantity(HandleDecrement(item))))
               == CalculateTotalCost(item) - item.cost)
  {
  }

  /** Two-line cart of 2 x 5.00 and 1 x 3.50: total 13.50; the handlers' requests. */
  lemma ExampleCart()
    ensures CalculateTotalAmount([Item("Fern", "fern.png", 5.0, 2), Item("Cactus", "cactus.png", 3.5, 1)]) == 13.5
    ensures HandleDecrement(Item("Cactus", "cactus.png", 3.5, 1)) == RemoveItem(ByRecord("Cactus"))
    ensures HandleIncrement(Item("Fern", "fern.png", 5.0, 2)) == UpdateQuantity("Fern", 3)
    ensures CalculateTotalAmount([Item("Fern", "fern.png", 5.0, 3), Item("Cactus", "cactus.png", 3.5, 1)]) == 18.5
  {
  }
}
