/**
  The pure part of the shopping cart: line items, the two list rewrites the
  cart's handlers apply (`map` for a quantity update, `filter` for a removal)
  and the four aggregates the cart displays (subtotal, tax, total, item count).
  Prices are exact reals; the display rounding to two decimals is not modelled.
 */
module CartItems {

  /** One product selection held in the cart. */
  datatype LineItem = LineItem(
    id: string,
    sku: string,
    name: string,
    price: real,
    currency: string,
    image: string,
    color: string,
    size: string,
    quantity: int)

  /** The fixed sales-tax rate, 8.25 percent. */
  const TaxRate: real := 0.0825

  /** The two items the cart loads on mount. */
  function MockCartItems(): seq<LineItem>
  {
    [ LineItem("1", "MH01", "Hero Hoodie", 54.00, "USD",
               "https://via.placeholder.com/100x100?text=Hero+Hoodie", "Black", "M", 1),
      LineItem("2", "MJ01", "Stellar Jacket", 75.00, "USD",
               "https://via.placeholder.com/100x100?text=Stellar+Jacket", "Navy", "L", 2) ]
  }

  // ---------------------------------------------------------------------------
  // Invariants of a well-formed cart

  /** Every item in the cart has quantity at least 1. */
  predicate AllQuantitiesPositive(items: seq<LineItem>)
  {
    forall i :: 0 <= i < |items| ==> items[i].quantity >= 1
  }

  /** No two items share an id. */
  predicate UniqueIds(items: seq<LineItem>)
  {
    forall i, j :: 0 <= i < j < |items| ==> items[i].id != items[j].id
  }

  /** Every unit price is non-negative. */
  predicate NonNegativePrices(items: seq<LineItem>)
  {
    forall i :: 0 <= i < |items| ==> items[i].price >= 0.0
  }

  /** No item carries the given id. */
  predicate IdAbsent(items: seq<LineItem>, itemId: string)
  {
    forall i :: 0 <= i < |items| ==> items[i].id != itemId
  }

  /** `a` is `b` with some elements dropped, the rest in their original order. */
  ghost predicate IsSubsequence(a: seq<LineItem>, b: seq<LineItem>)
    decreases |b|
  {
    if a == [] then true
    else if b == [] then false
    else (a[0] == b[0] && IsSubsequence(a[1..], b[1..])) || IsSubsequence(a, b[1..])
  }

  // ---------------------------------------------------------------------------
  // Counting items by id

  /** How many items carry the given id. */
  function CountId(items: seq<LineItem>, itemId: string): (n: nat)
    ensures n <= |items|
    ensures n == 0 <==> IdAbsent(items, itemId)
  {
    if items == [] then 0
    else (if items[0].id == itemId then 1 else 0) + CountId(items[1..], itemId)
  }

  /** The total quantity of the items carrying the given id. */
  function QuantityOf(items: seq<LineItem>, itemId: string): int
  {
    if items == [] then 0
    else (if items[0].id == itemId then items[0].quantity else 0) + QuantityOf(items[1..], itemId)
  }

  /** The total price of the items carrying the given id. */
  function SubtotalOf(items: seq<LineItem>, itemId: string): real
  {
    if items == [] then 0.0
    else (if items[0].id == itemId then LineTotal(items[0]) else 0.0) + SubtotalOf(items[1..], itemId)
  }

  // ---------------------------------------------------------------------------
  // The two list rewrites

  /** Every item whose id matches gets the new quantity; the other fields and
      the other items are untouched, and length and order are kept. */
  function WithQuantity(items: seq<LineItem>, itemId: string, newQuantity: int): (r: seq<LineItem>)
    ensures |r| == |items|
    ensures forall i :: 0 <= i < |items| && items[i].id == itemId ==>
              r[i] == items[i].(quantity := newQuantity)
    ensures forall i :: 0 <= i < |items| && items[i].id != itemId ==> r[i] == items[i]
  {
    if items == [] then []
    else
      var head := if items[0].id == itemId then items[0].(quantity := newQuantity) else items[0];
      [head] + WithQuantity(items[1..], itemId, newQuantity)
  }

  /** A quantity below 1 is rejected and leaves the cart as it was; otherwise
      the matching items get the new quantity. */
  function UpdateQuantity(items: seq<LineItem>, itemId: string, newQuantity: int): (r: seq<LineItem>)
    ensures newQuantity < 1 ==> r == items
    ensures |r| == |items|
    ensures newQuantity >= 1 ==>
              forall i :: 0 <= i < |items| && items[i].id == itemId ==> r[i].quantity == newQuantity
    ensures forall i :: 0 <= i < |items| ==>
              r[i].id == items[i].id && r[i].sku == items[i].sku && r[i].name == items[i].name &&
              r[i].price == items[i].price && r[i].currency == items[i].currency &&
              r[i].image == items[i].image && r[i].color == items[i].color && r[i].size == items[i].size
    ensures forall i :: 0 <= i < |items| && items[i].id != itemId ==> r[i] == items[i]
  {
    if newQuantity < 1 then items
    else WithQuantity(items, itemId, newQuantity)
  }

  /** Drops every item whose id matches, keeping the others in order. */
  function RemoveItem(items: seq<LineItem>, itemId: string): (r: seq<LineItem>)
    ensures IdAbsent(r, itemId)
    ensures forall x :: x in r <==> x in items && x.id != itemId
    ensures |r| == |items| - CountId(items, itemId)
    ensures IsSubsequence(r, items)
  {
    if items == [] then []
    else if items[0].id == itemId then RemoveItem(items[1..], itemId)
    else [items[0]] + RemoveItem(items[1..], itemId)
  }

  // ---------------------------------------------------------------------------
  // The aggregates. `reduce` adds the lines from first to last; the sums here
  // are written first item first, and the lemmas SubtotalSnoc and ItemCountSnoc
  // show they obey the same step, so exact arithmetic makes them equal.

  /** The price of one line: unit price times quantity. */
  function LineTotal(item: LineItem): real
  {
    item.price * item.quantity as real
  }

  function Subtotal(items: seq<LineItem>): real
  {
    if items == [] then 0.0
    else LineTotal(items[0]) + Subtotal(items[1..])
  }

  function Tax(items: seq<LineItem>): real
  {
    Subtotal(items) * TaxRate
  }

  function Total(items: seq<LineItem>): real
  {
    Subtotal(items) + Tax(items)
  }

  function ItemCount(items: seq<LineItem>): int
  {
    if items == [] then 0
    else items[0].quantity + ItemCount(items[1..])
  }

  // ---------------------------------------------------------------------------
  // Lemmas: the sums split over concatenation

  lemma {:induction false} SubtotalAppend(a: seq<LineItem>, b: seq<LineItem>)
    ensures Subtotal(a + b) == Subtotal(a) + Subtotal(b)
  {
    if a == [] {
      assert a + b == b;
    } else {
      assert (a + b)[1..] == a[1..] + b;
      SubtotalAppend(a[1..], b);
    }
  }

  lemma {:induction false} ItemCountAppend(a: seq<LineItem>, b: seq<LineItem>)
    ensures ItemCount(a + b) == ItemCount(a) + ItemCount(b)
  {
    if a == [] {
      assert a + b == b;
    } else {
      assert (a + b)[1..] == a[1..] + b;
      ItemCountAppend(a[1..], b);
    }
  }

  /** The step of `reduce`: appending an item adds its line total. */
  lemma SubtotalSnoc(items: seq<LineItem>, item: LineItem)
    ensures Subtotal(items + [item]) == Subtotal(items) + LineTotal(item)
  {
    SubtotalAppend(items, [item]);
  }

  /** The step of `reduce`: appending an item adds its quantity. */
  lemma ItemCountSnoc(items: seq<LineItem>, item: LineItem)
    ensures ItemCount(items + [item]) == ItemCount(items) + item.quantity
  {
    ItemCountAppend(items, [item]);
  }

  // ---------------------------------------------------------------------------
  // Lemmas: removal

  /** Removing an id that is not in the cart changes nothing. */
  lemma {:induction false} RemoveAbsentId(items: seq<LineItem>, itemId: string)
    requires IdAbsent(items, itemId)
    ensures RemoveItem(items, itemId) == items
  {
    if items != [] {
      RemoveAbsentId(items[1..], itemId);
      assert items == [items[0]] + items[1..];
    }
  }

  /** Removing the same id a second time is a no-op. */
  lemma RemoveTwice(items: seq<LineItem>, itemId: string)
    ensures RemoveItem(RemoveItem(items, itemId), itemId) == RemoveItem(items, itemId)
  {
    RemoveAbsentId(RemoveItem(items, itemId), itemId);
  }

  /** With unique ids, an id that is present occurs exactly once. */
  lemma {:induction false} CountIdUnique(items: seq<LineItem>, k: int)
    requires UniqueIds(items) && 0 <= k < |items|
    ensures CountId(items, items[k].id) == 1
    ensures QuantityOf(items, items[k].id) == items[k].quantity
    ensures SubtotalOf(items, items[k].id) == LineTotal(items[k])
  {
    var id := items[k].id;
    if k == 0 {
      assert IdAbsent(items[1..], id);
      QuantityOfAbsent(items[1..], id);
    } else {
      CountIdUnique(items[1..], k - 1);
    }
  }

  lemma {:induction false} QuantityOfAbsent(items: seq<LineItem>, itemId: string)
    requires IdAbsent(items, itemId)
    ensures QuantityOf(items, itemId) == 0 && SubtotalOf(items, itemId) == 0.0
  {
    if items != [] {
      QuantityOfAbsent(items[1..], itemId);
    }
  }

  /** With unique ids, removing an id that is present shortens the cart by exactly one. */
  lemma RemovePresentUnique(items: seq<LineItem>, k: int)
    requires UniqueIds(items) && 0 <= k < |items|
    ensures |RemoveItem(items, items[k].id)| == |items| - 1
  {
    CountIdUnique(items, k);
  }

  /** Removing an id lowers the item count by the removed quantities. */
  lemma {:induction false} ItemCountAfterRemove(items: seq<LineItem>, itemId: string)
    ensures ItemCount(RemoveItem(items, itemId)) == ItemCount(items) - QuantityOf(items, itemId)
  {
    if items != [] {
      ItemCountAfterRemove(items[1..], itemId);
    }
  }

  /** Removing an id lowers the subtotal by the removed lines' totals. */
  lemma {:induction false} SubtotalAfterRemove(items: seq<LineItem>, itemId: string)
    ensures Subtotal(RemoveItem(items, itemId)) == Subtotal(items) - SubtotalOf(items, itemId)
  {
    if items != [] {
      SubtotalAfterRemove(items[1..], itemId);
    }
  }

  /** With unique ids, removing a present item lowers the count by its quantity
      and the subtotal by its line total. */
  lemma RemovePresentTotals(items: seq<LineItem>, k: int)
    requires UniqueIds(items) && 0 <= k < |items|
    ensures ItemCount(RemoveItem(items, items[k].id)) == ItemCount(items) - items[k].quantity
    ensures Subtotal(RemoveItem(items, items[k].id)) == Subtotal(items) - LineTotal(items[k])
  {
    CountIdUnique(items, k);
    ItemCountAfterRemove(items, items[k].id);
    SubtotalAfterRemove(items, items[k].id);
  }

  // ---------------------------------------------------------------------------
  // Lemmas: quantity updates

  /** Updating an id that is not in the cart changes nothing. */
  lemma UpdateAbsentId(items: seq<LineItem>, itemId: string, newQuantity: int)
    requires IdAbsent(items, itemId)
    ensures UpdateQuantity(items, itemId, newQuantity) == items
  {
    var r := UpdateQuantity(items, itemId, newQuantity);
    assert forall i :: 0 <= i < |items| ==> r[i] == items[i];
  }

  /** An accepted update of an id that is not in the cart changes nothing. */
  lemma {:induction false} WithQuantityAbsentId(items: seq<LineItem>, itemId: string, newQuantity: int)
    requires IdAbsent(items, itemId)
    ensures WithQuantity(items, itemId, newQuantity) == items
  {
    if items != [] {
      WithQuantityAbsentId(items[1..], itemId, newQuantity);
      assert items == [items[0]] + items[1..];
    }
  }

  /** With unique ids, giving the item at index k a new quantity replaces its
      quantity in the count and its line total in the subtotal. */
  lemma {:induction false} TotalsAfterWithQuantity(items: seq<LineItem>, k: int, newQuantity: int)
    requires UniqueIds(items) && 0 <= k < |items|
    ensures ItemCount(WithQuantity(items, items[k].id, newQuantity))
         == ItemCount(items) - items[k].quantity + newQuantity
    ensures Subtotal(WithQuantity(items, items[k].id, newQuantity))
         == Subtotal(items) - LineTotal(items[k]) + LineTotal(items[k].(quantity := newQuantity))
  {
    var id := items[k].id;
    var rest := items[1..];
    var head := if items[0].id == id then items[0].(quantity := newQuantity) else items[0];
    assert WithQuantity(items, id, newQuantity) == [head] + WithQuantity(rest, id, newQuantity);
    if k == 0 {
      assert IdAbsent(rest, id);
      WithQuantityAbsentId(rest, id, newQuantity);
    } else {
      TotalsAfterWithQuantity(rest, k - 1, newQuantity);
    }
  }

  /** With unique ids, updating a present item from quantity q0 to q >= 1
      changes the count by q - q0 and swaps the item's old line total for its
      new one in the subtotal; a rejected update changes neither. */
  lemma TotalsAfterUpdate(items: seq<LineItem>, k: int, newQuantity: int)
    requires UniqueIds(items) && 0 <= k < |items|
    ensures ItemCount(UpdateQuantity(items, items[k].id, newQuantity))
         == if newQuantity >= 1 then ItemCount(items) + newQuantity - items[k].quantity
            else ItemCount(items)
    ensures Subtotal(UpdateQuantity(items, items[k].id, newQuantity))
         == if newQuantity >= 1
            then Subtotal(items) - LineTotal(items[k]) + LineTotal(items[k].(quantity := newQuantity))
            else Subtotal(items)
  {
    if newQuantity >= 1 {
      TotalsAfterWithQuantity(items, k, newQuantity);
    }
  }

  /** The cart's minus and plus buttons ask for quantity - 1 and quantity + 1:
      minus on an item at quantity 1 is rejected, plus always adds one to the count. */
  lemma QuantityButtons(items: seq<LineItem>, k: int)
    requires UniqueIds(items) && AllQuantitiesPositive(items) && 0 <= k < |items|
    ensures items[k].quantity == 1 ==>
              UpdateQuantity(items, items[k].id, items[k].quantity - 1) == items
    ensures ItemCount(UpdateQuantity(items, items[k].id, items[k].quantity - 1))
         == if items[k].quantity > 1 then ItemCount(items) - 1 else ItemCount(items)
    ensures ItemCount(UpdateQuantity(items, items[k].id, items[k].quantity + 1)) == ItemCount(items) + 1
  {
    TotalsAfterUpdate(items, k, items[k].quantity - 1);
    TotalsAfterUpdate(items, k, items[k].quantity + 1);
  }

  // ---------------------------------------------------------------------------
  // Lemmas: the invariants are kept

  /** Both handlers keep every quantity at 1 or more. */
  lemma MutationsKeepQuantitiesPositive(items: seq<LineItem>, itemId: string, newQuantity: int)
    requires AllQuantitiesPositive(items)
    ensures AllQuantitiesPositive(UpdateQuantity(items, itemId, newQuantity))
    ensures AllQuantitiesPositive(RemoveItem(items, itemId))
  {
    var r := RemoveItem(items, itemId);
    forall i | 0 <= i < |r| ensures r[i].quantity >= 1 {
      assert r[i] in items;
    }
  }

  /** Both handlers keep prices non-negative. */
  lemma MutationsKeepPricesNonNegative(items: seq<LineItem>, itemId: string, newQuantity: int)
    requires NonNegativePrices(items)
    ensures NonNegativePrices(UpdateQuantity(items, itemId, newQuantity))
    ensures NonNegativePrices(RemoveItem(items, itemId))
  {
    var r := RemoveItem(items, itemId);
    forall i | 0 <= i < |r| ensures r[i].price >= 0.0 {
      assert r[i] in items;
    }
  }

  /** Both handlers keep ids unique. */
  lemma {:induction false} MutationsKeepIdsUnique(items: seq<LineItem>, itemId: string, newQuantity: int)
    requires UniqueIds(items)
    ensures UniqueIds(UpdateQuantity(items, itemId, newQuantity))
    ensures UniqueIds(RemoveItem(items, itemId))
  {
    if items != [] {
      MutationsKeepIdsUnique(items[1..], itemId, newQuantity);
      var rest := RemoveItem(items[1..], itemId);
      forall j | 0 <= j < |rest| ensures rest[j].id != items[0].id {
        assert rest[j] in items[1..];
      }
    }
  }

  // ---------------------------------------------------------------------------
  // Lemmas: the aggregates

  /** The subtotal of a cart with non-negative prices and quantities is non-negative. */
  lemma {:induction false} SubtotalNonNegative(items: seq<LineItem>)
    requires NonNegativePrices(items) && AllQuantitiesPositive(items)
    ensures Subtotal(items) >= 0.0
  {
    if items != [] {
      SubtotalNonNegative(items[1..]);
      assert items[0].price >= 0.0 && items[0].quantity as real >= 1.0;
      assert LineTotal(items[0]) >= 0.0;
    }
  }

  /** Each line counts at least once, so the count is at least the number of lines. */
  lemma {:induction false} ItemCountAtLeastLength(items: seq<LineItem>)
    requires AllQuantitiesPositive(items)
    ensures ItemCount(items) >= |items|
    ensures ItemCount(items) == 0 <==> items == []
  {
    if items != [] {
      ItemCountAtLeastLength(items[1..]);
    }
  }

  /** Total is the subtotal times 1.0825, and never below the subtotal when
      prices are non-negative. */
  lemma TotalIsTaxedSubtotal(items: seq<LineItem>)
    ensures Tax(items) == Subtotal(items) * 825.0 / 10000.0
    ensures Total(items) == Subtotal(items) * 1.0825
    ensures NonNegativePrices(items) && AllQuantitiesPositive(items) ==>
              Subtotal(items) <= Total(items) && Tax(items) >= 0.0
  {
    if NonNegativePrices(items) && AllQuantitiesPositive(items) {
      SubtotalNonNegative(items);
    }
  }

  /** The empty cart has subtotal, tax, total and item count all zero. */
  lemma EmptyCartTotals()
    ensures Subtotal([]) == 0.0 && Tax([]) == 0.0 && Total([]) == 0.0 && ItemCount([]) == 0
  {
  }

  /** The loaded fixture satisfies the cart invariants and has the totals the
      cart first displays: 204.00 subtotal, 16.83 tax, 220.83 total, 3 items. */
  lemma MockCartFacts()
    ensures AllQuantitiesPositive(MockCartItems())
    ensures UniqueIds(MockCartItems()) && NonNegativePrices(MockCartItems())
    ensures Subtotal(MockCartItems()) == 204.00
    ensures Tax(MockCartItems()) == 16.83
    ensures Total(MockCartItems()) == 220.83
    ensures ItemCount(MockCartItems()) == 3
  {
    var items := MockCartItems();
    assert items[1..][1..] == [];
  }

  /** The minus button on the fixture's first item asks for quantity 0, which
      is rejected; removing the second item leaves the first alone. */
  lemma MockCartScenarios()
    ensures UpdateQuantity(MockCartItems(), "1", 0) == MockCartItems()
    ensures RemoveItem(MockCartItems(), "2") == [MockCartItems()[0]]
    ensures ItemCount(RemoveItem(MockCartItems(), "2")) == 1
    ensures Subtotal(RemoveItem(MockCartItems(), "2")) == 54.00
  {
    var items := MockCartItems();
    assert items[1..][1..] == [];
    assert [items[0]][..0] == [];
  }
}
