/**
  The cart component's mutable state: the list of line items, the loading
  flag and whether the cart drawer is open. Each handler replaces the state
  the way the component's setters do; the new list is computed by the pure
  functions of CartItems.
 */
module ShoppingCart {

  import opened CartItems

  class CartState {
    var cartItems: seq<LineItem>
    var loading: bool
    var isCartOpen: bool

    /** Every quantity is at least 1, ids are unique and prices non-negative. */
    ghost predicate Valid()
      reads this
    {
      AllQuantitiesPositive(cartItems) && UniqueIds(cartItems) && NonNegativePrices(cartItems)
    }

    /** On mount: no items, loading, drawer closed. */
    constructor ()
      ensures Valid()
      ensures cartItems == [] && loading && !isCartOpen
    {
      cartItems := [];
      loading := true;
      isCartOpen := false;
    }

    /** The fetch effect as one step: on success the fixture is loaded; either
        way loading ends. A failed fetch leaves the items as they were. */
    method FetchCartItems(succeeded: bool)
      requires Valid()
      modifies this
      ensures Valid()
      ensures cartItems == (if succeeded then MockCartItems() else old(cartItems))
      ensures !loading && isCartOpen == old(isCartOpen)
    {
      if succeeded {
        MockCartFacts();
        cartItems := MockCartItems();
      }
      loading := false;
    }

    /** Flips whether the cart drawer is open. */
    method ToggleCart()
      modifies this
      ensures isCartOpen == !old(isCartOpen)
      ensures cartItems == old(cartItems) && loading == old(loading)
    {
      isCartOpen := !isCartOpen;
    }

    /** A quantity below 1 is ignored; otherwise every item with the id gets it. */
    method HandleUpdateQuantity(itemId: string, newQuantity: int)
      requires Valid()
      modifies this
      ensures Valid()
      ensures cartItems == UpdateQuantity(old(cartItems), itemId, newQuantity)
      ensures newQuantity < 1 ==> cartItems == old(cartItems)
      ensures loading == old(loading) && isCartOpen == old(isCartOpen)
    {
      if newQuantity < 1 {
        return;
      }
      MutationsKeepQuantitiesPositive(cartItems, itemId, newQuantity);
      MutationsKeepIdsUnique(cartItems, itemId, newQuantity);
      MutationsKeepPricesNonNegative(cartItems, itemId, newQuantity);
      cartItems := WithQuantity(cartItems, itemId, newQuantity);
    }

    /** Drops the item with the id, if any. */
    method HandleRemoveItem(itemId: string)
      requires Valid()
      modifies this
      ensures Valid()
      ensures cartItems == RemoveItem(old(cartItems), itemId)
      ensures IdAbsent(cartItems, itemId)
      ensures |cartItems| == if IdAbsent(old(cartItems), itemId) then |old(cartItems)| else |old(cartItems)| - 1
      ensures loading == old(loading) && isCartOpen == old(isCartOpen)
    {
      MutationsKeepQuantitiesPositive(cartItems, itemId, 1);
      MutationsKeepIdsUnique(cartItems, itemId, 1);
      MutationsKeepPricesNonNegative(cartItems, itemId, 1);
      if !IdAbsent(cartItems, itemId) {
        var k :| 0 <= k < |cartItems| && cartItems[k].id == itemId;
        RemovePresentUnique(cartItems, k);
      }
      cartItems := RemoveItem(cartItems, itemId);
    }

    /** The subtotal shown in the summary: no less than zero in a valid cart. */
    method CalculateSubtotal() returns (subtotal: real)
      requires Valid()
      ensures subtotal == Subtotal(cartItems)
      ensures subtotal >= 0.0
    {
      SubtotalNonNegative(cartItems);
      subtotal := Subtotal(cartItems);
    }

    /** The tax shown in the summary: 8.25 percent of the subtotal. */
    method CalculateTax() returns (tax: real)
      requires Valid()
      ensures tax == Subtotal(cartItems) * 825.0 / 10000.0
      ensures tax >= 0.0
    {
      var subtotal := CalculateSubtotal();
      tax := subtotal * TaxRate;
    }

    /** The total shown in the summary: subtotal plus tax, never below the subtotal. */
    method CalculateTotal() returns (total: real)
      requires Valid()
      ensures total == Subtotal(cartItems) * 1.0825
      ensures total >= Subtotal(cartItems)
    {
      var subtotal := CalculateSubtotal();
      var tax := CalculateTax();
      total := subtotal + tax;
    }

    /** The number shown on the cart button: the sum of quantities, at least
        the number of lines in a valid cart. */
    method ItemCount() returns (count: int)
      requires Valid()
      ensures count == CartItems.ItemCount(cartItems)
      ensures count >= |cartItems|
    {
      ItemCountAtLeastLength(cartItems);
      count := CartItems.ItemCount(cartItems);
    }
  }

  /** A session with the component: mount, load, press minus on the first
      item (rejected at quantity 1), remove the second item, toggle twice. */
  method CartScenario()
  {
    var cart := new CartState();
    cart.FetchCartItems(true);
    var total := cart.CalculateTotal();
    MockCartFacts();
    assert total == 220.83;
    cart.HandleUpdateQuantity("1", 0);
    assert cart.cartItems == MockCartItems();
    cart.HandleRemoveItem("2");
    MockCartScenarios();
    var count := cart.ItemCount();
    var subtotal := cart.CalculateSubtotal();
    assert count == 1 && subtotal == 54.00;
    cart.ToggleCart();
    cart.ToggleCart();
    assert !cart.isCartOpen;
  }
}
