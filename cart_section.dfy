/**
 * The cart panel of the POS screen (`CartSection`): the per-line quantity buttons,
 * the checkout button and whether that button is enabled.
 */
module CartSection {
  import opened Wrappers
  import opened CartStore
  import opened Notify
  import Text

  /**
   * What `handleUpdateQuantity(id, current, delta)` does to the store: below 1 it
   * removes the line, otherwise it sets the quantity to exactly `current + delta`.
   */
  function AfterHandleUpdateQuantity(s: CartState, id: string, current: int, delta: int): CartState
  {
    var newQuantity := current + delta;
    if newQuantity < 1 then AfterRemoveItem(s, id) else AfterUpdateQuantity(s, id, newQuantity)
  }

  /** A step that would drop below 1 removes the line instead of leaving it at 0. */
  lemma StepBelowOneRemovesLine(s: CartState, k: int, current: int, delta: int)
    requires UniqueIds(s.items) && 0 <= k < |s.items| && current + delta < 1
    ensures var r := AfterHandleUpdateQuantity(s, s.items[k].id, current, delta);
      && !HasId(r.items, s.items[k].id)
      && |r.items| == |s.items| - 1
      && r.total == s.total - s.items[k].price * s.items[k].quantity
  {
    RemoveItemPresent(s, k);
  }

  /** A step that stays at 1 or above sets that line's quantity to exactly current + delta. */
  lemma StepSetsQuantity(s: CartState, k: int, current: int, delta: int)
    requires UniqueIds(s.items) && 0 <= k < |s.items| && current + delta >= 1
    ensures var r := AfterHandleUpdateQuantity(s, s.items[k].id, current, delta);
      && |r.items| == |s.items|
      && r.items[k] == s.items[k].(quantity := current + delta)
      && (forall i :: 0 <= i < |s.items| && i != k ==> r.items[i] == s.items[i])
  {
    UpdateQuantityPresent(s, k, current + delta);
  }

  /** Whatever the delta, quantities reached through this handler stay at 1 or above. */
  lemma StepKeepsPositive(s: CartState, id: string, current: int, delta: int)
    requires QuantitiesPositive(s.items)
    ensures QuantitiesPositive(AfterHandleUpdateQuantity(s, id, current, delta).items)
    ensures AfterHandleUpdateQuantity(s, id, current, delta).customer == s.customer
  {
    if current + delta < 1 {
      RemoveItemKeepsPositive(s, id);
    } else {
      UpdateQuantityKeepsPositive(s, id, current + delta);
    }
  }

  method HandleUpdateQuantity(cart: Store, id: string, current: int, delta: int) returns (toast: Option<Toast>)
    modifies cart
    ensures cart.State() == AfterHandleUpdateQuantity(old(cart.State()), id, current, delta)
    ensures toast.Some? <==> current + delta < 1
    ensures toast.Some? ==> toast.value == Toast(false, "", "Item removed from cart")
  {
    var newQuantity := current + delta;
    if newQuantity < 1 {
      cart.RemoveItem(id);
      toast := Some(Toast(false, "", "Item removed from cart"));
    } else {
      cart.UpdateQuantity(id, newQuantity);
      toast := None;
    }
  }

  /** The toast `handleCheckout` raises; checkout itself is a stub that changes nothing. */
  function CheckoutToast(s: CartState): (t: Toast)
    ensures t.destructive <==> s.customer.None?
  {
    if s.customer.None? then
      Toast(true, "Error", "Please select a customer before checkout")
    else
      Toast(false, "Order Placed", "Order total: \U{20B5}" + Text.FormatCents(s.total))
  }

  /**
   * `handleCheckout`: without a customer, an error; with one, an "Order Placed" toast
   * carrying the total. Neither path calls anything remote or changes the store (the
   * method may not modify it), and neither looks at whether the cart is empty.
   */
  method HandleCheckout(cart: Store) returns (toast: Toast)
    ensures toast == CheckoutToast(cart.State())
    ensures toast.destructive <==> cart.customer.None?
  {
    if cart.customer.None? {
      toast := Toast(true, "Error", "Please select a customer before checkout");
      return;
    }
    toast := Toast(false, "Order Placed", "Order total: \U{20B5}" + Text.FormatCents(cart.total));
  }

  /** The Place Order button's `disabled` flag. */
  predicate PlaceOrderDisabled(s: CartState)
  {
    |s.items| == 0 || s.customer.None?
  }

  /** The button's label. */
  function CheckoutLabel(s: CartState): string
  {
    if s.customer.Some? then "Place Order" else "Select Customer to Continue"
  }

  /**
   * An enabled button always leads to "Order Placed"; the only thing the button adds
   * over the handler's own check is the empty-cart case.
   */
  lemma EnabledButtonPlacesOrder(s: CartState)
    ensures !PlaceOrderDisabled(s) ==> !CheckoutToast(s).destructive && |s.items| > 0
    ensures PlaceOrderDisabled(s) <==> |s.items| == 0 || CheckoutToast(s).destructive
    ensures CheckoutLabel(s) == "Place Order" <==> !CheckoutToast(s).destructive
  {
  }
}
