/**
 * One catalog card on the POS screen (`ProductCard`): the quantity it shows for its
 * product, and its add and decrease buttons.
 */
module ProductCard {
  import opened Wrappers
  import opened CartStore
  import opened Notify

  datatype Product = Product(id: string, name: string, price: int, image: string)

  /** The fields `handleAddToCart` passes to `addItem`. */
  function AsCartItem(p: Product): ProductRef
  {
    ProductRef(p.id, p.name, p.price, p.image)
  }

  /** `items.find(item => item.id === product.id)?.quantity || 0`. */
  function DisplayedQuantity(items: seq<CartLine>, id: string): (q: int)
    ensures !HasId(items, id) ==> q == 0
    ensures HasId(items, id) ==> exists k :: FirstWithId(items, id, k) && q == items[k].quantity
  {
    match FindLine(items, id)
    case None => 0
    case Some(line) => line.quantity
  }

  /** The line at the first position with an id decides what the card shows. */
  lemma DisplayedAt(items: seq<CartLine>, id: string, k: int)
    requires FirstWithId(items, id, k)
    ensures DisplayedQuantity(items, id) == items[k].quantity
  {
    assert HasId(items, id) by {
      assert items[k].id == id;
    }
    var k' :| FirstWithId(items, id, k') && DisplayedQuantity(items, id) == items[k'].quantity;
    assert FirstWithId(items, id, k');
    assert 0 <= k' < |items|;
    assert k' == k;
  }

  /** `handleAddToCart`'s effect on the store. */
  function AfterAddToCart(s: CartState, p: Product): CartState
  {
    AfterAddItem(s, AsCartItem(p))
  }

  /** Each add click raises the displayed quantity by exactly 1. */
  lemma AddRaisesDisplayedQuantity(s: CartState, p: Product)
    ensures DisplayedQuantity(AfterAddToCart(s, p).items, p.id) == DisplayedQuantity(s.items, p.id) + 1
  {
    var r := AfterAddToCart(s, p).items;
    if HasId(s.items, p.id) {
      var k :| FirstWithId(s.items, p.id, k) && DisplayedQuantity(s.items, p.id) == s.items[k].quantity;
      assert FirstWithId(r, p.id, k);
      DisplayedAt(r, p.id, k);
    } else {
      assert FirstWithId(r, p.id, |s.items|);
      DisplayedAt(r, p.id, |s.items|);
    }
  }

  /** `handleDecreaseQuantity`: step down while above 1, otherwise remove the line. */
  function AfterDecrease(s: CartState, p: Product): CartState
  {
    var quantity := DisplayedQuantity(s.items, p.id);
    if quantity > 1 then AfterUpdateQuantity(s, p.id, quantity - 1) else AfterRemoveItem(s, p.id)
  }

  /**
   * Decreasing from q > 1 shows q − 1; from q ≤ 1 the product leaves the cart, so no
   * line is left at quantity 0.
   */
  lemma DecreaseLowersDisplayedQuantity(s: CartState, p: Product)
    ensures var q := DisplayedQuantity(s.items, p.id);
      var r := AfterDecrease(s, p).items;
      && (q > 1 ==> DisplayedQuantity(r, p.id) == q - 1)
      && (q <= 1 ==> !HasId(r, p.id) && DisplayedQuantity(r, p.id) == 0)
  {
    var q := DisplayedQuantity(s.items, p.id);
    var r := AfterDecrease(s, p).items;
    if q > 1 {
      var k :| FirstWithId(s.items, p.id, k) && q == s.items[k].quantity;
      assert FirstWithId(r, p.id, k);
      DisplayedAt(r, p.id, k);
    } else {
      WithoutIdLines(s.items, p.id);
      forall i | 0 <= i < |r| ensures r[i].id != p.id {
        assert r[i] in r;
      }
    }
  }

  /** With every line at 1 or above, a decrease keeps every line at 1 or above. */
  lemma DecreaseKeepsPositive(s: CartState, p: Product)
    requires QuantitiesPositive(s.items)
    ensures QuantitiesPositive(AfterDecrease(s, p).items)
  {
    var q := DisplayedQuantity(s.items, p.id);
    if q > 1 {
      UpdateQuantityKeepsPositive(s, p.id, q - 1);
    } else {
      RemoveItemKeepsPositive(s, p.id);
    }
  }

  /** The minus button and the count are rendered only for a positive displayed quantity. */
  predicate DecreaseShown(items: seq<CartLine>, id: string)
  {
    DisplayedQuantity(items, id) > 0
  }

  /** On a cart whose lines are all at 1 or above, the minus button shows exactly for products in the cart. */
  lemma DecreaseShownIffInCart(items: seq<CartLine>, id: string)
    requires QuantitiesPositive(items)
    ensures DecreaseShown(items, id) <==> HasId(items, id)
  {
  }

  method HandleAddToCart(cart: Store, p: Product) returns (toast: Toast)
    modifies cart
    ensures cart.State() == AfterAddToCart(old(cart.State()), p)
    ensures toast == Toast(false, "", "Added " + p.name + " to cart")
  {
    cart.AddItem(AsCartItem(p));
    toast := Toast(false, "", "Added " + p.name + " to cart");
  }

  method HandleDecreaseQuantity(cart: Store, p: Product) returns (toast: Option<Toast>)
    modifies cart
    ensures cart.State() == AfterDecrease(old(cart.State()), p)
    ensures toast.Some? <==> DisplayedQuantity(old(cart.items), p.id) <= 1
    ensures toast.Some? ==> toast.value == Toast(false, "", "Removed " + p.name + " from cart")
  {
    var quantity := DisplayedQuantity(cart.items, p.id);
    if quantity > 1 {
      cart.UpdateQuantity(p.id, quantity - 1);
      toast := None;
    } else {
      cart.RemoveItem(p.id);
      toast := Some(Toast(false, "", "Removed " + p.name + " from cart"));
    }
  }
}
