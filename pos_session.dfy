/**
 * The POS screen as a whole: every way the controllers touch the cart store (card add
 * and minus buttons, the cart line's plus, minus and trash buttons, a successful
 * customer selection, checkout), and what holds after any sequence of them.
 */
module PosSession {
  import opened Wrappers
  import opened CartStore
  import CartSection
  import opened ProductCard
  import ProductSection
  import CustomerSearch

  /** One user action on the POS screen, as it reaches the cart store. */
  datatype Action =
    | AddProduct(product: Product)
    | DecreaseProduct(product: Product)
    | StepLine(id: string, current: int, delta: int)
    | RemoveLine(id: string)
    | SelectCandidate(candidate: CustomerSearch.Candidate)
    | Checkout

  function Perform(s: CartState, a: Action): CartState
  {
    match a
    case AddProduct(p) => AfterAddToCart(s, p)
    case DecreaseProduct(p) => AfterDecrease(s, p)
    case StepLine(id, current, delta) => CartSection.AfterHandleUpdateQuantity(s, id, current, delta)
    case RemoveLine(id) => AfterRemoveItem(s, id)
    case SelectCandidate(c) => AfterSetCustomer(s, CustomerSearch.AsCustomer(c))
    case Checkout => s
  }

  /** The cart after the actions, in order, from the initial store. */
  function Run(actions: seq<Action>): CartState
  {
    if actions == [] then Initial() else Perform(Run(actions[..|actions| - 1]), actions[|actions| - 1])
  }

  /** The price a product list gives an id: the first product with that id, else 0. */
  function PriceIn(products: seq<Product>, id: string): int
  {
    if products == [] then 0
    else if products[0].id == id then products[0].price
    else PriceIn(products[1..], id)
  }

  lemma {:induction false} PriceInListed(products: seq<Product>, k: int)
    requires 0 <= k < |products|
    requires forall i, j :: 0 <= i < j < |products| ==> products[i].id != products[j].id
    ensures PriceIn(products, products[k].id) == products[k].price
  {
    if k > 0 {
      PriceInListed(products[1..], k - 1);
    }
  }

  function CatalogPrice(id: string): int
  {
    PriceIn(ProductSection.Catalog, id)
  }

  /** The invariant the screen keeps: sound total, unique ids, every quantity at least 1. */
  ghost predicate Sound(s: CartState)
  {
    Consistent(s, CatalogPrice) && QuantitiesPositive(s.items)
  }

  /** The catalog's price for a listed product is that product's price. */
  lemma CatalogPriceOf(p: Product)
    requires p in ProductSection.Catalog
    ensures CatalogPrice(p.id) == p.price
  {
    var k :| 0 <= k < |ProductSection.Catalog| && ProductSection.Catalog[k] == p;
    ProductSection.CatalogIdsDistinct();
    PriceInListed(ProductSection.Catalog, k);
  }

  lemma AddProductKeepsSound(s: CartState, p: Product)
    requires Sound(s)
    requires CatalogPrice(p.id) == p.price
    ensures Sound(AfterAddToCart(s, p))
  {
    AddKeepsConsistent(s, AsCartItem(p), CatalogPrice);
    AddItemKeepsPositive(s, AsCartItem(p));
  }

  lemma DecreaseProductKeepsSound(s: CartState, p: Product)
    requires Sound(s)
    ensures Sound(AfterDecrease(s, p))
  {
    var q := DisplayedQuantity(s.items, p.id);
    if q > 1 {
      UpdateKeepsConsistent(s, p.id, q - 1, CatalogPrice);
    } else {
      RemoveKeepsConsistent(s, p.id, CatalogPrice);
    }
    DecreaseKeepsPositive(s, p);
  }

  lemma StepLineKeepsSound(s: CartState, id: string, current: int, delta: int)
    requires Sound(s)
    ensures Sound(CartSection.AfterHandleUpdateQuantity(s, id, current, delta))
  {
    if current + delta < 1 {
      RemoveKeepsConsistent(s, id, CatalogPrice);
    } else {
      UpdateKeepsConsistent(s, id, current + delta, CatalogPrice);
    }
    CartSection.StepKeepsPositive(s, id, current, delta);
  }

  lemma PerformKeepsSound(s: CartState, a: Action)
    requires Sound(s)
    requires a.AddProduct? ==> CatalogPrice(a.product.id) == a.product.price
    ensures Sound(Perform(s, a))
  {
    match a
    case AddProduct(p) => AddProductKeepsSound(s, p);
    case DecreaseProduct(p) => DecreaseProductKeepsSound(s, p);
    case StepLine(id, current, delta) => StepLineKeepsSound(s, id, current, delta);
    case RemoveLine(id) =>
      RemoveKeepsConsistent(s, id, CatalogPrice);
      RemoveItemKeepsPositive(s, id);
    case SelectCandidate(_) =>
    case Checkout =>
  }

  /**
   * However the screen is used, as long as products come from the catalog: the running
   * total equals Σ price × quantity, ids are unique, and no line is below quantity 1.
   */
  lemma {:induction false} SessionKeepsCartSound(actions: seq<Action>)
    requires forall k :: 0 <= k < |actions| && actions[k].AddProduct? ==> actions[k].product in ProductSection.Catalog
    ensures Run(actions).total == Sum(Run(actions).items)
    ensures UniqueIds(Run(actions).items)
    ensures QuantitiesPositive(Run(actions).items)
    ensures PricedBy(Run(actions).items, CatalogPrice)
  {
    if actions != [] {
      var prefix := actions[..|actions| - 1];
      var last := actions[|actions| - 1];
      SessionKeepsCartSound(prefix);
      if last.AddProduct? {
        CatalogPriceOf(last.product);
      }
      PerformKeepsSound(Run(prefix), last);
    }
  }

  /** After a customer is selected, checkout places the order whenever the cart is non-empty. */
  lemma SelectionEnablesCheckout(s: CartState, c: CustomerSearch.Candidate)
    requires |s.items| > 0
    ensures var r := Perform(s, SelectCandidate(c));
      !CartSection.PlaceOrderDisabled(r) && !CartSection.CheckoutToast(r).destructive
  {
  }
}
