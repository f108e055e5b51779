/**
 * The POS cart store (`useCartStore`): a list of lines keyed by product id, a running
 * `total` updated step by step, and one customer slot.
 *
 * Each store action is `set(state => partial)`; the pure functions `After…` below give
 * the state each action produces, and the class `Store` holds the three fields and
 * updates them in place, proved against those functions. Money is exact: every price
 * is an integer number of minor currency units.
 */
module CartStore {
  import opened Wrappers
  import Seqs

  /** What `addItem` receives: a cart line without its quantity. */
  datatype ProductRef = ProductRef(id: string, name: string, price: int, image: string)

  datatype CartLine = CartLine(id: string, name: string, price: int, quantity: int, image: string)

  /**
   * The customer slot. `isPending` is optional in the source's type but every value the
   * store writes sets it, so it is a plain flag here.
   */
  datatype Customer = Customer(id: Option<string>, name: string, phone: string, isPending: bool)

  /** The store's data fields. */
  datatype CartState = CartState(items: seq<CartLine>, customer: Option<Customer>, total: int)

  // ---------------------------------------------------------------------------
  // The line list

  function LineTotal(line: CartLine): int
  {
    line.price * line.quantity
  }

  /** Σ price × quantity over the lines: what `total` should always equal. */
  function Sum(items: seq<CartLine>): int
  {
    if items == [] then 0 else LineTotal(items[0]) + Sum(items[1..])
  }

  predicate HasId(items: seq<CartLine>, id: string)
  {
    exists i :: 0 <= i < |items| && items[i].id == id
  }

  /** No two lines share a product id. */
  ghost predicate UniqueIds(items: seq<CartLine>)
  {
    forall i, j :: 0 <= i < j < |items| ==> items[i].id != items[j].id
  }

  /** `k` is the first position holding a line with this id. */
  ghost predicate FirstWithId(items: seq<CartLine>, id: string, k: int)
  {
    0 <= k < |items| && items[k].id == id && forall j :: 0 <= j < k ==> items[j].id != id
  }

  /** `items.find(i => i.id === id)`: the first line with that id, if any. */
  function FindLine(items: seq<CartLine>, id: string): (r: Option<CartLine>)
    ensures r.None? <==> !HasId(items, id)
    ensures r.Some? ==> exists k :: FirstWithId(items, id, k) && items[k] == r.value
  {
    if items == [] then None
    else if items[0].id == id then
      assert FirstWithId(items, id, 0);
      Some(items[0])
    else
      var r := FindLine(items[1..], id);
      assert r.Some? ==> exists k :: FirstWithId(items, id, k) && items[k] == r.value by {
        if r.Some? {
          var k :| FirstWithId(items[1..], id, k) && items[1..][k] == r.value;
          assert FirstWithId(items, id, k + 1);
        }
      }
      r
  }

  /** With unique ids, the line found is the one at the id's position. */
  lemma FindLineAt(items: seq<CartLine>, k: int)
    requires UniqueIds(items) && 0 <= k < |items|
    ensures FindLine(items, items[k].id) == Some(items[k])
  {
    var r := FindLine(items, items[k].id);
    var k' :| FirstWithId(items, items[k].id, k') && items[k'] == r.value;
  }

  /** `items.map(i => i.id === id ? { ...i, quantity: i.quantity + 1 } : i)`. */
  function Incremented(items: seq<CartLine>, id: string): (r: seq<CartLine>)
    ensures |r| == |items|
    ensures forall i :: 0 <= i < |items| ==>
      r[i] == if items[i].id == id then items[i].(quantity := items[i].quantity + 1) else items[i]
  {
    if items == [] then []
    else
      var head := if items[0].id == id then items[0].(quantity := items[0].quantity + 1) else items[0];
      [head] + Incremented(items[1..], id)
  }

  /** `items.map(i => (i.id === id ? { ...i, quantity } : i))`. */
  function WithQuantity(items: seq<CartLine>, id: string, quantity: int): (r: seq<CartLine>)
    ensures |r| == |items|
    ensures forall i :: 0 <= i < |items| ==>
      r[i] == if items[i].id == id then items[i].(quantity := quantity) else items[i]
  {
    if items == [] then []
    else
      var head := if items[0].id == id then items[0].(quantity := quantity) else items[0];
      [head] + WithQuantity(items[1..], id, quantity)
  }

  /** `items.filter(i => i.id !== id)`. */
  function WithoutId(items: seq<CartLine>, id: string): seq<CartLine>
  {
    Seqs.Filter(items, (line: CartLine) => line.id != id)
  }

  /** `{ ...item, quantity: 1 }`. */
  function NewLine(item: ProductRef): CartLine
  {
    CartLine(item.id, item.name, item.price, 1, item.image)
  }

  // ---------------------------------------------------------------------------
  // The store's actions as state transformers

  /** The initial store: no lines, no customer, total 0. */
  function Initial(): CartState
  {
    CartState([], None, 0)
  }

  /**
   * `addItem`: bump the existing line's quantity, or append a new line of quantity 1;
   * either way the total grows by the ARGUMENT's price, not the stored line's.
   */
  function AfterAddItem(s: CartState, item: ProductRef): (r: CartState)
    ensures r.customer == s.customer
  {
    match FindLine(s.items, item.id)
    case Some(_) => s.(items := Incremented(s.items, item.id), total := s.total + item.price)
    case None => s.(items := s.items + [NewLine(item)], total := s.total + item.price)
  }

  /** `removeItem`: drop every line with that id and subtract the first one's price × quantity. */
  function AfterRemoveItem(s: CartState, id: string): (r: CartState)
    ensures r.customer == s.customer
  {
    var found := FindLine(s.items, id);
    s.(items := WithoutId(s.items, id),
       total := s.total - (if found.Some? then LineTotal(found.value) else 0))
  }

  /** `updateQuantity`: no guard on the new quantity; an unknown id returns the state as is. */
  function AfterUpdateQuantity(s: CartState, id: string, quantity: int): (r: CartState)
    ensures r.customer == s.customer
  {
    match FindLine(s.items, id)
    case None => s
    case Some(line) =>
      s.(items := WithQuantity(s.items, id, quantity),
         total := s.total - LineTotal(line) + line.price * quantity)
  }

  /** `setCustomer`: store the given customer, forcing `isPending` to false. */
  function AfterSetCustomer(s: CartState, c: Customer): (r: CartState)
    ensures r.items == s.items && r.total == s.total
    ensures r.customer.Some? && !r.customer.value.isPending
    ensures r.customer.value.id == c.id && r.customer.value.name == c.name
    ensures r.customer.value.phone == c.phone
  {
    s.(customer := Some(c.(isPending := false)))
  }

  /** `setPendingCustomer`: a customer with no id, marked pending. */
  function AfterSetPendingCustomer(s: CartState, name: string, phone: string): (r: CartState)
    ensures r.items == s.items && r.total == s.total
    ensures r.customer.Some? && r.customer.value.isPending && r.customer.value.id.None?
  {
    s.(customer := Some(Customer(None, name, phone, true)))
  }

  /** `clearCart`: empty lines, no customer, total 0. */
  function AfterClearCart(s: CartState): (r: CartState)
    ensures r == Initial()
  {
    CartState([], None, 0)
  }

  // ---------------------------------------------------------------------------
  // What each action does to the lines

  /** addItem on a present id bumps that line only and adds no line. */
  lemma AddItemExisting(s: CartState, item: ProductRef, k: int)
    requires 0 <= k < |s.items| && s.items[k].id == item.id && UniqueIds(s.items)
    ensures var r := AfterAddItem(s, item);
      && |r.items| == |s.items|
      && r.items[k] == s.items[k].(quantity := s.items[k].quantity + 1)
      && (forall i :: 0 <= i < |s.items| && i != k ==> r.items[i] == s.items[i])
      && r.total == s.total + item.price
  {
  }

  /** addItem on a new id appends `{ ...item, quantity: 1 }`; the earlier lines stay as they were. */
  lemma AddItemNew(s: CartState, item: ProductRef)
    requires !HasId(s.items, item.id)
    ensures var r := AfterAddItem(s, item);
      && |r.items| == |s.items| + 1
      && r.items[..|s.items|] == s.items
      && r.items[|s.items|] == CartLine(item.id, item.name, item.price, 1, item.image)
      && r.total == s.total + item.price
  {
  }

  /** The lines that survive a removal, each unchanged and none with the removed id. */
  lemma {:induction false} WithoutIdLines(items: seq<CartLine>, id: string)
    ensures forall line :: line in WithoutId(items, id) <==> line in items && line.id != id
    ensures UniqueIds(items) ==> UniqueIds(WithoutId(items, id))
  {
    if items != [] {
      WithoutIdLines(items[1..], id);
      var rest := WithoutId(items[1..], id);
      assert WithoutId(items, id) == if items[0].id != id then [items[0]] + rest else rest;
      if UniqueIds(items) && items[0].id != id {
        assert UniqueIds(items[1..]);
        forall j | 0 < j < |[items[0]] + rest|
          ensures ([items[0]] + rest)[0].id != ([items[0]] + rest)[j].id
        {
          assert rest[j - 1] in items[1..];
        }
      } else if UniqueIds(items) {
        assert UniqueIds(items[1..]);
      }
    }
  }

  /** removeItem on an absent id leaves the state unchanged. */
  lemma RemoveItemAbsent(s: CartState, id: string)
    requires !HasId(s.items, id)
    ensures AfterRemoveItem(s, id) == s
  {
    Seqs.FilterKeepsAll(s.items, (line: CartLine) => line.id != id);
  }

  /** updateQuantity on an absent id leaves the state unchanged. */
  lemma UpdateQuantityAbsent(s: CartState, id: string, quantity: int)
    requires !HasId(s.items, id)
    ensures AfterUpdateQuantity(s, id, quantity) == s
  {
  }

  /**
   * updateQuantity on a present id changes that line's quantity only (even to a value
   * below 1) and moves the total by price × (new − old).
   */
  lemma UpdateQuantityPresent(s: CartState, k: int, quantity: int)
    requires UniqueIds(s.items) && 0 <= k < |s.items|
    ensures var r := AfterUpdateQuantity(s, s.items[k].id, quantity);
      && |r.items| == |s.items|
      && r.items[k] == s.items[k].(quantity := quantity)
      && (forall i :: 0 <= i < |s.items| && i != k ==> r.items[i] == s.items[i])
      && r.total == s.total + s.items[k].price * (quantity - s.items[k].quantity)
  {
    FindLineAt(s.items, k);
    var line := s.items[k];
    assert line.price * quantity - line.price * line.quantity == line.price * (quantity - line.quantity);
  }

  /** clearCart is idempotent. */
  lemma ClearCartIdempotent(s: CartState)
    ensures AfterClearCart(AfterClearCart(s)) == AfterClearCart(s)
  {
  }

  /** Every line has quantity at least 1. */
  ghost predicate QuantitiesPositive(items: seq<CartLine>)
  {
    forall i :: 0 <= i < |items| ==> items[i].quantity >= 1
  }

  /** addItem never produces a line below quantity 1 from lines that are all at least 1. */
  lemma AddItemKeepsPositive(s: CartState, item: ProductRef)
    requires QuantitiesPositive(s.items)
    ensures QuantitiesPositive(AfterAddItem(s, item).items)
  {
  }

  /** removeItem keeps only lines that were already there. */
  lemma RemoveItemKeepsPositive(s: CartState, id: string)
    requires QuantitiesPositive(s.items)
    ensures QuantitiesPositive(AfterRemoveItem(s, id).items)
  {
    WithoutIdLines(s.items, id);
    var r := AfterRemoveItem(s, id).items;
    forall i | 0 <= i < |r| ensures r[i].quantity >= 1 {
      assert r[i] in s.items;
    }
  }

  /** updateQuantity to a value of at least 1 keeps every line at least 1. */
  lemma UpdateQuantityKeepsPositive(s: CartState, id: string, quantity: int)
    requires QuantitiesPositive(s.items) && quantity >= 1
    ensures QuantitiesPositive(AfterUpdateQuantity(s, id, quantity).items)
  {
  }

  // ---------------------------------------------------------------------------
  // The running total against a full recomputation

  lemma {:induction false} SumAppend(items: seq<CartLine>, line: CartLine)
    ensures Sum(items + [line]) == Sum(items) + LineTotal(line)
  {
    if items == [] {
      assert [] + [line] == [line];
    } else {
      assert (items + [line])[1..] == items[1..] + [line];
      SumAppend(items[1..], line);
    }
  }

  lemma {:induction false} SumIncremented(items: seq<CartLine>, k: int)
    requires UniqueIds(items) && 0 <= k < |items|
    ensures Sum(Incremented(items, items[k].id)) == Sum(items) + items[k].price
  {
    var id := items[k].id;
    var r := Incremented(items, id);
    assert r[1..] == Incremented(items[1..], id);
    if k == 0 {
      assert Incremented(items[1..], id) == items[1..];
      var line := items[0];
      assert LineTotal(r[0]) == line.price * (line.quantity + 1) == LineTotal(line) + line.price;
    } else {
      assert UniqueIds(items[1..]);
      SumIncremented(items[1..], k - 1);
    }
  }

  lemma {:induction false} SumWithQuantity(items: seq<CartLine>, k: int, quantity: int)
    requires UniqueIds(items) && 0 <= k < |items|
    ensures Sum(WithQuantity(items, items[k].id, quantity))
         == Sum(items) - LineTotal(items[k]) + items[k].price * quantity
  {
    var id := items[k].id;
    var r := WithQuantity(items, id, quantity);
    var tail := WithQuantity(items[1..], id, quantity);
    assert r[1..] == tail;
    assert Sum(r) == LineTotal(r[0]) + Sum(tail);
    if k == 0 {
      assert r[0] == items[0].(quantity := quantity);
      forall i | 0 <= i < |tail| ensures tail[i] == items[1..][i] {
        assert items[i + 1].id != items[0].id;
      }
      assert tail == items[1..];
    } else {
      assert items[0].id != id;
      assert r[0] == items[0];
      assert UniqueIds(items[1..]);
      assert items[1..][k - 1] == items[k];
      SumWithQuantity(items[1..], k - 1, quantity);
    }
  }

  lemma {:induction false} SumWithoutId(items: seq<CartLine>, k: int)
    requires UniqueIds(items) && 0 <= k < |items|
    ensures Sum(WithoutId(items, items[k].id)) == Sum(items) - LineTotal(items[k])
  {
    var id := items[k].id;
    var rest := WithoutId(items[1..], id);
    assert WithoutId(items, id) == if items[0].id != id then [items[0]] + rest else rest;
    if k == 0 {
      Seqs.FilterKeepsAll(items[1..], (line: CartLine) => line.id != id);
    } else {
      assert UniqueIds(items[1..]);
      SumWithoutId(items[1..], k - 1);
      assert ([items[0]] + rest)[1..] == rest;
    }
  }

  /** removeItem on a present id deletes that line and subtracts its price × quantity. */
  lemma RemoveItemPresent(s: CartState, k: int)
    requires UniqueIds(s.items) && 0 <= k < |s.items|
    ensures var r := AfterRemoveItem(s, s.items[k].id);
      && !HasId(r.items, s.items[k].id)
      && |r.items| == |s.items| - 1
      && r.total == s.total - s.items[k].price * s.items[k].quantity
  {
    FindLineAt(s.items, k);
    WithoutIdLines(s.items, s.items[k].id);
    WithoutIdLength(s.items, k);
  }

  lemma {:induction false} WithoutIdLength(items: seq<CartLine>, k: int)
    requires UniqueIds(items) && 0 <= k < |items|
    ensures |WithoutId(items, items[k].id)| == |items| - 1
  {
    var id := items[k].id;
    var rest := WithoutId(items[1..], id);
    assert WithoutId(items, id) == if items[0].id != id then [items[0]] + rest else rest;
    if k == 0 {
      Seqs.FilterKeepsAll(items[1..], (line: CartLine) => line.id != id);
    } else {
      assert UniqueIds(items[1..]);
      WithoutIdLength(items[1..], k - 1);
    }
  }

  /** One call to the store, as a value. */
  datatype CartOp =
    | Add(item: ProductRef)
    | Remove(id: string)
    | Update(id: string, quantity: int)
    | Assign(customer: Customer)
    | AssignPending(name: string, phone: string)
    | Clear

  function Apply(s: CartState, op: CartOp): CartState
  {
    match op
    case Add(item) => AfterAddItem(s, item)
    case Remove(id) => AfterRemoveItem(s, id)
    case Update(id, quantity) => AfterUpdateQuantity(s, id, quantity)
    case Assign(c) => AfterSetCustomer(s, c)
    case AssignPending(name, phone) => AfterSetPendingCustomer(s, name, phone)
    case Clear => AfterClearCart(s)
  }

  /** The store after the calls `ops`, in order, from the initial state. */
  function Replay(ops: seq<CartOp>): CartState
  {
    if ops == [] then Initial() else Apply(Replay(ops[..|ops| - 1]), ops[|ops| - 1])
  }

  /** Every line's price is the catalog price of its id. */
  ghost predicate PricedBy(items: seq<CartLine>, priceOf: string -> int)
  {
    forall i :: 0 <= i < |items| ==> items[i].price == priceOf(items[i].id)
  }

  ghost predicate Consistent(s: CartState, priceOf: string -> int)
  {
    UniqueIds(s.items) && PricedBy(s.items, priceOf) && s.total == Sum(s.items)
  }

  /** Lines that keep their ids and prices position by position keep both properties. */
  lemma SameIdsAndPrices(a: seq<CartLine>, b: seq<CartLine>, priceOf: string -> int)
    requires |a| == |b|
    requires forall i :: 0 <= i < |a| ==> b[i].id == a[i].id && b[i].price == a[i].price
    ensures UniqueIds(a) ==> UniqueIds(b)
    ensures PricedBy(a, priceOf) ==> PricedBy(b, priceOf)
  {
  }

  lemma AddKeepsConsistent(s: CartState, item: ProductRef, priceOf: string -> int)
    requires Consistent(s, priceOf) && item.price == priceOf(item.id)
    ensures Consistent(AfterAddItem(s, item), priceOf)
  {
    if HasId(s.items, item.id) {
      var k :| 0 <= k < |s.items| && s.items[k].id == item.id;
      SumIncremented(s.items, k);
      SameIdsAndPrices(s.items, Incremented(s.items, item.id), priceOf);
    } else {
      SumAppend(s.items, NewLine(item));
      var r := s.items + [NewLine(item)];
      forall i, j | 0 <= i < j < |r| ensures r[i].id != r[j].id {
        if j == |s.items| {
          assert r[i] == s.items[i];
        }
      }
    }
  }

  lemma RemoveKeepsConsistent(s: CartState, id: string, priceOf: string -> int)
    requires Consistent(s, priceOf)
    ensures Consistent(AfterRemoveItem(s, id), priceOf)
  {
    WithoutIdLines(s.items, id);
    if HasId(s.items, id) {
      var k :| 0 <= k < |s.items| && s.items[k].id == id;
      FindLineAt(s.items, k);
      SumWithoutId(s.items, k);
    } else {
      RemoveItemAbsent(s, id);
    }
    var r := AfterRemoveItem(s, id);
    forall i | 0 <= i < |r.items| ensures r.items[i].price == priceOf(r.items[i].id) {
      assert r.items[i] in s.items;
    }
  }

  lemma UpdateKeepsConsistent(s: CartState, id: string, quantity: int, priceOf: string -> int)
    requires Consistent(s, priceOf)
    ensures Consistent(AfterUpdateQuantity(s, id, quantity), priceOf)
  {
    if HasId(s.items, id) {
      var k :| 0 <= k < |s.items| && s.items[k].id == id;
      var line := s.items[k];
      var items := WithQuantity(s.items, id, quantity);
      var r := AfterUpdateQuantity(s, id, quantity);
      assert r.items == items && r.total == s.total - LineTotal(line) + line.price * quantity by {
        FindLineAt(s.items, k);
      }
      assert Sum(items) == Sum(s.items) - LineTotal(line) + line.price * quantity by {
        SumWithQuantity(s.items, k, quantity);
      }
      assert UniqueIds(items) && PricedBy(items, priceOf) by {
        SameIdsAndPrices(s.items, items, priceOf);
      }
    }
  }

  /** One call keeps the total equal to the recomputed sum when it adds at the catalog price. */
  lemma StepKeepsConsistent(s: CartState, op: CartOp, priceOf: string -> int)
    requires Consistent(s, priceOf)
    requires op.Add? ==> op.item.price == priceOf(op.item.id)
    ensures Consistent(Apply(s, op), priceOf)
  {
    match op
    case Add(item) => AddKeepsConsistent(s, item, priceOf);
    case Remove(id) => RemoveKeepsConsistent(s, id, priceOf);
    case Update(id, quantity) => UpdateKeepsConsistent(s, id, quantity, priceOf);
    case Assign(_) =>
    case AssignPending(_, _) =>
    case Clear =>
  }

  /**
   * From the empty store, after any sequence of calls, the running total equals
   * Σ price × quantity and ids are unique, provided each id is always added at the
   * same price.
   */
  lemma {:induction false} ReplayTotalIsSum(ops: seq<CartOp>, priceOf: string -> int)
    requires forall k :: 0 <= k < |ops| && ops[k].Add? ==> ops[k].item.price == priceOf(ops[k].item.id)
    ensures Replay(ops).total == Sum(Replay(ops).items)
    ensures UniqueIds(Replay(ops).items)
    ensures PricedBy(Replay(ops).items, priceOf)
  {
    if ops != [] {
      ReplayTotalIsSum(ops[..|ops| - 1], priceOf);
      StepKeepsConsistent(Replay(ops[..|ops| - 1]), ops[|ops| - 1], priceOf);
    }
  }

  /** Adding one id at two prices breaks the total: 100 + 150 is charged for 2 × 100. */
  lemma MixedPricesBreakTotal()
    ensures var ops := [Add(ProductRef("p", "P", 100, "")), Add(ProductRef("p", "P", 150, ""))];
      Replay(ops).total == 250 && Sum(Replay(ops).items) == 200
  {
    var ops := [Add(ProductRef("p", "P", 100, "")), Add(ProductRef("p", "P", 150, ""))];
    assert ops[..1] == [ops[0]];
    assert [ops[0]][..0] == [];
    assert Replay([ops[0]]) == Apply(Initial(), ops[0]);
    var s1 := Replay(ops[..1]);
    assert s1 == AfterAddItem(Initial(), ProductRef("p", "P", 100, ""));
    assert s1.items == [CartLine("p", "P", 100, 1, "")];
    assert s1.items[0].id == "p";
    var s2 := Replay(ops);
    assert s2 == AfterAddItem(s1, ProductRef("p", "P", 150, ""));
    assert s2.items == [CartLine("p", "P", 100, 2, "")];
  }

  // ---------------------------------------------------------------------------
  // The store object

  class Store {
    var items: seq<CartLine>
    var customer: Option<Customer>
    var total: int

    function State(): CartState
      reads this
    {
      CartState(items, customer, total)
    }

    constructor ()
      ensures State() == Initial()
    {
      items, customer, total := [], None, 0;
    }

    method AddItem(item: ProductRef)
      modifies this
      ensures State() == AfterAddItem(old(State()), item)
    {
      var existing := FindLine(items, item.id);
      if existing.Some? {
        items := Incremented(items, item.id);
      } else {
        items := items + [NewLine(item)];
      }
      total := total + item.price;
    }

    method RemoveItem(id: string)
      modifies this
      ensures State() == AfterRemoveItem(old(State()), id)
    {
      var found := FindLine(items, id);
      items := WithoutId(items, id);
      total := total - (if found.Some? then LineTotal(found.value) else 0);
    }

    method UpdateQuantity(id: string, quantity: int)
      modifies this
      ensures State() == AfterUpdateQuantity(old(State()), id, quantity)
    {
      var found := FindLine(items, id);
      if found.None? {
        return;
      }
      var oldTotal := LineTotal(found.value);
      var newTotal := found.value.price * quantity;
      items := WithQuantity(items, id, quantity);
      total := total - oldTotal + newTotal;
    }

    method SetCustomer(c: Customer)
      modifies this
      ensures State() == AfterSetCustomer(old(State()), c)
    {
      customer := Some(c.(isPending := false));
    }

    method SetPendingCustomer(name: string, phone: string)
      modifies this
      ensures State() == AfterSetPendingCustomer(old(State()), name, phone)
    {
      customer := Some(Customer(None, name, phone, true));
    }

    method ClearCart()
      modifies this
      ensures State() == AfterClearCart(old(State()))
    {
      items, customer, total := [], None, 0;
    }
  }
}
