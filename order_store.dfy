/**
 * The admin order store (`useOrderStore`): the order list, the selected order, a
 * loading flag and an error message. As in the cart store, each action's effect is a
 * pure `After…` function and the class `Store` updates its four fields in place,
 * proved against them. Amounts are exact integer minor units.
 */
module OrderStore {
  import opened Wrappers

  datatype OrderStatus = Pending | Processing | Completed | Cancelled

  /** The status as the source spells it. */
  function StatusName(status: OrderStatus): string
  {
    match status
    case Pending => "pending"
    case Processing => "processing"
    case Completed => "completed"
    case Cancelled => "cancelled"
  }

  datatype OrderItem = OrderItem(id: string, name: string, quantity: int, price: int, total: int)

  datatype OrderCustomer = OrderCustomer(name: string, email: string, phone: string)

  datatype Order = Order(
    id: string,
    orderNumber: string,
    customer: OrderCustomer,
    date: string,
    status: OrderStatus,
    items: seq<OrderItem>,
    subtotal: int,
    tax: int,
    total: int)

  /** The store's data fields. */
  datatype OrderState = OrderState(
    orders: seq<Order>,
    selectedOrder: Option<Order>,
    isLoading: bool,
    error: Option<string>)

  predicate HasOrder(orders: seq<Order>, id: string)
  {
    exists i :: 0 <= i < |orders| && orders[i].id == id
  }

  /** `k` is the first position holding an order with this id. */
  ghost predicate FirstOrderWithId(orders: seq<Order>, id: string, k: int)
  {
    0 <= k < |orders| && orders[k].id == id && forall j :: 0 <= j < k ==> orders[j].id != id
  }

  /** `orders.find(o => o.id === id) || null`. */
  function FindOrder(orders: seq<Order>, id: string): (r: Option<Order>)
    ensures r.None? <==> !HasOrder(orders, id)
    ensures r.Some? ==> exists k :: FirstOrderWithId(orders, id, k) && orders[k] == r.value
  {
    if orders == [] then None
    else if orders[0].id == id then
      assert FirstOrderWithId(orders, id, 0);
      Some(orders[0])
    else
      var r := FindOrder(orders[1..], id);
      assert r.Some? ==> exists k :: FirstOrderWithId(orders, id, k) && orders[k] == r.value by {
        if r.Some? {
          var k :| FirstOrderWithId(orders[1..], id, k) && orders[1..][k] == r.value;
          assert FirstOrderWithId(orders, id, k + 1);
        }
      }
      r
  }

  /** `orders.map(o => o.id === id ? { ...o, status } : o)`: every matching order, in place. */
  function WithStatus(orders: seq<Order>, id: string, status: OrderStatus): (r: seq<Order>)
    ensures |r| == |orders|
    ensures forall i :: 0 <= i < |orders| ==>
      r[i] == if orders[i].id == id then orders[i].(status := status) else orders[i]
  {
    if orders == [] then []
    else
      var head := if orders[0].id == id then orders[0].(status := status) else orders[0];
      [head] + WithStatus(orders[1..], id, status)
  }

  // ---------------------------------------------------------------------------
  // The store's actions as state transformers

  /** No orders, nothing selected, not loading, no error. */
  function Initial(): OrderState
  {
    OrderState([], None, false, None)
  }

  /** `setOrders`: the list is replaced wholesale; the selection is kept as it was. */
  function AfterSetOrders(s: OrderState, orders: seq<Order>): (r: OrderState)
    ensures r.orders == orders
    ensures r.selectedOrder == s.selectedOrder && r.isLoading == s.isLoading && r.error == s.error
  {
    s.(orders := orders)
  }

  /** `addOrder`: append at the end. */
  function AfterAddOrder(s: OrderState, order: Order): (r: OrderState)
    ensures |r.orders| == |s.orders| + 1
    ensures r.orders[|s.orders|] == order && r.orders[..|s.orders|] == s.orders
    ensures r.selectedOrder == s.selectedOrder && r.isLoading == s.isLoading && r.error == s.error
  {
    s.(orders := s.orders + [order])
  }

  /** `updateOrderStatus`: restatus every order with that id, and the selection if it has that id. */
  function AfterUpdateOrderStatus(s: OrderState, id: string, status: OrderStatus): (r: OrderState)
    ensures r.isLoading == s.isLoading && r.error == s.error
  {
    var selected :=
      if s.selectedOrder.Some? && s.selectedOrder.value.id == id
      then Some(s.selectedOrder.value.(status := status))
      else s.selectedOrder;
    s.(orders := WithStatus(s.orders, id, status), selectedOrder := selected)
  }

  /** `selectOrder`: the first order with that id, or nothing. */
  function AfterSelectOrder(s: OrderState, id: string): (r: OrderState)
    ensures r.orders == s.orders && r.isLoading == s.isLoading && r.error == s.error
  {
    s.(selectedOrder := FindOrder(s.orders, id))
  }

  function AfterSetLoading(s: OrderState, isLoading: bool): (r: OrderState)
    ensures r.orders == s.orders && r.selectedOrder == s.selectedOrder && r.error == s.error
    ensures r.isLoading == isLoading
  {
    s.(isLoading := isLoading)
  }

  function AfterSetError(s: OrderState, error: Option<string>): (r: OrderState)
    ensures r.orders == s.orders && r.selectedOrder == s.selectedOrder && r.isLoading == s.isLoading
    ensures r.error == error
  {
    s.(error := error)
  }

  // ---------------------------------------------------------------------------
  // Properties of the actions

  /**
   * updateOrderStatus keeps the list's length, order and ids, restatuses exactly the
   * orders with that id, and restatuses the selection exactly when it has that id.
   */
  lemma UpdateOrderStatusChangesOnlyMatches(s: OrderState, id: string, status: OrderStatus)
    ensures var r := AfterUpdateOrderStatus(s, id, status);
      && |r.orders| == |s.orders|
      && (forall i :: 0 <= i < |s.orders| ==> r.orders[i].id == s.orders[i].id)
      && (forall i :: 0 <= i < |s.orders| && s.orders[i].id == id ==> r.orders[i].status == status)
      && (forall i :: 0 <= i < |s.orders| && s.orders[i].id != id ==> r.orders[i] == s.orders[i])
      && (forall i :: 0 <= i < |s.orders| ==> r.orders[i].(status := s.orders[i].status) == s.orders[i])
      && r.selectedOrder.Some? == s.selectedOrder.Some?
      && (s.selectedOrder.Some? && s.selectedOrder.value.id == id ==>
            r.selectedOrder.value == s.selectedOrder.value.(status := status))
      && (s.selectedOrder.None? || s.selectedOrder.value.id != id ==> r.selectedOrder == s.selectedOrder)
  {
  }

  /** updateOrderStatus with an id no order has leaves the list as it was. */
  lemma {:induction false} UpdateOrderStatusAbsent(orders: seq<Order>, id: string, status: OrderStatus)
    requires !HasOrder(orders, id)
    ensures WithStatus(orders, id, status) == orders
  {
    if orders != [] {
      assert orders[0].id != id;
      UpdateOrderStatusAbsent(orders[1..], id, status);
      assert [orders[0]] + orders[1..] == orders;
    }
  }

  /** Setting the same status twice is setting it once. */
  lemma UpdateOrderStatusIdempotent(s: OrderState, id: string, status: OrderStatus)
    ensures var once := AfterUpdateOrderStatus(s, id, status);
      AfterUpdateOrderStatus(once, id, status) == once
  {
    var once := AfterUpdateOrderStatus(s, id, status);
    assert WithStatus(once.orders, id, status) == once.orders;
  }

  /** selectOrder picks the order at the first position with that id. */
  lemma SelectOrderFirst(s: OrderState, id: string, k: int)
    requires FirstOrderWithId(s.orders, id, k)
    ensures AfterSelectOrder(s, id).selectedOrder == Some(s.orders[k])
  {
    assert HasOrder(s.orders, id) by {
      assert s.orders[k].id == id;
    }
    var r := FindOrder(s.orders, id);
    var k' :| FirstOrderWithId(s.orders, id, k') && s.orders[k'] == r.value;
    assert k' == k;
  }

  /**
   * Selecting then restatusing gives the same state as restatusing then selecting:
   * the store keeps the selected copy in step with the list.
   */
  lemma SelectThenUpdateCommute(s: OrderState, id: string, status: OrderStatus)
    ensures AfterUpdateOrderStatus(AfterSelectOrder(s, id), id, status)
         == AfterSelectOrder(AfterUpdateOrderStatus(s, id, status), id)
  {
    var left := AfterUpdateOrderStatus(AfterSelectOrder(s, id), id, status);
    var u := AfterUpdateOrderStatus(s, id, status);
    var right := AfterSelectOrder(u, id);
    assert left.orders == right.orders;
    if HasOrder(s.orders, id) {
      var k :| FirstOrderWithId(s.orders, id, k) && s.orders[k] == FindOrder(s.orders, id).value;
      SelectOrderFirst(s, id, k);
      assert left.selectedOrder == Some(s.orders[k].(status := status));
      assert FirstOrderWithId(u.orders, id, k);
      SelectOrderFirst(u, id, k);
      assert right.selectedOrder == Some(u.orders[k]);
    } else {
      UpdateOrderStatusAbsent(s.orders, id, status);
      assert left.selectedOrder == None;
      assert !HasOrder(u.orders, id);
    }
  }

  /** An order appended then selected is the one selected, unless an earlier order has its id. */
  lemma AddThenSelect(s: OrderState, order: Order)
    requires !HasOrder(s.orders, order.id)
    ensures AfterSelectOrder(AfterAddOrder(s, order), order.id).selectedOrder == Some(order)
  {
    var r := AfterAddOrder(s, order);
    SelectOrderFirst(r, order.id, |s.orders|);
  }

  // ---------------------------------------------------------------------------
  // The store object

  class Store {
    var orders: seq<Order>
    var selectedOrder: Option<Order>
    var isLoading: bool
    var error: Option<string>

    function State(): OrderState
      reads this
    {
      OrderState(orders, selectedOrder, isLoading, error)
    }

    constructor ()
      ensures State() == Initial()
    {
      orders, selectedOrder, isLoading, error := [], None, false, None;
    }

    method SetOrders(newOrders: seq<Order>)
      modifies this
      ensures State() == AfterSetOrders(old(State()), newOrders)
    {
      orders := newOrders;
    }

    method AddOrder(order: Order)
      modifies this
      ensures State() == AfterAddOrder(old(State()), order)
    {
      orders := orders + [order];
    }

    method UpdateOrderStatus(id: string, status: OrderStatus)
      modifies this
      ensures State() == AfterUpdateOrderStatus(old(State()), id, status)
    {
      orders := WithStatus(orders, id, status);
      if selectedOrder.Some? && selectedOrder.value.id == id {
        selectedOrder := Some(selectedOrder.value.(status := status));
      }
    }

    method SelectOrder(id: string)
      modifies this
      ensures State() == AfterSelectOrder(old(State()), id)
    {
      selectedOrder := FindOrder(orders, id);
    }

    method SetLoading(loading: bool)
      modifies this
      ensures State() == AfterSetLoading(old(State()), loading)
    {
      isLoading := loading;
    }

    method SetError(message: Option<string>)
      modifies this
      ensures State() == AfterSetError(old(State()), message)
    {
      error := message;
    }
  }
}
