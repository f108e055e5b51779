/**
 * The admin order list (`OrdersTable`): the status-then-search filter over the store's
 * orders, which branch the component renders, and the load sequence it runs on mount.
 * The filtered list is the value the filtering effect stores once it has run for the
 * current orders, query and status filter.
 */
module OrdersTable {
  import opened Wrappers
  import opened OrderStore
  import Seqs
  import Text

  /** The status select: every status, or one. */
  datatype StatusFilter = All | Only(status: OrderStatus)

  predicate StatusPasses(filter: StatusFilter, order: Order)
  {
    filter.All? || order.status == filter.status
  }

  /** Order number or customer name contains the query, both lower-cased. */
  predicate SearchPasses(order: Order, query: string)
  {
    Text.Contains(Text.Lower(order.orderNumber), Text.Lower(query))
    || Text.Contains(Text.Lower(order.customer.name), Text.Lower(query))
  }

  /** The two chained `filter` calls: status first, then the search. */
  function FilterOrders(orders: seq<Order>, query: string, filter: StatusFilter): seq<Order>
  {
    Seqs.Filter(
      Seqs.Filter(orders, (order: Order) => StatusPasses(filter, order)),
      (order: Order) => SearchPasses(order, query))
  }

  /**
   * The filtered list is an order-preserving subsequence of the orders, holding exactly
   * those that pass both the status test and the search.
   */
  lemma FilterOrdersSelects(orders: seq<Order>, query: string, filter: StatusFilter)
    ensures var r := FilterOrders(orders, query, filter);
      && Seqs.IsSubsequence(r, orders)
      && (forall i :: 0 <= i < |r| ==> r[i] in orders && StatusPasses(filter, r[i]) && SearchPasses(r[i], query))
      && (forall i :: 0 <= i < |orders| && StatusPasses(filter, orders[i]) && SearchPasses(orders[i], query)
            ==> orders[i] in r)
  {
    Seqs.FilterFilter(orders, (order: Order) => StatusPasses(filter, order), (order: Order) => SearchPasses(order, query));
  }

  /** The search in terms of where the query occurs. */
  lemma SearchPassesIff(order: Order, query: string)
    ensures SearchPasses(order, query) <==>
      Text.Occurs(Text.Lower(order.orderNumber), Text.Lower(query))
      || Text.Occurs(Text.Lower(order.customer.name), Text.Lower(query))
  {
    Text.ContainsIff(Text.Lower(order.orderNumber), Text.Lower(query));
    Text.ContainsIff(Text.Lower(order.customer.name), Text.Lower(query));
  }

  /** The default view, every status and an empty query, keeps every order. */
  lemma AllAndEmptyKeepsEvery(orders: seq<Order>)
    ensures FilterOrders(orders, "", All) == orders
  {
    Seqs.FilterKeepsAll(orders, (order: Order) => StatusPasses(All, order));
    forall i | 0 <= i < |orders| ensures SearchPasses(orders[i], "") {
      Text.ContainsEmpty(Text.Lower(orders[i].orderNumber));
    }
    Seqs.FilterKeepsAll(orders, (order: Order) => SearchPasses(order, ""));
  }

  // ---------------------------------------------------------------------------
  // What the component renders

  datatype TableView =
    | Spinner
    | ErrorPanel(message: string)
    | EmptyNotice(message: string)
    | Rows(orders: seq<Order>)

  /** `if (error)`: a message is shown only when it is set and not the empty string. */
  predicate ShowsError(s: OrderState)
  {
    s.error.Some? && s.error.value != ""
  }

  /** Loading first, then the error, then the empty notice, then the table. */
  function View(s: OrderState, query: string, filter: StatusFilter): (v: TableView)
    ensures v.Spinner? <==> s.isLoading
    ensures v.ErrorPanel? <==> !s.isLoading && ShowsError(s)
    ensures v.ErrorPanel? ==> v.message == s.error.value
    ensures v.EmptyNotice? <==> !s.isLoading && !ShowsError(s) && FilterOrders(s.orders, query, filter) == []
    ensures v.EmptyNotice? ==> (v.message == "No orders found" <==> s.orders == [])
    ensures v.EmptyNotice? ==> (v.message == "No orders match your search criteria" <==> s.orders != [])
    ensures v.Rows? ==> v.orders == FilterOrders(s.orders, query, filter) && v.orders != []
  {
    var filtered := FilterOrders(s.orders, query, filter);
    if s.isLoading then Spinner
    else if ShowsError(s) then ErrorPanel(s.error.value)
    else if filtered == [] then
      EmptyNotice(if s.orders == [] then "No orders found" else "No orders match your search criteria")
    else Rows(filtered)
  }

  // ---------------------------------------------------------------------------
  // Loading the orders

  /** The two orders the component loads in place of a server response. */
  const SampleOrders: seq<Order> := [
    Order("1", "ORD-001", OrderCustomer("John Doe", "john@example.com", "+233 20 123 4567"),
          "2024-03-20 14:30", Completed, [OrderItem("1", "Classic Burger", 2, 2999, 5998)],
          5998, 480, 6478),
    Order("2", "ORD-002", OrderCustomer("Jane Smith", "jane@example.com", "+233 24 987 6543"),
          "2024-03-20 15:45", Pending, [OrderItem("2", "Cheese Pizza", 1, 3499, 3499)],
          3499, 280, 3779)
  ]

  /** How the awaited load ends: it delivers, or it throws (an `Error` carries a message). */
  datatype FetchOutcome = Delivered | Threw(message: Option<string>)

  /** The message `setError` receives for a throw. */
  function FailureMessage(message: Option<string>): string
  {
    match message
    case Some(m) => m
    case None => "Failed to fetch orders"
  }

  /**
   * `fetchOrders`: loading on, then the sample orders or the error, then loading off
   * whatever happened. A delivery does not clear an earlier error.
   */
  function AfterFetch(s: OrderState, outcome: FetchOutcome): (r: OrderState)
    ensures !r.isLoading && r.selectedOrder == s.selectedOrder
    ensures outcome.Delivered? ==> r.orders == SampleOrders && r.error == s.error
    ensures outcome.Threw? ==> r.orders == s.orders && r.error == Some(FailureMessage(outcome.message))
  {
    var started := AfterSetLoading(s, true);
    var settled :=
      match outcome
      case Delivered => AfterSetOrders(started, SampleOrders)
      case Threw(message) => AfterSetError(started, Some(FailureMessage(message)));
    AfterSetLoading(settled, false)
  }

  method FetchOrders(store: Store, outcome: FetchOutcome)
    modifies store
    ensures store.State() == AfterFetch(old(store.State()), outcome)
  {
    store.SetLoading(true);
    match outcome {
      case Delivered =>
        store.SetOrders(SampleOrders);
      case Threw(message) =>
        store.SetError(Some(FailureMessage(message)));
    }
    store.SetLoading(false);
  }

  /** From a fresh store, a delivered load shows both sample orders under the default filters. */
  lemma FreshLoadShowsSamples()
    ensures View(AfterFetch(Initial(), Delivered), "", All) == Rows(SampleOrders)
  {
    AllAndEmptyKeepsEvery(SampleOrders);
  }

  /** A failed load shows its message, unless the thrown message is empty. */
  lemma FailedLoadShowsError(s: OrderState, message: Option<string>, query: string, filter: StatusFilter)
    ensures var v := View(AfterFetch(s, Threw(message)), query, filter);
      && (message != Some("") ==> v == ErrorPanel(FailureMessage(message)))
      && (message == Some("") ==> !v.ErrorPanel?)
  {
  }

  /** The status filter narrows the sample orders to the one with that status. */
  lemma PendingFilterPicksSecondSample()
    ensures FilterOrders(SampleOrders, "", Only(Pending)) == [SampleOrders[1]]
  {
    var byStatus := Seqs.Filter(SampleOrders, (order: Order) => StatusPasses(Only(Pending), order));
    assert SampleOrders[1..][1..] == [];
    assert byStatus == [SampleOrders[1]];
    Text.ContainsEmpty(Text.Lower(SampleOrders[1].orderNumber));
    Seqs.FilterKeepsAll(byStatus, (order: Order) => SearchPasses(order, ""));
  }
}
