/** The admin order table (src/pages/Admin/OrdersManagement.tsx): the
    search filter, status updates that refuse cancelled orders, and the
    order summary modal. */
module OrdersManagement {
  import opened Wrappers
  import opened Text
  import opened Types
  import opened Api
  import opened Navigation
  import opened Orders

  /** The filter test: the id's digits contain the query as typed, or the
      lower-cased customer or status contains the lower-cased query. */
  predicate Matches(order: Order, query: string): (m: bool)
    ensures query == "" ==> m
    ensures query == IntText(order.id) ==> m
  {
    Includes(IntText(order.id), query)
    || (order.user.Some? && Includes(ToLower(order.user.value), ToLower(query)))
    || Includes(ToLower(order.status), ToLower(query))
  }

  /** `sub` keeps elements of `s` in their order, possibly skipping some. */
  predicate SubsequenceOf(sub: seq<Order>, s: seq<Order>)
    decreases |s|
  {
    sub == [] || (s != [] && ((sub[0] == s[0] && SubsequenceOf(sub[1..], s[1..])) || SubsequenceOf(sub, s[1..])))
  }

  /** `filteredOrders`: the matching orders, in list order. */
  function FilterOrders(orders: seq<Order>, query: string): (r: seq<Order>)
    ensures SubsequenceOf(r, orders)
    ensures forall o :: o in r <==> o in orders && Matches(o, query)
    ensures |r| <= |orders|
    ensures |orders| == 1 ==> r == (if Matches(orders[0], query) then orders else [])
  {
    if orders == [] then []
    else if Matches(orders[0], query) then [orders[0]] + FilterOrders(orders[1..], query)
    else FilterOrders(orders[1..], query)
  }

  /** Filtering distributes over concatenation: with the single-order case
      this says every matching order is kept, once per occurrence, in
      place. */
  lemma {:induction false} FilterAppend(a: seq<Order>, b: seq<Order>, query: string)
    ensures FilterOrders(a + b, query) == FilterOrders(a, query) + FilterOrders(b, query)
  {
    if a == [] {
      assert a + b == b;
    } else {
      assert (a + b)[0] == a[0];
      assert (a + b)[1..] == a[1..] + b;
      FilterAppend(a[1..], b, query);
    }
  }

  /** An empty query keeps every order. */
  lemma {:induction false} EmptyQueryKeepsAll(orders: seq<Order>)
    ensures FilterOrders(orders, "") == orders
  {
    if orders != [] {
      assert Includes(IntText(orders[0].id), "");
      EmptyQueryKeepsAll(orders[1..]);
    }
  }

  /** `orders.find(o => o.id === orderId)` */
  function FindOrder(orders: seq<Order>, id: int): (r: Option<Order>)
    ensures r.Some? ==> r.value in orders && r.value.id == id
    ensures r.Some? ==>
      exists i :: 0 <= i < |orders| && orders[i] == r.value && (forall j :: 0 <= j < i ==> orders[j].id != id)
    ensures r.None? <==> forall i :: 0 <= i < |orders| ==> orders[i].id != id
  {
    if orders == [] then None
    else if orders[0].id == id then Some(orders[0])
    else
      var r := FindOrder(orders[1..], id);
      if r.Some? then
        var i :| 0 <= i < |orders| - 1 && orders[1..][i] == r.value
          && (forall j :: 0 <= j < i ==> orders[1..][j].id != id);
        assert orders[i + 1] == r.value;
        assert forall j :: 0 <= j < i + 1 ==> orders[j].id != id by {
          forall j | 0 <= j < i + 1 ensures orders[j].id != id {
            if j > 0 { assert orders[j] == orders[1..][j - 1]; }
          }
        }
        r
      else r
  }

  /** The update guard: the order found for the id is cancelled. */
  predicate UpdateBlocked(orders: seq<Order>, id: int): (blocked: bool)
    ensures blocked ==>
      exists i :: 0 <= i < |orders| && orders[i].id == id && orders[i].status == Cancelled
    ensures (forall i :: 0 <= i < |orders| ==> orders[i].status != Cancelled) ==> !blocked
  {
    var found := FindOrder(orders, id);
    found.Some? && found.value.status == Cancelled
  }

  predicate DistinctIds(orders: seq<Order>) {
    forall i, j :: 0 <= i < j < |orders| ==> orders[i].id != orders[j].id
  }

  /** With distinct ids, the status dropdown is disabled exactly for the rows
      whose update the handler would refuse. */
  lemma {:induction false} DisabledDropdownMatchesGuard(orders: seq<Order>, i: int)
    requires DistinctIds(orders) && 0 <= i < |orders|
    ensures DropdownDisabled(orders[i]) <==> UpdateBlocked(orders, orders[i].id)
  {
    if i > 0 {
      assert orders[1..][i - 1] == orders[i];
      DisabledDropdownMatchesGuard(orders[1..], i - 1);
    }
  }

  /** The status dropdown is disabled for a cancelled order. */
  predicate DropdownDisabled(order: Order) {
    order.status == Cancelled
  }

  /** "Cancelled by admin" only when `cancelled_by` is "admin". */
  function CancelledByLabel(order: Order): (s: string)
    ensures s == "Cancelled by admin" <==> order.cancelledBy == Some("admin")
    ensures s != "Cancelled by admin" ==> s == "Cancelled by user"
  {
    if order.cancelledBy == Some("admin") then "Cancelled by admin" else "Cancelled by user"
  }

  /** "Method: …", with "COD" for a missing or empty method. */
  function PaymentMethodLabel(order: Order): (s: string)
    ensures Truthy(order.paymentMethod) ==> s == order.paymentMethod.value
    ensures !Truthy(order.paymentMethod) ==> s == "COD"
  {
    if Truthy(order.paymentMethod) then order.paymentMethod.value else "COD"
  }

  /** "Status: …": "Paid" only when `payment_status` is "paid". */
  function PaymentStatusLabel(order: Order): (s: string)
    ensures s == "Paid" <==> order.paymentStatus == Some("paid")
    ensures s != "Paid" ==> s == "Pending"
  {
    if order.paymentStatus == Some("paid") then "Paid" else "Pending"
  }

  /** The list after a fetch settles. */
  function AfterFetch(orders: seq<Order>, reply: OrdersReply): seq<Order> {
    match reply
    case Ok(body) => body.GetOr([])
    case Err(_) => orders
  }

  class OrdersManagementPage {
    var orders: seq<Order>
    var filteredOrders: seq<Order>
    var loading: bool
    var searchQuery: string
    var selectedOrder: Option<Order>
    var isModalOpen: bool

    /** The filter effect has run for the current list and query. */
    predicate Valid()
      reads this
    {
      filteredOrders == FilterOrders(orders, searchQuery)
    }

    constructor ()
      ensures Valid()
      ensures orders == [] && loading && searchQuery == "" && selectedOrder == None && !isModalOpen
    {
      orders := [];
      filteredOrders := [];
      loading := true;
      searchQuery := "";
      selectedOrder := None;
      isModalOpen := false;
    }

    /** `fetchOrders`: a failure leaves the list as it was. */
    method FetchOrders(reply: OrdersReply) returns (call: Call)
      requires Valid()
      modifies this
      ensures Valid()
      ensures call == AdminGetOrders && orders == AfterFetch(old(orders), reply) && !loading
      ensures searchQuery == old(searchQuery) && selectedOrder == old(selectedOrder) && isModalOpen == old(isModalOpen)
    {
      call := AdminGetOrders;
      if reply.Ok? {
        orders := reply.value.GetOr([]);
        filteredOrders := FilterOrders(orders, searchQuery);
      }
      loading := false;
    }

    /** Typing into the search box. */
    method SetSearchQuery(query: string)
      requires Valid()
      modifies this
      ensures Valid()
      ensures searchQuery == query && orders == old(orders) && loading == old(loading)
      ensures selectedOrder == old(selectedOrder) && isModalOpen == old(isModalOpen)
    {
      searchQuery := query;
      filteredOrders := FilterOrders(orders, searchQuery);
    }

    /** `updateOrderStatus(orderId, newStatus)`: refused with a warning for a
        cancelled order; otherwise the update is sent and, once it succeeds,
        the list is fetched again (`refetch` is that fetch's reply). */
    method UpdateOrderStatus(orderId: int, newStatus: string, reply: Reply<()>, refetch: OrdersReply)
      returns (calls: seq<Call>, notice: Option<Notice>)
      requires Valid()
      modifies this
      ensures Valid()
      ensures searchQuery == old(searchQuery) && selectedOrder == old(selectedOrder) && isModalOpen == old(isModalOpen)
      ensures UpdateBlocked(old(orders), orderId) ==>
        calls == [] && orders == old(orders) && loading == old(loading)
        && notice == Some(WarnNotice("Cancelled orders cannot be updated"))
      ensures !UpdateBlocked(old(orders), orderId) && reply.Err? ==>
        calls == [AdminUpdateOrderStatus(orderId, newStatus)] && orders == old(orders) && loading == old(loading)
        && notice == Some(ErrorNotice("Failed to update order status"))
      ensures !UpdateBlocked(old(orders), orderId) && reply.Ok? ==>
        calls == [AdminUpdateOrderStatus(orderId, newStatus), AdminGetOrders]
        && orders == AfterFetch(old(orders), refetch) && !loading && notice == None
    {
      var order := FindOrder(orders, orderId);
      if order.Some? && order.value.status == Cancelled {
        return [], Some(WarnNotice("Cancelled orders cannot be updated"));
      }
      calls := [AdminUpdateOrderStatus(orderId, newStatus)];
      if reply.Err? {
        return calls, Some(ErrorNotice("Failed to update order status"));
      }
      var fetch := FetchOrders(refetch);
      calls := calls + [fetch];
      notice := None;
    }

    /** `handleViewOrder(orderId)`: on success the modal opens on the
        response's order. */
    method HandleViewOrder(orderId: int, reply: Reply<Option<Order>>) returns (call: Call, notice: Option<Notice>)
      requires Valid()
      modifies this
      ensures Valid()
      ensures call == AdminGetOrderById(orderId)
      ensures orders == old(orders) && searchQuery == old(searchQuery) && loading == old(loading)
      ensures reply.Ok? ==> selectedOrder == reply.value && isModalOpen && notice == None
      ensures reply.Err? ==>
        selectedOrder == old(selectedOrder) && isModalOpen == old(isModalOpen)
        && notice == Some(ErrorNotice("Cannot fetch order details"))
    {
      call := AdminGetOrderById(orderId);
      if reply.Ok? {
        selectedOrder := reply.value;
        isModalOpen := true;
        notice := None;
      } else {
        notice := Some(ErrorNotice("Cannot fetch order details"));
      }
    }

    /** `closeModal` */
    method CloseModal()
      requires Valid()
      modifies this
      ensures Valid()
      ensures selectedOrder == None && !isModalOpen
      ensures orders == old(orders) && searchQuery == old(searchQuery) && loading == old(loading)
    {
      selectedOrder := None;
      isModalOpen := false;
    }
  }
}
