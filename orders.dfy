/** The customer's order history (src/pages/User/Orders.tsx): the list with
    each order's items attached, cancellation of a pending order, and the
    status badge. */
module Orders {
  import opened Wrappers
  import opened Text
  import opened Types
  import opened Api
  import opened Navigation

  /** The `orders` field of the list response, which may be absent. */
  type OrdersReply = Reply<Option<seq<Order>>>

  /** The `items` field of one order's detail response, which may be absent. */
  type DetailReply = Reply<Option<seq<OrderItem>>>

  /** `{ ...order, items: details.items || [] }` */
  function WithItems(order: Order, items: Option<seq<OrderItem>>): Order {
    order.(items := Some(items.GetOr([])))
  }

  /** The detail fan-out, taken in list order: every order gets the items of
      its own detail reply, and the whole result fails when any detail fetch
      fails. `detail` gives the reply for an order id. */
  function Detailed(list: seq<Order>, detail: int -> DetailReply): (r: Option<seq<Order>>)
    ensures r.Some? <==> forall i :: 0 <= i < |list| ==> detail(list[i].id).Ok?
    ensures r.Some? ==> |r.value| == |list|
    ensures r.Some? ==> forall i :: 0 <= i < |list| ==> r.value[i] == WithItems(list[i], detail(list[i].id).value)
  {
    if list == [] then Some([])
    else
      match detail(list[0].id)
      case Err(_) => None
      case Ok(items) =>
        match Detailed(list[1..], detail)
        case None =>
          assert forall i :: 1 <= i < |list| ==> list[1..][i - 1] == list[i];
          None
        case Some(rest) =>
          assert forall i :: 1 <= i < |list| ==> list[1..][i - 1] == list[i];
          Some([WithItems(list[0], items)] + rest)
  }

  /** The detail requests, one per order in list order. */
  function DetailCalls(list: seq<Order>): (calls: seq<Call>)
    ensures |calls| == |list|
    ensures forall i :: 0 <= i < |list| ==> calls[i] == GetOrder(list[i].id)
  {
    seq(|list|, i requires 0 <= i < |list| => GetOrder(list[i].id))
  }

  /** The list after a successful cancel: the orders with the cancelled id
      get status "cancelled", every other order is untouched. */
  function CancelInList(orders: seq<Order>, id: int): (r: seq<Order>)
    ensures |r| == |orders|
    ensures forall i :: 0 <= i < |orders| && orders[i].id == id ==> r[i] == orders[i].(status := Cancelled)
    ensures forall i :: 0 <= i < |orders| && orders[i].id != id ==> r[i] == orders[i]
  {
    seq(|orders|, i requires 0 <= i < |orders| =>
      if orders[i].id == id then orders[i].(status := Cancelled) else orders[i])
  }

  /** The cancel button is offered only for a pending order. */
  predicate ShowsCancelButton(order: Order) {
    order.status == Pending
  }

  /** It is disabled while that order's cancel is in flight. */
  predicate CancelDisabled(order: Order, processingOrderId: Option<int>) {
    processingOrderId == Some(order.id)
  }

  /** Cancelling twice is cancelling once, and a cancelled order no longer
      offers the cancel button; the list keeps its ids and order. */
  lemma CancelIsFinal(orders: seq<Order>, id: int)
    ensures CancelInList(CancelInList(orders, id), id) == CancelInList(orders, id)
    ensures forall i :: 0 <= i < |orders| && orders[i].id == id ==> !ShowsCancelButton(CancelInList(orders, id)[i])
    ensures forall i :: 0 <= i < |orders| ==> CancelInList(orders, id)[i].id == orders[i].id
  {
  }

  /** `getStatusColor` (the admin page uses the same map). */
  function StatusColor(status: string): string {
    if status == Pending then "text-yellow-700 bg-yellow-100"
    else if status == Shipped then "text-blue-700 bg-blue-100"
    else if status == Delivered then "text-green-700 bg-green-100"
    else if status == Cancelled then "text-red-700 bg-red-100"
    else "text-gray-700 bg-gray-100"
  }

  /** The four statuses get four distinct colours, none of them the grey
      every other status gets. */
  lemma StatusColorsDistinct(other: string)
    requires other !in {Pending, Shipped, Delivered, Cancelled}
    ensures
      var colours := [StatusColor(Pending), StatusColor(Shipped), StatusColor(Delivered), StatusColor(Cancelled), StatusColor(other)];
      forall i, j :: 0 <= i < j < |colours| ==> colours[i] != colours[j]
  {
    var colours := [StatusColor(Pending), StatusColor(Shipped), StatusColor(Delivered), StatusColor(Cancelled), StatusColor(other)];
    forall i, j | 0 <= i < j < |colours| ensures colours[i] != colours[j] {
      assert colours[i][5] != colours[j][5] || colours[i][7] != colours[j][7];
    }
  }

  /** `status.charAt(0).toUpperCase() + status.slice(1)` */
  function StatusLabel(status: string): (shown: string)
    ensures |shown| == |status|
    ensures status != "" ==> shown[0] == UpperChar(status[0]) && shown[1..] == status[1..]
  {
    if status == "" then "" else [UpperChar(status[0])] + status[1..]
  }

  /** The four statuses read "Pending", "Shipped", "Delivered", "Cancelled". */
  lemma StatusLabels()
    ensures StatusLabel(Pending) == "Pending" && StatusLabel(Shipped) == "Shipped"
    ensures StatusLabel(Delivered) == "Delivered" && StatusLabel(Cancelled) == "Cancelled"
  {
    assert UpperChar('p') == 'P' && UpperChar('s') == 'S' && UpperChar('d') == 'D' && UpperChar('c') == 'C';
  }

  class OrdersPage {
    var orders: seq<Order>
    var loading: bool
    var processingOrderId: Option<int>

    constructor ()
      ensures orders == [] && loading && processingOrderId == None
    {
      orders := [];
      loading := true;
      processingOrderId := None;
    }

    /** `fetchOrders`: the list, then every order's details; any failure
        leaves the orders as they were. */
    method FetchOrders(reply: OrdersReply, detail: int -> DetailReply) returns (calls: seq<Call>)
      modifies this
      ensures !loading && processingOrderId == old(processingOrderId)
      ensures reply.Err? ==> calls == [GetOrders] && orders == old(orders)
      ensures reply.Ok? ==> calls == [GetOrders] + DetailCalls(reply.value.GetOr([]))
      ensures reply.Ok? && Detailed(reply.value.GetOr([]), detail).Some? ==>
        orders == Detailed(reply.value.GetOr([]), detail).value
      ensures reply.Ok? && Detailed(reply.value.GetOr([]), detail).None? ==> orders == old(orders)
    {
      calls := [GetOrders];
      if reply.Ok? {
        var list := reply.value.GetOr([]);
        calls := calls + DetailCalls(list);
        var detailed := Detailed(list, detail);
        if detailed.Some? {
          orders := detailed.value;
        }
      }
      loading := false;
    }

    /** `handleCancelOrder(orderId)`. `confirmed` is the answer to the
        confirmation prompt; `processingDuringCall` is `processingOrderId`
        while the call runs. */
    method HandleCancelOrder(orderId: int, confirmed: bool, reply: Reply<()>)
      returns (call: Option<Call>, processingDuringCall: Option<int>, notice: Option<Notice>)
      modifies this
      ensures loading == old(loading)
      ensures !confirmed ==>
        call == None && notice == None && orders == old(orders) && processingOrderId == old(processingOrderId)
      ensures confirmed ==>
        call == Some(CancelOrder(orderId)) && processingDuringCall == Some(orderId) && processingOrderId == None
      ensures confirmed && reply.Ok? ==>
        orders == CancelInList(old(orders), orderId) && notice == Some(SuccessNotice("Order cancelled successfully!"))
      ensures confirmed && reply.Err? ==>
        orders == old(orders) && notice == Some(ErrorNotice("Failed to cancel order."))
    {
      if !confirmed {
        return None, processingOrderId, None;
      }
      processingOrderId := Some(orderId);
      processingDuringCall := processingOrderId;
      call := Some(CancelOrder(orderId));
      if reply.Ok? {
        orders := CancelInList(orders, orderId);
        notice := Some(SuccessNotice("Order cancelled successfully!"));
      } else {
        notice := Some(ErrorNotice("Failed to cancel order."));
      }
      processingOrderId := None;
    }
  }
}
