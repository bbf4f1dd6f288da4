/** The order confirmation page (src/pages/User/OrderConfirmation.tsx): a
    pure rendering of whatever state it was opened with. It makes no call. */
module OrderConfirmation {
  import opened Wrappers
  import opened Text
  import opened Types
  import opened Navigation
  import opened Cart
  import opened Checkout
  import opened Api
  import opened PaymentCallback

  /** The destructured state; every field is `undefined` without a state. */
  datatype View = View(
    paymentMethod: Option<string>,
    transactionId: Option<string>,
    status: Option<string>,
    items: Option<seq<CartLine>>,
    total: Option<int>)

  function ViewOf(state: NavState): (v: View)
    ensures !state.ConfirmationState? ==> v == View(None, None, None, None, None)
    ensures state.ConfirmationState? ==>
      v.paymentMethod == Some(state.handOff.paymentMethod) && v.transactionId == state.handOff.transactionId
      && v.status == Some(state.handOff.status) && v.items == Some(state.handOff.items)
      && v.total == Some(state.handOff.total)
  {
    match state
    case ConfirmationState(h) => View(Some(h.paymentMethod), h.transactionId, Some(h.status), Some(h.items), Some(h.total))
    case _ => View(None, None, None, None, None)
  }

  /** "Payment Method: …": the method in upper case, or "N/A". */
  function MethodLabel(v: View): string {
    if Truthy(v.paymentMethod) then ToUpper(v.paymentMethod.value) else "N/A"
  }

  /** The transaction-ID line is drawn only for a non-empty ID. */
  predicate ShowsTransaction(v: View) {
    Truthy(v.transactionId)
  }

  /** "Status: …": "Pending" only for the status "pending". */
  function StatusLabel(v: View): string {
    if v.status == Some(Pending) then "Pending" else "Paid"
  }

  /** The items table is drawn only for a non-empty list. */
  predicate ShowsItems(v: View) {
    v.items.Some? && |v.items.value| > 0
  }

  /** One table row: product, quantity, price, subtotal. */
  datatype Row = Row(name: string, quantity: int, price: int, subtotal: int)

  function Rows(items: seq<CartLine>): (rows: seq<Row>)
    ensures |rows| == |items|
    ensures forall i :: 0 <= i < |items| ==>
      rows[i] == Row(items[i].name, items[i].quantity, items[i].price, items[i].price * items[i].quantity)
  {
    seq(|items|, i requires 0 <= i < |items| =>
      Row(items[i].name, items[i].quantity, items[i].price, LineSubtotal(items[i])))
  }

  /** The sum of the subtotal column. */
  function ColumnTotal(rows: seq<Row>): int {
    if rows == [] then 0 else rows[0].subtotal + ColumnTotal(rows[1..])
  }

  lemma {:induction false} ColumnTotalIsSum(items: seq<CartLine>)
    ensures ColumnTotal(Rows(items)) == Sum(items)
  {
    if items != [] {
      assert Rows(items)[1..] == Rows(items[1..]);
      ColumnTotalIsSum(items[1..]);
    }
  }

  /** The labels for each payment method's hand-off from the checkout page:
      "Pending" exactly for cash on delivery, the method's upper-case name,
      the transaction line only for UPI with an ID typed in, and the table
      only for a non-empty cart. The total shown is the handed-off one, and
      for a checkout hand-off it equals the sum of the subtotal column. */
  lemma CheckoutHandOffRendering(m: PaymentMethod, upi: string, shipping: Shipping, cart: seq<CartLine>)
    ensures
      var v := ViewOf(ConfirmationState(HandOffFor(m, upi, shipping, cart, Total(cart))));
      && (StatusLabel(v) == "Pending" <==> m == Cod)
      && MethodLabel(v) == (match m case Cod => "COD" case Upi => "UPI" case Card => "CARD" case Razorpay => "RAZORPAY")
      && (ShowsTransaction(v) <==> m == Upi && upi != "")
      && (ShowsItems(v) <==> cart != [])
      && v.total == Some(ColumnTotal(Rows(cart)))
  {
    var v := ViewOf(ConfirmationState(HandOffFor(m, upi, shipping, cart, Total(cart))));
    assert v.paymentMethod == Some(MethodText(m));
    match m {
      case Cod => assert ToUpper("cod") == "COD";
      case Upi => assert ToUpper("upi") == "UPI";
      case Card => assert ToUpper("card") == "CARD";
      case Razorpay => assert ToUpper("razorpay") == "RAZORPAY";
    }
    TotalIsSum(cart);
    ColumnTotalIsSum(cart);
  }

  /** Opened without state (a reload, a typed address, or the payment
      callback's navigation), the page shows "N/A" and "Paid" and nothing
      else. */
  lemma StatelessVisitShowsDefaults(state: NavState)
    requires !state.ConfirmationState?
    ensures MethodLabel(ViewOf(state)) == "N/A" && StatusLabel(ViewOf(state)) == "Paid"
    ensures !ShowsTransaction(ViewOf(state)) && !ShowsItems(ViewOf(state))
    ensures ViewOf(state).total == None
  {
  }

  /** A paid callback lands on this page with no state, so the labels are
      the defaults. */
  lemma PaidCallbackRendering(orderId: Option<string>, reply: Reply<Option<string>>)
    requires Paid(orderId, reply)
    ensures Decide(orderId, reply).nav.path == ConfirmationPathFor(orderId.value)
    ensures MethodLabel(ViewOf(Decide(orderId, reply).nav.state)) == "N/A"
    ensures StatusLabel(ViewOf(Decide(orderId, reply).nav.state)) == "Paid"
  {
    StatelessVisitShowsDefaults(Decide(orderId, reply).nav.state);
  }
}
