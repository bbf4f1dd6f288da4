/** The payment gateway's return page (src/pages/User/PaymentCallback.tsx):
    it reads `orderId` from the query string, fetches that order once and
    ends in exactly one navigation. It never touches the cart. */
module PaymentCallback {
  import opened Wrappers
  import opened Text
  import opened Api
  import opened Navigation

  /** The call made, the navigation taken and the toast shown. */
  datatype Verdict = Verdict(call: Option<Call>, nav: Nav, notice: Notice)

  const CheckoutPath := "/checkout"

  /** `/order-confirmation/<orderId>`, with the query text as it came. */
  function ConfirmationPathFor(orderId: string): string {
    "/order-confirmation/" + orderId
  }

  /** The order exists and its status is "paid". */
  predicate Paid(orderId: Option<string>, reply: Reply<Option<string>>) {
    Truthy(orderId) && reply == Ok(Some("paid"))
  }

  /** The callback's decision. `reply` is what the order fetch resolves to:
      the order's status, or `None` when the response has no order. */
  function Decide(orderId: Option<string>, reply: Reply<Option<string>>): (v: Verdict)
    ensures v.call.Some? <==> Truthy(orderId)
    ensures Truthy(orderId) ==> v.call == Some(GetOrderByQuery(orderId.value))
    ensures v.nav.state == NoState
    ensures Paid(orderId, reply) <==> v.nav.path != CheckoutPath
    ensures Paid(orderId, reply) ==>
      v.nav.path == ConfirmationPathFor(orderId.value) && v.notice == SuccessNotice("Payment successful!")
    ensures !Truthy(orderId) ==> v.notice == ErrorNotice("Missing order ID in callback")
    ensures Truthy(orderId) && reply.Err? ==> v.notice == ErrorNotice("Unable to verify payment. Try again.")
    ensures Truthy(orderId) && reply == Ok(None) ==> v.notice == ErrorNotice("Order not found")
    ensures Truthy(orderId) && reply == Ok(Some("failed")) ==> v.notice == ErrorNotice("Payment failed. Please try again.")
    ensures Truthy(orderId) && reply.Ok? && reply.value.Some? && reply.value.value !in {"paid", "failed"} ==>
      v.notice == InfoNotice("Payment status: " + reply.value.value)
  {
    assert ConfirmationPathFor(orderId.GetOr(""))[1] != CheckoutPath[1];
    if !Truthy(orderId) then
      Verdict(None, Go(CheckoutPath), ErrorNotice("Missing order ID in callback"))
    else
      var call := Some(GetOrderByQuery(orderId.value));
      match reply
      case Err(_) => Verdict(call, Go(CheckoutPath), ErrorNotice("Unable to verify payment. Try again."))
      case Ok(None) => Verdict(call, Go(CheckoutPath), ErrorNotice("Order not found"))
      case Ok(Some(status)) =>
        if status == "paid" then
          Verdict(call, Go(ConfirmationPathFor(orderId.value)), SuccessNotice("Payment successful!"))
        else if status == "failed" then
          Verdict(call, Go(CheckoutPath), ErrorNotice("Payment failed. Please try again."))
        else
          Verdict(call, Go(CheckoutPath), InfoNotice("Payment status: " + status))
  }

  class CallbackPage {
    var loading: bool

    constructor ()
      ensures loading
    {
      loading := true;
    }

    /** `verifyPayment`: every path ends with `loading` false. */
    method VerifyPayment(orderId: Option<string>, reply: Reply<Option<string>>) returns (v: Verdict)
      modifies this
      ensures v == Decide(orderId, reply)
      ensures !loading
    {
      v := Decide(orderId, reply);
      loading := false;
    }
  }
}
