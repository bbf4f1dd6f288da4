/** The checkout page (src/pages/User/Checkout.tsx): it loads the saved
    shipping address, refuses an incomplete one, places the order, empties
    the cart for every payment method and hands the order's details to the
    confirmation page. */
module Checkout {
  import opened Wrappers
  import opened Text
  import opened Types
  import opened Api
  import opened Navigation
  import opened Cart

  /** `type PaymentMethod = 'cod' | 'upi' | 'card' | 'razorpay'` */
  datatype PaymentMethod = Cod | Upi | Card | Razorpay

  function MethodText(m: PaymentMethod): string {
    match m
    case Cod => "cod"
    case Upi => "upi"
    case Card => "card"
    case Razorpay => "razorpay"
  }

  /** All seven required address fields are non-empty; the second address
      line is optional. */
  predicate ShippingComplete(s: Shipping) {
    s.shippingName != "" && s.shippingMobile != "" && s.shippingLine1 != ""
    && s.shippingCity != "" && s.shippingState != "" && s.shippingPostalCode != ""
    && s.shippingCountry != ""
  }

  /** The guard of `handleCheckout`. */
  predicate CanCheckout(shipping: Option<Shipping>, cart: seq<CartLine>) {
    shipping.Some? && cart != []
  }

  /** The submit button's `disabled`. */
  predicate ButtonDisabled(loading: bool, cart: seq<CartLine>) {
    loading || cart == []
  }

  /** The page renders nothing before an address is loaded and once an order
      has been placed. */
  predicate RendersNothing(shipping: Option<Shipping>, orderCreated: bool) {
    shipping.None? || orderCreated
  }

  /** A click on an enabled button of a rendered page passes the guard. */
  lemma EnabledButtonPassesGuard(shipping: Option<Shipping>, orderCreated: bool, loading: bool, cart: seq<CartLine>)
    requires !RendersNothing(shipping, orderCreated) && !ButtonDisabled(loading, cart)
    ensures CanCheckout(shipping, cart)
  {
  }

  /** The state handed to the confirmation page. */
  function HandOffFor(m: PaymentMethod, upiTransactionId: string, shipping: Shipping, cart: seq<CartLine>, total: int): (h: HandOff)
    ensures h.status == Pending <==> m == Cod
    ensures h.status != Pending ==> h.status == "paid"
    ensures h.transactionId.Some? <==> m == Upi
    ensures m == Upi ==> h.transactionId == Some(upiTransactionId)
    ensures h.paymentMethod == MethodText(m) && h.shipping == shipping
    ensures h.items == cart && h.total == total
  {
    HandOff(
      MethodText(m),
      if m == Upi then Some(upiTransactionId) else None,
      shipping,
      if m == Cod then Pending else "paid",
      cart,
      total)
  }

  /** `/order-confirmation/<id>` */
  function ConfirmationPath(id: int): string {
    "/order-confirmation/" + IntText(id)
  }

  class CheckoutPage {
    var shipping: Option<Shipping>
    var loading: bool
    var paymentMethod: PaymentMethod
    var upiTransactionId: string
    var orderCreated: bool
    const cart: CartStore

    constructor (cart: CartStore)
      ensures this.cart == cart
      ensures shipping == None && !loading && paymentMethod == Cod
      ensures upiTransactionId == "" && !orderCreated
    {
      this.cart := cart;
      shipping := None;
      loading := false;
      paymentMethod := Cod;
      upiTransactionId := "";
      orderCreated := false;
    }

    /** `fetchShipping`: an incomplete address or a failed fetch sends the
        user to /profile and leaves `shipping` as it was. */
    method FetchShipping(reply: Reply<Shipping>) returns (call: Call, nav: Option<Nav>)
      modifies this
      ensures call == GetShipping
      ensures reply.Ok? && ShippingComplete(reply.value) ==> shipping == Some(reply.value) && nav == None
      ensures !(reply.Ok? && ShippingComplete(reply.value)) ==> shipping == old(shipping) && nav == Some(Go("/profile"))
      ensures loading == old(loading) && orderCreated == old(orderCreated)
      ensures paymentMethod == old(paymentMethod) && upiTransactionId == old(upiTransactionId)
    {
      call := GetShipping;
      if reply.Ok? && ShippingComplete(reply.value) {
        shipping := Some(reply.value);
        nav := None;
      } else {
        nav := Some(Go("/profile"));
      }
    }

    /** Picking a radio button. */
    method ChoosePaymentMethod(m: PaymentMethod)
      modifies this
      ensures paymentMethod == m && shipping == old(shipping) && loading == old(loading)
      ensures upiTransactionId == old(upiTransactionId) && orderCreated == old(orderCreated)
    {
      paymentMethod := m;
    }

    /** Typing into the UPI transaction-ID box. */
    method EnterTransactionId(text: string)
      modifies this
      ensures upiTransactionId == text && paymentMethod == old(paymentMethod)
      ensures shipping == old(shipping) && loading == old(loading) && orderCreated == old(orderCreated)
    {
      upiTransactionId := text;
    }

    /** `handleCheckout`. `reply` is what `createOrder` resolves to: the new
        order's id, or `None` when the response carries no order, in which
        case reading `response.order.id` throws after the cart has already
        been emptied. `loadingDuringCall` is the flag while the call runs. */
    method HandleCheckout(reply: Reply<Option<int>>) returns (call: Option<Call>, nav: Option<Nav>, loadingDuringCall: bool)
      modifies this, cart
      ensures shipping == old(shipping) && paymentMethod == old(paymentMethod)
      ensures upiTransactionId == old(upiTransactionId)
      ensures !CanCheckout(old(shipping), old(cart.cart)) ==>
        call == None && nav == None && loading == old(loading)
        && orderCreated == old(orderCreated) && cart.cart == old(cart.cart)
      ensures CanCheckout(old(shipping), old(cart.cart)) ==>
        call == Some(CreateOrder(Some(ShippingObject(old(shipping).value))))
        && loadingDuringCall && !loading
      ensures CanCheckout(old(shipping), old(cart.cart)) && reply.Ok? ==>
        orderCreated && cart.cart == []
      ensures CanCheckout(old(shipping), old(cart.cart)) && reply.Ok? && reply.value.Some? ==>
        nav == Some(Nav(ConfirmationPath(reply.value.value), ConfirmationState(
          HandOffFor(old(paymentMethod), old(upiTransactionId), old(shipping).value, old(cart.cart), Total(old(cart.cart))))))
      ensures CanCheckout(old(shipping), old(cart.cart)) && reply.Ok? && reply.value.None? ==> nav == None
      ensures CanCheckout(old(shipping), old(cart.cart)) && reply.Err? ==>
        nav == None && orderCreated == old(orderCreated) && cart.cart == old(cart.cart)
    {
      if shipping.None? || |cart.cart| == 0 {
        return None, None, loading;
      }
      loading := true;
      loadingDuringCall := loading;
      call := Some(CreateOrder(Some(ShippingObject(shipping.value))));
      nav := None;
      if reply.Ok? {
        var items := cart.cart;
        var total := Total(cart.cart);
        orderCreated := true;
        cart.ClearCart();
        if reply.value.Some? {
          nav := Some(Nav(ConfirmationPath(reply.value.value),
            ConfirmationState(HandOffFor(paymentMethod, upiTransactionId, shipping.value, items, total))));
        }
      }
      loading := false;
    }
  }
}
