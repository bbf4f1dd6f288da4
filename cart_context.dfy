/** The cart context (src/context/CartContext.tsx): a mirror of the cart the
    server holds for the signed-in user. Every successful call replaces the
    whole list with the one the server returns; nothing is ever merged or
    incremented locally. */
module Cart {
  import opened Wrappers
  import opened Types
  import opened Api

  /** What a cart call resolves to: the response's `cart` field, which the
      server may leave out. */
  type CartReply = Reply<Option<seq<CartLine>>>

  const AddFailed := "Failed to add to cart"
  const RemoveFailed := "Failed to remove from cart"

  /** `item.price * item.quantity` */
  function LineSubtotal(line: CartLine): int {
    line.price * line.quantity
  }

  predicate NonNegative(line: CartLine) {
    line.price >= 0 && line.quantity >= 0
  }

  /** `total`: the reduce over the cart, folded from the left. */
  function Total(cart: seq<CartLine>): (t: int)
    ensures cart == [] ==> t == 0
    ensures (forall i :: 0 <= i < |cart| ==> NonNegative(cart[i])) ==> t >= 0
  {
    if cart == [] then 0 else Total(cart[..|cart| - 1]) + LineSubtotal(cart[|cart| - 1])
  }

  /** The sum of the line subtotals, as an independent right fold. */
  function Sum(cart: seq<CartLine>): int {
    if cart == [] then 0 else LineSubtotal(cart[0]) + Sum(cart[1..])
  }

  lemma {:induction false} SumAppend(a: seq<CartLine>, b: seq<CartLine>)
    ensures Sum(a + b) == Sum(a) + Sum(b)
  {
    if a == [] {
      assert a + b == b;
    } else {
      assert (a + b)[1..] == a[1..] + b;
      SumAppend(a[1..], b);
    }
  }

  /** The total is the sum of price × quantity over the cart's lines. */
  lemma {:induction false} TotalIsSum(cart: seq<CartLine>)
    ensures Total(cart) == Sum(cart)
  {
    if cart != [] {
      var init, last := cart[..|cart| - 1], cart[|cart| - 1];
      TotalIsSum(init);
      assert cart == init + [last];
      SumAppend(init, [last]);
    }
  }

  /** The cart after one call settles: the server's list (or `[]` when the
      response has none) on success, the previous cart on failure. */
  function AfterReply(cart: seq<CartLine>, reply: CartReply): seq<CartLine> {
    match reply
    case Ok(body) => body.GetOr([])
    case Err(_) => cart
  }

  /** `updateQuantity(productId, quantity)`: a non-positive quantity becomes a
      removal, any other quantity an add of that absolute quantity. */
  function UpdateRoute(productId: int, quantity: int): (c: Call)
    ensures quantity <= 0 <==> c == Call.RemoveFromCart(productId)
    ensures quantity > 0 <==> c == Call.AddToCart(productId, quantity)
    ensures c.AddToCart? || c.RemoveFromCart?
  {
    if quantity <= 0 then Call.RemoveFromCart(productId) else Call.AddToCart(productId, quantity)
  }

  /** The cart after a sequence of settled calls, in order. */
  function Replay(cart: seq<CartLine>, replies: seq<CartReply>): seq<CartLine> {
    if replies == [] then cart
    else AfterReply(Replay(cart, replies[..|replies| - 1]), replies[|replies| - 1])
  }

  /** `replies[k]` is the last successful reply. */
  predicate LastSuccessAt(replies: seq<CartReply>, k: int) {
    0 <= k < |replies| && replies[k].Ok? && forall j :: k < j < |replies| ==> replies[j].Err?
  }

  /** After a sequence of calls the cart is the list of the last successful
      one; with no success it is the cart the sequence started from. */
  lemma {:induction false} ReplayIsLastSuccess(cart: seq<CartLine>, replies: seq<CartReply>)
    ensures (forall j :: 0 <= j < |replies| ==> replies[j].Err?) ==> Replay(cart, replies) == cart
    ensures forall k :: LastSuccessAt(replies, k) ==> Replay(cart, replies) == replies[k].value.GetOr([])
  {
    if replies != [] {
      var n := |replies|;
      var init := replies[..n - 1];
      ReplayIsLastSuccess(cart, init);
      assert Replay(cart, replies) == AfterReply(Replay(cart, init), replies[n - 1]);
      if forall j :: 0 <= j < n ==> replies[j].Err? {
        assert forall j :: 0 <= j < n - 1 ==> init[j].Err? by {
          forall j | 0 <= j < n - 1 ensures init[j].Err? {
            assert init[j] == replies[j];
          }
        }
      }
      forall k | LastSuccessAt(replies, k)
        ensures Replay(cart, replies) == replies[k].value.GetOr([])
      {
        if k < n - 1 {
          assert LastSuccessAt(init, k) by {
            assert init[k] == replies[k];
            forall j | k < j < n - 1 ensures init[j].Err? {
              assert init[j] == replies[j];
            }
          }
        }
      }
    }
  }

  /** The cart never merges: once any call has succeeded, the starting cart no
      longer matters. */
  lemma {:induction false} ReplayForgetsStart(c1: seq<CartLine>, c2: seq<CartLine>, replies: seq<CartReply>)
    requires exists k :: 0 <= k < |replies| && replies[k].Ok?
    ensures Replay(c1, replies) == Replay(c2, replies)
  {
    var n := |replies|;
    if replies[n - 1].Err? {
      var init := replies[..n - 1];
      var k :| 0 <= k < n && replies[k].Ok?;
      assert init[k] == replies[k];
      ReplayForgetsStart(c1, c2, init);
    }
  }

  class CartStore {
    var cart: seq<CartLine>

    constructor ()
      ensures cart == []
    {
      cart := [];
    }

    /** `fetchCart`: nothing happens without a signed-in user; a failure is
        logged and swallowed. */
    method FetchCart(user: Option<User>, reply: CartReply) returns (call: Option<Call>)
      modifies this
      ensures user.None? ==> call == None && cart == old(cart)
      ensures user.Some? ==> call == Some(GetCart) && cart == AfterReply(old(cart), reply)
    {
      if user.None? {
        return None;
      }
      call := Some(GetCart);
      if reply.Ok? {
        cart := reply.value.GetOr([]);
      }
    }

    /** The effect on a change of user: fetch for a user, empty the cart
        otherwise. */
    method OnUserChanged(user: Option<User>, reply: CartReply) returns (call: Option<Call>)
      modifies this
      ensures user.None? ==> call == None && cart == []
      ensures user.Some? ==> call == Some(GetCart) && cart == AfterReply(old(cart), reply)
    {
      if user.Some? {
        call := FetchCart(user, reply);
      } else {
        call := None;
        cart := [];
      }
    }

    /** `addToCart(productId, quantity)`: rethrows a failure with the server's
        message or the add fallback. */
    method AddToCart(productId: int, quantity: int, reply: CartReply) returns (call: Call, result: Outcome<string>)
      modifies this
      ensures call == Call.AddToCart(productId, quantity)
      ensures cart == AfterReply(old(cart), reply)
      ensures result == Rethrow(reply, AddFailed)
    {
      call := Call.AddToCart(productId, quantity);
      match reply
      case Ok(body) =>
        cart := body.GetOr([]);
        result := Pass;
      case Err(e) =>
        result := Fail(ErrorText(e, AddFailed));
    }

    /** `removeFromCart(productId)` */
    method RemoveFromCart(productId: int, reply: CartReply) returns (call: Call, result: Outcome<string>)
      modifies this
      ensures call == Call.RemoveFromCart(productId)
      ensures cart == AfterReply(old(cart), reply)
      ensures result == Rethrow(reply, RemoveFailed)
    {
      call := Call.RemoveFromCart(productId);
      match reply
      case Ok(body) =>
        cart := body.GetOr([]);
        result := Pass;
      case Err(e) =>
        result := Fail(ErrorText(e, RemoveFailed));
    }

    /** `updateQuantity(productId, quantity)` */
    method UpdateQuantity(productId: int, quantity: int, reply: CartReply) returns (call: Call, result: Outcome<string>)
      modifies this
      ensures call == UpdateRoute(productId, quantity)
      ensures cart == AfterReply(old(cart), reply)
      ensures result == Rethrow(reply, if quantity <= 0 then RemoveFailed else AddFailed)
    {
      if quantity <= 0 {
        call, result := RemoveFromCart(productId, reply);
      } else {
        call, result := AddToCart(productId, quantity, reply);
      }
    }

    /** `clearCart`: local only, no call. */
    method ClearCart()
      modifies this
      ensures cart == []
    {
      cart := [];
    }
  }
}
