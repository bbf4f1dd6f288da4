/** One cart line's controls (src/components/Cart/CartItem.tsx): the minus
    and plus buttons ask the cart context for quantity ∓ 1, the bin button
    removes the line, and errors from either are logged and swallowed. */
module CartItemView {
  import opened Types
  import opened Api
  import opened Cart

  /** The call the minus button makes. */
  function MinusCall(line: CartLine): (c: Call)
    ensures line.quantity <= 1 ==> c == Call.RemoveFromCart(line.productId)
    ensures line.quantity > 1 ==> c == Call.AddToCart(line.productId, line.quantity - 1)
  {
    UpdateRoute(line.productId, line.quantity - 1)
  }

  /** The call the plus button makes: always an add of the next quantity for
      a line the server reports with a non-negative quantity. */
  function PlusCall(line: CartLine): (c: Call)
    ensures line.quantity >= 0 ==> c == Call.AddToCart(line.productId, line.quantity + 1)
    ensures line.quantity < 0 ==> c == Call.RemoveFromCart(line.productId)
  {
    UpdateRoute(line.productId, line.quantity + 1)
  }

  /** The bin button targets this line's product only. */
  function RemoveCall(line: CartLine): (c: Call)
    ensures c.RemoveFromCart? && c.productId == line.productId
  {
    Call.RemoveFromCart(line.productId)
  }

  /** The two quantity buttons move by exactly one in opposite directions:
      for a line with quantity above one they ask for neighbouring absolute
      quantities of the same product. */
  lemma ButtonsAreNeighbours(line: CartLine)
    requires line.quantity > 1
    ensures MinusCall(line).AddToCart? && PlusCall(line).AddToCart?
    ensures MinusCall(line).productId == PlusCall(line).productId == line.productId
    ensures PlusCall(line).quantity - MinusCall(line).quantity == 2
  {
  }

  /** `handleQuantityChange(newQuantity)`: no error reaches the caller. */
  method HandleQuantityChange(store: CartStore, line: CartLine, newQuantity: int, reply: CartReply) returns (call: Call)
    modifies store
    ensures call == UpdateRoute(line.productId, newQuantity)
    ensures store.cart == AfterReply(old(store.cart), reply)
  {
    var result;
    call, result := store.UpdateQuantity(line.productId, newQuantity, reply);
  }

  /** `handleRemove()`: no error reaches the caller. */
  method HandleRemove(store: CartStore, line: CartLine, reply: CartReply) returns (call: Call)
    modifies store
    ensures call == RemoveCall(line)
    ensures store.cart == AfterReply(old(store.cart), reply)
  {
    var result;
    call, result := store.RemoveFromCart(line.productId, reply);
  }
}
