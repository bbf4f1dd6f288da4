/** The product page (src/pages/User/ProductDetails.tsx): it loads one
    product, offers quantities up to the stock (at most ten), and adds the
    chosen quantity to the cart for a signed-in user. */
module ProductDetails {
  import opened Wrappers
  import opened Types
  import opened Api
  import opened Cart

  /** The options of the quantity select: 1 through min(stock, 10). */
  function QuantityOptions(stock: nat): (options: seq<int>)
    ensures |options| == if stock < 10 then stock else 10
    ensures forall i :: 0 <= i < |options| ==> options[i] == i + 1
  {
    var n := if stock < 10 then stock else 10;
    seq(n, i requires 0 <= i < n => i + 1)
  }

  /** Every option is a quantity between one and ten that the stock covers,
      and there is none when the product is out of stock. */
  lemma OptionsWithinStock(stock: nat)
    ensures forall q :: q in QuantityOptions(stock) ==> 1 <= q <= stock && q <= 10
    ensures QuantityOptions(stock) == [] <==> stock == 0
  {
    var options := QuantityOptions(stock);
    forall q | q in options ensures 1 <= q <= stock && q <= 10 {
      var i :| 0 <= i < |options| && options[i] == q;
    }
  }

  /** The add button is disabled for a product out of stock. */
  predicate AddDisabled(product: Product) {
    product.stock == 0
  }

  /** The quantity select and the add button are drawn only for a signed-in
      user; everyone else sees the sign-in prompt. */
  predicate ShowsControls(user: Option<User>) {
    user.Some?
  }

  const AddedText := "Product added to cart!"

  class ProductPage {
    var product: Option<Product>
    var loading: bool
    var quantity: int
    const cart: CartStore

    constructor (cart: CartStore)
      ensures this.cart == cart && product == None && loading && quantity == 1
    {
      this.cart := cart;
      product := None;
      loading := true;
      quantity := 1;
    }

    /** `fetchProduct`. `id` is the route parameter as a number, `None` when
        it is missing; then nothing happens and the spinner stays. */
    method FetchProduct(id: Option<int>, reply: Reply<Option<Product>>) returns (call: Option<Call>)
      modifies this
      ensures quantity == old(quantity)
      ensures id.None? ==> call == None && product == old(product) && loading == old(loading)
      ensures id.Some? ==> call == Some(GetProduct(id.value)) && !loading
      ensures id.Some? && reply.Ok? ==> product == reply.value
      ensures id.Some? && reply.Err? ==> product == old(product)
    {
      if id.None? {
        return None;
      }
      call := Some(GetProduct(id.value));
      if reply.Ok? {
        product := reply.value;
      }
      loading := false;
    }

    /** Choosing an option of the quantity select. */
    method ChooseQuantity(q: int)
      modifies this
      ensures quantity == q && product == old(product) && loading == old(loading)
    {
      quantity := q;
    }

    /** `handleAddToCart`: nothing without a product or a user; otherwise the
        chosen quantity is added as is and the outcome is alerted. */
    method HandleAddToCart(user: Option<User>, reply: CartReply) returns (call: Option<Call>, alertText: Option<string>)
      modifies cart
      ensures product.None? || user.None? ==> call == None && alertText == None && cart.cart == old(cart.cart)
      ensures product.Some? && user.Some? ==>
        call == Some(Call.AddToCart(product.value.id, quantity))
        && cart.cart == AfterReply(old(cart.cart), reply)
      ensures product.Some? && user.Some? && reply.Ok? ==> alertText == Some(AddedText)
      ensures product.Some? && user.Some? && reply.Err? ==> alertText == Some(ErrorText(reply.error, AddFailed))
    {
      if product.None? || user.None? {
        return None, None;
      }
      var c, result := cart.AddToCart(product.value.id, quantity, reply);
      call := Some(c);
      match result
      case Pass => alertText := Some(AddedText);
      case Fail(message) =>
        // `error.message || 'Failed to add to cart'`; the context's message is never empty
        alertText := Some(if message != "" then message else AddFailed);
    }
  }
}
