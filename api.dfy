/** The shared HTTP client (src/services/api.ts): the bearer-token request
    interceptor, the 401 response interceptor, the query of `getProducts`
    and the requests the cart and order wrappers send. The transport itself
    is not modelled: every call's answer is a `Reply` that the caller of a
    modelled operation supplies. */
module Api {
  import opened Wrappers
  import opened Text
  import opened Storage
  import opened Types

  /** A rejected call: `error.response?.status` and `error.response?.data?.message`.
      Errors raised without an HTTP response (a `TypeError`, a JSON syntax
      error) have neither. */
  datatype ApiError = ApiError(status: Option<int>, message: Option<string>)

  /** What an awaited backend call resolves to (after the response interceptor). */
  type Reply<T> = Result<T, ApiError>

  /** An error thrown in the browser, without an HTTP response. */
  const LocalError := ApiError(None, None)

  /** `error.response?.data?.message || fallback`: the server's message when it
      sent a non-empty one, the caller's fallback text otherwise. */
  function ErrorText(e: ApiError, fallback: string): (m: string)
    ensures Truthy(e.message) ==> m == e.message.value
    ensures !Truthy(e.message) ==> m == fallback
    ensures fallback != "" ==> m != ""
  {
    if Truthy(e.message) then e.message.value else fallback
  }

  const TokenKey := "token"
  const UserKey := "user"
  const AuthorizationHeader := "Authorization"

  /** `if (token)`: a token is stored and is not the empty string. */
  predicate HasToken(storage: map<string, string>) {
    TokenKey in storage && storage[TokenKey] != ""
  }

  /** How a context wrapper settles a call: it resolves when the reply is a
      success and otherwise throws an `Error` carrying `ErrorText`. */
  function Rethrow<T>(reply: Reply<T>, fallback: string): (o: Outcome<string>)
    ensures o.Pass? <==> reply.Ok?
    ensures reply.Err? ==> o == Fail(ErrorText(reply.error, fallback))
  {
    match reply
    case Ok(_) => Pass
    case Err(e) => Fail(ErrorText(e, fallback))
  }

  /** The request interceptor: sets `Authorization: Bearer <token>` exactly
      when a non-empty token is stored and leaves every other header as it was. */
  function WithBearer(headers: map<string, string>, storage: map<string, string>): (h: map<string, string>)
    ensures AuthorizationHeader in h <==> AuthorizationHeader in headers || HasToken(storage)
    ensures HasToken(storage) ==> h[AuthorizationHeader] == "Bearer " + storage[TokenKey]
    ensures forall k :: k in headers && k != AuthorizationHeader ==> k in h && h[k] == headers[k]
    ensures forall k :: k in h && k != AuthorizationHeader ==> k in headers
    ensures !HasToken(storage) ==> h == headers
  {
    if HasToken(storage) then headers[AuthorizationHeader := "Bearer " + storage[TokenKey]] else headers
  }

  /** The response error interceptor: a 401 removes the token and the stored
      user and sends the browser to /login; every error is re-rejected
      unchanged so the caller's own error path still runs. */
  method OnResponseError(browser: Browser, e: ApiError) returns (rejected: ApiError)
    modifies browser
    ensures rejected == e
    ensures e.status == Some(401) ==>
      browser.storage == old(browser.storage) - {TokenKey, UserKey} && browser.href == "/login"
    ensures e.status != Some(401) ==>
      browser.storage == old(browser.storage) && browser.href == old(browser.href)
  {
    if e.status == Some(401) {
      browser.RemoveItem(TokenKey);
      browser.RemoveItem(UserKey);
      browser.href := "/login";
    }
    rejected := e;
  }

  /** After a 401 has been handled, no later request carries a credential. */
  lemma NoBearerAfterUnauthorized(headers: map<string, string>, storage: map<string, string>)
    ensures WithBearer(headers, storage - {TokenKey, UserKey}) == headers
  {
  }

  /** The query of `productsAPI.getProducts(query, page = 1, limit = 20)`, in
      the order the parameters are appended. */
  function ProductsParams(query: Option<string>, page: Option<int>, limit: Option<int>): (params: seq<(string, string)>)
    ensures |params| == if Truthy(query) then 3 else 2
    ensures params[0].0 == "q" <==> Truthy(query)
    ensures Truthy(query) ==> params[0] == ("q", query.value)
    ensures params[|params| - 2] == ("page", IntText(page.GetOr(1)))
    ensures params[|params| - 1] == ("limit", IntText(limit.GetOr(20)))
  {
    (if Truthy(query) then [("q", query.value)] else [])
    + [("page", IntText(page.GetOr(1))), ("limit", IntText(limit.GetOr(20)))]
  }

  datatype Verb = Get | Post | Put | Patch

  /** The value of a JSON body member. `Opaque` stands for an object argument
      whose serialisation the model does not follow. */
  datatype Value = Num(n: int) | Str(s: string) | Opaque

  /** The argument handed to `ordersAPI.createOrder`, whose parameter is named
      `currency`: a currency code, or the shipping object the checkout page
      passes in its place. */
  datatype OrderArgument = CurrencyCode(code: string) | ShippingObject(shipping: Shipping)

  /** The backend calls the modelled code makes. The three registration
      calls are invoked on `authAPI` but not defined by it, and
      `getOrderById` is invoked on `adminAPI` but not defined by it, so they
      have no request: their outcome is an uninterpreted reply. */
  datatype Call =
    | Login(email: string, password: string)
    | SendOtp(email: string)
    | VerifyOtp(email: string, otp: string)
    | ResetPassword(email: string, newPassword: string)
    | InitiateRegistrationOtp(email: string)
    | VerifyRegistrationOtp(pendingEmail: Option<string>, otp: string)
    | CompleteRegistration(pendingName: Option<string>, pendingEmail: Option<string>, pendingPassword: Option<string>)
    | GetProducts(query: Option<string>, page: Option<int>, limit: Option<int>)
    | GetProduct(id: int)
    | GetCart
    | AddToCart(productId: int, quantity: int)
    | RemoveFromCart(productId: int)
    | GetShipping
    | CreateOrder(argument: Option<OrderArgument>)
    | GetOrders
    | GetOrder(id: int)
    | GetOrderByQuery(orderId: string)
    | CancelOrder(id: int)
    | SendChatMessage(message: string)
    | AdminGetOrders
    | AdminUpdateOrderStatus(id: int, status: string)
    | AdminGetUsers
    | AdminGetOrderById(id: int)

  predicate Undefined(c: Call) {
    c.InitiateRegistrationOtp? || c.VerifyRegistrationOtp? || c.CompleteRegistration?
    || c.AdminGetOrderById?
  }

  /** An HTTP request: verb, path under the API base URL, query parameters
      and JSON body members. */
  datatype Request = Request(verb: Verb, path: string, params: seq<(string, string)>, body: seq<(string, Value)>)

  function Keys(body: seq<(string, Value)>): seq<string> {
    seq(|body|, i requires 0 <= i < |body| => body[i].0)
  }

  function Plain(verb: Verb, path: string, body: seq<(string, Value)>): Request {
    Request(verb, path, [], body)
  }

  function CurrencyValue(argument: Option<OrderArgument>): Value {
    match argument
    case None => Str("INR")
    case Some(CurrencyCode(code)) => Str(code)
    case Some(ShippingObject(_)) => Opaque
  }

  /** What each wrapper of src/services/api.ts sends; `None` for a call the
      client does not define. */
  function RequestOf(c: Call): (r: Option<Request>)
    ensures r.None? <==> Undefined(c)
  {
    match c
    case Login(email, password) => Some(Plain(Post, "/auth/login", [("email", Str(email)), ("password", Str(password))]))
    case SendOtp(email) => Some(Plain(Post, "/auth/forgot-password", [("email", Str(email))]))
    case VerifyOtp(email, otp) => Some(Plain(Post, "/auth/verify-otp", [("email", Str(email)), ("otp", Str(otp))]))
    case ResetPassword(email, newPassword) =>
      Some(Plain(Post, "/auth/reset-password", [("email", Str(email)), ("newPassword", Str(newPassword))]))
    case InitiateRegistrationOtp(_) => None
    case VerifyRegistrationOtp(_, _) => None
    case CompleteRegistration(_, _, _) => None
    case GetProducts(query, page, limit) => Some(Request(Get, "/products", ProductsParams(query, page, limit), []))
    case GetProduct(id) => Some(Plain(Get, "/products/" + IntText(id), []))
    case GetCart => Some(Plain(Get, "/cart", []))
    case AddToCart(p, q) => Some(Plain(Post, "/cart/add", [("product_id", Num(p)), ("quantity", Num(q))]))
    case RemoveFromCart(p) => Some(Plain(Post, "/cart/remove", [("product_id", Num(p))]))
    case GetShipping => Some(Plain(Get, "/users/me/shipping", []))
    case CreateOrder(argument) => Some(Plain(Post, "/orders", [("currency", CurrencyValue(argument))]))
    case GetOrders => Some(Plain(Get, "/orders", []))
    case GetOrder(id) => Some(Plain(Get, "/orders/" + IntText(id), []))
    case GetOrderByQuery(orderId) => Some(Plain(Get, "/orders/" + orderId, []))
    case CancelOrder(id) => Some(Plain(Patch, "/orders/" + IntText(id) + "/cancel", []))
    case SendChatMessage(message) => Some(Plain(Post, "/chatbot/message", [("message", Str(message))]))
    case AdminGetOrders => Some(Plain(Get, "/admin/orders", []))
    case AdminUpdateOrderStatus(id, status) =>
      Some(Plain(Patch, "/admin/orders/" + IntText(id) + "/status", [("status", Str(status))]))
    case AdminGetUsers => Some(Plain(Get, "/admin/users", []))
    case AdminGetOrderById(_) => None
  }

  /** The cart bodies: an add carries `product_id` and `quantity`, a remove
      only `product_id`. */
  lemma CartBodies(productId: int, quantity: int)
    ensures RequestOf(Call.AddToCart(productId, quantity)).value.verb == Post
    ensures Keys(RequestOf(Call.AddToCart(productId, quantity)).value.body) == ["product_id", "quantity"]
    ensures RequestOf(Call.AddToCart(productId, quantity)).value.body
      == [("product_id", Num(productId)), ("quantity", Num(quantity))]
    ensures RequestOf(Call.RemoveFromCart(productId)).value.body == [("product_id", Num(productId))]
  {
  }

  /** `createOrder` sends a single `currency` member, "INR" unless told
      otherwise. */
  lemma CreateOrderBody(argument: Option<OrderArgument>)
    ensures RequestOf(CreateOrder(argument)).value.path == "/orders"
    ensures Keys(RequestOf(CreateOrder(argument)).value.body) == ["currency"]
    ensures argument.None? ==> RequestOf(CreateOrder(argument)).value.body == [("currency", Str("INR"))]
  {
  }

  /** A GET carries no body, and only the product listing carries query
      parameters, those of `ProductsParams`. */
  lemma RequestShapes(c: Call)
    requires !Undefined(c)
    ensures RequestOf(c).value.verb == Get ==> RequestOf(c).value.body == []
    ensures c.GetProducts? ==> RequestOf(c).value.params == ProductsParams(c.query, c.page, c.limit)
    ensures !c.GetProducts? ==> RequestOf(c).value.params == []
  {
  }

  /** Different order ids never share a detail path or a cancel path, and
      no cancel path is a detail path. */
  lemma OrderPathsDistinct(a: int, b: int)
    ensures a != b ==> RequestOf(GetOrder(a)).value.path != RequestOf(GetOrder(b)).value.path
    ensures a != b ==> RequestOf(CancelOrder(a)).value.path != RequestOf(CancelOrder(b)).value.path
    ensures RequestOf(CancelOrder(a)).value.path != RequestOf(GetOrder(b)).value.path
  {
    var pre := "/orders/";
    var ga, gb := RequestOf(GetOrder(a)).value.path, RequestOf(GetOrder(b)).value.path;
    var ca, cb := RequestOf(CancelOrder(a)).value.path, RequestOf(CancelOrder(b)).value.path;
    if ga == gb {
      assert IntText(a) == ga[|pre|..] == gb[|pre|..] == IntText(b);
      IntTextInjective(a, b);
    }
    if ca == cb {
      assert IntText(a) == ca[|pre|..|ca| - 7] == cb[|pre|..|cb| - 7] == IntText(b);
      IntTextInjective(a, b);
    }
    NoSlashInIntText(b);
    if |ca| == |gb| {
      assert ca[|ca| - 7] == '/';
      assert gb[|ca| - 7] == IntText(b)[|ca| - 7 - |pre|];
    }
  }

  lemma NoSlashInIntText(i: int)
    ensures forall k :: 0 <= k < |IntText(i)| ==> IntText(i)[k] != '/'
  {
    var t := IntText(i);
    if i < 0 {
      assert t == "-" + NatText(-i);
      assert forall k :: 1 <= k < |t| ==> t[k] == NatText(-i)[k - 1];
    }
  }
}
