# JayaStores storefront — a Dafny model of its client-side logic

JayaStores is a React storefront for an Indian shop. Its browser code holds
no algorithms. What it does hold are small, precise rules about client state:

- the **cart mirror**, which is replaced wholesale by the server's list after every successful call;
- the **session store**, which keeps the bearer token and the signed-in user in `localStorage` and restores them on reload;
- the shared HTTP client's two **interceptors** (attach the token; forget the session on a 401);
- **checkout**, the **payment callback** and the **order confirmation** hand-off;
- the customer's and the administrator's **order lists**;
- the **registration** and **password-reset** flows;
- and a handful of small views: the cart line, the navbar badge and search box, the admin sidebar, the product page, the dashboard and the chat widget.

This project models each of these in Dafny, one module per source file, and
proves what the code promises about them.

- **The server is an input.** Every awaited backend call is a `Reply<T>`, which is either the response body or an `ApiError` with an optional status and message. The caller of a modelled operation supplies it. Each operation returns the request it issued (an `Api.Call`), or `None` when it issues none. `Api.RequestOf` gives each call its verb, path, query and JSON body.
- **The browser is a class.** `localStorage` and `window.location.href` are the fields of `Storage.Browser`. They are updated only through `SetItem` and `RemoveItem`.
- **React state is a class.** Each stateful context or page is a class whose fields are its `useState` variables. Each handler is a method with a `modifies` clause, and its `ensures` give the whole new state.
  - A flag that is true only while a call is in flight (`loading`, `isLoading`, `processingOrderId`) is returned as its value at the moment the call is issued.
  - A navigation is returned as a `Navigation.Nav`: a path plus the router state it carries.
  - A toast is returned as a `Navigation.Notice`.
- **Pure logic is functions.** Labels, guards, the cart total, the search filter and the callback's case split are functions or predicates. The lemmas beside them relate them to independent definitions or to one another.

Modules: `Wrappers`, `Text` (the JavaScript string operations used), `Types`,
`Json`, `Storage`, `Api`, `Navigation`, `Cart`, `Session`, `CartItemView`,
`Navbar`, `AdminSidebar`, `Checkout`, `PaymentCallback`, `OrderConfirmation`,
`Orders`, `OrdersManagement`, `ProductDetails`, `Register`,
`VerifyRegistrationOtp`, `ForgotPassword`, `VerifyOtp`, `ResetPassword`,
`Dashboard` and `Chatbot`.

## Model

| member | source | states |
|---|---|---|
| Api.ErrorText | src/context/AuthContext.tsx:48 | the server's message when it sent a non-empty one, the fallback otherwise; never empty for a non-empty fallback |
| Api.Rethrow | src/context/CartContext.tsx:44-46 | a context call fails exactly when its reply is an error, and then carries `ErrorText` of that error and the context's fallback |
| Api.WithBearer | src/services/api.ts:12-18 | `Authorization` is set to `Bearer <token>` exactly when a non-empty token is stored; every other header is kept as it was |
| Api.OnResponseError | src/services/api.ts:21-31 | a 401 removes "token" and "user" and sets the location to /login; any other error changes nothing; the original error is always rejected again |
| Api.NoBearerAfterUnauthorized | src/services/api.ts:24-27 | once the 401 handler has run, no request carries a bearer header |
| Api.ProductsParams | src/services/api.ts:63-69 | `q` comes first and only for a non-empty query; then `page` and `limit`, defaulting to 1 and 20 |
| Api.RequestOf | src/services/api.ts:34-171 | a call has a request exactly when its wrapper exists in the client; the registration calls and `getOrderById` have none |
| Api.CartBodies | src/services/api.ts:86-94 | add-to-cart posts `product_id` and `quantity` to /cart/add; remove posts only `product_id` to /cart/remove |
| Api.CreateOrderBody | src/services/api.ts:99-101 | create-order posts to /orders a body whose only member is `currency`, "INR" when no argument is given |
| Api.RequestShapes | src/services/api.ts:62-171 | a GET carries no body, and only `getProducts` carries query parameters, those of `ProductsParams` |
| Api.OrderPathsDistinct | src/services/api.ts:109-116 | different order ids give different detail and cancel paths, and a detail path is never a cancel path |
| Json.StoredTextsAreObjects | src/context/AuthContext.tsx:43-44 | the stored user text and the parked registration text are object literals, so they are non-empty and never "undefined" |
| Storage.Browser.GetItem | src/context/AuthContext.tsx:22-23 | the stored value exactly when the key is present, `null` otherwise |
| Storage.Browser.SetItem | src/context/AuthContext.tsx:43-44 | the key now holds the value; every other key and the location are unchanged |
| Storage.Browser.RemoveItem | src/context/AuthContext.tsx:31 | the key is gone; every other key and the location are unchanged |
| Text.TrimStart | src/components/Layout/Navbar.tsx:25 | a suffix not starting with white space, with only white space dropped |
| Text.TrimEnd | src/components/Layout/Navbar.tsx:25 | a prefix not ending with white space, with only white space dropped |
| Text.Trim | src/components/Layout/Navbar.tsx:25 | the input with exactly its leading and trailing white space removed: a contiguous piece of it, everything before and after it white space, and neither end of it white space |
| Text.TrimEmptyIffBlank | src/components/Chatbot/Chatbot.tsx:36 | a text trims to "" exactly when it is all white space |
| Text.TrimIdempotent | src/components/Layout/Navbar.tsx:25-27 | trimming twice is trimming once |
| Navigation.StateEmail | src/pages/Auth/ResetPassword.tsx:8 | the e-mail in the router state, or "" when the state carries none |
| Cart.Total | src/context/CartContext.tsx:70 | the total of an empty cart is 0, and it is never negative for non-negative lines |
| Cart.SumAppend | src/context/CartContext.tsx:70 | the subtotal sum of two runs of lines is the sum of their sums |
| Cart.TotalIsSum | src/context/CartContext.tsx:70 | the left-fold `total` equals the sum of price × quantity over the lines |
| Cart.UpdateRoute | src/context/CartContext.tsx:58-64 | a quantity ≤ 0 becomes a remove; any other becomes an add of that absolute quantity, never current + q |
| Cart.ReplayIsLastSuccess | src/context/CartContext.tsx:21-56 | after any run of calls the cart is the list of the last successful reply, or unchanged when all failed |
| Cart.ReplayForgetsStart | src/context/CartContext.tsx:26 | once one call has succeeded, the starting cart no longer matters: nothing is ever merged |
| Cart.CartStore.constructor | src/context/CartContext.tsx:18 | the cart starts empty |
| Cart.CartStore.FetchCart | src/context/CartContext.tsx:21-30 | without a user there is no call and no change; with one, GET /cart and the cart becomes the reply's list, unchanged on failure, nothing thrown |
| Cart.CartStore.OnUserChanged | src/context/CartContext.tsx:32-38 | no user empties the cart without a call; a user fetches it |
| Cart.CartStore.AddToCart | src/context/CartContext.tsx:40-47 | posts the add; success replaces the cart, failure keeps it and rethrows with 'Failed to add to cart' as fallback |
| Cart.CartStore.RemoveFromCart | src/context/CartContext.tsx:49-56 | posts the remove; success replaces the cart, failure keeps it and rethrows with 'Failed to remove from cart' as fallback |
| Cart.CartStore.UpdateQuantity | src/context/CartContext.tsx:58-64 | issues the routed call and behaves as that add or remove |
| Cart.CartStore.ClearCart | src/context/CartContext.tsx:66-68 | the cart becomes empty, with no call |
| Session.FieldOrEmpty | src/context/AuthContext.tsx:73-75 | the stored value, or "" when the key is absent |
| Session.SignInSurvivesReload | src/context/AuthContext.tsx:21-46 | what a sign-in stores passes the startup test, and later requests carry its token |
| Session.LogoutIsFinal | src/context/AuthContext.tsx:102-107 | after logout nothing is restored and no token is sent; a second logout changes nothing |
| Session.AuthStore.constructor | src/context/AuthContext.tsx:17-19 | no user, no token, loading |
| Session.AuthStore.Restore | src/context/AuthContext.tsx:21-35 | restores only when both keys hold non-empty text and the user text is not "undefined"; a corrupt user text removes only "user" and keeps the token; loading ends false on every path |
| Session.AuthStore.Login | src/context/AuthContext.tsx:38-51 | success writes token and user JSON to storage and state; failure writes nothing and rethrows with 'Unable to sign in. Please try again.' |
| Session.AuthStore.Register | src/context/AuthContext.tsx:54-69 | the three registration keys are written only after the OTP call succeeds |
| Session.AuthStore.CompleteRegistration | src/context/AuthContext.tsx:71-99 | a missing or empty key means no call and 'Unable to complete registration. Please try again.'; success signs in and removes the three keys; failure changes nothing |
| Session.AuthStore.Logout | src/context/AuthContext.tsx:102-107 | removes "token" and "user" and clears both fields |
| CartItemView.MinusCall | src/components/Cart/CartItem.tsx:45 | the minus button removes a line at quantity 1 and otherwise adds quantity − 1 |
| CartItemView.PlusCall | src/components/Cart/CartItem.tsx:52 | the plus button adds quantity + 1 for any line with a non-negative quantity |
| CartItemView.RemoveCall | src/components/Cart/CartItem.tsx:21-23 | the bin removes this line's product only |
| CartItemView.ButtonsAreNeighbours | src/components/Cart/CartItem.tsx:45-52 | above quantity 1 the two buttons ask for the same product, two apart |
| CartItemView.HandleQuantityChange | src/components/Cart/CartItem.tsx:13-19 | issues the routed update for the new quantity; the cart ends as that reply leaves it and no error reaches the caller |
| CartItemView.HandleRemove | src/components/Cart/CartItem.tsx:21-27 | removes this line's product; the cart ends as that reply leaves it and no error reaches the caller |
| Navbar.ItemsCount | src/components/Layout/Navbar.tsx:16 | the badge count is 0 for an empty cart, the line's quantity for a single line, and at least the number of lines when quantities are positive |
| Navbar.ItemsCountAppend | src/components/Layout/Navbar.tsx:16 | the count of two runs of lines is the sum of their counts, so the count is the sum of all quantities |
| Navbar.BadgeShown | src/components/Layout/Navbar.tsx:68 | the badge is drawn only for a positive count |
| Navbar.BadgeIffNonEmpty | src/components/Layout/Navbar.tsx:68 | with positive quantities the badge shows exactly when the cart is non-empty |
| Navbar.QueryFromParams | src/components/Layout/Navbar.tsx:19 | the `q` parameter, or "" |
| Navbar.ParamsForQuery | src/components/Layout/Navbar.tsx:25-27 | a blank box clears the parameters; otherwise they are exactly `{q: trimmed}` |
| Navbar.SearchRoundTrip | src/components/Layout/Navbar.tsx:18-28 | writing the box to the URL and reading it back gives the trimmed text, and writing that again changes nothing |
| Navbar.SearchBox.constructor | src/components/Layout/Navbar.tsx:9 | the box starts empty over the current parameters |
| Navbar.SearchBox.Type | src/components/Layout/Navbar.tsx:9 | sets the box's text only; the URL is untouched until the debounce fires |
| Navbar.SearchBox.OnParamsChanged | src/components/Layout/Navbar.tsx:18-21 | the box takes the URL's query |
| Navbar.SearchBox.OnDebounce | src/components/Layout/Navbar.tsx:23-31 | the parameters become those for the box's text |
| Navbar.HandleLogout | src/components/Layout/Navbar.tsx:33-36 | logs out, then navigates to /login; the loading flag and the browser location are unchanged |
| AdminSidebar.IsActive | src/components/Layout/AdminSidebar.tsx:17-20 | the dashboard entry on an exact match, the others on a prefix match; a highlighted entry's href always begins the path |
| AdminSidebar.ActiveNames | src/components/Layout/AdminSidebar.tsx:10-20 | exactly the highlighted entries' names are listed (each listed name belongs to a highlighted entry, and each highlighted entry is listed), never more than the four entries |
| AdminSidebar.AtMostOneActive | src/components/Layout/AdminSidebar.tsx:17-20 | on any path at most one entry is highlighted |
| AdminSidebar.OrdersPageHighlightsOrders | src/components/Layout/AdminSidebar.tsx:10-20 | on /admin/orders, Orders and only Orders is highlighted |
| AdminSidebar.HandleLogout | src/components/Layout/AdminSidebar.tsx:53 | logs out without navigating: the browser location and the loading flag are unchanged |
| Checkout.ShippingComplete | src/pages/User/Checkout.tsx:26-34 | the seven required address fields are non-empty; the second address line is optional |
| Checkout.CanCheckout | src/pages/User/Checkout.tsx:51 | an address is loaded and the cart is non-empty |
| Checkout.RendersNothing | src/pages/User/Checkout.tsx:92 | nothing is rendered before an address is loaded or once an order is created |
| Checkout.ButtonDisabled | src/pages/User/Checkout.tsx:194 | the button is disabled while loading or for an empty cart |
| Checkout.EnabledButtonPassesGuard | src/pages/User/Checkout.tsx:51 | whenever the page renders an enabled button, the checkout guard lets the call through |
| Checkout.HandOffFor | src/pages/User/Checkout.tsx:73-80 | status is 'pending' exactly for cod and 'paid' otherwise; a transaction id exactly for upi; items, total and shipping handed on unchanged |
| Checkout.CheckoutPage.constructor | src/pages/User/Checkout.tsx:15-19 | no shipping, not loading, cod, no transaction id, no order created |
| Checkout.CheckoutPage.FetchShipping | src/pages/User/Checkout.tsx:22-47 | only a complete address is kept; an incomplete one or a failed fetch goes to /profile and leaves shipping as it was |
| Checkout.CheckoutPage.ChoosePaymentMethod | src/pages/User/Checkout.tsx:17 | sets the payment method only |
| Checkout.CheckoutPage.EnterTransactionId | src/pages/User/Checkout.tsx:18 | sets the transaction id only |
| Checkout.CheckoutPage.HandleCheckout | src/pages/User/Checkout.tsx:50-89 | no call without shipping or with an empty cart; on success the order is marked created and the cart is cleared for every method, and when the response carries an id the hand-off goes to /order-confirmation/<id>; on failure neither the cart nor the page changes; loading is true during the call and false after |
| PaymentCallback.Decide | src/pages/User/PaymentCallback.tsx:14-53 | no order id means no call; otherwise exactly one GET /orders/<id>; the target is /order-confirmation/<id> exactly when the status is 'paid', else /checkout; the toast is the success one for 'paid', the failure one for 'failed', 'Payment status: <status>' for any other status, 'Order not found' for a missing order and the retry message for a failed fetch |
| PaymentCallback.CallbackPage.constructor | src/pages/User/PaymentCallback.tsx:10 | the page starts loading |
| PaymentCallback.CallbackPage.VerifyPayment | src/pages/User/PaymentCallback.tsx:12-56 | the page ends with that one decision and loading false |
| OrderConfirmation.ViewOf | src/pages/User/OrderConfirmation.tsx:19-20 | without router state every field is absent; with it, each field is the handed-off one |
| OrderConfirmation.MethodLabel | src/pages/User/OrderConfirmation.tsx:38 | the upper-cased method, or 'N/A' when there is none |
| OrderConfirmation.ShowsTransaction | src/pages/User/OrderConfirmation.tsx:40-42 | the transaction line is drawn only for a non-empty id |
| OrderConfirmation.StatusLabel | src/pages/User/OrderConfirmation.tsx:44 | 'Pending' only for the status 'pending', 'Paid' otherwise |
| OrderConfirmation.ShowsItems | src/pages/User/OrderConfirmation.tsx:48 | the items table is drawn only for a non-empty list |
| OrderConfirmation.Rows | src/pages/User/OrderConfirmation.tsx:60-66 | one row per item, whose subtotal is price × quantity |
| OrderConfirmation.ColumnTotalIsSum | src/pages/User/OrderConfirmation.tsx:65 | the subtotal column adds up to the cart total |
| OrderConfirmation.CheckoutHandOffRendering | src/pages/User/OrderConfirmation.tsx:38-74 | a checkout hand-off shows the upper-cased method, the transaction line only for upi, 'Pending' only for cod, the items and the handed-off total |
| OrderConfirmation.StatelessVisitShowsDefaults | src/pages/User/OrderConfirmation.tsx:38-48 | a visit without state shows 'N/A', 'Paid', no transaction line and no items |
| OrderConfirmation.PaidCallbackRendering | src/pages/User/OrderConfirmation.tsx:19-44 | a paid callback lands on the confirmation without state, so it shows 'N/A' and 'Paid' |
| Orders.Detailed | src/pages/User/Orders.tsx:18-23 | the merge succeeds exactly when every detail call does; it keeps length and order and gives each order its own items or [] |
| Orders.DetailCalls | src/pages/User/Orders.tsx:19-20 | one detail request per order, in list order |
| Orders.CancelInList | src/pages/User/Orders.tsx:73-75 | only orders with the matching id become 'cancelled'; all others are unchanged |
| Orders.CancelIsFinal | src/pages/User/Orders.tsx:73-75 | cancelling twice is cancelling once; a cancelled order shows no cancel button; ids are untouched |
| Orders.ShowsCancelButton | src/pages/User/Orders.tsx:161 | the cancel button is offered only for a pending order |
| Orders.CancelDisabled | src/pages/User/Orders.tsx:169 | the button is disabled while that order's cancel is in flight |
| Orders.StatusColor | src/pages/User/Orders.tsx:51-64 | the badge class of each status, grey for any other |
| Orders.StatusColorsDistinct | src/pages/User/Orders.tsx:51-64 | the four statuses and the default map to five different classes |
| Orders.StatusLabel | src/pages/User/Orders.tsx:131 | the status with its first letter upper-cased |
| Orders.StatusLabels | src/pages/User/Orders.tsx:131 | the four statuses read Pending, Shipped, Delivered, Cancelled |
| Orders.OrdersPage.constructor | src/pages/User/Orders.tsx:8-10 | no orders, loading, nothing processing |
| Orders.OrdersPage.FetchOrders | src/pages/User/Orders.tsx:12-33 | issues the list request and one detail request per order; orders become the merged list, or stay as they were on any failure; loading ends false |
| Orders.OrdersPage.HandleCancelOrder | src/pages/User/Orders.tsx:66-84 | a declined prompt means no call; otherwise the order id is processing during the call and none after; success cancels only that order; failure changes no order |
| OrdersManagement.Matches | src/pages/Admin/OrdersManagement.tsx:22-28 | the id's text contains the query as typed, or the lower-cased customer or status contains the lower-cased query; the empty query and the order's own id always match |
| OrdersManagement.FilterOrders | src/pages/Admin/OrdersManagement.tsx:22-28 | an order-preserving subsequence holding exactly the orders that match the query; a single order is kept exactly when it matches |
| OrdersManagement.FilterAppend | src/pages/Admin/OrdersManagement.tsx:22-28 | filtering distributes over concatenation, so every matching order is kept once per occurrence, in place |
| OrdersManagement.EmptyQueryKeepsAll | src/pages/Admin/OrdersManagement.tsx:22-28 | the empty query keeps every order |
| OrdersManagement.FindOrder | src/pages/Admin/OrdersManagement.tsx:47 | the first order with the id (no earlier order has it), or none exactly when no order has it |
| OrdersManagement.UpdateBlocked | src/pages/Admin/OrdersManagement.tsx:47-48 | an update is refused only when an order with that id is cancelled, and never when no order is cancelled |
| OrdersManagement.DropdownDisabled | src/pages/Admin/OrdersManagement.tsx:152 | the status dropdown is disabled for a cancelled order |
| OrdersManagement.DisabledDropdownMatchesGuard | src/pages/Admin/OrdersManagement.tsx:152 | with distinct ids, a row's dropdown is disabled exactly when an update of that order would be refused |
| OrdersManagement.CancelledByLabel | src/pages/Admin/OrdersManagement.tsx:164 | 'Cancelled by admin' exactly when `cancelled_by` is 'admin', 'Cancelled by user' otherwise |
| OrdersManagement.PaymentMethodLabel | src/pages/Admin/OrdersManagement.tsx:236 | the method, or 'COD' when there is none |
| OrdersManagement.PaymentStatusLabel | src/pages/Admin/OrdersManagement.tsx:237 | 'Paid' exactly when `payment_status` is 'paid', 'Pending' otherwise |
| OrdersManagement.OrdersManagementPage.constructor | src/pages/Admin/OrdersManagement.tsx:9-16 | empty lists, loading, empty query, modal closed |
| OrdersManagement.OrdersManagementPage.FetchOrders | src/pages/Admin/OrdersManagement.tsx:31-40 | orders become the reply's list or [], unchanged on failure; the filtered list follows; loading ends false |
| OrdersManagement.OrdersManagementPage.SetSearchQuery | src/pages/Admin/OrdersManagement.tsx:22-29 | the filtered list is recomputed for the new query |
| OrdersManagement.OrdersManagementPage.UpdateOrderStatus | src/pages/Admin/OrdersManagement.tsx:42-61 | a cancelled order gets a warning and no call; otherwise the update is sent; a failure shows 'Failed to update order status' and keeps the list; a success fetches the list again |
| OrdersManagement.OrdersManagementPage.HandleViewOrder | src/pages/Admin/OrdersManagement.tsx:78-88 | success selects the response's order and opens the modal; failure shows 'Cannot fetch order details' and changes nothing |
| OrdersManagement.OrdersManagementPage.CloseModal | src/pages/Admin/OrdersManagement.tsx:90-93 | clears the selection and closes the modal |
| ProductDetails.ShowsControls | src/pages/User/ProductDetails.tsx:93 | the quantity and add controls are shown only to a signed-in user |
| ProductDetails.AddDisabled | src/pages/User/ProductDetails.tsx:115 | the add button is disabled when the stock is 0 |
| ProductDetails.QuantityOptions | src/pages/User/ProductDetails.tsx:105-109 | the options are 1 through min(stock, 10) |
| ProductDetails.OptionsWithinStock | src/pages/User/ProductDetails.tsx:105-109 | every option is between 1 and 10 and within stock; there are none exactly when stock is 0 |
| ProductDetails.ProductPage.constructor | src/pages/User/ProductDetails.tsx:12-14 | no product, loading, quantity 1 |
| ProductDetails.ProductPage.FetchProduct | src/pages/User/ProductDetails.tsx:18-33 | without an id nothing happens and the spinner stays; otherwise one GET and loading ends false |
| ProductDetails.ProductPage.ChooseQuantity | src/pages/User/ProductDetails.tsx:102 | sets the quantity only |
| ProductDetails.ProductPage.HandleAddToCart | src/pages/User/ProductDetails.tsx:35-44 | nothing without a product or a user; otherwise adds the chosen quantity as given and alerts success or the error's message |
| Register.PasswordVisible | src/pages/Auth/Register.tsx:23 | either toggle shows the password |
| Register.SubmitDisabled | src/pages/Auth/Register.tsx:183 | the submit button is disabled while loading or until the terms are accepted |
| Register.Redirect | src/pages/Auth/Register.tsx:28-33 | a signed-in user with no parked registration goes to /admin if admin, / otherwise |
| Register.ParkedFormSuppressesRedirect | src/pages/Auth/Register.tsx:28-33 | once a form is parked, the redirect no longer fires |
| Register.RegisterPage.constructor | src/pages/Auth/Register.tsx:9-26 | empty form, terms unchecked, no messages, not loading |
| Register.RegisterPage.Fill | src/pages/Auth/Register.tsx:59-61 | sets the form fields only |
| Register.RegisterPage.HandleSubmit | src/pages/Auth/Register.tsx:35-57 | unchecked terms set the error and make no call; success parks the form JSON and goes to verification; failure stores nothing and shows the message or 'Failed to send OTP. Please try again.' |
| VerifyRegistrationOtp.SanitizeOtp | src/pages/Auth/VerifyRegistrationOtp.tsx:95-96 | at most six characters, all digits; a short digit string is kept as typed |
| VerifyRegistrationOtp.KeepDigitsKeepsAllOnlyForDigits | src/pages/Auth/VerifyRegistrationOtp.tsx:95 | the digit filter keeps the whole text only when the text is all digits |
| VerifyRegistrationOtp.SanitizedOtpAcceptableIff | src/pages/Auth/VerifyRegistrationOtp.tsx:32-35 | a typed code passes the length check exactly when its first six characters are digits |
| VerifyRegistrationOtp.VerifyRegistrationPage.constructor | src/pages/Auth/VerifyRegistrationOtp.tsx:10-14 | empty e-mail, code and messages; not loading |
| VerifyRegistrationOtp.VerifyRegistrationPage.Load | src/pages/Auth/VerifyRegistrationOtp.tsx:17-25 | a missing parked form sets the error; a present one sets the e-mail |
| VerifyRegistrationOtp.VerifyRegistrationPage.EnterOtp | src/pages/Auth/VerifyRegistrationOtp.tsx:95 | the code becomes the sanitised text |
| VerifyRegistrationOtp.VerifyRegistrationPage.HandleVerify | src/pages/Auth/VerifyRegistrationOtp.tsx:27-61 | a code that is not six characters means no call; verification comes before completion, which uses the parked name and password with the loaded e-mail; success removes only the parked form and goes to /login without signing in; failure keeps it |
| VerifyRegistrationOtp.VerifyRegistrationPage.HandleGoBack | src/pages/Auth/VerifyRegistrationOtp.tsx:63-66 | removes the parked form and goes to /register |
| ForgotPassword.Remembered | src/pages/Auth/ForgotPassword.tsx:27 | the address is stored under 'resetPasswordEmail' and every other key is kept |
| ForgotPassword.ForgotPasswordPage.constructor | src/pages/Auth/ForgotPassword.tsx:7-10 | empty address and messages, not loading |
| ForgotPassword.ForgotPasswordPage.HandleSubmit | src/pages/Auth/ForgotPassword.tsx:18-34 | messages cleared; loading during the call only; success stores the address and goes to /verify-otp with no state; failure stores nothing and shows the message or 'Something went wrong.' |
| VerifyOtp.EmailAsWritten | src/pages/Auth/VerifyOtp.tsx:8 | the page's address comes only from router state, or is "" |
| VerifyOtp.AsWrittenLosesAddress | src/pages/Auth/VerifyOtp.tsx:8 | after the forgot-password step the page as written verifies the code for "", not for the address the code was sent to |
| VerifyOtp.ResetEmail | src/pages/Auth/ForgotPassword.tsx:27-28 | the state's address when there is one, else the remembered 'resetPasswordEmail' |
| VerifyOtp.CorrectedKeepsAddress | src/pages/Auth/ForgotPassword.tsx:27-28 | with the corrected reading the remembered address reaches the OTP request and the reset page |
| VerifyOtp.CorrectedAgreesWithState | src/pages/Auth/VerifyOtp.tsx:8 | whenever the state carries an address, the corrected reading is the one written |
| VerifyOtp.VerifyOtpPage.constructor | src/pages/Auth/VerifyOtp.tsx:8-12 | the page as written: the address comes from router state only, or is ""; empty code and messages |
| VerifyOtp.VerifyOtpPage.Corrected | src/pages/Auth/ForgotPassword.tsx:27-28 | the page opened with the corrected reading: the state's address, else the remembered 'resetPasswordEmail' |
| VerifyOtp.VerifyOtpPage.EnterOtp | src/pages/Auth/VerifyOtp.tsx:39 | the code is taken as typed, with no format check |
| VerifyOtp.VerifyOtpPage.HandleSubmit | src/pages/Auth/VerifyOtp.tsx:14-26 | always sends the code; success goes to /reset-password carrying the address; failure shows the message or 'Invalid OTP.' |
| ResetPassword.ResetPasswordPage.constructor | src/pages/Auth/ResetPassword.tsx:8-13 | the address from router state, or "" |
| ResetPassword.ResetPasswordPage.Fill | src/pages/Auth/ResetPassword.tsx:45-53 | sets the two entries only |
| ResetPassword.ResetPasswordPage.HandleSubmit | src/pages/Auth/ResetPassword.tsx:15-32 | a call is made exactly when the entries agree, otherwise 'Passwords do not match.'; success goes to /login; failure shows the message or 'Something went wrong.' |
| Dashboard.Revenue | src/pages/Admin/Dashboard.tsx:36-39 | 0 for no orders, the one total for a single order |
| Dashboard.RevenueAppend | src/pages/Admin/Dashboard.tsx:36-39 | the revenue of two runs of orders is the sum of their revenues |
| Dashboard.RevenueNonNegative | src/pages/Admin/Dashboard.tsx:36-39 | with no negative totals the revenue is not negative |
| Dashboard.RevenueCoversEachOrder | src/pages/Admin/Dashboard.tsx:36-39 | with no negative totals the revenue covers each order's total |
| Dashboard.StatsOf | src/pages/Admin/Dashboard.tsx:31-46 | the counts are the list lengths, a missing list counting as empty, and the revenue is that of the orders |
| Dashboard.ProductRequestHasNoQuery | src/pages/Admin/Dashboard.tsx:26 | the product request carries no `q`, page 1 and limit 1000 |
| Dashboard.DashboardPage.constructor | src/pages/Admin/Dashboard.tsx:14-20 | all four stats 0, loading |
| Dashboard.DashboardPage.FetchStats | src/pages/Admin/Dashboard.tsx:22-55 | issues the three requests; when all succeed the stats are those of the replies; any failure leaves them as they were; loading ends false |
| Chatbot.BotMessage | src/components/Chatbot/Chatbot.tsx:44-59 | a bot message: the reply, the 'could not understand' fallback for an empty one, or the connection apology on failure |
| Chatbot.ExchangeKeepsShape | src/components/Chatbot/Chatbot.tsx:38-52 | one exchange keeps the log alternating and leaves earlier messages as they were |
| Chatbot.LogAfter | src/components/Chatbot/Chatbot.tsx:14-16 | every log reachable by sends starts with the greeting |
| Chatbot.ReachableLogsWellFormed | src/components/Chatbot/Chatbot.tsx:14-62 | every reachable log is the greeting followed by user/bot pairs |
| Chatbot.ChatWidget.constructor | src/components/Chatbot/Chatbot.tsx:14-18 | the log is exactly the greeting, which is a well-formed log; empty input; not loading |
| Chatbot.ChatWidget.Type | src/components/Chatbot/Chatbot.tsx:17 | sets the input only |
| Chatbot.ChatWidget.SendMessage | src/components/Chatbot/Chatbot.tsx:35-63 | blank text changes nothing and makes no call; otherwise the untrimmed user message and then exactly one bot message are appended, the input is cleared, and loading is true during the call and false after; the log stays well formed |
| Chatbot.ChatWidget.HandleSubmit | src/components/Chatbot/Chatbot.tsx:65-68 | sends the input's text: blank input changes nothing, otherwise loading is true during the call and false after; the log stays well formed |

## Left out

- The axios transport, the base URL and the network itself are not modelled. Each call's answer is a `Reply` input. The bearer header is modelled once, as a function of storage (`Api.WithBearer`). The 401 handler is modelled once, as its own method (`Api.OnResponseError`). The page models take replies as they look after the interceptor has run, and do not re-apply its storage effect.
- `authAPI.initiateRegistrationOtp`, `verifyRegistrationOtp`, `completeRegistration` and `adminAPI.getOrderById` are called but not defined in the client. They are kept as calls without a request (`Api.Undefined`), and their outcome is an unconstrained `Reply` input.
- The shipping object that checkout hands to `createOrder` in place of the currency is carried as an opaque body value. Its serialisation is not followed.
- Rendering, CSS classes other than the status colour map, animations, scroll-into-view, and the chat window's drag and resize arithmetic are left out.
- Toasts, `alert` texts and `console.error` are modelled only where they are the visible outcome of a handler. That covers the notices of the callback, order and admin pages, and the product page's alert.
- Timers are left out. The navbar's 300 ms debounce is a separate step (`Navbar.SearchBox.OnDebounce`). The 1 s and 3 s redirects are returned as the navigation they eventually make.
- `Promise.all` is modelled as sequential calls. The admin page's re-fetch after a status update is not awaited in the code; it is modelled as completing before the handler returns.
- `JSON.parse` is an input: a parsed value, or `None` for text it rejects. `JSON.stringify` is followed for the two objects written to storage, with their keys in declaration order. Only the fact that the result is an object literal is used in proofs.
- A parked registration form that fails to parse when the verification page loads makes the load effect throw uncaught in the code. The model then leaves the page unchanged.
- The session restore takes the parsed user as an `Option`. It cannot tell a parsed `null` from a user.
- Case mapping (`toLowerCase`, `toUpperCase`) covers ASCII letters only. URL encoding of query parameters is not modelled.
- `Number(...)` coercions are not modelled. That covers route ids, select values and order totals, which are integers in the model. Money is a whole number of rupees, not floating point, and `Intl.NumberFormat` and date formatting are not modelled.
- The `PaymentCallback` page fetches through the shared client, so both interceptors apply to its request. Their effect is modelled once, in `Api.WithBearer` and `Api.OnResponseError`, as for every other page. The page is not routed in the application.
- Chat message timestamps are left out.
- The browser's form validation is not modelled: the `required` attribute and the `type="email"` format check stop a form from submitting. The five submit handlers below are modelled as if called on any field values, so their contracts also describe calls the browser never lets through.
- ForgotPassword.ForgotPasswordPage.HandleSubmit: does not model that an empty or malformed address never reaches the handler, so `SendOtp("")` is among its described calls.
- Register.RegisterPage.HandleSubmit: does not model that an empty name or password, or an empty or malformed address, never reaches the handler.
- VerifyOtp.VerifyOtpPage.HandleSubmit: does not model that an empty code never reaches the handler. The address is not a form field, so the empty address of the finding below still reaches the request.
- ResetPassword.ResetPasswordPage.HandleSubmit: does not model that two empty entries never reach the handler, so its "a request exactly when the entries agree" includes `"" == ""`, which the page never sends.
- VerifyRegistrationOtp.VerifyRegistrationPage.HandleVerify: does not model the `required` check on the code. The handler's own six-character check already refuses the empty code.
- The cart, product-grid, home, login, profile and static legal pages, and the route table, are not part of this model.

## Findings

| source | as written | input that shows it | evidently intended | confidence | as-written member | corrected member |
|---|---|---|---|---|---|---|
| src/pages/Auth/VerifyOtp.tsx:8 | The reset OTP page reads the address only from router state. The forgot-password page stores the address under 'resetPasswordEmail' and navigates to /verify-otp with no state (src/pages/Auth/ForgotPassword.tsx:27-28). Nothing reads that key. | Request a reset for "a@b.in" and enter any code: the page sends `verifyOtp("", code)`, and the reset step then also gets "". | The page falls back to the remembered 'resetPasswordEmail' when the state has no address. | high (not executed) | VerifyOtp.AsWrittenLosesAddress | VerifyOtp.CorrectedKeepsAddress |

`VerifyOtp.EmailAsWritten` is the page's reading as written, and the constructor of `VerifyOtp.VerifyOtpPage` models the page with it. `VerifyOtp.ResetEmail` is the corrected reading, and the constructor `VerifyOtp.VerifyOtpPage.Corrected` opens the page with it. `VerifyOtp.CorrectedAgreesWithState` shows that the two agree whenever the router state carries an address.
