/** Client-side navigation: a target path and the `state` object that
    react-router hands to the next page; and the toasts pages raise. */
module Navigation {
  import opened Wrappers
  import opened Types

  /** The record the checkout page hands to the confirmation page. */
  datatype HandOff = HandOff(
    paymentMethod: string,
    transactionId: Option<string>,
    shipping: Shipping,
    status: string,
    items: seq<CartLine>,
    total: int)

  datatype NavState =
    | NoState
    | EmailState(email: string)
    | ConfirmationState(handOff: HandOff)

  datatype Nav = Nav(path: string, state: NavState)

  /** A toast: its kind and text. */
  datatype Notice =
    | ErrorNotice(text: string)
    | SuccessNotice(text: string)
    | InfoNotice(text: string)
    | WarnNotice(text: string)

  /** `navigate(path)` without a state object. */
  function Go(path: string): Nav {
    Nav(path, NoState)
  }

  /** `(location.state as any)?.email || ''`: the e-mail a page reads from
      the state it was opened with. */
  function StateEmail(state: NavState): (email: string)
    ensures state.EmailState? ==> email == state.email
    ensures !state.EmailState? ==> email == ""
  {
    if state.EmailState? then state.email else ""
  }
}
