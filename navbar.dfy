/** The navigation bar (src/components/Layout/Navbar.tsx): the cart badge,
    the search box kept in step with the `q` URL parameter, and logout. */
module Navbar {
  import opened Wrappers
  import opened Text
  import opened Types
  import opened Navigation
  import opened Session

  /** `cartItemsCount`: the quantities summed from the left. */
  function ItemsCount(cart: seq<CartLine>): (n: int)
    ensures cart == [] ==> n == 0
    ensures |cart| == 1 ==> n == cart[0].quantity
    ensures (forall i :: 0 <= i < |cart| ==> cart[i].quantity > 0) ==> n >= |cart|
  {
    if cart == [] then 0 else ItemsCount(cart[..|cart| - 1]) + cart[|cart| - 1].quantity
  }

  /** The count of two runs of lines is the sum of their counts; with the
      single-line case above this makes it the sum of all quantities. */
  lemma {:induction false} ItemsCountAppend(a: seq<CartLine>, b: seq<CartLine>)
    ensures ItemsCount(a + b) == ItemsCount(a) + ItemsCount(b)
    decreases |b|
  {
    if b == [] {
      assert a + b == a;
    } else {
      var init := b[..|b| - 1];
      assert (a + b)[..|a + b| - 1] == a + init;
      ItemsCountAppend(a, init);
    }
  }

  /** The badge is drawn only for a positive count. */
  predicate BadgeShown(cart: seq<CartLine>) {
    ItemsCount(cart) > 0
  }

  /** With the positive quantities the server keeps, the badge shows exactly
      when the cart has a line. */
  lemma BadgeIffNonEmpty(cart: seq<CartLine>)
    requires forall i :: 0 <= i < |cart| ==> cart[i].quantity > 0
    ensures BadgeShown(cart) <==> cart != []
  {
  }

  /** `searchParams.get('q') || ''` */
  function QueryFromParams(params: map<string, string>): (q: string)
    ensures "q" in params ==> q == params["q"]
    ensures "q" !in params ==> q == ""
  {
    if "q" in params then params["q"] else ""
  }

  /** The parameters the debounced effect sets for the box's text. */
  function ParamsForQuery(searchQuery: string): (p: map<string, string>)
    ensures AllSpace(searchQuery) ==> p == map[]
    ensures !AllSpace(searchQuery) ==> p == map["q" := Trim(searchQuery)] && p["q"] != ""
  {
    TrimEmptyIffBlank(searchQuery);
    var trimmed := Trim(searchQuery);
    if trimmed != "" then map["q" := trimmed] else map[]
  }

  /** Writing the box to the URL and reading it back yields the trimmed text,
      and the round trip is stable: a second write sets the same parameters. */
  lemma SearchRoundTrip(searchQuery: string)
    ensures QueryFromParams(ParamsForQuery(searchQuery)) == Trim(searchQuery)
    ensures ParamsForQuery(QueryFromParams(ParamsForQuery(searchQuery))) == ParamsForQuery(searchQuery)
  {
    TrimEmptyIffBlank(searchQuery);
    TrimIdempotent(searchQuery);
    TrimEmptyIffBlank(Trim(searchQuery));
  }

  /** The search box state and the URL parameters it writes. */
  class SearchBox {
    var searchQuery: string
    var params: map<string, string>

    constructor (params: map<string, string>)
      ensures searchQuery == "" && this.params == params
    {
      searchQuery := "";
      this.params := params;
    }

    /** The effect on a change of URL parameters. */
    method OnParamsChanged(params: map<string, string>)
      modifies this
      ensures this.params == params && searchQuery == QueryFromParams(params)
    {
      this.params := params;
      searchQuery := QueryFromParams(params);
    }

    /** Typing into the box. */
    method Type(text: string)
      modifies this
      ensures searchQuery == text && params == old(params)
    {
      searchQuery := text;
    }

    /** The debounced effect firing. */
    method OnDebounce()
      modifies this
      ensures params == ParamsForQuery(old(searchQuery)) && searchQuery == old(searchQuery)
    {
      var trimmed := Trim(searchQuery);
      if trimmed != "" {
        params := map["q" := trimmed];
      } else {
        params := map[];
      }
      TrimEmptyIffBlank(searchQuery);
    }
  }

  /** `handleLogout`: log out, then go to /login. */
  method HandleLogout(auth: AuthStore) returns (nav: Nav)
    modifies auth, auth.browser
    ensures nav == Go("/login")
    ensures auth.user == None && auth.token == None
    ensures auth.browser.storage == LoggedOut(old(auth.browser.storage))
    ensures auth.loading == old(auth.loading) && auth.browser.href == old(auth.browser.href)
  {
    auth.Logout();
    nav := Go("/login");
  }
}
