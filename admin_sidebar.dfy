/** The admin sidebar (src/components/Layout/AdminSidebar.tsx): four fixed
    entries, the highlight rule for the current path, and logout. */
module AdminSidebar {
  import opened Wrappers
  import opened Text
  import opened Session

  datatype Entry = Entry(name: string, href: string)

  const Dashboard := "/admin"

  /** The entries, in display order. */
  const Entries: seq<Entry> := [
    Entry("Dashboard", "/admin"),
    Entry("Products", "/admin/products"),
    Entry("Orders", "/admin/orders"),
    Entry("Users", "/admin/users")
  ]

  /** `isActive(path)`: the dashboard only on an exact match, every other
      entry on a prefix match. */
  predicate IsActive(pathname: string, path: string): (active: bool)
    ensures active ==> StartsWith(pathname, path)
  {
    if path == Dashboard then pathname == path else StartsWith(pathname, path)
  }

  /** The names of the highlighted entries, in display order. */
  function ActiveNames(pathname: string): (names: seq<string>)
    ensures |names| <= |Entries|
    ensures forall e :: e in Entries && IsActive(pathname, e.href) ==> e.name in names
    ensures forall n :: n in names ==> exists e :: e in Entries && e.name == n && IsActive(pathname, e.href)
  {
    (if IsActive(pathname, Entries[0].href) then [Entries[0].name] else [])
    + (if IsActive(pathname, Entries[1].href) then [Entries[1].name] else [])
    + (if IsActive(pathname, Entries[2].href) then [Entries[2].name] else [])
    + (if IsActive(pathname, Entries[3].href) then [Entries[3].name] else [])
  }

  /** On any path at most one entry is highlighted: the dashboard needs the
      exact path "/admin", and no two section prefixes fit the same path. */
  lemma AtMostOneActive(pathname: string)
    ensures |ActiveNames(pathname)| <= 1
  {
    var p, o, u := Entries[1].href, Entries[2].href, Entries[3].href;
    if pathname == Dashboard {
      assert !StartsWith(pathname, p) && !StartsWith(pathname, o) && !StartsWith(pathname, u);
    } else {
      assert !IsActive(pathname, Entries[0].href);
      if StartsWith(pathname, p) {
        assert pathname[7] == 'p';
        assert !StartsWith(pathname, o) by { assert o[7] == 'o'; }
        assert !StartsWith(pathname, u) by { assert u[7] == 'u'; }
      } else if StartsWith(pathname, o) {
        assert pathname[7] == 'o';
        assert !StartsWith(pathname, u) by { assert u[7] == 'u'; }
      }
    }
  }

  /** On the orders page, Orders is highlighted and Dashboard is not. */
  lemma OrdersPageHighlightsOrders()
    ensures ActiveNames("/admin/orders") == ["Orders"]
  {
    var p := "/admin/orders";
    assert !StartsWith(p, "/admin/products") by { assert p[7] != "/admin/products"[7]; }
    assert !StartsWith(p, "/admin/users") by { assert p[7] != "/admin/users"[7]; }
    assert StartsWith(p, "/admin/orders");
  }

  /** The logout button logs out and stays on the page. */
  method HandleLogout(auth: AuthStore)
    modifies auth, auth.browser
    ensures auth.user == None && auth.token == None
    ensures auth.browser.storage == LoggedOut(old(auth.browser.storage))
    ensures auth.browser.href == old(auth.browser.href) && auth.loading == old(auth.loading)
  {
    auth.Logout();
  }
}
