/** The admin dashboard (src/pages/Admin/Dashboard.tsx): three parallel
    requests yield the product, order and user counts and the revenue. */
module Dashboard {
  import opened Wrappers
  import opened Text
  import opened Types
  import opened Api

  datatype Stats = Stats(totalProducts: int, totalOrders: int, totalUsers: int, totalRevenue: int)

  const NoStats := Stats(0, 0, 0, 0)

  /** `orders.reduce((sum, order) => sum + order.total, 0)`: folded from the
      left, so the last order is added last. */
  function Revenue(orders: seq<Order>): (r: int)
    ensures orders == [] ==> r == 0
    ensures |orders| == 1 ==> r == orders[0].total
  {
    if orders == [] then 0 else Revenue(orders[..|orders| - 1]) + orders[|orders| - 1].total
  }

  /** The revenue of two runs of orders is the sum of their revenues, so it
      does not depend on how the list is split. */
  lemma {:induction false} RevenueAppend(a: seq<Order>, b: seq<Order>)
    ensures Revenue(a + b) == Revenue(a) + Revenue(b)
    decreases |b|
  {
    if b == [] {
      assert a + b == a;
    } else {
      var init := b[..|b| - 1];
      assert (a + b)[..|a + b| - 1] == a + init;
      RevenueAppend(a, init);
    }
  }

  /** With no negative totals, the revenue covers each order's total. */
  lemma {:induction false} RevenueCoversEachOrder(orders: seq<Order>, i: int)
    requires forall j :: 0 <= j < |orders| ==> orders[j].total >= 0
    requires 0 <= i < |orders|
    ensures Revenue(orders) >= orders[i].total
  {
    var a, b := orders[..i], orders[i..];
    assert orders == a + b;
    RevenueAppend(a, b);
    assert b == [orders[i]] + b[1..];
    RevenueAppend([orders[i]], b[1..]);
    RevenueNonNegative(a);
    RevenueNonNegative(b[1..]);
  }

  lemma {:induction false} RevenueNonNegative(orders: seq<Order>)
    requires forall j :: 0 <= j < |orders| ==> orders[j].total >= 0
    ensures Revenue(orders) >= 0
  {
    if orders != [] {
      RevenueNonNegative(orders[..|orders| - 1]);
    }
  }

  /** The stats for three successful replies: a missing list counts as
      empty. */
  function StatsOf(products: Option<seq<Product>>, orders: Option<seq<Order>>, users: Option<seq<User>>): (s: Stats)
    ensures s.totalProducts == |products.GetOr([])| && s.totalUsers == |users.GetOr([])|
    ensures s.totalOrders == |orders.GetOr([])| && s.totalRevenue == Revenue(orders.GetOr([]))
    ensures products.None? && orders.None? && users.None? ==> s == NoStats
  {
    var o := orders.GetOr([]);
    Stats(|products.GetOr([])|, |o|, |users.GetOr([])|, Revenue(o))
  }

  /** The three requests, in the order they are started. */
  const StatsCalls := [GetProducts(Some(""), Some(1), Some(1000)), AdminGetOrders, AdminGetUsers]

  /** The empty query is falsy, so the product request asks for page 1 of
      1000 products with no `q` parameter. */
  lemma ProductRequestHasNoQuery()
    ensures RequestOf(StatsCalls[0]).value.params == [("page", "1"), ("limit", "1000")]
  {
    RequestShapes(StatsCalls[0]);
    assert NatText(10) == "10";
    assert NatText(100) == "100";
    assert NatText(1000) == "1000";
  }

  class DashboardPage {
    var stats: Stats
    var loading: bool

    constructor ()
      ensures stats == NoStats && loading
    {
      stats := NoStats;
      loading := true;
    }

    /** `fetchStats`. `Promise.all` rejects when any request fails; then the
        stats keep their value. */
    method FetchStats(products: Reply<Option<seq<Product>>>, orders: Reply<Option<seq<Order>>>, users: Reply<Option<seq<User>>>)
      returns (calls: seq<Call>)
      modifies this
      ensures calls == StatsCalls && !loading
      ensures products.Ok? && orders.Ok? && users.Ok? ==> stats == StatsOf(products.value, orders.value, users.value)
      ensures products.Err? || orders.Err? || users.Err? ==> stats == old(stats)
    {
      calls := StatsCalls;
      if products.Ok? && orders.Ok? && users.Ok? {
        var list := orders.value.GetOr([]);
        var revenue := 0;
        var i := 0;
        while i < |list|
          invariant 0 <= i <= |list|
          invariant revenue == Revenue(list[..i])
        {
          assert list[..i + 1][..i] == list[..i];
          revenue := revenue + list[i].total;
          i := i + 1;
        }
        assert list[..|list|] == list;
        stats := Stats(|products.value.GetOr([])|, |list|, |users.value.GetOr([])|, revenue);
      }
      loading := false;
    }
  }
}
