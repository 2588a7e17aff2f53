/**
 * The admin dashboard's figures (page.tsx `loadAdminStats`) and the order
 * status labels shown in the order history.
 */
module Admin {
  import opened Optional
  import opened Entities

  datatype AdminStats = AdminStats(totalRevenue: real, totalOrders: nat, totalProducts: nat, totalUsers: nat)

  /** `orders.reduce((sum, order) => order.status === 'paid' ? sum + order.total : sum, 0)`: a fold from the left. */
  function Revenue(orders: seq<Order>): real
  {
    if orders == [] then 0.0
    else
      var last := orders[|orders| - 1];
      var before := Revenue(orders[..|orders| - 1]);
      if last.status == Paid then before + last.total else before
  }

  /** Reference definitions: the paid orders, and the sum of a list of order totals. */
  function PaidOnly(orders: seq<Order>): seq<Order>
  {
    if orders == [] then [] else (if orders[0].status == Paid then [orders[0]] else []) + PaidOnly(orders[1..])
  }

  function SumTotals(orders: seq<Order>): real
  {
    if orders == [] then 0.0 else orders[0].total + SumTotals(orders[1..])
  }

  lemma {:induction false} PaidOnlyAppend(orders: seq<Order>, last: Order)
    ensures PaidOnly(orders + [last]) == PaidOnly(orders) + (if last.status == Paid then [last] else [])
  {
    var t := if last.status == Paid then [last] else [];
    if orders == [] {
      assert orders + [last] == [last];
      assert PaidOnly([last]) == t + PaidOnly([]);
    } else {
      var h := if orders[0].status == Paid then [orders[0]] else [];
      assert (orders + [last])[0] == orders[0];
      assert (orders + [last])[1..] == orders[1..] + [last];
      PaidOnlyAppend(orders[1..], last);
      calc {
        PaidOnly(orders + [last]);
        h + PaidOnly(orders[1..] + [last]);
        h + (PaidOnly(orders[1..]) + t);
        { assert h + (PaidOnly(orders[1..]) + t) == (h + PaidOnly(orders[1..])) + t; }
        PaidOnly(orders) + t;
      }
    }
  }

  lemma {:induction false} SumTotalsAppend(a: seq<Order>, b: seq<Order>)
    ensures SumTotals(a + b) == SumTotals(a) + SumTotals(b)
  {
    if a == [] {
      assert a + b == b;
    } else {
      assert (a + b)[1..] == a[1..] + b;
      SumTotalsAppend(a[1..], b);
    }
  }

  /** Revenue is the sum of the totals of the paid orders; no other status contributes. */
  lemma {:induction false} RevenueIsPaidTotal(orders: seq<Order>)
    ensures Revenue(orders) == SumTotals(PaidOnly(orders))
  {
    if orders != [] {
      var init, last := orders[..|orders| - 1], orders[|orders| - 1];
      assert init + [last] == orders;
      RevenueIsPaidTotal(init);
      PaidOnlyAppend(init, last);
      SumTotalsAppend(PaidOnly(init), if last.status == Paid then [last] else []);
    }
  }

  /** Adding an order that is not paid, as checkout does, leaves the revenue unchanged. */
  lemma UnpaidOrderAddsNoRevenue(order: Order, orders: seq<Order>)
    requires order.status != Paid
    ensures Revenue([order] + orders) == Revenue(orders)
  {
    RevenueIsPaidTotal([order] + orders);
    RevenueIsPaidTotal(orders);
    assert ([order] + orders)[1..] == orders;
    assert PaidOnly([order] + orders) == PaidOnly(orders);
  }

  /**
   * The dashboard figures from the three queries' results, where `None` is a
   * query that returned no data: revenue over paid orders, and row counts.
   */
  function AdminStatsOf(ordersData: Option<seq<Order>>, productsData: Option<seq<Product>>, usersData: Option<seq<User>>): (s: AdminStats)
    ensures s.totalRevenue == if ordersData.Some? then SumTotals(PaidOnly(ordersData.value)) else 0.0
    ensures s.totalOrders == if ordersData.Some? then |ordersData.value| else 0
    ensures s.totalProducts == if productsData.Some? then |productsData.value| else 0
    ensures s.totalUsers == if usersData.Some? then |usersData.value| else 0
  {
    var revenue := if ordersData.Some? then RevenueIsPaidTotal(ordersData.value); Revenue(ordersData.value) else 0.0;
    AdminStats(
      revenue,
      if ordersData.Some? then |ordersData.value| else 0,
      if productsData.Some? then |productsData.value| else 0,
      if usersData.Some? then |usersData.value| else 0)
  }

  /** The label the order history shows for a status. */
  function StatusLabel(s: Status): string
  {
    if s == Paid then "Pago"
    else if s == Pending then "Pendente"
    else if s == Shipped then "Enviado"
    else if s == Delivered then "Entregue"
    else "Cancelado"
  }

  /** Different statuses are shown with different labels. */
  lemma StatusLabelInjective(s: Status, t: Status)
    ensures StatusLabel(s) == StatusLabel(t) ==> s == t
  {
  }
}
