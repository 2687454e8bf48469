/**
 * The admin orders page (src/admin/Orders.jsx): the order list, the detail
 * view of a selected order, the status buttons that change an order's
 * status, the status badge and the status history timeline.
 */
module AdminOrders {
  import opened Basics

  /** An order as the page uses it (items, total, address and tracking number are only displayed). */
  datatype Order = Order(id: string, customer: string, status: string, date: string)

  const MockOrders: seq<Order> := [
    Order("ORD-2023-001", "John Smith", "delivered", "2025-05-10T14:30:00"),
    Order("ORD-2023-002", "Sarah Johnson", "processing", "2025-05-14T09:15:00"),
    Order("ORD-2023-003", "Michael Brown", "shipped", "2025-05-12T16:45:00"),
    Order("ORD-2023-004", "Emily Davis", "pending", "2025-05-15T10:30:00")]

  /** The statuses the badge knows and the detail view offers as buttons. */
  const Statuses: seq<string> := ["pending", "processing", "shipped", "delivered", "cancelled"]

  /** The badge's style: an unknown status is styled as pending. */
  function BadgeStyle(status: string): (r: string)
    ensures r in Statuses
    ensures status in Statuses ==> r == status
    ensures status !in Statuses ==> r == "pending"
  {
    if status in Statuses then status else "pending"
  }

  /** `toUpperCase` on one character, ASCII letters only. */
  function UpperChar(c: char): char
  {
    if 'a' <= c <= 'z' then (c as int - 32) as char else c
  }

  /** The badge's label: the first character upper-cased. */
  function Label(status: string): (r: string)
    ensures |r| == |status|
    ensures status != [] ==> r[0] == UpperChar(status[0]) && r[1..] == status[1..]
  {
    if status == [] then [] else [UpperChar(status[0])] + status[1..]
  }

  /** updateOrderStatus on the list: every order with the id takes the new status. */
  function StatusUpdated(orders: seq<Order>, id: string, status: string): (r: seq<Order>)
    ensures |r| == |orders|
    ensures forall i :: 0 <= i < |orders| ==>
              r[i] == if orders[i].id == id then orders[i].(status := status) else orders[i]
  {
    seq(|orders|, i requires 0 <= i < |orders| =>
      if orders[i].id == id then orders[i].(status := status) else orders[i])
  }

  /** The last status set wins, and an update changes nothing but statuses. */
  lemma StatusUpdatedOverwrites(orders: seq<Order>, id: string, a: string, b: string)
    ensures StatusUpdated(StatusUpdated(orders, id, a), id, b) == StatusUpdated(orders, id, b)
    ensures forall i :: 0 <= i < |orders| ==> StatusUpdated(orders, id, a)[i].(status := orders[i].status) == orders[i]
  {
  }

  /** One line of the status history: its title and the time after the
      order date it shows, in milliseconds (`None`: the current time). */
  datatype Entry = Entry(title: string, offset: Option<int>)

  /** The status history of an order with the given status. */
  function Timeline(status: string): (r: seq<Entry>)
    ensures |r| >= 1 && r[0] == Entry("Order Placed", Some(0))
    ensures Entry("Processing Started", Some(3600000)) in r <==> status != "pending"
    ensures Entry("Shipped", Some(86400000)) in r <==> status == "shipped" || status == "delivered"
    ensures Entry("Delivered", Some(259200000)) in r <==> status == "delivered"
    ensures Entry("Cancelled", None) in r <==> status == "cancelled"
  {
    [Entry("Order Placed", Some(0))]
    + (if status != "pending" then [Entry("Processing Started", Some(3600000))] else [])
    + (if status == "shipped" || status == "delivered" then [Entry("Shipped", Some(86400000))] else [])
    + (if status == "delivered" then [Entry("Delivered", Some(259200000))] else [])
    + (if status == "cancelled" then [Entry("Cancelled", None)] else [])
  }

  /** The timestamped lines appear in time order. */
  lemma TimelineInTimeOrder(status: string)
    ensures var t := Timeline(status);
            forall i, j :: 0 <= i < j < |t| && t[i].offset.Some? && t[j].offset.Some? ==>
              t[i].offset.value < t[j].offset.value
  {
  }

  /** The tracking map is shown when toggled on for a shipped or delivered order. */
  predicate ShowsTrackingMap(showMap: bool, status: string)
  {
    showMap && (status == "shipped" || status == "delivered")
  }

  /** The map is shown exactly for a toggled-on order whose history has a "Shipped" line;
      setting a status other than shipped or delivered hides it. */
  lemma TrackingMapFollowsShipment(showMap: bool, orders: seq<Order>, id: string, status: string, i: nat)
    requires i < |orders| && orders[i].id == id
    ensures ShowsTrackingMap(showMap, orders[i].status) <==>
              showMap && Entry("Shipped", Some(86400000)) in Timeline(orders[i].status)
    ensures status != "shipped" && status != "delivered" ==>
              !ShowsTrackingMap(showMap, StatusUpdated(orders, id, status)[i].status)
  {
  }

  /** The page state. */
  class OrdersAdmin {
    var orders: seq<Order>
    var selected: Option<Order>
    var showMap: bool

    /** The detail view shows an order of the list. */
    predicate SelectionListed()
      reads this
    {
      selected.Some? ==> selected.value in orders
    }

    constructor ()
      ensures orders == MockOrders && selected == None && !showMap
      ensures SelectionListed()
    {
      orders := MockOrders;
      selected := None;
      showMap := false;
    }

    /** A row or its "View Details" button. */
    method Select(order: Order)
      requires order in orders
      modifies this`selected
      ensures selected == Some(order) && SelectionListed()
    {
      selected := Some(order);
    }

    /** "Back to orders". */
    method Back()
      modifies this`selected
      ensures selected == None && SelectionListed()
    {
      selected := None;
    }

    method ToggleMap()
      modifies this`showMap
      ensures showMap == !old(showMap)
    {
      showMap := !showMap;
    }

    /** A status button: the list and, when it is the order shown, the detail view. */
    method UpdateOrderStatus(id: string, status: string)
      modifies this`orders, this`selected
      ensures orders == StatusUpdated(old(orders), id, status)
      ensures old(selected).Some? && old(selected).value.id == id ==>
                selected == Some(old(selected).value.(status := status))
      ensures !(old(selected).Some? && old(selected).value.id == id) ==> selected == old(selected)
      ensures old(SelectionListed()) ==> SelectionListed()
    {
      var before := orders;
      orders := StatusUpdated(orders, id, status);
      if selected.Some? && selected.value.id == id {
        var shown := selected.value;
        selected := Some(shown.(status := status));
        if shown in before {
          var k :| 0 <= k < |before| && before[k] == shown;
          assert orders[k] == selected.value;
        }
      } else if selected.Some? && selected.value in before {
        var k :| 0 <= k < |before| && before[k] == selected.value;
        assert orders[k] == selected.value;
      }
    }
  }
}
