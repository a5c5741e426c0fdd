/**
 * The vendor screen: a menu whose items can be switched on and off, a list of
 * orders whose status the vendor advances one step at a time, and the three
 * dashboard figures.
 */
module Vendor {
  import opened Lists

  /** A dish as the vendor's menu holds it. */
  datatype MenuItem = MenuItem(
    id: string,
    name: string,
    price: int,
    description: string,
    category: string,
    available: bool)

  datatype OrderLine = OrderLine(name: string, quantity: int, price: int)

  datatype OrderStatus = Pending | Accepted | Preparing | Ready | Completed

  datatype Order = Order(
    id: string,
    customerName: string,
    items: seq<OrderLine>,
    total: int,
    status: OrderStatus,
    orderTime: string)

  /** The position of a status along the kitchen's forward chain. */
  function Rank(s: OrderStatus): nat
  {
    match s
    case Pending => 0
    case Accepted => 1
    case Preparing => 2
    case Ready => 3
    case Completed => 4
  }

  // ---------------------------------------------------------------------------
  // The two state updates

  /** toggleItemAvailability: flip `available` on every item carrying `id`. */
  function Toggled(menu: seq<MenuItem>, id: string): (r: seq<MenuItem>)
    ensures |r| == |menu|
    ensures forall i :: 0 <= i < |menu| ==> r[i].id == menu[i].id
  {
    seq(|menu|, i requires 0 <= i < |menu| =>
      if menu[i].id == id then menu[i].(available := !menu[i].available) else menu[i])
  }

  /** updateOrderStatus: give every order carrying `id` the status `s`. */
  function StatusUpdated(orders: seq<Order>, id: string, s: OrderStatus): (r: seq<Order>)
    ensures |r| == |orders|
  {
    seq(|orders|, i requires 0 <= i < |orders| =>
      if orders[i].id == id then orders[i].(status := s) else orders[i])
  }

  /** Toggling changes only the flag of the matching items; everything else stays. */
  lemma ToggleChangesOnlyFlag(menu: seq<MenuItem>, id: string, i: nat)
    requires i < |menu|
    ensures Toggled(menu, id)[i].(available := menu[i].available) == menu[i]
    ensures Toggled(menu, id)[i].available == (menu[i].available != (menu[i].id == id))
  {
  }

  /** Toggling the same item twice restores the menu. */
  lemma ToggleTwice(menu: seq<MenuItem>, id: string)
    ensures Toggled(Toggled(menu, id), id) == menu
  {
    var once := Toggled(menu, id);
    var twice := Toggled(once, id);
    forall i | 0 <= i < |menu|
      ensures twice[i] == menu[i]
    {
      ToggleChangesOnlyFlag(menu, id, i);
      ToggleChangesOnlyFlag(once, id, i);
    }
  }

  /** A status update touches nothing but the status of the matching orders. */
  lemma StatusUpdateChangesOnlyStatus(orders: seq<Order>, id: string, s: OrderStatus, i: nat)
    requires i < |orders|
    ensures StatusUpdated(orders, id, s)[i].(status := orders[i].status) == orders[i]
    ensures StatusUpdated(orders, id, s)[i].status == if orders[i].id == id then s else orders[i].status
  {
  }

  // ---------------------------------------------------------------------------
  // The dashboard

  function OrderTotal(o: Order): int { o.total }

  function IsPending(o: Order): bool { o.status == Pending }

  datatype DashboardStats = DashboardStats(todayOrders: int, todayRevenue: int, pendingOrders: int)

  /** getDashboardStats: order count, summed totals, and count of pending orders. */
  function Stats(orders: seq<Order>): (r: DashboardStats)
    ensures r.todayOrders == |orders|
    ensures 0 <= r.pendingOrders <= r.todayOrders
    ensures r.pendingOrders == 0 <==> forall i :: 0 <= i < |orders| ==> orders[i].status != Pending
  {
    var pending := Filter(orders, IsPending);
    assert pending != [] ==> pending[0] in orders && pending[0].status == Pending;
    DashboardStats(|orders|, Sum(orders, OrderTotal), |pending|)
  }

  /** A status update leaves the order count and the revenue as they were. */
  lemma StatsAfterStatusUpdate(orders: seq<Order>, id: string, s: OrderStatus)
    ensures Stats(StatusUpdated(orders, id, s)).todayOrders == Stats(orders).todayOrders
    ensures Stats(StatusUpdated(orders, id, s)).todayRevenue == Stats(orders).todayRevenue
  {
    var r := StatusUpdated(orders, id, s);
    forall i | 0 <= i < |r|
      ensures OrderTotal(r[i]) == OrderTotal(orders[i])
    {
      StatusUpdateChangesOnlyStatus(orders, id, s, i);
    }
    SumPointwise(r, OrderTotal, orders, OrderTotal);
  }

  /** Accepting the one pending order with id `orders[k].id` lowers the pending count by one. */
  lemma AcceptLowersPending(orders: seq<Order>, k: nat)
    requires k < |orders| && orders[k].status == Pending
    requires forall j :: 0 <= j < |orders| && j != k ==> orders[j].id != orders[k].id
    ensures Stats(StatusUpdated(orders, orders[k].id, Accepted)).pendingOrders
         == Stats(orders).pendingOrders - 1
  {
    var r := StatusUpdated(orders, orders[k].id, Accepted);
    assert r == orders[k := orders[k].(status := Accepted)];
    FilterCountUpdate(orders, k, orders[k].(status := Accepted), IsPending);
  }

  // ---------------------------------------------------------------------------
  // The order card's buttons (VendorApp.tsx:159-185)

  datatype OrderAction = Accept | Reject | StartPreparing | MarkReady | CompleteOrder

  /** The buttons an order card shows for a status. */
  function ActionsFor(s: OrderStatus): (r: seq<OrderAction>)
    ensures |r| <= 2
    ensures r == [] <==> s == Completed
    ensures Reject in r <==> s == Pending
  {
    match s
    case Pending => [Accept, Reject]
    case Accepted => [StartPreparing]
    case Preparing => [MarkReady]
    case Ready => [CompleteOrder]
    case Completed => []
  }

  /** The status a button's click handler sets; Reject has no handler. */
  function Target(a: OrderAction): (r: Option<OrderStatus>)
    ensures r.None? <==> a == Reject
    ensures r.Some? ==> Rank(r.value) >= 1
  {
    match a
    case Accept => Some(Accepted)
    case Reject => None
    case StartPreparing => Some(Preparing)
    case MarkReady => Some(Ready)
    case CompleteOrder => Some(Completed)
  }

  /** What a click on button `a` of the card for `orders[i]` does to the order list. */
  function Press(orders: seq<Order>, i: nat, a: OrderAction): (r: seq<Order>)
    requires i < |orders|
    ensures |r| == |orders|
    ensures forall j :: 0 <= j < |orders| ==> r[j].(status := orders[j].status) == orders[j]
    ensures forall j :: 0 <= j < |orders| && orders[j].id != orders[i].id ==> r[j] == orders[j]
    ensures a == Reject ==> r == orders
  {
    match Target(a)
    case None => orders
    case Some(t) => StatusUpdated(orders, orders[i].id, t)
  }

  /** Every offered button with a handler moves exactly one step forward; a completed order offers none. */
  lemma ButtonsStepForward(s: OrderStatus, a: OrderAction)
    requires a in ActionsFor(s)
    ensures s != Completed
    ensures Target(a).Some? ==> Rank(Target(a).value) == Rank(s) + 1
    ensures Target(a).None? <==> a == Reject
  {
  }

  /** One click can move an order from `s` to `t` exactly when `t` is the next status in the chain. */
  lemma ButtonsOfferExactlySuccessor(s: OrderStatus, t: OrderStatus)
    ensures (exists a :: a in ActionsFor(s) && Target(a) == Some(t)) <==> Rank(t) == Rank(s) + 1
  {
    if Rank(t) == Rank(s) + 1 {
      var a := match t
        case Accepted => Accept
        case Preparing => StartPreparing
        case Ready => MarkReady
        case _ => CompleteOrder;
      assert a in ActionsFor(s) && Target(a) == Some(t);
    }
  }

  /** Only a pending order offers Reject, and only Reject leaves the list as it is. */
  lemma RejectDoesNothing(orders: seq<Order>, i: nat)
    requires i < |orders| && Reject in ActionsFor(orders[i].status)
    ensures orders[i].status == Pending
    ensures Press(orders, i, Reject) == orders
  {
  }

  /**
   * With unique ids, a click on an offered button with a handler raises that
   * order's rank by one and changes no other order.
   */
  lemma PressAdvancesOneOrder(orders: seq<Order>, i: nat, a: OrderAction)
    requires i < |orders| && a in ActionsFor(orders[i].status) && a != Reject
    requires forall j :: 0 <= j < |orders| && j != i ==> orders[j].id != orders[i].id
    ensures |Press(orders, i, a)| == |orders|
    ensures Rank(Press(orders, i, a)[i].status) == Rank(orders[i].status) + 1
    ensures forall j :: 0 <= j < |orders| && j != i ==> Press(orders, i, a)[j] == orders[j]
  {
    ButtonsStepForward(orders[i].status, a);
  }

  // ---------------------------------------------------------------------------
  // The sample order book the screen starts with (VendorApp.tsx:60-82)

  const Bajji := OrderLine("Mirchi Bajji", 2, 60)
  const Chai := OrderLine("Irani Chai", 1, 25)
  const Kebab := OrderLine("Boti Kebab", 1, 180)

  const SampleOrders: seq<Order> := [
    Order("1", "Rajesh Kumar", [Bajji, Chai], 145, Pending, "2:30 PM"),
    Order("2", "Priya Sharma", [Kebab], 180, Preparing, "2:15 PM")]

  /** The sample book shows two orders, 325 in revenue and one pending order; accepting order 1 clears the pending count. */
  lemma SampleDashboard()
    ensures Stats(SampleOrders) == DashboardStats(2, 325, 1)
    ensures Stats(Press(SampleOrders, 0, Accept)) == DashboardStats(2, 325, 0)
  {
    var book := SampleOrders;
    assert book[..1] == [book[0]];
    assert Sum(book[..1], OrderTotal) == 145 by {
      assert book[..1][..0] == [];
    }
    assert Sum(book, OrderTotal) == 325;
    assert Filter(book[..1], IsPending) == [book[0]] by {
      assert book[..1][..0] == [];
    }
    assert Filter(book, IsPending) == [book[0]];
    AcceptLowersPending(book, 0);
    StatsAfterStatusUpdate(book, "1", Accepted);
  }

  // ---------------------------------------------------------------------------
  // The component state

  /** The vendor screen's state: its menu and its orders. */
  class VendorApp {
    var menuItems: seq<MenuItem>
    var orders: seq<Order>

    constructor (menu: seq<MenuItem>, book: seq<Order>)
      ensures menuItems == menu && orders == book
    {
      menuItems := menu;
      orders := book;
    }

    method ToggleItemAvailability(id: string)
      modifies this`menuItems
      ensures menuItems == Toggled(old(menuItems), id)
      ensures |menuItems| == |old(menuItems)|
    {
      menuItems := Toggled(menuItems, id);
    }

    method UpdateOrderStatus(id: string, s: OrderStatus)
      modifies this`orders
      ensures orders == StatusUpdated(old(orders), id, s)
      ensures Stats(orders).todayRevenue == Stats(old(orders)).todayRevenue
    {
      StatsAfterStatusUpdate(orders, id, s);
      orders := StatusUpdated(orders, id, s);
    }

    /** A click on button `a` of the card for `orders[i]`, which shows only the buttons of its status. */
    method PressOrderAction(i: nat, a: OrderAction)
      requires i < |orders| && a in ActionsFor(orders[i].status)
      modifies this`orders
      ensures orders == Press(old(orders), i, a)
    {
      match Target(a)
      case None =>
      case Some(t) => UpdateOrderStatus(orders[i].id, t);
    }

    method GetDashboardStats() returns (stats: DashboardStats)
      ensures stats == Stats(orders)
      ensures stats.pendingOrders <= stats.todayOrders == |orders|
    {
      stats := Stats(orders);
    }
  }
}
