# Hyderabad street-food ordering demo: the state logic, in Dafny

The application has three role screens: customer, vendor and delivery partner.
Each screen keeps its own in-memory lists in component state and changes
them when a button is clicked. This project models that state logic and
proves what it promises.

- **Customer** (`Customer.dfy`). The cart is a list of lines, each a menu
  item with a quantity. Adding an item raises its line by one or appends a
  new line. Removing an item lowers its line by one or deletes the line. The
  screen shows two totals, the item count and the price. Placing an order is
  refused for an empty cart; otherwise the screen moves to order tracking.
- **Vendor** (`Vendor.dfy`). Each menu item has an availability switch. Each
  order card shows the buttons for its status, and these move the order along
  `pending → accepted → preparing → ready → completed`. "Reject" has no
  handler. The dashboard shows the order count, the revenue and the number of
  pending orders.
- **Delivery** (`Delivery.dfy`). A task moves along
  `available → accepted → picked_up → delivered`. Accepting needs the partner
  to be online, and each step stamps a time. The dashboard counts delivered
  and active tasks. The screen also shows the active list, the available list
  and a "recent activity" card.
- **Lists** (`Lists.dfy`). The array operations these screens use: `reduce`
  with `+` as a left fold (`Sum`) and `filter` (`Filter`). It also holds the
  lemmas about updating, removing and concatenating that the other modules use.

Each screen is a class (`CustomerApp`, `VendorApp`, `DeliveryApp`) whose
`seq` fields stand for the component's state. Its methods replace a field
with the value given by a pure function of the old state. That function
models the `map`/`filter`/spread expression of the handler. The lemmas are
about these functions.

Each handler uses `map` with an id test, so it changes every record that
carries the id. The model keeps that meaning. Where a property needs "the
one line with this id", the lemma requires unique ids. For the cart, unique
ids are part of the invariant `WellFormed`, and the cart keeps it.

Three behaviours of the code that the model keeps as written:
- Placing an order does not clear the cart.
- Prices are not checked to be positive.
- Accepting a delivery task stamps `pickupTime` at once.

## Model

| member | source | states |
|---|---|---|
| `Customer.Find` | src/components/CustomerApp.tsx:101 | `cart.find` by id: `Some(k)` is the first line carrying the id; `None` exactly when no line carries it |
| `Customer.Bump` | src/components/CustomerApp.tsx:103-107 | the `map` that changes a quantity by `delta` keeps the cart's length and every line's item in place (`BumpOne` gives the one changed line) |
| `Customer.Without` | src/components/CustomerApp.tsx:123 | the `filter` by id keeps only lines of the cart without that id, and keeps every such line (`WithoutOne`, `WithoutAbsent` give it exactly) |
| `Customer.Added` | src/components/CustomerApp.tsx:100-112 | adding grows the cart by one line exactly when the id was absent, keeps every existing line's item in place, and leaves the id present (`AddExisting`, `AddAbsent` give it exactly) |
| `Customer.Removed` | src/components/CustomerApp.tsx:114-125 | removing never grows the cart, keeps every line of another id from the old cart, leaves the cart as it was for an absent id, and drops the id when its first line held one unit (`RemoveDecrements`, `RemoveDeletes` give it exactly) |
| `Customer.AddExisting` | src/components/CustomerApp.tsx:101-107 | with unique ids, adding an item already at line `k` raises only that line's quantity by one; the line keeps its stored item and price, and the length and every other line stay the same |
| `Customer.AddAbsent` | src/components/CustomerApp.tsx:108-109 | adding an item whose id is absent appends one line of quantity 1 at the end |
| `Customer.RemoveDecrements` | src/components/CustomerApp.tsx:114-121 | removing an id whose line has quantity > 1 lowers only that line by one |
| `Customer.RemoveDeletes` | src/components/CustomerApp.tsx:114-124 | removing an id whose line has quantity 1 deletes exactly that line and keeps the order of the rest |
| `Customer.RemoveAbsent` | src/components/CustomerApp.tsx:114-125 | removing an absent id leaves the cart unchanged |
| `Customer.AddPreservesWellFormed` | src/components/CustomerApp.tsx:100-112 | adding keeps the cart invariant: unique ids, every quantity ≥ 1 |
| `Customer.RemovePreservesWellFormed` | src/components/CustomerApp.tsx:114-125 | removing keeps the same invariant |
| `Customer.TotalItems` | src/components/CustomerApp.tsx:131-133 | in a well-formed cart the item count is at least the number of lines, and it is 0 exactly for the empty cart (`TotalsAfterAdd`, `TotalsAfterRemove` give its change) |
| `Customer.TotalPrice` | src/components/CustomerApp.tsx:127-129 | with no negative price or quantity the price total is non-negative (`TotalsAfterAdd`, `TotalsAfterRemove` give its change) |
| `Customer.TotalsAfterAdd` | src/components/CustomerApp.tsx:100-133 | adding raises the item count by exactly 1 and the price total by the price stored on that item's line (the new item's price when it was absent) |
| `Customer.TotalsAfterIncrement` | src/components/CustomerApp.tsx:103-133 | raising one line by a unit raises the item count by 1 and the price total by that line's stored price |
| `Customer.TotalsAfterDecrement` | src/components/CustomerApp.tsx:117-133 | lowering one line by a unit lowers the item count by 1 and the price total by that line's price |
| `Customer.TotalsAfterRemove` | src/components/CustomerApp.tsx:114-133 | in a well-formed cart, removing a present id lowers the item count by 1 and the price total by that line's price; removing an absent id changes nothing |
| `Customer.AddThenRemove` | src/components/CustomerApp.tsx:100-125 | in a well-formed cart, adding an item and then removing its id gives back the original cart |
| `Customer.SampleCartLines` | src/components/CustomerApp.tsx:100-112 | adding Mirchi Bajji twice and then Irani Chai to an empty cart gives the lines Bajji × 2 and Chai × 1, in that order |
| `Customer.SampleCartTotals` | src/components/CustomerApp.tsx:127-133 | that cart (60 × 2 + 25 × 1) has a price total of 145 and holds 3 items |
| `Customer.Placement` | src/components/CustomerApp.tsx:135-142 | an empty cart is refused and keeps the view; otherwise the order is placed and the view becomes tracking |
| `Customer.CustomerApp.constructor` | src/components/CustomerApp.tsx:37-38 | the screen starts with an empty, well-formed cart on the vendor list |
| `Customer.CustomerApp.AddToCart` | src/components/CustomerApp.tsx:100-112 | the new cart is `Added(old cart, item)`, and the invariant holds |
| `Customer.CustomerApp.RemoveFromCart` | src/components/CustomerApp.tsx:114-125 | the new cart is `Removed(old cart, id)`, and the invariant holds |
| `Customer.CustomerApp.GetTotalPrice` | src/components/CustomerApp.tsx:127-129 | returns the sum of price × quantity over the cart |
| `Customer.CustomerApp.GetTotalItems` | src/components/CustomerApp.tsx:131-133 | returns the sum of quantities, which is at least the number of lines |
| `Customer.CustomerApp.PlaceOrder` | src/components/CustomerApp.tsx:135-142 | leaves the cart unchanged; an empty cart returns the empty-cart refusal and keeps the view, and a non-empty one switches to tracking |
| `Vendor.Toggled` | src/components/VendorApp.tsx:84-87 | toggling keeps the menu's length and every item's id in place |
| `Vendor.ToggleChangesOnlyFlag` | src/components/VendorApp.tsx:84-87 | toggling negates `available` on the matching items only and changes no other field |
| `Vendor.ToggleTwice` | src/components/VendorApp.tsx:84-87 | toggling the same id twice restores the original menu |
| `Vendor.StatusUpdated` | src/components/VendorApp.tsx:91-94 | a status update keeps the length of the order list |
| `Vendor.StatusUpdateChangesOnlyStatus` | src/components/VendorApp.tsx:91-94 | only the `status` of the matching orders changes, to the new status; ids, customer, items, totals, times and order positions stay |
| `Vendor.Stats` | src/components/VendorApp.tsx:109-115 | `todayOrders` is the number of orders, `pendingOrders` ≤ `todayOrders`, and `pendingOrders` is 0 exactly when no order is pending |
| `Vendor.StatsAfterStatusUpdate` | src/components/VendorApp.tsx:91-115 | a status update keeps `todayOrders` and `todayRevenue` unchanged |
| `Vendor.AcceptLowersPending` | src/components/VendorApp.tsx:91-115 | accepting a pending order whose id is unique lowers `pendingOrders` by exactly one |
| `Vendor.ActionsFor` | src/components/VendorApp.tsx:160-184 | an order card shows at most two buttons, none exactly for a completed order, and Reject exactly for a pending one |
| `Vendor.Target` | src/components/VendorApp.tsx:160-184 | only Reject has no handler; every other button sets a status past pending |
| `Vendor.Press` | src/components/VendorApp.tsx:159-185 | a click keeps the list's length, changes nothing but statuses, leaves orders with another id as they were, and Reject changes nothing (`PressAdvancesOneOrder` gives the one-step move) |
| `Vendor.ButtonsStepForward` | src/components/VendorApp.tsx:160-184 | every button an order card shows either has no handler (exactly Reject) or moves the status rank up by one; a completed order shows none |
| `Vendor.ButtonsOfferExactlySuccessor` | src/components/VendorApp.tsx:160-184 | one click can take an order from `s` to `t` exactly when `t` is the next status after `s` |
| `Vendor.RejectDoesNothing` | src/components/VendorApp.tsx:165-167 | Reject is shown only on pending orders, and clicking it leaves the order list unchanged |
| `Vendor.PressAdvancesOneOrder` | src/components/VendorApp.tsx:160-184 | with unique ids, clicking a shown button other than Reject raises that order's rank by one and leaves every other order unchanged |
| `Vendor.SampleDashboard` | src/components/VendorApp.tsx:60-115 | the sample order book (145 pending, 180 preparing) shows 2 orders, 325 in revenue and 1 pending; accepting the first order leaves 2 and 325 and makes it 0 pending |
| `Vendor.VendorApp.constructor` | src/components/VendorApp.tsx:33-82 | the screen starts with the given menu and orders |
| `Vendor.VendorApp.ToggleItemAvailability` | src/components/VendorApp.tsx:84-89 | the new menu is `Toggled(old menu, id)` |
| `Vendor.VendorApp.UpdateOrderStatus` | src/components/VendorApp.tsx:91-96 | the new order list is `StatusUpdated(old orders, id, s)`, and the revenue is unchanged |
| `Vendor.VendorApp.PressOrderAction` | src/components/VendorApp.tsx:159-185 | a click on a button the card shows applies that button's handler; Reject applies none |
| `Vendor.VendorApp.GetDashboardStats` | src/components/VendorApp.tsx:109-117 | returns the three figures, with `pendingOrders` ≤ `todayOrders` = number of orders |
| `Delivery.TaskAccepted` | src/components/DeliveryApp.tsx:67-70 | accepting sets the matching tasks to accepted with `pickupTime = now` and keeps their delivery time; every other task is unchanged; length, ids, amounts and order are kept |
| `Delivery.TaskStatusUpdated` | src/components/DeliveryApp.tsx:74-86 | a status update sets the matching tasks' status to `s` and leaves every other task unchanged; length, ids, amounts and order are kept |
| `Delivery.Restamped` | src/components/DeliveryApp.tsx:76-83 | the rewrite of one matching task sets its status to `s`, keeps every fixed field, and stamps `now` into pickup time only for picked_up and into delivery time only for delivered |
| `Delivery.StampsFollowStatus` | src/components/DeliveryApp.tsx:76-83 | a status update changes `pickupTime` only when `s` is picked_up and `deliveryTime` only when `s` is delivered, and then sets it to `now` |
| `Delivery.EnabledActions` | src/components/DeliveryApp.tsx:198-291 | a task card enables at most one button, none exactly for a delivered task or for an available one while offline, and each enabled button leads one rank up |
| `Delivery.Target` | src/components/DeliveryApp.tsx:198-291 | no button leads back to available |
| `Delivery.Press` | src/components/DeliveryApp.tsx:198-291 | a click keeps every task's fixed fields and positions, leaves tasks with another id as they were, and gives the clicked id the button's status (`PressAdvancesOneTask` gives the one-step move) |
| `Delivery.ButtonsStepForward` | src/components/DeliveryApp.tsx:198-291 | a button is enabled exactly when its target status is the next one in the chain, and Accept also needs the partner to be online |
| `Delivery.DeliveredIsTerminal` | src/components/DeliveryApp.tsx:198-214 | a delivered task offers no button |
| `Delivery.PressAdvancesOneTask` | src/components/DeliveryApp.tsx:198-291 | with unique ids, an enabled click moves that task to the button's status, one rank up, and leaves every other task unchanged |
| `Delivery.ActiveList` | src/components/DeliveryApp.tsx:117 | the active list holds only tasks of the list that are accepted or picked up, and every such task |
| `Delivery.AvailableList` | src/components/DeliveryApp.tsx:227 | the available list holds only available tasks of the list, and every such task |
| `Delivery.Counts` | src/components/DeliveryApp.tsx:106-112 | `todayTasks` + `activeTasks` ≤ number of tasks, and `activeTasks` is the length of the active list |
| `Delivery.PartitionCounts` | src/components/DeliveryApp.tsx:107-109 | delivered, active and available tasks together account for every task exactly once |
| `Delivery.CountsPartition` | src/components/DeliveryApp.tsx:226-227 | `todayTasks` + `activeTasks` + the length of the available list = number of tasks |
| `Delivery.ActiveListIsActiveTasks` | src/components/DeliveryApp.tsx:117 | a task is in the active list exactly when it is in the list of tasks with status accepted or picked_up |
| `Delivery.DeliverMovesCount` | src/components/DeliveryApp.tsx:74-109 | delivering a picked-up task with a unique id raises `todayTasks` by one and lowers `activeTasks` by one |
| `Delivery.RecentActivity` | src/components/DeliveryApp.tsx:407 | recent activity shows at most 3 tasks and is a prefix of the non-available tasks in list order, so all come from the list of tasks and none is available; it shows min(3, number of non-available tasks) |
| `Delivery.DeliveryApp.constructor` | src/components/DeliveryApp.tsx:29-65 | the screen starts online with the given tasks |
| `Delivery.DeliveryApp.AcceptTask` | src/components/DeliveryApp.tsx:67-72 | the new task list is `TaskAccepted(old tasks, id, now)` |
| `Delivery.DeliveryApp.UpdateTaskStatus` | src/components/DeliveryApp.tsx:74-94 | the new task list is `TaskStatusUpdated(old tasks, id, s, now)` |
| `Delivery.DeliveryApp.ToggleOnline` | src/components/DeliveryApp.tsx:320 | the online switch flips |
| `Delivery.DeliveryApp.PressTaskAction` | src/components/DeliveryApp.tsx:198-291 | an enabled click applies acceptTask or updateTaskStatus to that task's id, and keeps every task's fixed fields |
| `Delivery.DeliveryApp.GetDashboardCounts` | src/components/DeliveryApp.tsx:106-114 | returns the two counts, which add up with the available list to the number of tasks |

## Left out

- Delivery earnings and the per-task fee are not modelled. They use `amount * 0.1` in floating point and `Math.round` (DeliveryApp.tsx:108, 111, 269, 412). The fee is rounded per task but earnings are rounded once on the float sum.
- Toast notifications are left out; they are calls into a UI library. The empty-cart toast is the `Refused(EmptyCart)` outcome.
- Clock readings (`new Date().toLocaleTimeString(...)`) are the opaque `now: TimeText` parameter.
- JSX rendering, styling and `getStatusColor` are presentation and carry no state. So are the navigation-only `activeView` changes (back buttons, dashboard cards) and `selectedVendor`. Only the customer screen keeps a view field, because `placeOrder` changes it; the vendor and delivery screens change their view only by navigation, so their classes have no view field.
- The static vendor and menu catalogues of the customer screen, the vendor's starting menu and the delivery screen's starting tasks are data, not logic. The sample cart appears only in `Customer.SampleCartLines` and `Customer.SampleCartTotals`, and the vendor's starting order book only in `Vendor.SampleDashboard`.
- The vendor's Add Item, Edit and Delete buttons and the delivery screen's Navigate and Call buttons have no click handler, so there is nothing to model.
- React's batched `setState` and stale closures are not modelled. Each handler sees the latest state, and handlers run one at a time.
- The three screens share no data, and the model keeps them independent.
- src/pages/Index.tsx only chooses which screen to show, and it is not part of this model.
- Numbers are JavaScript doubles, but the model uses unbounded integers. Prices, quantities, totals and amounts are whole numbers in every dataset, so a double sum of them is exact below 2^53. `rating` is never computed with and is a `real`.
- Customer.TotalsAfterAdd: requires unique ids. Without them `map` raises every line with the id, and the item count rises by the number of such lines.
- Vendor.PressAdvancesOneOrder: requires unique order ids, which the vendor screen does not enforce. Without them a click changes every order with that id.
- Vendor.AcceptLowersPending: requires a unique order id, for the same reason.
- Delivery.PressAdvancesOneTask: requires unique task ids, which the delivery screen does not enforce. Without them a click changes every task with that id.
- Delivery.DeliverMovesCount: requires a unique task id, for the same reason.
