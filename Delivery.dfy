/**
 * The delivery partner's screen: a list of delivery tasks that the partner
 * accepts, picks up and delivers, an online switch that gates accepting, and
 * the counts of tasks on the dashboard.
 */
module Delivery {
  import opened Lists

  /** A clock reading as the screen shows it; where it comes from is not modelled. */
  type TimeText = string

  datatype TaskItem = TaskItem(name: string, quantity: int)

  datatype TaskStatus = Available | Accepted | PickedUp | Delivered

  datatype DeliveryTask = DeliveryTask(
    id: string,
    orderId: string,
    customerName: string,
    customerPhone: string,
    pickupAddress: string,
    deliveryAddress: string,
    items: seq<TaskItem>,
    amount: int,
    distance: string,
    estimatedTime: string,
    status: TaskStatus,
    pickupTime: Option<TimeText>,
    deliveryTime: Option<TimeText>)

  /** The position of a status along the delivery chain. */
  function Rank(s: TaskStatus): nat
  {
    match s
    case Available => 0
    case Accepted => 1
    case PickedUp => 2
    case Delivered => 3
  }

  /** Everything about a task except its status and its two stamps. */
  function Fixed(t: DeliveryTask): DeliveryTask
  {
    t.(status := Available, pickupTime := None, deliveryTime := None)
  }

  /** The second list keeps the first one's tasks in order, up to status and stamps. */
  predicate SameTasks(a: seq<DeliveryTask>, b: seq<DeliveryTask>)
  {
    |a| == |b| && forall i :: 0 <= i < |a| ==> Fixed(a[i]) == Fixed(b[i])
  }

  // ---------------------------------------------------------------------------
  // The two state updates

  /** acceptTask: mark every task carrying `id` accepted and stamp its pickup time with `now`. */
  function TaskAccepted(tasks: seq<DeliveryTask>, id: string, now: TimeText): (r: seq<DeliveryTask>)
    ensures SameTasks(tasks, r)
    ensures forall i :: 0 <= i < |tasks| && tasks[i].id != id ==> r[i] == tasks[i]
    ensures forall i :: 0 <= i < |tasks| && tasks[i].id == id ==>
      r[i].status == Accepted && r[i].pickupTime == Some(now) && r[i].deliveryTime == tasks[i].deliveryTime
  {
    seq(|tasks|, i requires 0 <= i < |tasks| =>
      if tasks[i].id == id then tasks[i].(status := Accepted, pickupTime := Some(now)) else tasks[i])
  }

  /** The rewrite updateTaskStatus applies to one matching task. */
  function Restamped(t: DeliveryTask, s: TaskStatus, now: TimeText): (r: DeliveryTask)
    ensures r.status == s && Fixed(r) == Fixed(t)
    ensures r.pickupTime == if s == PickedUp then Some(now) else t.pickupTime
    ensures r.deliveryTime == if s == Delivered then Some(now) else t.deliveryTime
  {
    var u := t.(status := s);
    if s == PickedUp then u.(pickupTime := Some(now))
    else if s == Delivered then u.(deliveryTime := Some(now))
    else u
  }

  /** updateTaskStatus: give every task carrying `id` the status `s`, stamping pickup or delivery. */
  function TaskStatusUpdated(tasks: seq<DeliveryTask>, id: string, s: TaskStatus, now: TimeText)
    : (r: seq<DeliveryTask>)
    ensures SameTasks(tasks, r)
    ensures forall i :: 0 <= i < |tasks| && tasks[i].id != id ==> r[i] == tasks[i]
    ensures forall i :: 0 <= i < |tasks| && tasks[i].id == id ==> r[i].status == s
  {
    seq(|tasks|, i requires 0 <= i < |tasks| =>
      if tasks[i].id == id then Restamped(tasks[i], s, now) else tasks[i])
  }

  /** Each stamp is rewritten exactly when the new status calls for it, and then holds `now`. */
  lemma StampsFollowStatus(tasks: seq<DeliveryTask>, id: string, s: TaskStatus, now: TimeText, i: nat)
    requires i < |tasks| && tasks[i].id == id
    ensures var r := TaskStatusUpdated(tasks, id, s, now);
      (r[i].pickupTime == if s == PickedUp then Some(now) else tasks[i].pickupTime) &&
      (r[i].deliveryTime == if s == Delivered then Some(now) else tasks[i].deliveryTime)
  {
  }

  // ---------------------------------------------------------------------------
  // The buttons (DeliveryApp.tsx:198-214 and 285-291)

  datatype TaskAction = AcceptTask | MarkPickedUp | MarkDelivered

  /**
   * The enabled buttons for a task: Accept on the available list (disabled
   * while offline), Mark Picked Up and Mark Delivered on the active list.
   */
  function EnabledActions(s: TaskStatus, online: bool): (r: seq<TaskAction>)
    ensures |r| <= 1
    ensures r == [] <==> s == Delivered || (s == Available && !online)
    ensures forall i :: 0 <= i < |r| ==> Rank(Target(r[i])) == Rank(s) + 1
  {
    match s
    case Available => if online then [AcceptTask] else []
    case Accepted => [MarkPickedUp]
    case PickedUp => [MarkDelivered]
    case Delivered => []
  }

  /** What a click on button `a` of the card for `tasks[i]` does to the list of tasks. */
  function Press(tasks: seq<DeliveryTask>, i: nat, a: TaskAction, now: TimeText): (r: seq<DeliveryTask>)
    requires i < |tasks|
    ensures SameTasks(tasks, r)
    ensures forall j :: 0 <= j < |tasks| && tasks[j].id != tasks[i].id ==> r[j] == tasks[j]
    ensures forall j :: 0 <= j < |tasks| && tasks[j].id == tasks[i].id ==> r[j].status == Target(a)
  {
    match a
    case AcceptTask => TaskAccepted(tasks, tasks[i].id, now)
    case MarkPickedUp => TaskStatusUpdated(tasks, tasks[i].id, PickedUp, now)
    case MarkDelivered => TaskStatusUpdated(tasks, tasks[i].id, Delivered, now)
  }

  /** The status a button leads to. */
  function Target(a: TaskAction): (r: TaskStatus)
    ensures r != Available
  {
    match a
    case AcceptTask => Accepted
    case MarkPickedUp => PickedUp
    case MarkDelivered => Delivered
  }

  /** A button is enabled exactly for the next step of the chain, and accepting needs to be online. */
  lemma ButtonsStepForward(s: TaskStatus, online: bool, a: TaskAction)
    ensures a in EnabledActions(s, online) <==>
      Rank(Target(a)) == Rank(s) + 1 && (a == AcceptTask ==> online)
  {
  }

  /** A delivered task offers no button. */
  lemma DeliveredIsTerminal(online: bool)
    ensures EnabledActions(Delivered, online) == []
  {
  }

  /**
   * With unique ids, an enabled click moves that task one step forward and
   * changes no other task.
   */
  lemma PressAdvancesOneTask(tasks: seq<DeliveryTask>, i: nat, a: TaskAction, online: bool, now: TimeText)
    requires i < |tasks| && a in EnabledActions(tasks[i].status, online)
    requires forall j :: 0 <= j < |tasks| && j != i ==> tasks[j].id != tasks[i].id
    ensures SameTasks(tasks, Press(tasks, i, a, now))
    ensures Press(tasks, i, a, now)[i].status == Target(a)
    ensures Rank(Press(tasks, i, a, now)[i].status) == Rank(tasks[i].status) + 1
    ensures forall j :: 0 <= j < |tasks| && j != i ==> Press(tasks, i, a, now)[j] == tasks[j]
  {
    ButtonsStepForward(tasks[i].status, online, a);
  }

  // ---------------------------------------------------------------------------
  // The dashboard counts and the lists the screen shows

  function IsDelivered(t: DeliveryTask): bool { t.status == Delivered }

  function IsActive(t: DeliveryTask): bool { t.status == Accepted || t.status == PickedUp }

  function IsAvailable(t: DeliveryTask): bool { t.status == Available }

  function IsNotAvailable(t: DeliveryTask): bool { t.status != Available }

  /** The Active Deliveries list (DeliveryApp.tsx:117). */
  function ActiveList(tasks: seq<DeliveryTask>): (r: seq<DeliveryTask>)
    ensures |r| <= |tasks|
    ensures forall i :: 0 <= i < |r| ==> r[i] in tasks && r[i].status in {Accepted, PickedUp}
    ensures forall i :: 0 <= i < |tasks| && tasks[i].status in {Accepted, PickedUp} ==> tasks[i] in r
  {
    Filter(tasks, IsActive)
  }

  /** The Available Tasks list (DeliveryApp.tsx:227). */
  function AvailableList(tasks: seq<DeliveryTask>): (r: seq<DeliveryTask>)
    ensures |r| <= |tasks|
    ensures forall i :: 0 <= i < |r| ==> r[i] in tasks && r[i].status == Available
    ensures forall i :: 0 <= i < |tasks| && tasks[i].status == Available ==> tasks[i] in r
  {
    Filter(tasks, IsAvailable)
  }

  datatype TaskCounts = TaskCounts(todayTasks: nat, activeTasks: nat)

  /** The integer part of getDashboardStats: delivered tasks and active tasks. */
  function Counts(tasks: seq<DeliveryTask>): (r: TaskCounts)
    ensures r.todayTasks + r.activeTasks <= |tasks|
    ensures r.activeTasks == |ActiveList(tasks)|
  {
    PartitionCounts(tasks);
    TaskCounts(|Filter(tasks, IsDelivered)|, |Filter(tasks, IsActive)|)
  }

  /** Delivered, active and available tasks split the list of tasks between them. */
  lemma {:induction false} PartitionCounts(tasks: seq<DeliveryTask>)
    ensures |Filter(tasks, IsDelivered)| + |Filter(tasks, IsActive)| + |Filter(tasks, IsAvailable)| == |tasks|
    decreases |tasks|
  {
    if tasks != [] {
      var front, last := tasks[..|tasks| - 1], tasks[|tasks| - 1];
      PartitionCounts(front);
      FilterLastLength(tasks, IsDelivered);
      FilterLastLength(tasks, IsActive);
      FilterLastLength(tasks, IsAvailable);
      assert Indicator(IsDelivered(last)) + Indicator(IsActive(last)) + Indicator(IsAvailable(last)) == 1;
    }
  }

  lemma CountsPartition(tasks: seq<DeliveryTask>)
    ensures Counts(tasks).todayTasks + Counts(tasks).activeTasks + |AvailableList(tasks)| == |tasks|
  {
    PartitionCounts(tasks);
  }

  /** The active list holds exactly the tasks with an active status, each kept from the list of tasks. */
  lemma ActiveListIsActiveTasks(tasks: seq<DeliveryTask>, t: DeliveryTask)
    ensures t in ActiveList(tasks) <==> t in tasks && (t.status == Accepted || t.status == PickedUp)
  {
    var r := ActiveList(tasks);
    if t in r {
      var i :| 0 <= i < |r| && r[i] == t;
    }
    if t in tasks && IsActive(t) {
      var i :| 0 <= i < |tasks| && tasks[i] == t;
    }
  }

  /** Delivering a picked-up task (unique id) moves one task from the active count to the delivered count. */
  lemma DeliverMovesCount(tasks: seq<DeliveryTask>, k: nat, now: TimeText)
    requires k < |tasks| && tasks[k].status == PickedUp
    requires forall j :: 0 <= j < |tasks| && j != k ==> tasks[j].id != tasks[k].id
    ensures Counts(TaskStatusUpdated(tasks, tasks[k].id, Delivered, now)).todayTasks == Counts(tasks).todayTasks + 1
    ensures Counts(TaskStatusUpdated(tasks, tasks[k].id, Delivered, now)).activeTasks == Counts(tasks).activeTasks - 1
  {
    var done := Restamped(tasks[k], Delivered, now);
    assert TaskStatusUpdated(tasks, tasks[k].id, Delivered, now) == tasks[k := done];
    FilterCountUpdate(tasks, k, done, IsDelivered);
    FilterCountUpdate(tasks, k, done, IsActive);
  }

  /** The Recent Activity card: the first three tasks that are not available (DeliveryApp.tsx:407). */
  function RecentActivity(tasks: seq<DeliveryTask>): (r: seq<DeliveryTask>)
    ensures |r| <= 3
    ensures r <= Filter(tasks, IsNotAvailable)
    ensures forall i :: 0 <= i < |r| ==> r[i] in tasks && r[i].status != Available
    ensures |r| == if |tasks| - |AvailableList(tasks)| < 3 then |tasks| - |AvailableList(tasks)| else 3
  {
    var shown := Filter(tasks, IsNotAvailable);
    NotAvailableCount(tasks);
    if |shown| <= 3 then shown else shown[..3]
  }

  lemma {:induction false} NotAvailableCount(tasks: seq<DeliveryTask>)
    ensures |Filter(tasks, IsNotAvailable)| + |Filter(tasks, IsAvailable)| == |tasks|
    decreases |tasks|
  {
    if tasks != [] {
      NotAvailableCount(tasks[..|tasks| - 1]);
      FilterLastLength(tasks, IsNotAvailable);
      FilterLastLength(tasks, IsAvailable);
    }
  }

  // ---------------------------------------------------------------------------
  // The component state

  /** The delivery screen's state: its tasks and the online switch. */
  class DeliveryApp {
    var tasks: seq<DeliveryTask>
    var isOnline: bool

    constructor (initial: seq<DeliveryTask>)
      ensures tasks == initial && isOnline
    {
      tasks := initial;
      isOnline := true;
    }

    method AcceptTask(id: string, now: TimeText)
      modifies this`tasks
      ensures tasks == TaskAccepted(old(tasks), id, now)
    {
      tasks := TaskAccepted(tasks, id, now);
    }

    method UpdateTaskStatus(id: string, s: TaskStatus, now: TimeText)
      modifies this`tasks
      ensures tasks == TaskStatusUpdated(old(tasks), id, s, now)
    {
      tasks := TaskStatusUpdated(tasks, id, s, now);
    }

    /** The dot beside "Online"/"Offline" (DeliveryApp.tsx:320). */
    method ToggleOnline()
      modifies this`isOnline
      ensures isOnline == !old(isOnline)
    {
      isOnline := !isOnline;
    }

    /** A click on an enabled button of the card for `tasks[i]`. */
    method PressTaskAction(i: nat, a: TaskAction, now: TimeText)
      requires i < |tasks| && a in EnabledActions(tasks[i].status, isOnline)
      modifies this`tasks
      ensures tasks == Press(old(tasks), i, a, now)
      ensures SameTasks(old(tasks), tasks)
    {
      match a
      case AcceptTask => AcceptTask(tasks[i].id, now);
      case MarkPickedUp => UpdateTaskStatus(tasks[i].id, PickedUp, now);
      case MarkDelivered => UpdateTaskStatus(tasks[i].id, Delivered, now);
    }

    method GetDashboardCounts() returns (counts: TaskCounts)
      ensures counts == Counts(tasks)
      ensures counts.todayTasks + counts.activeTasks + |AvailableList(tasks)| == |tasks|
    {
      CountsPartition(tasks);
      counts := Counts(tasks);
    }
  }
}
