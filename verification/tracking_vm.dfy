/**
 * `TrackingVM`: the client-side order lifecycle (`nextStatus`, `isFinal`),
 * the role it acts under, the driver's active/history split and the
 * `advanceStatus` action.
 */
module TrackingVM {
  import opened Wrappers
  import opened Seqs
  import opened Errors
  import opened OrderStatuses
  import opened Entities
  import opened OrderRepository
  import opened DriverOrderQueries
  import opened TrackingRepository

  /**
   * The forward chain of the lifecycle, `requested` to `completed`; the same
   * list is the passenger's progress bar. `cancelled` is off the chain.
   */
  const Chain: seq<OrderStatus> := [Requested, Accepted, Arrived, Started, Completed]

  /** `nextStatus(after:)`: one step along the chain; the two final states are fixpoints. */
  function NextStatus(s: OrderStatus): (r: OrderStatus)
    ensures s == Completed || s == Cancelled ==> r == s
    ensures forall i :: 0 <= i < |Chain| - 1 && Chain[i] == s ==> r == Chain[i + 1]
    ensures r != Cancelled || s == Cancelled
  {
    match s
    case Requested => Accepted
    case Accepted => Arrived
    case Arrived => Started
    case Started => Completed
    case Completed => Completed
    case Cancelled => Cancelled
  }

  /** `isFinal` */
  predicate IsFinal(s: OrderStatus) {
    s == Completed || s == Cancelled
  }

  /** The final states are exactly the fixpoints of `nextStatus`. */
  lemma FinalIffFixpoint(s: OrderStatus)
    ensures IsFinal(s) <==> NextStatus(s) == s
  {
  }

  /** `n` applications of `nextStatus`. */
  function Advance(s: OrderStatus, n: nat): OrderStatus
    decreases n
  {
    if n == 0 then s else Advance(NextStatus(s), n - 1)
  }

  /** How many steps a status is from `completed` along the chain. */
  function StepsToCompleted(s: OrderStatus): nat {
    match s
    case Requested => 4
    case Accepted => 3
    case Arrived => 2
    case Started => 1
    case Completed => 0
    case Cancelled => 0
  }

  /**
   * From any status but `cancelled`, iterating `nextStatus` never produces
   * `cancelled`, and after `StepsToCompleted(s)` (at most four) steps it sits
   * at `completed`.
   */
  lemma {:induction false} AdvanceReachesCompleted(s: OrderStatus, n: nat)
    requires s != Cancelled
    ensures Advance(s, n) != Cancelled
    ensures StepsToCompleted(s) <= 4
    ensures n >= StepsToCompleted(s) ==> Advance(s, n) == Completed
    decreases n
  {
    if n > 0 {
      AdvanceReachesCompleted(NextStatus(s), n - 1);
    }
  }

  /** `role`: the signed-in user's role, a passenger when nobody is signed in. */
  function RoleOf(currentUser: Option<UserProfile>): (r: UserRole)
    ensures currentUser.Some? ==> r == currentUser.value.role
    ensures currentUser.None? ==> r == PassengerRole
  {
    if currentUser.Some? then currentUser.value.role else PassengerRole
  }

  datatype TrackingState = TrackingState(
    currentOrder: Option<Order>,
    points: seq<LocationPoint>,
    driverOrders: seq<Order>,
    errorMessage: Option<string>)

  const PassengerCannotAdvance: string := "乘客端不支持推进状态"

  /** An `advanceStatus` call: the new state and the status update it requested, if any. */
  datatype AdvanceStep = AdvanceStep(state: TrackingState, request: Option<StatusUpdate>)

  /**
   * `advanceStatus`, given the reply `updateStatus` would give. A passenger
   * only gets an error; with no order, or a final one, nothing happens;
   * otherwise exactly the next status is requested and the reply is applied.
   */
  function AdvanceStatus(st: TrackingState, role: UserRole, reply: Result<Order, QError>): (r: AdvanceStep)
    ensures role != DriverRole ==> r.request.None? && r.state == st.(errorMessage := Some(PassengerCannotAdvance))
    ensures (role == DriverRole && (st.currentOrder.None? || IsFinal(st.currentOrder.value.status)))
      ==> r == AdvanceStep(st, None)
    ensures r.request.Some? ==> role == DriverRole && st.currentOrder.Some? && !IsFinal(st.currentOrder.value.status)
    ensures r.request.Some? ==> r.request.value == StatusUpdateFor(st.currentOrder.value.id, NextStatus(st.currentOrder.value.status))
    ensures r.request.Some? && reply.Ok? ==> r.state == st.(currentOrder := Some(reply.value))
    ensures r.request.Some? && reply.Err? ==> r.state == st.(errorMessage := Some(Description(reply.error)))
    ensures r.state.points == st.points && r.state.driverOrders == st.driverOrders
  {
    if role != DriverRole then AdvanceStep(st.(errorMessage := Some(PassengerCannotAdvance)), None)
    else if st.currentOrder.None? then AdvanceStep(st, None)
    else
      var order := st.currentOrder.value;
      if order.status == Completed || order.status == Cancelled then AdvanceStep(st, None)
      else
        var request := StatusUpdateFor(order.id, NextStatus(order.status));
        match reply
        case Ok(updated) => AdvanceStep(st.(currentOrder := Some(updated)), Some(request))
        case Err(e) => AdvanceStep(st.(errorMessage := Some(Description(e))), Some(request))
  }

  /** An advance never requests `cancelled`, and always requests a status on the chain after the current one. */
  lemma AdvanceRequestsChainSuccessor(st: TrackingState, role: UserRole, reply: Result<Order, QError>)
    ensures var r := AdvanceStatus(st, role, reply);
      r.request.Some? ==> (
        && FromRawValue(r.request.value.newStatus).Some?
        && FromRawValue(r.request.value.newStatus).value != Cancelled
        && StepsToCompleted(FromRawValue(r.request.value.newStatus).value) + 1
           == StepsToCompleted(st.currentOrder.value.status))
  {
  }

  /** `driverActiveOrders` */
  function DriverActiveOrders(st: TrackingState): (r: seq<Order>)
    ensures forall o :: o in r <==> o in st.driverOrders && !IsFinal(o.status)
    ensures IsSubsequence(r, st.driverOrders)
  {
    Filter((o: Order) => !IsFinal(o.status), st.driverOrders)
  }

  /** `driverHistoryOrders` */
  function DriverHistoryOrders(st: TrackingState): (r: seq<Order>)
    ensures forall o :: o in r <==> o in st.driverOrders && IsFinal(o.status)
    ensures IsSubsequence(r, st.driverOrders)
  {
    Filter((o: Order) => IsFinal(o.status), st.driverOrders)
  }

  /**
   * The active and history lists share no order, and together they hold
   * every order of `driverOrders`, as often as it occurs there.
   */
  lemma ActiveHistoryPartition(st: TrackingState)
    ensures forall o :: !(o in DriverActiveOrders(st) && o in DriverHistoryOrders(st))
    ensures multiset(DriverActiveOrders(st)) + multiset(DriverHistoryOrders(st)) == multiset(st.driverOrders)
  {
    var a, h := DriverActiveOrders(st), DriverHistoryOrders(st);
    forall o ensures (multiset(a) + multiset(h))[o] == multiset(st.driverOrders)[o] {
    }
  }

  /** `loadLatestPassengerOrder`, given the passenger-orders reply. */
  function LoadLatestPassengerOrder(st: TrackingState, user: Option<UserProfile>, reply: Result<seq<Order>, QError>): (s: TrackingState)
    ensures user.None? ==> s == st
    ensures user.Some? && reply.Ok? ==> s == st.(currentOrder := First(reply.value))
    ensures user.Some? && reply.Err? ==> s == st.(errorMessage := Some(Description(reply.error)))
  {
    if user.None? then st
    else match reply
      case Ok(orders) => st.(currentOrder := First(orders))
      case Err(e) => st.(errorMessage := Some(Description(e)))
  }

  /** `loadPointsIfNeeded`, given the trail reply. */
  function LoadPointsIfNeeded(st: TrackingState, reply: Result<seq<LocationPoint>, QError>): (s: TrackingState)
    ensures st.currentOrder.None? ==> s == st
    ensures st.currentOrder.Some? && reply.Ok? ==> s == st.(points := reply.value)
    ensures st.currentOrder.Some? && reply.Err? ==> s == st.(errorMessage := Some(Description(reply.error)))
  {
    if st.currentOrder.None? then st
    else match reply
      case Ok(points) => st.(points := points)
      case Err(e) => st.(errorMessage := Some(Description(e)))
  }

  /** `loadDriverOrders`, given the driver-history reply; a failure empties the list. */
  function LoadDriverOrders(st: TrackingState, myId: Option<Uuid>, reply: Result<seq<Order>, QError>): (s: TrackingState)
    ensures myId.None? ==> s == st
    ensures myId.Some? && reply.Ok? ==> s == st.(driverOrders := reply.value)
    ensures myId.Some? && reply.Err? ==> s == st.(driverOrders := [], errorMessage := Some(Description(reply.error)))
  {
    if myId.None? then st
    else match reply
      case Ok(orders) => st.(driverOrders := orders)
      case Err(e) => st.(driverOrders := [], errorMessage := Some(Description(e)))
  }

  /**
   * Loaded from the orders table, the passenger's current order is one of
   * their own orders and none of theirs is newer; it is absent only when they
   * have no order at all.
   */
  lemma LatestPassengerOrderIsNewest(st: TrackingState, user: UserProfile, table: seq<OrderRecord>)
    ensures var s := LoadLatestPassengerOrder(st, Some(user), Ok(GetPassengerOrders(table, user.id)));
      && (s.currentOrder.None? <==> forall r :: r in table ==> r.passengerId != user.id)
      && (s.currentOrder.Some? ==> (
        && s.currentOrder.value.passengerId == user.id
        && forall r :: r in table && r.passengerId == user.id ==> r.createdAt <= s.currentOrder.value.createdAt))
  {
    var orders := GetPassengerOrders(table, user.id);
    if |orders| > 0 {
      assert orders[0] in orders;
      forall r | r in table && r.passengerId == user.id ensures r.createdAt <= orders[0].createdAt {
        var j :| 0 <= j < |orders| && orders[j] == MapOrder(r);
      }
    }
  }

  /** Loaded from the trail table, the points are exactly the current order's, oldest first. */
  lemma LoadedPointsAreTheTrail(st: TrackingState, table: seq<LocationRow>)
    requires st.currentOrder.Some?
    ensures var id := st.currentOrder.value.id;
      var s := LoadPointsIfNeeded(st, Ok(GetPoints(table, id)));
      && s.currentOrder == st.currentOrder
      && (forall p :: p in s.points ==> p.orderId == id)
      && (forall r :: r in table && r.orderId == id ==> RowPoint(r) in s.points)
      && (forall i, j :: 0 <= i < j < |s.points| ==> s.points[i].recordedAt <= s.points[j].recordedAt)
  {
  }

  /**
   * Loaded from the orders table, the driver's list is their newest orders:
   * at most 100 of their own, none of theirs left out is newer than one
   * shown, and while there is room none is left out; its active part never
   * shows a finished order.
   */
  lemma LoadedDriverOrdersAreOwn(st: TrackingState, id: Uuid, table: seq<OrderRecord>)
    ensures var s := LoadDriverOrders(st, Some(id), Ok(GetMyDriverOrders(table, id)));
      && |s.driverOrders| <= 100
      && (forall o :: o in s.driverOrders ==> o.driverId == Some(id))
      && (forall x, o :: x in table && x.driverId == Some(id) && MapOrder(x) !in s.driverOrders && o in s.driverOrders
            ==> x.createdAt <= o.createdAt)
      && (|s.driverOrders| < 100 ==> forall x :: x in table && x.driverId == Some(id) ==> MapOrder(x) in s.driverOrders)
      && (forall o :: o in DriverActiveOrders(s) ==> o.driverId == Some(id) && o.status != Completed && o.status != Cancelled)
  {
    HistoryIsNewest(table, id, DefaultHistoryLimit);
  }
}
