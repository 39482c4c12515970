/**
 * `PassengerHomeVM`: nearby drivers, the passenger's latest order, the demo
 * order creation, and the one-shot suggestion to open the trip screen.
 */
module PassengerHomeVM {
  import opened Wrappers
  import opened Seqs
  import opened Errors
  import opened OrderStatuses
  import opened Entities
  import opened OrderRepository
  import DriverRepository
  import AuthRepository

  datatype PassengerHome = PassengerHome(
    regionCenter: Coordinate,
    onlineDrivers: seq<Driver>,
    latestOrder: Option<Order>,
    isLoadingDrivers: bool,
    isCreatingOrder: bool,
    errorMessage: Option<string>,
    showTrackingSuggestion: bool,
    suggestionTitle: string,
    suggestionMessage: string,
    lastSuggestedOrderId: Option<Uuid>,
    lastSuggestedStatus: Option<OrderStatus>)

  /** The map's default centre. */
  const DefaultCenter: Coordinate := Coordinate(31.2304, 121.4737)

  /** The published properties' initial values. */
  const Initial: PassengerHome := PassengerHome(DefaultCenter, [], None, false, false, None, false, "", "", None, None)

  /** The repository calls this view model makes. */
  datatype PassengerCall =
    | OnlineDriversCall(near: Coordinate)
    | PassengerOrdersCall(passengerId: Uuid)
    | CreateOrderCall(passengerId: Uuid, pickup: Coordinate, dropoff: Coordinate)
    | SignInAsPassengerCall

  datatype PassengerStep = PassengerStep(state: PassengerHome, calls: seq<PassengerCall>)

  const PleaseSignIn: string := "请先登录"
  const ArrivedTitle: string := "司机已到达"
  const StartedTitle: string := "行程进行中"
  const SuggestionText: string := "建议进入「行程」页面查看实时状态与轨迹。"

  /** Whether evaluating now would raise a suggestion: an arrived or started order not yet suggested in that status. */
  predicate WouldSuggest(st: PassengerHome) {
    && st.latestOrder.Some?
    && (st.latestOrder.value.status == Arrived || st.latestOrder.value.status == Started)
    && !(st.lastSuggestedOrderId == Some(st.latestOrder.value.id) && st.lastSuggestedStatus == Some(st.latestOrder.value.status))
  }

  /** `evaluateTrackingSuggestion` */
  function EvaluateTrackingSuggestion(st: PassengerHome): (s: PassengerHome)
    ensures !WouldSuggest(st) ==> s == st
    ensures WouldSuggest(st) ==> (
      && s.showTrackingSuggestion
      && s.lastSuggestedOrderId == Some(st.latestOrder.value.id)
      && s.lastSuggestedStatus == Some(st.latestOrder.value.status)
      && s.suggestionTitle == (if st.latestOrder.value.status == Arrived then ArrivedTitle else StartedTitle)
      && s.suggestionMessage == SuggestionText)
    ensures s.latestOrder == st.latestOrder && s.onlineDrivers == st.onlineDrivers && s.errorMessage == st.errorMessage
  {
    if st.latestOrder.None? then st
    else
      var order := st.latestOrder.value;
      if !(order.status == Arrived || order.status == Started) then st
      else if st.lastSuggestedOrderId == Some(order.id) && st.lastSuggestedStatus == Some(order.status) then st
      else
        st.(
          lastSuggestedOrderId := Some(order.id),
          lastSuggestedStatus := Some(order.status),
          suggestionTitle := if order.status == Arrived then ArrivedTitle else StartedTitle,
          suggestionMessage := SuggestionText,
          showTrackingSuggestion := true)
  }

  /** The user dismissing the suggestion. */
  function Dismiss(st: PassengerHome): PassengerHome {
    st.(showTrackingSuggestion := false)
  }

  /**
   * The same order in the same status is suggested at most once: evaluating
   * again, even after the user dismissed the suggestion, raises nothing.
   */
  lemma SuggestionNotRepeated(st: PassengerHome)
    ensures !WouldSuggest(EvaluateTrackingSuggestion(st))
    ensures EvaluateTrackingSuggestion(EvaluateTrackingSuggestion(st)) == EvaluateTrackingSuggestion(st)
    ensures var d := Dismiss(EvaluateTrackingSuggestion(st));
      EvaluateTrackingSuggestion(d) == d && !d.showTrackingSuggestion
  {
  }

  /** The same order reaching a new suggestible status is suggested again. */
  lemma NewStatusSuggestsAgain(st: PassengerHome, next: Order)
    requires WouldSuggest(st)
    requires next.id == st.latestOrder.value.id && next.status != st.latestOrder.value.status
    requires next.status == Arrived || next.status == Started
    ensures WouldSuggest(Dismiss(EvaluateTrackingSuggestion(st)).(latestOrder := Some(next)))
  {
  }

  /** The demo destination: 0.01 degree south and west of the pickup. */
  function DemoDropoff(pickup: Coordinate): (d: Coordinate)
    ensures d.latitude < pickup.latitude && d.longitude < pickup.longitude
    ensures pickup.latitude - d.latitude == pickup.longitude - d.longitude == 0.01
  {
    Coordinate(pickup.latitude - 0.01, pickup.longitude - 0.01)
  }

  /** `onAppear`'s recentring: the last device coordinate, when known, becomes the map centre. */
  function Recenter(st: PassengerHome, coord: Option<Coordinate>): (s: PassengerHome)
    ensures s.regionCenter == coord.GetOr(st.regionCenter)
    ensures s.(regionCenter := st.regionCenter) == st
  {
    if coord.Some? then st.(regionCenter := coord.value) else st
  }

  /** `ensurePassengerSession`: sign in as a passenger only when no one is signed in. */
  function EnsurePassengerSession(st: PassengerHome, currentUser: Option<UserProfile>, signIn: Result<UserProfile, QError>): (r: PassengerStep)
    ensures currentUser.Some? ==> r == PassengerStep(st, [])
    ensures currentUser.None? ==> r.calls == [SignInAsPassengerCall]
    ensures currentUser.None? && signIn.Ok? ==> r.state == st
    ensures currentUser.None? && signIn.Err? ==> r.state == st.(errorMessage := Some(Description(signIn.error)))
  {
    if currentUser.Some? then PassengerStep(st, [])
    else match signIn
      case Ok(_) => PassengerStep(st, [SignInAsPassengerCall])
      case Err(e) => PassengerStep(st.(errorMessage := Some(Description(e))), [SignInAsPassengerCall])
  }

  /** `refreshDrivers`, given the coordinate known and the reply of `getOnlineDrivers`. */
  function RefreshDrivers(st: PassengerHome, coord: Option<Coordinate>, reply: Result<seq<Driver>, QError>): (r: PassengerStep)
    ensures r.calls == [OnlineDriversCall(coord.GetOr(st.regionCenter))]
    ensures !r.state.isLoadingDrivers
    ensures reply.Ok? ==> r.state == st.(onlineDrivers := reply.value, isLoadingDrivers := false)
    ensures reply.Err? ==> r.state == st.(onlineDrivers := [], isLoadingDrivers := false, errorMessage := Some(Description(reply.error)))
  {
    var call := OnlineDriversCall(coord.GetOr(st.regionCenter));
    match reply
    case Ok(drivers) => PassengerStep(st.(onlineDrivers := drivers, isLoadingDrivers := false), [call])
    case Err(e) => PassengerStep(st.(onlineDrivers := [], isLoadingDrivers := false, errorMessage := Some(Description(e))), [call])
  }

  /** `loadLatestOrder`, given the reply of `getPassengerOrders`; success re-evaluates the suggestion. */
  function LoadLatestOrder(st: PassengerHome, user: Option<UserProfile>, reply: Result<seq<Order>, QError>): (r: PassengerStep)
    ensures user.None? ==> r == PassengerStep(st, [])
    ensures user.Some? ==> r.calls == [PassengerOrdersCall(user.value.id)]
    ensures user.Some? && reply.Ok? ==> r.state.latestOrder == First(reply.value)
    ensures user.Some? && reply.Ok? ==> r.state == EvaluateTrackingSuggestion(st.(latestOrder := First(reply.value)))
    ensures user.Some? && reply.Err? ==> r.state == st.(errorMessage := Some(Description(reply.error)))
  {
    if user.None? then PassengerStep(st, [])
    else
      var call := PassengerOrdersCall(user.value.id);
      match reply
      case Ok(orders) => PassengerStep(EvaluateTrackingSuggestion(st.(latestOrder := First(orders))), [call])
      case Err(e) => PassengerStep(st.(errorMessage := Some(Description(e))), [call])
  }

  /**
   * `createOrderDemo`, given the coordinate known and the reply of
   * `createOrder`. The pickup is the device coordinate, else the map centre;
   * the destination is the demo offset from it.
   */
  function CreateOrderDemo(st: PassengerHome, user: Option<UserProfile>, coord: Option<Coordinate>, reply: Result<Order, QError>): (r: PassengerStep)
    ensures user.None? ==> r == PassengerStep(st.(errorMessage := Some(PleaseSignIn)), [])
    ensures user.Some? ==> r.calls == [CreateOrderCall(user.value.id, coord.GetOr(st.regionCenter), DemoDropoff(coord.GetOr(st.regionCenter)))] && !r.state.isCreatingOrder
    ensures user.Some? && reply.Ok? ==> r.state == st.(latestOrder := Some(reply.value), isCreatingOrder := false)
    ensures user.Some? && reply.Err? ==> r.state == st.(errorMessage := Some(Description(reply.error)), isCreatingOrder := false)
    ensures r.state.latestOrder != st.latestOrder ==> user.Some? && reply.Ok?
  {
    if user.None? then PassengerStep(st.(errorMessage := Some(PleaseSignIn)), [])
    else
      var pickup := coord.GetOr(st.regionCenter);
      var call := CreateOrderCall(user.value.id, pickup, DemoDropoff(pickup));
      match reply
      case Ok(order) => PassengerStep(st.(latestOrder := Some(order), isCreatingOrder := false), [call])
      case Err(e) => PassengerStep(st.(errorMessage := Some(Description(e)), isCreatingOrder := false), [call])
  }

  /**
   * Loaded from the orders table, the latest order is the passenger's newest
   * one; when it is arrived or started and was not suggested in that status
   * yet, the suggestion is raised.
   */
  lemma LatestOrderIsNewest(st: PassengerHome, user: UserProfile, table: seq<OrderRecord>)
    ensures var s := LoadLatestOrder(st, Some(user), Ok(GetPassengerOrders(table, user.id))).state;
      && (s.latestOrder.Some? ==> (
        && s.latestOrder.value.passengerId == user.id
        && forall r :: r in table && r.passengerId == user.id ==> r.createdAt <= s.latestOrder.value.createdAt))
      && (WouldSuggest(st.(latestOrder := s.latestOrder)) ==> s.showTrackingSuggestion)
  {
    var orders := GetPassengerOrders(table, user.id);
    if |orders| > 0 {
      assert orders[0] in orders;
      forall r | r in table && r.passengerId == user.id ensures r.createdAt <= orders[0].createdAt {
        var j :| 0 <= j < |orders| && orders[j] == MapOrder(r);
      }
    }
  }

  /** Recentring twice on the same coordinate is recentring once; with none known the map stays put. */
  lemma RecenterIdempotent(st: PassengerHome, coord: Option<Coordinate>)
    ensures Recenter(Recenter(st, coord), coord) == Recenter(st, coord)
    ensures Recenter(st, None) == st
  {
  }

  /**
   * With nobody signed in, `ensurePassengerSession` asks the auth repository
   * to sign in as a passenger; once that succeeds the next call asks nothing,
   * and without a session the error shown is `notAuthenticated`'s.
   */
  lemma PassengerSessionSignsInOnce(
    st: PassengerHome, auth: AuthRepository.AuthState, upsertError: Option<QError>,
    profiles: Result<seq<AuthRepository.ProfileRow>, QError>, again: Result<UserProfile, QError>)
    requires auth.currentUser.None?
    ensures var s := AuthRepository.SignInAsPassenger(auth, upsertError, profiles);
      var r := EnsurePassengerSession(st, auth.currentUser, s.result);
      && r.calls == [SignInAsPassengerCall]
      && (auth.sessionUser.None? ==> r.state == st.(errorMessage := Some(Description(NotAuthenticated))))
      && (s.result.Ok? ==> r.state == st && EnsurePassengerSession(r.state, s.state.currentUser, again) == PassengerStep(st, []))
  {
  }

  /**
   * Refreshed from the nearby-drivers RPC, the map shows exactly the drivers
   * of the rows that carry a location, and nothing else on the screen moves.
   */
  lemma RefreshedDriversAreTheLocatedRows(st: PassengerHome, coord: Option<Coordinate>, rows: seq<DriverRepository.NearbyDriverRow>)
    ensures var s := RefreshDrivers(st, coord, Ok(DriverRepository.GetOnlineDrivers(rows))).state;
      && (forall row :: row in rows && DriverRepository.HasLocation(row) ==> DriverRepository.RowDriver(row) in s.onlineDrivers)
      && (forall d :: d in s.onlineDrivers ==> exists row :: row in rows && DriverRepository.HasLocation(row) && DriverRepository.RowDriver(row) == d)
      && s.(onlineDrivers := st.onlineDrivers, isLoadingDrivers := st.isLoadingDrivers) == st
  {
  }

  /**
   * When the store inserts the demo order, the passenger's latest order is a
   * fresh, unassigned `requested` order of theirs, picked up at the device
   * coordinate (or the map centre) and bound for the demo destination.
   */
  lemma DemoOrderIsRequestedAtPickup(st: PassengerHome, user: UserProfile, coord: Option<Coordinate>, id: Uuid, now: Timestamp)
    ensures var pickup := coord.GetOr(st.regionCenter);
      var inserted := InsertedRow(CreatePayload(user.id, pickup, Some(DemoDropoff(pickup))), id, now);
      var r := CreateOrderDemo(st, Some(user), coord, CreateOrder(Ok([inserted])));
      && r.calls == [CreateOrderCall(user.id, pickup, DemoDropoff(pickup))]
      && r.state.latestOrder.Some?
      && r.state.latestOrder.value.id == id
      && r.state.latestOrder.value.passengerId == user.id
      && r.state.latestOrder.value.driverId.None?
      && r.state.latestOrder.value.status == Requested
      && r.state.latestOrder.value.pickup == pickup
      && r.state.latestOrder.value.dropoff == Some(DemoDropoff(pickup))
      && r.state.latestOrder.value.createdAt == now
  {
    var pickup := coord.GetOr(st.regionCenter);
    CreateOrderRoundTrip(user.id, pickup, Some(DemoDropoff(pickup)), id, now);
  }
}
