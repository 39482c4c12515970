/**
 * `DriverHomeVM`: going online and offline, refreshing nearby open orders,
 * accepting one, the location heartbeat, and loading the driver's current
 * order. Each action is a step from state to state that also lists the
 * repository calls it makes; every reply it awaits is an input.
 */
module DriverHomeVM {
  import opened Wrappers
  import opened Seqs
  import opened Errors
  import opened OrderStatuses
  import opened Entities
  import opened OrderRepository
  import opened DriverOrderQueries
  import opened TrackingVM
  import DriverRepository
  import AuthRepository

  datatype DriverHome = DriverHome(
    isOnline: bool,
    nearbyOrders: seq<Order>,
    me: Option<Driver>,
    errorMessage: Option<string>,
    currentOrder: Option<Order>,
    shouldNavigateToCurrentOrder: bool,
    isLoadingOrders: bool,
    heartbeatRunning: bool)

  /** The published properties' initial values. */
  const Initial: DriverHome := DriverHome(false, [], None, None, None, false, false, false)

  /** The repository calls this view model makes. */
  datatype DriverCall =
    | SetOnlineCall(online: bool, driverId: Uuid)
    | UpdateLocationCall(coordinate: Coordinate, driverId: Uuid)
    | NearbyOpenOrdersCall(near: Coordinate)
    | AcceptOrderCall(orderId: Uuid, driverId: Uuid)
    | ActiveDriverOrdersCall(driverId: Uuid)
    | SignInAsDriverCall

  datatype DriverStep = DriverStep(state: DriverHome, calls: seq<DriverCall>)

  const PleaseSignIn: string := "请先登录"

  /** `ensureDriverSession`: sign in as a driver only when no one is signed in. */
  function EnsureDriverSession(st: DriverHome, currentUser: Option<UserProfile>, signIn: Result<UserProfile, QError>): (r: DriverStep)
    ensures currentUser.Some? ==> r == DriverStep(st, [])
    ensures currentUser.None? ==> r.calls == [SignInAsDriverCall]
    ensures currentUser.None? && signIn.Ok? ==> r.state == st
    ensures currentUser.None? && signIn.Err? ==> r.state == st.(errorMessage := Some(Description(signIn.error)))
  {
    if currentUser.Some? then DriverStep(st, [])
    else match signIn
      case Ok(_) => DriverStep(st, [SignInAsDriverCall])
      case Err(e) => DriverStep(st.(errorMessage := Some(Description(e))), [SignInAsDriverCall])
  }

  /**
   * `refreshNearbyOrders`, given the reply to the nearby query. It does
   * nothing when offline or without a coordinate; otherwise a failure
   * empties the list, and the loading flag ends cleared.
   */
  function RefreshNearbyOrders(st: DriverHome, coord: Option<Coordinate>, reply: Result<seq<Order>, QError>): (r: DriverStep)
    ensures !st.isOnline || coord.None? ==> r == DriverStep(st, [])
    ensures st.isOnline && coord.Some? ==> r.calls == [NearbyOpenOrdersCall(coord.value)] && !r.state.isLoadingOrders
    ensures st.isOnline && coord.Some? && reply.Ok? ==> r.state == st.(nearbyOrders := reply.value, isLoadingOrders := false)
    ensures st.isOnline && coord.Some? && reply.Err?
      ==> r.state == st.(nearbyOrders := [], isLoadingOrders := false, errorMessage := Some(Description(reply.error)))
    ensures !r.state.isOnline ==> r.state.nearbyOrders == st.nearbyOrders
  {
    if !st.isOnline || coord.None? then DriverStep(st, [])
    else
      var fetched := match reply
        case Ok(orders) => st.(nearbyOrders := orders)
        case Err(e) => st.(nearbyOrders := [], errorMessage := Some(Description(e)));
      // The source re-checks `isOnline` after the await; nothing in a single step can have cleared it.
      var checked := if !fetched.isOnline then fetched.(nearbyOrders := []) else fetched;
      DriverStep(checked.(isLoadingOrders := false), [NearbyOpenOrdersCall(coord.value)])
  }

  /**
   * `toggleOnline`, given the replies of `setOnline`, of the follow-up
   * `updateLocation` (used only when a coordinate is known) and of the
   * nearby refresh (used only when the driver ends online).
   */
  function ToggleOnline(
    st: DriverHome, myId: Option<Uuid>, coord: Option<Coordinate>,
    setReply: Result<Driver, QError>, locateReply: Result<Driver, QError>,
    nearbyReply: Result<seq<Order>, QError>): (r: DriverStep)
    ensures myId.None? ==> r == DriverStep(st.(errorMessage := Some(PleaseSignIn)), [])
    ensures myId.Some? ==> |r.calls| >= 1 && r.calls[0] == SetOnlineCall(!st.isOnline, myId.value)
    ensures myId.Some? && setReply.Err?
      ==> r == DriverStep(st.(errorMessage := Some(Description(setReply.error))), [SetOnlineCall(!st.isOnline, myId.value)])
    ensures myId.Some? && setReply.Ok? ==> r.state.isOnline == setReply.value.isOnline
    ensures (myId.Some? && setReply.Ok? && (coord.None? || locateReply.Ok?) && !setReply.value.isOnline)
      ==> !r.state.heartbeatRunning && r.state.nearbyOrders == []
    ensures (myId.Some? && setReply.Ok? && (coord.None? || locateReply.Ok?) && setReply.value.isOnline)
      ==> r.state.heartbeatRunning
    ensures myId.Some? && setReply.Ok? && coord.Some? ==> |r.calls| >= 2 && r.calls[1] == UpdateLocationCall(coord.value, myId.value)
    ensures myId.Some? && setReply.Ok? && coord.None? ==> r.state.me == Some(setReply.value)
    // A failing location write ends the action: only `isOnline` and the error change.
    ensures myId.Some? && setReply.Ok? && coord.Some? && locateReply.Err?
      ==> r == DriverStep(st.(isOnline := setReply.value.isOnline, errorMessage := Some(Description(locateReply.error))),
                          [SetOnlineCall(!st.isOnline, myId.value), UpdateLocationCall(coord.value, myId.value)])
  {
    if myId.None? then DriverStep(st.(errorMessage := Some(PleaseSignIn)), [])
    else
      var id := myId.value;
      var setCall := SetOnlineCall(!st.isOnline, id);
      match setReply
      case Err(e) => DriverStep(st.(errorMessage := Some(Description(e))), [setCall])
      case Ok(updated) =>
        match Locate(st.(isOnline := updated.isOnline), updated, id, coord, locateReply, setCall)
        case Err(failed) => failed
        case Ok(step) => Settle(step, coord, nearbyReply)
  }

  /**
   * The follow-up location write of `toggleOnline`: `me` becomes its result,
   * or the `setOnline` result when no coordinate is known; a failure ends the
   * action with an error.
   */
  function Locate(online: DriverHome, updated: Driver, id: Uuid, coord: Option<Coordinate>,
                  locateReply: Result<Driver, QError>, setCall: DriverCall): (r: Result<DriverStep, DriverStep>)
    ensures coord.None? ==> r == Ok(DriverStep(online.(me := Some(updated)), [setCall]))
    ensures coord.Some? ==> (r.Ok? <==> locateReply.Ok?)
    ensures coord.Some? && r.Ok? ==> r.value == DriverStep(online.(me := Some(locateReply.value)), [setCall, UpdateLocationCall(coord.value, id)])
    ensures coord.Some? && r.Err? ==> r.error == DriverStep(online.(errorMessage := Some(Description(locateReply.error))), [setCall, UpdateLocationCall(coord.value, id)])
  {
    if coord.None? then Ok(DriverStep(online.(me := Some(updated)), [setCall]))
    else
      var locateCall := UpdateLocationCall(coord.value, id);
      match locateReply
      case Ok(d) => Ok(DriverStep(online.(me := Some(d)), [setCall, locateCall]))
      case Err(e) => Err(DriverStep(online.(errorMessage := Some(Description(e))), [setCall, locateCall]))
  }

  /**
   * The end of `toggleOnline`: online, the heartbeat starts and the nearby
   * list is refreshed; offline, the heartbeat stops and the list is emptied.
   */
  function Settle(step: DriverStep, coord: Option<Coordinate>, nearbyReply: Result<seq<Order>, QError>): (r: DriverStep)
    ensures |step.calls| <= |r.calls| && r.calls[..|step.calls|] == step.calls
    ensures r.state.isOnline == step.state.isOnline && r.state.me == step.state.me
    ensures step.state.isOnline ==> r.state.heartbeatRunning
    ensures !step.state.isOnline ==> !r.state.heartbeatRunning && r.state.nearbyOrders == [] && r.calls == step.calls
  {
    if step.state.isOnline then
      var refreshed := RefreshNearbyOrders(step.state.(heartbeatRunning := true), coord, nearbyReply);
      DriverStep(refreshed.state, step.calls + refreshed.calls)
    else
      DriverStep(step.state.(heartbeatRunning := false, nearbyOrders := []), step.calls)
  }

  /**
   * `accept(_:)`, given the reply of `acceptOrder`. Success drops every
   * nearby entry with the accepted order's id, keeps the rest in order, and
   * opens the accepted order; failure changes only the error.
   */
  function Accept(st: DriverHome, myId: Option<Uuid>, order: Order, reply: Result<Order, QError>): (r: DriverStep)
    ensures myId.None? ==> r == DriverStep(st, [])
    ensures myId.Some? ==> r.calls == [AcceptOrderCall(order.id, myId.value)]
    ensures myId.Some? && reply.Ok? ==> (
      && r.state.currentOrder == Some(reply.value)
      && r.state.shouldNavigateToCurrentOrder
      && (forall o :: o in r.state.nearbyOrders <==> o in st.nearbyOrders && o.id != reply.value.id)
      && (forall o: Order :: o.id != reply.value.id ==> multiset(r.state.nearbyOrders)[o] == multiset(st.nearbyOrders)[o])
      && IsSubsequence(r.state.nearbyOrders, st.nearbyOrders)
      && r.state == st.(nearbyOrders := r.state.nearbyOrders, currentOrder := Some(reply.value), shouldNavigateToCurrentOrder := true))
    ensures myId.Some? && reply.Err? ==> r.state == st.(errorMessage := Some(Description(reply.error)))
  {
    if myId.None? then DriverStep(st, [])
    else
      var call := AcceptOrderCall(order.id, myId.value);
      match reply
      case Ok(accepted) =>
        var remaining := Filter((o: Order) => o.id != accepted.id, st.nearbyOrders);
        DriverStep(st.(nearbyOrders := remaining, currentOrder := Some(accepted), shouldNavigateToCurrentOrder := true), [call])
      case Err(e) => DriverStep(st.(errorMessage := Some(Description(e))), [call])
  }

  // ---------------------------------------------------------------- heartbeat

  /** What the heartbeat loop observes at the top of one iteration. */
  datatype TickView = TickView(isOnline: bool, myId: Option<Uuid>, coord: Option<Coordinate>)

  /** One iteration's decision: leave the loop, or stay, possibly writing a location. */
  datatype Tick = Exit | Stay(write: Option<DriverCall>)

  /** The body of the heartbeat loop. */
  function HeartbeatTick(v: TickView): (t: Tick)
    ensures t.Exit? <==> !v.isOnline || v.myId.None?
    ensures t.Stay? ==> (t.write.Some? <==> v.coord.Some?)
    ensures t.Stay? && t.write.Some? ==> t.write.value == UpdateLocationCall(v.coord.value, v.myId.value)
  {
    if !v.isOnline then Exit
    else if v.myId.None? then Exit
    else if v.coord.Some? then Stay(Some(UpdateLocationCall(v.coord.value, v.myId.value)))
    else Stay(None)
  }

  /** The location writes of a heartbeat run over successive iterations, up to its first exit. */
  function HeartbeatWrites(ticks: seq<TickView>): seq<DriverCall>
    decreases |ticks|
  {
    if |ticks| == 0 then []
    else match HeartbeatTick(ticks[0])
      case Exit => []
      case Stay(w) => (if w.Some? then [w.value] else []) + HeartbeatWrites(ticks[1..])
  }

  /**
   * Once the loop sees the driver offline it writes nothing more, however
   * many further ticks come.
   */
  lemma {:induction false} HeartbeatStopsWhenOffline(before: seq<TickView>, off: TickView, after: seq<TickView>)
    requires !off.isOnline
    ensures HeartbeatWrites(before + [off] + after) == HeartbeatWrites(before)
    decreases |before|
  {
    if |before| == 0 {
      assert before + [off] + after == [off] + after;
    } else {
      assert (before + [off] + after)[1..] == before[1..] + [off] + after;
      HeartbeatStopsWhenOffline(before[1..], off, after);
    }
  }

  /** Every heartbeat write is the signed-in driver's own location report. */
  lemma {:induction false} HeartbeatWritesAreLocations(ticks: seq<TickView>, c: DriverCall)
    requires c in HeartbeatWrites(ticks)
    ensures c.UpdateLocationCall?
    ensures exists t :: t in ticks && t.isOnline && t.myId == Some(c.driverId) && t.coord == Some(c.coordinate)
    decreases |ticks|
  {
    var t := HeartbeatTick(ticks[0]);
    if t.Stay? && t.write.Some? && c == t.write.value {
      assert ticks[0] in ticks;
    } else {
      HeartbeatWritesAreLocations(ticks[1..], c);
      forall u | u in ticks[1..] ensures u in ticks { }
    }
  }

  // ---------------------------------------------------------------- current order

  /** `loadMyCurrentOrderIfAny`, given the reply of `getMyActiveDriverOrders`. */
  function LoadMyCurrentOrderIfAny(st: DriverHome, myId: Option<Uuid>, reply: Result<seq<Order>, QError>): (r: DriverStep)
    ensures myId.None? ==> r == DriverStep(st, [])
    ensures myId.Some? ==> r.calls == [ActiveDriverOrdersCall(myId.value)]
    ensures myId.Some? && reply.Ok? ==> r.state == st.(currentOrder := First(reply.value))
    ensures myId.Some? && reply.Err? ==> r.state == st.(currentOrder := None, errorMessage := Some(Description(reply.error)))
  {
    if myId.None? then DriverStep(st, [])
    else
      var call := ActiveDriverOrdersCall(myId.value);
      match reply
      case Ok(list) => DriverStep(st.(currentOrder := First(list)), [call])
      case Err(e) => DriverStep(st.(currentOrder := None, errorMessage := Some(Description(e))), [call])
  }

  /**
   * Loaded from the orders table, the current order is one of the driver's
   * own unfinished orders, and no unfinished order of theirs is newer.
   */
  lemma CurrentOrderIsNewestActive(st: DriverHome, id: Uuid, table: seq<OrderRecord>)
    ensures var r := LoadMyCurrentOrderIfAny(st, Some(id), Ok(GetMyActiveDriverOrders(table, id)));
      r.state.currentOrder.Some? ==> (
        && r.state.currentOrder.value.driverId == Some(id)
        && !IsFinal(r.state.currentOrder.value.status)
        && forall x :: x in table && IsActiveFor(x, id) ==> x.createdAt <= r.state.currentOrder.value.createdAt)
  {
    var list := GetMyActiveDriverOrders(table, id);
    if |list| > 0 {
      assert list[0] in list;
      forall x | x in table && IsActiveFor(x, id) ensures x.createdAt <= list[0].createdAt {
        assert MapOrder(x) in list;
        var j :| 0 <= j < |list| && list[j] == MapOrder(x);
      }
    }
  }

  // ---------------------------------------------------------------- settled presence

  /** Offline, the heartbeat is stopped and no nearby order is listed. */
  predicate Settled(st: DriverHome) {
    !st.isOnline ==> !st.heartbeatRunning && st.nearbyOrders == []
  }

  /** The initial state is settled, and the refresh, accept, current-order and sign-in steps keep it so. */
  lemma StepsKeepSettled(
    st: DriverHome, myId: Option<Uuid>, coord: Option<Coordinate>, order: Order,
    nearby: Result<seq<Order>, QError>, accepted: Result<Order, QError>, active: Result<seq<Order>, QError>,
    currentUser: Option<UserProfile>, signIn: Result<UserProfile, QError>)
    requires Settled(st)
    ensures Settled(Initial)
    ensures Settled(RefreshNearbyOrders(st, coord, nearby).state)
    ensures Settled(Accept(st, myId, order, accepted).state)
    ensures Settled(LoadMyCurrentOrderIfAny(st, myId, active).state)
    ensures Settled(EnsureDriverSession(st, currentUser, signIn).state)
  {
    AcceptKeepsSettled(st, myId, order, accepted);
  }

  lemma AcceptKeepsSettled(st: DriverHome, myId: Option<Uuid>, order: Order, accepted: Result<Order, QError>)
    requires Settled(st)
    ensures Settled(Accept(st, myId, order, accepted).state)
  {
    if myId.Some? && accepted.Ok? && !st.isOnline {
      var r := Accept(st, myId, order, accepted).state;
      assert multiset(r.nearbyOrders) == multiset{} by {
        forall o: Order ensures multiset(r.nearbyOrders)[o] == 0 {
          if o.id != accepted.value.id {
            assert multiset(r.nearbyOrders)[o] == multiset(st.nearbyOrders)[o];
          } else {
            assert o !in r.nearbyOrders;
          }
        }
      }
    }
  }

  /**
   * `toggleOnline` keeps the state settled except on one path: the driver
   * goes offline with a coordinate known and the follow-up location write
   * fails.
   */
  lemma ToggleKeepsSettledUnlessLocateFails(
    st: DriverHome, myId: Option<Uuid>, coord: Option<Coordinate>,
    setReply: Result<Driver, QError>, locateReply: Result<Driver, QError>, nearbyReply: Result<seq<Order>, QError>)
    requires Settled(st)
    requires !(myId.Some? && setReply.Ok? && !setReply.value.isOnline && coord.Some? && locateReply.Err?)
    ensures Settled(ToggleOnline(st, myId, coord, setReply, locateReply, nearbyReply).state)
  {
  }

  /**
   * As written, going offline with a coordinate known and a failing location
   * write leaves the driver offline with the heartbeat flagged running and
   * the old nearby list still shown.
   */
  lemma OfflineToggleLeavesStaleList(
    id: Uuid, c: Coordinate, off: Driver, e: QError, o: Order, nearbyReply: Result<seq<Order>, QError>)
    requires !off.isOnline
    ensures var st := Initial.(isOnline := true, heartbeatRunning := true, nearbyOrders := [o]);
      var r := ToggleOnline(st, Some(id), Some(c), Ok(off), Err(e), nearbyReply);
      && Settled(st)
      && !r.state.isOnline && r.state.heartbeatRunning && r.state.nearbyOrders == [o]
      && !Settled(r.state)
  {
  }

  /**
   * As written, going offline with a coordinate known follows `setOnline(false)`
   * with a location write, and that write upserts the driver as online again:
   * the server ends with the driver online while the screen shows offline.
   */
  lemma OfflineToggleReportsOnline(
    st: DriverHome, id: Uuid, c: Coordinate, off: Driver,
    locateReply: Result<Driver, QError>, nearbyReply: Result<seq<Order>, QError>,
    record: Result<DriverRepository.DriverRecord, QError>)
    requires st.isOnline && !off.isOnline
    ensures var r := ToggleOnline(st, Some(id), Some(c), Ok(off), locateReply, nearbyReply);
      && r.calls[0] == SetOnlineCall(false, id)
      && r.calls[1] == UpdateLocationCall(c, id)
      && !r.state.isOnline
    ensures var w := DriverRepository.UpdateLocation(c, id, Some(id), record);
      w.Sent? && w.params.isOnline
  {
  }

  /**
   * As written, going online with a coordinate known and a failing location
   * write leaves the driver online on the server and on screen, but the
   * heartbeat is never started and the nearby list is never refreshed; the
   * state still counts as settled, since settled speaks only of offline.
   * The corrected toggle starts the heartbeat on the same input.
   */
  lemma OnlineToggleSkipsHeartbeat(
    st: DriverHome, id: Uuid, c: Coordinate, on: Driver, e: QError, nearbyReply: Result<seq<Order>, QError>)
    requires Settled(st) && !st.isOnline && on.isOnline
    ensures var r := ToggleOnline(st, Some(id), Some(c), Ok(on), Err(e), nearbyReply);
      && r.state.isOnline && !r.state.heartbeatRunning
      && r.state.nearbyOrders == []
      && r.calls == [SetOnlineCall(true, id), UpdateLocationCall(c, id)]
      && Settled(r.state)
    ensures var g := ToggleOnlineGuarded(st, Some(id), Some(c), Ok(on), Err(e), nearbyReply);
      g.state.isOnline && g.state.heartbeatRunning
  {
  }

  /**
   * `toggleOnline` with the follow-up location write made only when the
   * driver ends online, and with a failure of that write recorded without
   * abandoning the heartbeat and the nearby refresh.
   */
  function ToggleOnlineGuarded(
    st: DriverHome, myId: Option<Uuid>, coord: Option<Coordinate>,
    setReply: Result<Driver, QError>, locateReply: Result<Driver, QError>,
    nearbyReply: Result<seq<Order>, QError>): (r: DriverStep)
    ensures myId.None? ==> r == DriverStep(st.(errorMessage := Some(PleaseSignIn)), [])
    ensures myId.Some? ==> |r.calls| >= 1 && r.calls[0] == SetOnlineCall(!st.isOnline, myId.value)
    ensures myId.Some? && setReply.Err?
      ==> r == DriverStep(st.(errorMessage := Some(Description(setReply.error))), [SetOnlineCall(!st.isOnline, myId.value)])
    ensures myId.Some? && setReply.Ok? ==> r.state.isOnline == setReply.value.isOnline && r.state.heartbeatRunning == r.state.isOnline
    ensures myId.Some? && setReply.Ok? && !setReply.value.isOnline
      ==> r.calls == [SetOnlineCall(!st.isOnline, myId.value)] && r.state.me == Some(setReply.value) && r.state.nearbyOrders == []
    ensures forall c :: c in r.calls && c.UpdateLocationCall? ==> r.state.isOnline
    ensures Settled(st) ==> Settled(r.state)
    // Where the source's action completes normally ending online, nothing changes.
    ensures myId.Some? && setReply.Ok? && setReply.value.isOnline && (coord.None? || locateReply.Ok?)
      ==> r == ToggleOnline(st, myId, coord, setReply, locateReply, nearbyReply)
  {
    if myId.None? then DriverStep(st.(errorMessage := Some(PleaseSignIn)), [])
    else
      var id := myId.value;
      var setCall := SetOnlineCall(!st.isOnline, id);
      match setReply
      case Err(e) => DriverStep(st.(errorMessage := Some(Description(e))), [setCall])
      case Ok(updated) =>
        var next := st.(isOnline := updated.isOnline);
        if !updated.isOnline then Settle(DriverStep(next.(me := Some(updated)), [setCall]), coord, nearbyReply)
        else
          match Locate(next, updated, id, coord, locateReply, setCall)
          case Err(failed) => Settle(failed, coord, nearbyReply)
          case Ok(step) => Settle(step, coord, nearbyReply)
  }

  /**
   * With nobody signed in, `ensureDriverSession` asks the auth repository to
   * sign in as a driver; once that succeeds the next call asks nothing, and
   * without a session the error shown is `notAuthenticated`'s.
   */
  lemma DriverSessionSignsInOnce(
    st: DriverHome, auth: AuthRepository.AuthState, upsertError: Option<QError>,
    profiles: Result<seq<AuthRepository.ProfileRow>, QError>, again: Result<UserProfile, QError>)
    requires auth.currentUser.None?
    ensures var s := AuthRepository.SignInAsDriver(auth, upsertError, profiles);
      var r := EnsureDriverSession(st, auth.currentUser, s.result);
      && r.calls == [SignInAsDriverCall]
      && (auth.sessionUser.None? ==> r.state == st.(errorMessage := Some(Description(NotAuthenticated))))
      && (s.result.Ok? ==> r.state == st && EnsureDriverSession(r.state, s.state.currentUser, again) == DriverStep(st, []))
  {
  }

  /**
   * Fed the row `accept_order` returns (or its error), `accept` opens that
   * row's order and drops every nearby entry with its id; an error only
   * shows its text.
   */
  lemma AcceptedRowOpens(st: DriverHome, id: Uuid, order: Order, reply: Result<OrderRecord, QError>)
    ensures var r := Accept(st, Some(id), order, MapReply(reply));
      && r.calls == [AcceptOrderCall(order.id, id)]
      && (reply.Ok? ==> r.state.currentOrder == Some(MapOrder(reply.value))
                        && forall o :: o in r.state.nearbyOrders ==> o.id != reply.value.id)
      && (reply.Err? ==> r.state == st.(errorMessage := Some(Description(reply.error))))
  {
  }
}
