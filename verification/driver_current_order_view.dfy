/**
 * `DriverCurrentOrderView`: the three trip buttons, when each is enabled, and
 * what a status update does to the screen.
 */
module DriverCurrentOrderView {
  import opened Wrappers
  import opened Errors
  import opened OrderStatuses
  import opened Entities
  import opened OrderRepository
  import opened TrackingVM

  /** The three buttons: "我已到达", "开始行程", "完成行程". */
  datatype TripAction = MarkArrived | StartTrip | CompleteTrip

  /** The status each button requests. */
  function Target(a: TripAction): OrderStatus {
    match a
    case MarkArrived => Arrived
    case StartTrip => Started
    case CompleteTrip => Completed
  }

  /** The status each button is enabled in (`.disabled(order.status != …)`). */
  function EnabledIn(a: TripAction): OrderStatus {
    match a
    case MarkArrived => Accepted
    case StartTrip => Arrived
    case CompleteTrip => Started
  }

  predicate IsEnabled(a: TripAction, status: OrderStatus) {
    status == EnabledIn(a)
  }

  /**
   * A button is enabled exactly when its target is the next status on the
   * chain and the order is already accepted: the view offers precisely the
   * steps `nextStatus` takes after acceptance.
   */
  lemma EnabledIffNextStep(a: TripAction, status: OrderStatus)
    ensures IsEnabled(a, status) <==> status != Requested && !IsFinal(status) && NextStatus(status) == Target(a)
  {
  }

  /** At most one button is enabled; none is for `requested`, `completed` or `cancelled`. */
  lemma AtMostOneEnabled(a: TripAction, b: TripAction, status: OrderStatus)
    ensures IsEnabled(a, status) && IsEnabled(b, status) ==> a == b
    ensures status in {Requested, Completed, Cancelled} ==> !IsEnabled(a, status)
  {
  }

  datatype ViewState = ViewState(order: Order, isPresented: bool, errorMessage: Option<string>)

  /** An `update(_:)` call: the new state, the request sent, and whether `onCompleted` ran. */
  datatype UpdateStep = UpdateStep(state: ViewState, request: StatusUpdate, notifiedCompleted: bool)

  /**
   * `update(_:)`, given the reply of `updateStatus`. Success replaces the
   * local order, and completing the trip also notifies the list and closes
   * the screen; failure only shows the error.
   */
  function Update(v: ViewState, target: OrderStatus, reply: Result<Order, QError>): (r: UpdateStep)
    ensures r.request == StatusUpdateFor(v.order.id, target)
    ensures reply.Ok? ==> r.state.order == reply.value && r.state.errorMessage == v.errorMessage
    ensures reply.Ok? ==> (r.notifiedCompleted <==> target == Completed)
    ensures reply.Ok? ==> r.state.isPresented == (v.isPresented && target != Completed)
    ensures reply.Err? ==> r.state == v.(errorMessage := Some(Description(reply.error))) && !r.notifiedCompleted
  {
    var request := StatusUpdateFor(v.order.id, target);
    match reply
    case Ok(updated) =>
      if target == Completed then UpdateStep(v.(order := updated, isPresented := false), request, true)
      else UpdateStep(v.(order := updated), request, false)
    case Err(e) => UpdateStep(v.(errorMessage := Some(Description(e))), request, false)
  }

  /**
   * Pressing the one enabled button sends the same request the tracking
   * screen's "advance" sends for that order, namely the next status on the
   * chain; on success both screens hold the returned order, and the list is
   * told of a completion exactly when a started trip is finished.
   */
  lemma EnabledButtonAdvances(v: ViewState, a: TripAction, st: TrackingState, reply: Result<Order, QError>)
    requires IsEnabled(a, v.order.status)
    requires st.currentOrder == Some(v.order)
    ensures var u := Update(v, Target(a), reply);
      var adv := AdvanceStatus(st, DriverRole, reply);
      && adv.request == Some(u.request)
      && u.request == StatusUpdateFor(v.order.id, NextStatus(v.order.status))
      && (reply.Ok? ==> adv.state.currentOrder == Some(u.state.order))
      && (u.notifiedCompleted <==> reply.Ok? && v.order.status == Started)
  {
    EnabledIffNextStep(a, v.order.status);
  }

  /**
   * Fed the row `set_order_status` returns, the screen shows that row's
   * order; when the server stored the status sent, the screen shows exactly
   * the requested status, and the tracking screen's advance agrees.
   */
  lemma ReturnedRowCarriesRequestedStatus(v: ViewState, target: OrderStatus, st: TrackingState, row: OrderRecord)
    requires row.status == StatusUpdateFor(v.order.id, target).newStatus
    ensures var u := Update(v, target, MapReply(Ok(row)));
      && u.state.order == MapOrder(row)
      && u.state.order.status == target
    ensures var adv := AdvanceStatus(st, DriverRole, MapReply(Ok(row)));
      adv.request.Some? ==> adv.state.currentOrder == Some(MapOrder(row))
  {
    RawValueInjective(MapOrder(row).status, target);
  }
}
