/**
 * `SupabaseOrderRepositoryImpl`: the `orders` rows it reads, how a row becomes
 * an `Order`, the payloads it sends, and the table queries it issues.
 *
 * A table query (`eq` / `order` / `limit`) is modelled as filter, sort and
 * take over the table's rows; an RPC is opaque, so its reply is an input.
 */
module OrderRepository {
  import opened Wrappers
  import opened Seqs
  import opened Errors
  import opened OrderStatuses
  import opened Entities

  /** `OrderRecord`: one row of the `orders` table. */
  datatype OrderRecord = OrderRecord(
    id: Uuid,
    passengerId: Uuid,
    driverId: Option<Uuid>,
    pickupLat: real,
    pickupLng: real,
    dropoffLat: Option<real>,
    dropoffLng: Option<real>,
    status: string,
    createdAt: Timestamp,
    updatedAt: Option<Timestamp>)

  /** `NearbyOrderRow`: one row returned by the nearby-open-orders RPC. */
  datatype NearbyOrderRow = NearbyOrderRow(
    orderId: Uuid,
    passengerId: Uuid,
    pickupLat: real,
    pickupLng: real,
    dropoffLat: Option<real>,
    dropoffLng: Option<real>,
    status: string,
    distanceKm: Option<real>,
    createdAt: Timestamp)

  /** `OrderStatus(rawValue: s) ?? .requested` */
  function StatusOrRequested(raw: string): (s: OrderStatus)
    ensures FromRawValue(raw).Some? ==> RawValue(s) == raw
    ensures FromRawValue(raw).None? ==> s == Requested
  {
    FromRawValue(raw).GetOr(Requested)
  }

  /** The dropoff closure: a coordinate only when both columns are present. */
  function DropoffOf(lat: Option<real>, lng: Option<real>): (d: Option<Coordinate>)
    ensures d.Some? <==> lat.Some? && lng.Some?
    ensures d.Some? ==> d.value == Coordinate(lat.value, lng.value)
  {
    if lat.Some? && lng.Some? then Some(Coordinate(lat.value, lng.value)) else None
  }

  /** `mapOrder` */
  function MapOrder(r: OrderRecord): (o: Order)
    ensures o.id == r.id && o.passengerId == r.passengerId && o.driverId == r.driverId
    ensures o.createdAt == r.createdAt
    ensures o.pickup == Coordinate(r.pickupLat, r.pickupLng)
    ensures o.dropoff.Some? <==> r.dropoffLat.Some? && r.dropoffLng.Some?
    ensures o.dropoff.Some? ==> o.dropoff.value == Coordinate(r.dropoffLat.value, r.dropoffLng.value)
    ensures FromRawValue(r.status).Some? ==> RawValue(o.status) == r.status
    ensures FromRawValue(r.status).None? ==> o.status == Requested
  {
    Order(
      r.id, r.passengerId, r.driverId, Coordinate(r.pickupLat, r.pickupLng),
      DropoffOf(r.dropoffLat, r.dropoffLng), StatusOrRequested(r.status), r.createdAt)
  }

  /** Rows are newest first, as `order("created_at", ascending: false)` returns them. */
  ghost predicate NewestFirst(rows: seq<OrderRecord>) {
    forall i, j :: 0 <= i < j < |rows| ==> rows[i].createdAt >= rows[j].createdAt
  }

  /** Orders are newest first. */
  ghost predicate OrdersNewestFirst(orders: seq<Order>) {
    forall i, j :: 0 <= i < j < |orders| ==> orders[i].createdAt >= orders[j].createdAt
  }

  /** The rank `order("created_at", ascending: false)` sorts by. */
  function Recency(r: OrderRecord): int {
    -r.createdAt
  }

  /** Sorting by descending recency puts the newest rows first. */
  lemma SortedByRecencyIsNewestFirst(rows: seq<OrderRecord>)
    requires SortedBy(rows, Recency)
    ensures NewestFirst(rows)
  {
  }

  /** `rows.map(mapOrder)`: one order per row, in row order. */
  function MapOrders(rows: seq<OrderRecord>): (orders: seq<Order>)
    ensures |orders| == |rows|
    ensures forall i :: 0 <= i < |rows| ==> orders[i] == MapOrder(rows[i])
    ensures NewestFirst(rows) ==> OrdersNewestFirst(orders)
  {
    Map(MapOrder, rows)
  }

  // ---------------------------------------------------------------- createOrder

  /** `CreateOrderPayload` */
  datatype CreateOrderPayload = CreateOrderPayload(
    passengerId: Uuid,
    pickupLat: real,
    pickupLng: real,
    dropoffLat: Option<real>,
    dropoffLng: Option<real>,
    status: string)

  /** The payload `createOrder` inserts. */
  function CreatePayload(passengerId: Uuid, pickup: Coordinate, dropoff: Option<Coordinate>): (p: CreateOrderPayload)
    ensures p.status == "requested" && FromRawValue(p.status) == Some(Requested)
    ensures p.passengerId == passengerId
    ensures p.pickupLat == pickup.latitude && p.pickupLng == pickup.longitude
    ensures p.dropoffLat.None? <==> dropoff.None?
    ensures p.dropoffLng.None? <==> dropoff.None?
    ensures dropoff.Some? ==> p.dropoffLat == Some(dropoff.value.latitude) && p.dropoffLng == Some(dropoff.value.longitude)
  {
    CreateOrderPayload(
      passengerId, pickup.latitude, pickup.longitude,
      OptLatitude(dropoff), OptLongitude(dropoff), "requested")
  }

  /** `createOrder` once the insert has replied with its `select()` rows (or failed). */
  function CreateOrder(inserted: Result<seq<OrderRecord>, QError>): (r: Result<Order, QError>)
    ensures inserted.Err? ==> r == Err(inserted.error)
    ensures inserted.Ok? && |inserted.value| == 0 ==> r == Err(DecodeFailed)
    ensures inserted.Ok? && |inserted.value| > 0 ==> r == Ok(MapOrder(inserted.value[0]))
  {
    var rows :- inserted;
    if |rows| == 0 then Err(DecodeFailed) else Ok(MapOrder(rows[0]))
  }

  /** The row the store creates from a payload: its own id and time, no driver yet. */
  function InsertedRow(p: CreateOrderPayload, id: Uuid, now: Timestamp): OrderRecord {
    OrderRecord(id, p.passengerId, None, p.pickupLat, p.pickupLng, p.dropoffLat, p.dropoffLng, p.status, now, None)
  }

  /**
   * Creating an order and reading back the inserted row yields a fresh,
   * unassigned `requested` order with the passenger, pickup and dropoff sent.
   */
  lemma CreateOrderRoundTrip(passengerId: Uuid, pickup: Coordinate, dropoff: Option<Coordinate>, id: Uuid, now: Timestamp)
    ensures var r := CreateOrder(Ok([InsertedRow(CreatePayload(passengerId, pickup, dropoff), id, now)]));
      r == Ok(NewOrder(id, passengerId, pickup, now, None, dropoff, Requested))
  {
    RawValueRoundTrip(Requested);
  }

  // ---------------------------------------------------------------- getPassengerOrders

  /** `from("orders").eq("passenger_id", …).order("created_at", ascending: false)` */
  function SelectPassengerRows(table: seq<OrderRecord>, passengerId: Uuid): (rows: seq<OrderRecord>)
    ensures forall x :: multiset(rows)[x] == if x.passengerId == passengerId then multiset(table)[x] else 0
    ensures NewestFirst(rows)
  {
    var rows := SortBy(Filter((r: OrderRecord) => r.passengerId == passengerId, table), Recency);
    SortedByRecencyIsNewestFirst(rows);
    rows
  }

  /** `getPassengerOrders`: every order of the passenger, newest first. */
  function GetPassengerOrders(table: seq<OrderRecord>, passengerId: Uuid): (orders: seq<Order>)
    ensures forall o :: o in orders ==> o.passengerId == passengerId
    ensures OrdersNewestFirst(orders)
    ensures forall r :: r in table && r.passengerId == passengerId ==> MapOrder(r) in orders
    ensures orders == MapOrders(SelectPassengerRows(table, passengerId))
  {
    var rows := SelectPassengerRows(table, passengerId);
    var orders := MapOrders(rows);
    assert forall r :: r in table && r.passengerId == passengerId ==> r in multiset(rows);
    orders
  }

  // ---------------------------------------------------------------- getNearbyOpenOrders

  /** The parameters of the `list_nearby_*` RPCs. */
  datatype NearbyParams = NearbyParams(lat: real, lng: real, radiusKm: int, limit: int)

  const NearbyRadiusKm: int := 5
  const NearbyLimit: int := 50

  /** The search parameters: always a 5 km radius and at most 50 rows. */
  function NearbyParamsFor(center: Coordinate): (p: NearbyParams)
    ensures p.radiusKm == 5 && p.limit == 50
    ensures Coordinate(p.lat, p.lng) == center
  {
    NearbyParams(center.latitude, center.longitude, NearbyRadiusKm, NearbyLimit)
  }

  /** The order a nearby row describes; such an order is never assigned. */
  function NearbyRowOrder(row: NearbyOrderRow): (o: Order)
    ensures o.id == row.orderId && o.passengerId == row.passengerId && o.driverId == None
    ensures o.createdAt == row.createdAt
    ensures o.pickup == Coordinate(row.pickupLat, row.pickupLng)
    ensures o.dropoff.Some? <==> row.dropoffLat.Some? && row.dropoffLng.Some?
    ensures FromRawValue(row.status).Some? ==> RawValue(o.status) == row.status
    ensures FromRawValue(row.status).None? ==> o.status == Requested
  {
    Order(
      row.orderId, row.passengerId, None, Coordinate(row.pickupLat, row.pickupLng),
      DropoffOf(row.dropoffLat, row.dropoffLng), StatusOrRequested(row.status), row.createdAt)
  }

  /** `getNearbyOpenOrders` once the RPC has replied: one unassigned order per row, in row order. */
  function GetNearbyOpenOrders(rows: seq<NearbyOrderRow>): (orders: seq<Order>)
    ensures |orders| == |rows|
    ensures forall i :: 0 <= i < |rows| ==> orders[i].id == rows[i].orderId && orders[i] == NearbyRowOrder(rows[i])
    ensures forall o :: o in orders ==> o.driverId.None?
  {
    Map(NearbyRowOrder, rows)
  }

  /** The orders-table row a nearby row stands for: nobody assigned, no update yet. */
  function NearbyRecord(row: NearbyOrderRow): OrderRecord {
    OrderRecord(row.orderId, row.passengerId, None, row.pickupLat, row.pickupLng,
                row.dropoffLat, row.dropoffLng, row.status, row.createdAt, None)
  }

  /**
   * Nearby orders read exactly as the unassigned table rows they stand for
   * would: the RPC's own mapping agrees with `getPassengerOrders`' one, and
   * the distance it reports is dropped.
   */
  lemma NearbyOrdersAreUnassignedRecords(rows: seq<NearbyOrderRow>)
    ensures GetNearbyOpenOrders(rows) == MapOrders(Map(NearbyRecord, rows))
    ensures forall row, km :: NearbyRowOrder(row) == NearbyRowOrder(row.(distanceKm := km))
  {
  }

  // ---------------------------------------------------------------- acceptOrder / updateStatus

  /** The parameters of the `accept_order` RPC: only the order. */
  datatype AcceptParams = AcceptParams(orderId: Uuid)

  /** The parameters of `acceptOrder`; the driver is the session user, known to the server. */
  function AcceptParamsFor(orderId: Uuid, driverId: Uuid): (p: AcceptParams)
    ensures p.orderId == orderId
  {
    AcceptParams(orderId)
  }

  /** The driver argument of `acceptOrder` never reaches the server. */
  lemma AcceptIgnoresDriverArgument(orderId: Uuid, d1: Uuid, d2: Uuid)
    ensures AcceptParamsFor(orderId, d1) == AcceptParamsFor(orderId, d2)
  {
  }

  /** The parameters of the `set_order_status` RPC. */
  datatype StatusUpdate = StatusUpdate(orderId: Uuid, newStatus: string)

  /** The status travels as its raw value, which the server reads back unambiguously. */
  function StatusUpdateFor(orderId: Uuid, status: OrderStatus): (p: StatusUpdate)
    ensures p.orderId == orderId
    ensures FromRawValue(p.newStatus) == Some(status)
  {
    RawValueRoundTrip(status);
    StatusUpdate(orderId, RawValue(status))
  }

  /** `acceptOrder` / `updateStatus` once the RPC has replied: the returned row, mapped. */
  function MapReply(reply: Result<OrderRecord, QError>): (r: Result<Order, QError>)
    ensures reply.Err? ==> r == Err(reply.error)
    ensures reply.Ok? ==> r.Ok? && r.value.id == reply.value.id && r.value == MapOrder(reply.value)
  {
    var row :- reply;
    Ok(MapOrder(row))
  }

  // ---------------------------------------------------------------- getOrder

  /** `getOrder(by:)`: `eq("id", …).limit(1)`, then the first row mapped. */
  function GetOrder(table: seq<OrderRecord>, id: Uuid): (o: Option<Order>)
    ensures o.None? <==> forall r :: r in table ==> r.id != id
    ensures o.Some? ==> o.value.id == id && exists r :: r in table && r.id == id && o.value == MapOrder(r)
  {
    var rows := Take(Filter((r: OrderRecord) => r.id == id, table), 1);
    if |rows| == 0 then None
    else
      assert rows[0] in table;
      Some(MapOrder(rows[0]))
  }
}
