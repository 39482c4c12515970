/**
 * `SupabaseDriverRepositoryImpl`: nearby online drivers, the driver's own
 * presence writes (only ever for the signed-in user), and `getDriver`.
 */
module DriverRepository {
  import opened Wrappers
  import opened Seqs
  import opened Errors
  import opened Entities

  /** `NearbyDriverRow`: one row returned by the nearby-online-drivers RPC. */
  datatype NearbyDriverRow = NearbyDriverRow(
    driverId: Uuid,
    name: Option<string>,
    isOnline: bool,
    currentLat: Option<real>,
    currentLng: Option<real>,
    distanceKm: Option<real>)

  /** `DriverRecord`: one row of the `drivers` table, also the reply of `upsert_my_driver_state`. */
  datatype DriverRecord = DriverRecord(
    id: Uuid,
    isOnline: bool,
    currentLat: Option<real>,
    currentLng: Option<real>,
    updatedAt: Option<Timestamp>)

  /** The name shown for a driver whose row has none. */
  const DefaultDriverName: string := "司机"

  /** The name given to the signed-in driver's own record. */
  const SelfDriverName: string := "我"

  predicate HasLocation(row: NearbyDriverRow) {
    row.currentLat.Some? && row.currentLng.Some?
  }

  /** The driver a located row describes. */
  function RowDriver(row: NearbyDriverRow): (d: Driver)
    requires HasLocation(row)
    ensures d.id == row.driverId && d.isOnline == row.isOnline
    ensures d.location == Coordinate(row.currentLat.value, row.currentLng.value)
    ensures row.name.Some? ==> d.name == row.name.value
    ensures row.name.None? ==> d.name == DefaultDriverName
  {
    Driver(row.driverId, row.name.GetOr(DefaultDriverName), row.isOnline,
           Coordinate(row.currentLat.value, row.currentLng.value))
  }

  /** `getOnlineDrivers` once the RPC has replied: the `compactMap` that drops unlocated rows. */
  function GetOnlineDrivers(rows: seq<NearbyDriverRow>): (drivers: seq<Driver>)
    ensures |drivers| <= |rows|
    ensures forall row :: row in rows && HasLocation(row) ==> RowDriver(row) in drivers
    ensures forall d :: d in drivers ==> exists row :: row in rows && HasLocation(row) && RowDriver(row) == d
    decreases |rows|
  {
    if |rows| == 0 then []
    else
      var rest := GetOnlineDrivers(rows[1..]);
      assert forall row :: row in rows[1..] ==> row in rows;
      assert forall row :: row in rows ==> row == rows[0] || row in rows[1..];
      if HasLocation(rows[0]) then [RowDriver(rows[0])] + rest else rest
  }

  /**
   * `getOnlineDrivers` works row by row and keeps row order: the result for
   * a concatenation is the concatenation of the results.
   */
  lemma {:induction false} GetOnlineDriversConcat(a: seq<NearbyDriverRow>, b: seq<NearbyDriverRow>)
    ensures GetOnlineDrivers(a + b) == GetOnlineDrivers(a) + GetOnlineDrivers(b)
    decreases |a|
  {
    if |a| == 0 {
      assert a + b == b;
    } else {
      assert (a + b)[1..] == a[1..] + b;
      GetOnlineDriversConcat(a[1..], b);
    }
  }

  /** A single row yields its driver when located and nothing otherwise. */
  lemma GetOnlineDriversSingle(row: NearbyDriverRow)
    ensures GetOnlineDrivers([row]) == if HasLocation(row) then [RowDriver(row)] else []
  {
  }

  // ---------------------------------------------------------------- presence writes

  /** The parameters of `upsert_my_driver_state`. */
  datatype UpsertParams = UpsertParams(isOnline: bool, lat: real, lng: real)

  /** `upsertMyState`'s parameters: a missing coordinate is sent as (0, 0). */
  function UpsertParamsFor(isOnline: bool, coordinate: Option<Coordinate>): (p: UpsertParams)
    ensures p.isOnline == isOnline
    ensures coordinate.None? ==> p.lat == 0.0 && p.lng == 0.0
    ensures coordinate.Some? ==> Coordinate(p.lat, p.lng) == coordinate.value
  {
    UpsertParams(
      isOnline,
      if coordinate.Some? then coordinate.value.latitude else 0.0,
      if coordinate.Some? then coordinate.value.longitude else 0.0)
  }

  /** `upsertMyState`'s result: the returned record, each missing component falling back to what was sent. */
  function UpsertedDriver(p: UpsertParams, record: DriverRecord): (d: Driver)
    ensures d.id == record.id && d.isOnline == record.isOnline && d.name == SelfDriverName
    ensures d.location.latitude == if record.currentLat.Some? then record.currentLat.value else p.lat
    ensures d.location.longitude == if record.currentLng.Some? then record.currentLng.value else p.lng
  {
    Driver(record.id, SelfDriverName, record.isOnline,
           Coordinate(record.currentLat.GetOr(p.lat), record.currentLng.GetOr(p.lng)))
  }

  /** A presence write: refused before sending anything, or sent with these parameters. */
  datatype PresenceWrite =
    | Refused(error: QError)
    | Sent(params: UpsertParams, result: Result<Driver, QError>)

  /** The sent write's outcome as the caller sees it. */
  function Outcome(w: PresenceWrite): Result<Driver, QError> {
    match w
    case Refused(e) => Err(e)
    case Sent(_, r) => r
  }

  function SendUpsert(p: UpsertParams, reply: Result<DriverRecord, QError>): (w: PresenceWrite)
    ensures w.Sent? && w.params == p
    ensures reply.Err? ==> w.result == Err(reply.error)
    ensures reply.Ok? ==> w.result == Ok(UpsertedDriver(p, reply.value))
  {
    Sent(p, if reply.Ok? then Ok(UpsertedDriver(p, reply.value)) else Err(reply.error))
  }

  /** `setOnline(_:driverId:)`, given the session user and the RPC's reply. */
  function SetOnline(online: bool, driverId: Uuid, sessionUser: Option<Uuid>, reply: Result<DriverRecord, QError>): (w: PresenceWrite)
    ensures w.Refused? <==> sessionUser != Some(driverId)
    ensures w.Refused? ==> w.error == Forbidden("只能更新自己的司机状态")
    ensures w.Sent? ==> w.params == UpsertParams(online, 0.0, 0.0)
    ensures w.Sent? && reply.Ok? ==> w.result.Ok? && w.result.value.isOnline == reply.value.isOnline
  {
    if sessionUser != Some(driverId) then Refused(Forbidden("只能更新自己的司机状态"))
    else SendUpsert(UpsertParamsFor(online, None), reply)
  }

  /** `updateLocation(_:driverId:)`, given the session user and the RPC's reply. */
  function UpdateLocation(coordinate: Coordinate, driverId: Uuid, sessionUser: Option<Uuid>, reply: Result<DriverRecord, QError>): (w: PresenceWrite)
    ensures w.Refused? <==> sessionUser != Some(driverId)
    ensures w.Refused? ==> w.error == Forbidden("只能更新自己的位置")
    ensures w.Sent? ==> w.params.isOnline && Coordinate(w.params.lat, w.params.lng) == coordinate
  {
    if sessionUser != Some(driverId) then Refused(Forbidden("只能更新自己的位置"))
    else SendUpsert(UpsertParamsFor(true, Some(coordinate)), reply)
  }

  /**
   * A location write that the server answers with the coordinate it stored
   * reports exactly the coordinate sent.
   */
  lemma UpdateLocationEcho(coordinate: Coordinate, driverId: Uuid, record: DriverRecord)
    requires record.currentLat == Some(coordinate.latitude) && record.currentLng == Some(coordinate.longitude)
    ensures var w := UpdateLocation(coordinate, driverId, Some(driverId), Ok(record));
      w.Sent? && w.result.Ok? && w.result.value.location == coordinate && w.result.value.id == record.id
  {
  }

  // ---------------------------------------------------------------- getDriver

  /** Where a stored record places the driver: both coordinates, or (0, 0) when either is missing. */
  function StoredLocation(r: DriverRecord): Coordinate {
    if r.currentLat.Some? && r.currentLng.Some? then Coordinate(r.currentLat.value, r.currentLng.value)
    else Coordinate(0.0, 0.0)
  }

  /** `getDriver(by:)`: `eq("id", …).limit(1)`; a record without both coordinates sits at (0, 0). */
  function GetDriver(table: seq<DriverRecord>, id: Uuid): (d: Option<Driver>)
    ensures d.None? <==> forall r :: r in table ==> r.id != id
    ensures d.Some? ==> d.value.id == id && d.value.name == DefaultDriverName
    ensures d.Some? ==> exists r :: r in table && r.id == id && d.value.isOnline == r.isOnline && d.value.location == StoredLocation(r)
    ensures d.Some? && (forall r :: r in table && r.id == id ==> r.currentLat.None? || r.currentLng.None?)
      ==> d.value.location == Coordinate(0.0, 0.0)
  {
    var rows := Take(Filter((r: DriverRecord) => r.id == id, table), 1);
    if |rows| == 0 then None
    else
      var r := rows[0];
      assert r in table;
      if r.currentLat.None? || r.currentLng.None? then
        Some(Driver(r.id, DefaultDriverName, r.isOnline, Coordinate(0.0, 0.0)))
      else
        Some(Driver(r.id, DefaultDriverName, r.isOnline, Coordinate(r.currentLat.value, r.currentLng.value)))
  }
}
