/**
 * The hand-written `init(from:)` / `encode(to:)` of `Order`, `Driver` and
 * `LocationPoint`. Keys are the `CodingKeys` case names; decoding reads the
 * keys in the order the initialisers do, so the first failing key is the one
 * reported.
 */
module EntityCoding {
  import opened Wrappers
  import opened OrderStatuses
  import opened Entities
  import opened Coding

  // ---------------------------------------------------------------- Order

  /** `Order.CodingKeys` */
  const OrderKeys: set<string> := {"id", "passengerId", "driverId", "pickup", "dropoff", "status", "createdAt"}

  /** The keys every encoded order carries; `driverId` and `dropoff` are written only when present. */
  const OrderRequiredKeys: set<string> := {"id", "passengerId", "pickup", "status", "createdAt"}

  /** A coordinate as the `["latitude": …, "longitude": …]` dictionary. */
  function CoordinateValue(c: Coordinate): Value {
    Dict(map["latitude" := Number(c.latitude), "longitude" := Number(c.longitude)])
  }

  /** A coordinate read back from a `[String: Double]`; a missing component reads as 0. */
  function CoordinateOf(m: map<string, real>): (c: Coordinate)
    ensures "latitude" in m ==> c.latitude == m["latitude"]
    ensures "latitude" !in m ==> c.latitude == 0.0
    ensures "longitude" in m ==> c.longitude == m["longitude"]
    ensures "longitude" !in m ==> c.longitude == 0.0
  {
    Coordinate(
      if "latitude" in m then m["latitude"] else 0.0,
      if "longitude" in m then m["longitude"] else 0.0)
  }

  /** `decode(OrderStatus.self, forKey:)`: an unknown raw value is a corrupted-data error. */
  function DecodeStatus(c: Container, key: string): (r: Decoded<OrderStatus>)
    ensures r.Ok? <==> key in c && c[key].Str? && FromRawValue(c[key].s).Some?
    ensures r.Ok? ==> c[key] == Str(RawValue(r.value))
  {
    var raw :- DecodeString(c, key);
    match FromRawValue(raw)
    case Some(s) => Ok(s)
    case None => Err(DataCorrupted(key))
  }

  /** `Order.encode(to:)` */
  function EncodeOrder(o: Order): (c: Container)
    ensures c.Keys == OrderRequiredKeys
      + (if o.driverId.Some? then {"driverId"} else {})
      + (if o.dropoff.Some? then {"dropoff"} else {})
    ensures c.Keys <= OrderKeys
    ensures c["status"] == Str(RawValue(o.status))
  {
    var base := map[
      "id" := Id(o.id),
      "passengerId" := Id(o.passengerId),
      "status" := Str(RawValue(o.status)),
      "createdAt" := Date(o.createdAt),
      "pickup" := CoordinateValue(o.pickup)];
    var withDriver := if o.driverId.Some? then base["driverId" := Id(o.driverId.value)] else base;
    if o.dropoff.Some? then withDriver["dropoff" := CoordinateValue(o.dropoff.value)] else withDriver
  }

  /** `Order.init(from:)` */
  function DecodeOrder(c: Container): (r: Decoded<Order>)
    ensures r.Ok? ==> OrderRequiredKeys <= c.Keys
    ensures r.Ok? ==> (r.value.driverId.None? <==> "driverId" !in c || c["driverId"] == Null)
    ensures r.Ok? ==> (r.value.dropoff.None? <==> "dropoff" !in c || c["dropoff"] == Null)
    ensures r.Ok? ==> (
      && c["pickup"].Dict?
      && ("latitude" !in c["pickup"].entries ==> r.value.pickup.latitude == 0.0)
      && ("longitude" !in c["pickup"].entries ==> r.value.pickup.longitude == 0.0))
    ensures "id" !in c ==> r == Err(KeyNotFound("id"))
  {
    var id :- DecodeId(c, "id");
    var passengerId :- DecodeId(c, "passengerId");
    var driverId :- DecodeIdIfPresent(c, "driverId");
    var status :- DecodeStatus(c, "status");
    var createdAt :- DecodeDate(c, "createdAt");
    var pickup :- DecodeNumberDict(c, "pickup");
    var dropoff :- DecodeNumberDictIfPresent(c, "dropoff");
    Ok(Order(
      id, passengerId, driverId, CoordinateOf(pickup),
      if dropoff.Some? then Some(CoordinateOf(dropoff.value)) else None,
      status, createdAt))
  }

  /** Decoding an encoded order gives the same order. */
  lemma OrderRoundTrip(o: Order)
    ensures DecodeOrder(EncodeOrder(o)) == Ok(o)
  {
    var c := EncodeOrder(o);
    EncodedOrderFields(o);
    CoordinateValueRoundTrip(o.pickup);
    if o.dropoff.Some? {
      CoordinateValueRoundTrip(o.dropoff.value);
    }
    var dropoff := if o.dropoff.Some? then Some(NumbersOf(CoordinateValue(o.dropoff.value))) else None;
    assert DecodeNumberDictIfPresent(c, "dropoff") == Ok(dropoff);
  }

  /** Each field of an encoded order decodes to the order's own field. */
  lemma EncodedOrderFields(o: Order)
    ensures var c := EncodeOrder(o);
      && DecodeId(c, "id") == Ok(o.id)
      && DecodeId(c, "passengerId") == Ok(o.passengerId)
      && DecodeIdIfPresent(c, "driverId") == Ok(o.driverId)
      && DecodeStatus(c, "status") == Ok(o.status)
      && DecodeDate(c, "createdAt") == Ok(o.createdAt)
      && DecodeNumberDict(c, "pickup") == Ok(NumbersOf(CoordinateValue(o.pickup)))
      && (o.dropoff.None? ==> DecodeNumberDictIfPresent(c, "dropoff") == Ok(None))
      && (o.dropoff.Some? ==> DecodeNumberDictIfPresent(c, "dropoff") == Ok(Some(NumbersOf(CoordinateValue(o.dropoff.value)))))
  {
    RawValueRoundTrip(o.status);
    CoordinateValueRoundTrip(o.pickup);
    if o.dropoff.Some? {
      CoordinateValueRoundTrip(o.dropoff.value);
    }
  }

  /** A coordinate written as a dictionary reads back as itself. */
  lemma CoordinateValueRoundTrip(p: Coordinate)
    ensures IsNumberDict(CoordinateValue(p))
    ensures CoordinateOf(NumbersOf(CoordinateValue(p))) == p
  {
    var m := NumbersOf(CoordinateValue(p));
    assert m["latitude"] == p.latitude;
    assert m["longitude"] == p.longitude;
  }

  // ---------------------------------------------------------------- Driver

  /** `Driver.CodingKeys`; every key is written and every key is required. */
  const DriverKeys: set<string> := {"id", "name", "isOnline", "latitude", "longitude"}

  /** `Driver.encode(to:)` */
  function EncodeDriver(d: Driver): (c: Container)
    ensures c.Keys == DriverKeys
  {
    map[
      "id" := Id(d.id),
      "name" := Str(d.name),
      "isOnline" := Bool(d.isOnline),
      "latitude" := Number(d.location.latitude),
      "longitude" := Number(d.location.longitude)]
  }

  /** `Driver.init(from:)`: no defaults, so any missing key fails. */
  function DecodeDriver(c: Container): (r: Decoded<Driver>)
    ensures r.Ok? ==> DriverKeys <= c.Keys
    ensures r.Err? && r.error.KeyNotFound? ==> r.error.key in DriverKeys && r.error.key !in c
  {
    var id :- DecodeId(c, "id");
    var name :- DecodeString(c, "name");
    var isOnline :- DecodeBool(c, "isOnline");
    var latitude :- DecodeNumber(c, "latitude");
    var longitude :- DecodeNumber(c, "longitude");
    Ok(Driver(id, name, isOnline, Coordinate(latitude, longitude)))
  }

  /** Decoding an encoded driver gives the same driver. */
  lemma DriverRoundTrip(d: Driver)
    ensures DecodeDriver(EncodeDriver(d)) == Ok(d)
  {
  }

  // ---------------------------------------------------------------- LocationPoint

  /** `LocationPoint.CodingKeys`; every key is written and every key is required. */
  const LocationPointKeys: set<string> := {"id", "orderId", "driverId", "latitude", "longitude", "recordedAt"}

  /** `LocationPoint.encode(to:)` */
  function EncodeLocationPoint(p: LocationPoint): (c: Container)
    ensures c.Keys == LocationPointKeys
  {
    map[
      "id" := Id(p.id),
      "orderId" := Id(p.orderId),
      "driverId" := Id(p.driverId),
      "latitude" := Number(p.coordinate.latitude),
      "longitude" := Number(p.coordinate.longitude),
      "recordedAt" := Date(p.recordedAt)]
  }

  /** `LocationPoint.init(from:)`: no defaults, so any missing key fails. */
  function DecodeLocationPoint(c: Container): (r: Decoded<LocationPoint>)
    ensures r.Ok? ==> LocationPointKeys <= c.Keys
    ensures r.Err? && r.error.KeyNotFound? ==> r.error.key in LocationPointKeys && r.error.key !in c
  {
    var id :- DecodeId(c, "id");
    var orderId :- DecodeId(c, "orderId");
    var driverId :- DecodeId(c, "driverId");
    var latitude :- DecodeNumber(c, "latitude");
    var longitude :- DecodeNumber(c, "longitude");
    var recordedAt :- DecodeDate(c, "recordedAt");
    Ok(LocationPoint(id, orderId, driverId, Coordinate(latitude, longitude), recordedAt))
  }

  /** Decoding an encoded location point gives the same point. */
  lemma LocationPointRoundTrip(p: LocationPoint)
    ensures DecodeLocationPoint(EncodeLocationPoint(p)) == Ok(p)
  {
  }

  /** Removing any one key from an encoded point makes decoding fail. */
  lemma LocationPointMissingKeyFails(p: LocationPoint, k: string)
    requires k in LocationPointKeys
    ensures DecodeLocationPoint(EncodeLocationPoint(p) - {k}).Err?
  {
  }

  /** Removing any one key from an encoded driver makes decoding fail. */
  lemma DriverMissingKeyFails(d: Driver, k: string)
    requires k in DriverKeys
    ensures DecodeDriver(EncodeDriver(d) - {k}).Err?
  {
  }
}
