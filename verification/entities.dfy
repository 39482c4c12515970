/**
 * The domain entities `Order`, `Driver`, `LocationPoint` and `UserProfile`,
 * with their memberwise initialisers' defaults and hand-written `==`.
 *
 * A `UUID` is only ever compared, so it is an opaque number; a `Date` is only
 * compared and ordered, so it is an integer timestamp; a
 * `CLLocationCoordinate2D` is a pair of reals (no NaN, no rounding).
 */
module Entities {
  import opened Wrappers
  import opened OrderStatuses

  datatype Uuid = Uuid(bits: nat)

  type Timestamp = int

  datatype Coordinate = Coordinate(latitude: real, longitude: real)

  datatype Order = Order(
    id: Uuid,
    passengerId: Uuid,
    driverId: Option<Uuid>,
    pickup: Coordinate,
    dropoff: Option<Coordinate>,
    status: OrderStatus,
    createdAt: Timestamp)

  /** `Order.init` with its default arguments. */
  function NewOrder(
    id: Uuid, passengerId: Uuid, pickup: Coordinate, createdAt: Timestamp,
    driverId: Option<Uuid> := None, dropoff: Option<Coordinate> := None,
    status: OrderStatus := Requested): Order
  {
    Order(id, passengerId, driverId, pickup, dropoff, status, createdAt)
  }

  /** A fresh order is unassigned, has no dropoff and waits in `requested`. */
  lemma NewOrderDefaults(id: Uuid, passengerId: Uuid, pickup: Coordinate, createdAt: Timestamp)
    ensures var o := NewOrder(id, passengerId, pickup, createdAt);
      o.status == Requested && o.driverId == None && o.dropoff == None
      && o.id == id && o.passengerId == passengerId && o.pickup == pickup && o.createdAt == createdAt
  {
  }

  /** `dropoff?.latitude` */
  function OptLatitude(c: Option<Coordinate>): Option<real> {
    if c.Some? then Some(c.value.latitude) else None
  }

  /** `dropoff?.longitude` */
  function OptLongitude(c: Option<Coordinate>): Option<real> {
    if c.Some? then Some(c.value.longitude) else None
  }

  /** `Order.==`, written component by component as the source does. */
  predicate OrderEquals(a: Order, b: Order) {
    && a.id == b.id
    && a.passengerId == b.passengerId
    && a.driverId == b.driverId
    && a.pickup.latitude == b.pickup.latitude
    && a.pickup.longitude == b.pickup.longitude
    && OptLatitude(a.dropoff) == OptLatitude(b.dropoff)
    && OptLongitude(a.dropoff) == OptLongitude(b.dropoff)
    && a.status == b.status
    && a.createdAt == b.createdAt
  }

  /** The hand-written `==` on orders is exactly equality of all seven fields. */
  lemma OrderEqualsIsFieldwise(a: Order, b: Order)
    ensures OrderEquals(a, b) <==> a == b
  {
    if OrderEquals(a, b) && a.dropoff.Some? {
      assert b.dropoff.Some?;
    }
  }

  datatype Driver = Driver(id: Uuid, name: string, isOnline: bool, location: Coordinate)

  /** `Driver.init` with its default arguments. */
  function NewDriver(id: Uuid, name: string, location: Coordinate, isOnline: bool := false): Driver {
    Driver(id, name, isOnline, location)
  }

  /** A freshly built driver is offline unless told otherwise. */
  lemma NewDriverDefaults(id: Uuid, name: string, location: Coordinate)
    ensures !NewDriver(id, name, location).isOnline
    ensures NewDriver(id, name, location) == Driver(id, name, false, location)
  {
  }

  /** `Driver.==` */
  predicate DriverEquals(a: Driver, b: Driver) {
    && a.id == b.id
    && a.name == b.name
    && a.isOnline == b.isOnline
    && a.location.latitude == b.location.latitude
    && a.location.longitude == b.location.longitude
  }

  /** The hand-written `==` on drivers is exactly equality of all four fields. */
  lemma DriverEqualsIsFieldwise(a: Driver, b: Driver)
    ensures DriverEquals(a, b) <==> a == b
  {
  }

  datatype LocationPoint = LocationPoint(
    id: Uuid,
    orderId: Uuid,
    driverId: Uuid,
    coordinate: Coordinate,
    recordedAt: Timestamp)

  /** `LocationPoint.==` */
  predicate LocationPointEquals(a: LocationPoint, b: LocationPoint) {
    && a.id == b.id
    && a.orderId == b.orderId
    && a.driverId == b.driverId
    && a.coordinate.latitude == b.coordinate.latitude
    && a.coordinate.longitude == b.coordinate.longitude
    && a.recordedAt == b.recordedAt
  }

  /** The hand-written `==` on location points is exactly equality of all five fields. */
  lemma LocationPointEqualsIsFieldwise(a: LocationPoint, b: LocationPoint)
    ensures LocationPointEquals(a, b) <==> a == b
  {
  }

  datatype UserRole = PassengerRole | DriverRole

  datatype UserProfile = UserProfile(id: Uuid, role: UserRole, name: Option<string>, phone: Option<string>)
}
