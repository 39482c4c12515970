/**
 * `SupabaseTrackingRepositoryImpl`: appending a location report for an order
 * and reading an order's trail back in time order.
 */
module TrackingRepository {
  import opened Wrappers
  import opened Seqs
  import opened Entities

  /** The parameters of `append_my_order_location`. */
  datatype AppendParams = AppendParams(orderId: Uuid, lat: real, lng: real)

  /**
   * `appendPoint`'s parameters: the order and the coordinate. The point's own
   * id, driver and time are not sent; the server fills them in.
   */
  function AppendParamsFor(point: LocationPoint): (p: AppendParams)
    ensures p.orderId == point.orderId
    ensures Coordinate(p.lat, p.lng) == point.coordinate
  {
    AppendParams(point.orderId, point.coordinate.latitude, point.coordinate.longitude)
  }

  /** Two points that differ only in id, driver or time send the same parameters. */
  lemma AppendSendsOnlyOrderAndCoordinate(a: LocationPoint, b: LocationPoint)
    requires a.orderId == b.orderId && a.coordinate == b.coordinate
    ensures AppendParamsFor(a) == AppendParamsFor(b)
  {
  }

  /** One row of the `order_locations` table. */
  datatype LocationRow = LocationRow(id: Uuid, orderId: Uuid, driverId: Uuid, lat: real, lng: real, recordedAt: Timestamp)

  /** A row, copied field by field into a point. */
  function RowPoint(r: LocationRow): (p: LocationPoint)
    ensures p.id == r.id && p.orderId == r.orderId && p.driverId == r.driverId
    ensures p.coordinate == Coordinate(r.lat, r.lng) && p.recordedAt == r.recordedAt
  {
    LocationPoint(r.id, r.orderId, r.driverId, Coordinate(r.lat, r.lng), r.recordedAt)
  }

  /** The rank `order("recorded_at", ascending: true)` sorts by. */
  function RecordedAt(r: LocationRow): int {
    r.recordedAt
  }

  /** `from("order_locations").eq("order_id", …).order("recorded_at", ascending: true)` */
  function SelectPointRows(table: seq<LocationRow>, orderId: Uuid): (rows: seq<LocationRow>)
    ensures forall x :: multiset(rows)[x] == if x.orderId == orderId then multiset(table)[x] else 0
    ensures forall x :: x in rows <==> x in table && x.orderId == orderId
    ensures forall i, j :: 0 <= i < j < |rows| ==> rows[i].recordedAt <= rows[j].recordedAt
  {
    SelectAll(table, (r: LocationRow) => r.orderId == orderId, RecordedAt)
  }

  /** `getPoints(orderId:)`: the order's trail, oldest first, one point per row. */
  function GetPoints(table: seq<LocationRow>, orderId: Uuid): (points: seq<LocationPoint>)
    ensures var rows := SelectPointRows(table, orderId);
      |points| == |rows| && forall i :: 0 <= i < |rows| ==> points[i] == RowPoint(rows[i])
    ensures forall p :: p in points ==> p.orderId == orderId
    ensures forall i, j :: 0 <= i < j < |points| ==> points[i].recordedAt <= points[j].recordedAt
    ensures forall r :: r in table && r.orderId == orderId ==> RowPoint(r) in points
  {
    var rows := SelectPointRows(table, orderId);
    var points := Map(RowPoint, rows);
    PointsOfRows(table, orderId, rows, points);
    points
  }

  lemma PointsOfRows(table: seq<LocationRow>, orderId: Uuid, rows: seq<LocationRow>, points: seq<LocationPoint>)
    requires forall x :: x in rows <==> x in table && x.orderId == orderId
    requires |points| == |rows| && forall i :: 0 <= i < |rows| ==> points[i] == RowPoint(rows[i])
    ensures forall p :: p in points ==> p.orderId == orderId
    ensures forall r :: r in table && r.orderId == orderId ==> RowPoint(r) in points
  {
    forall r | r in table && r.orderId == orderId ensures RowPoint(r) in points {
      var i :| 0 <= i < |rows| && rows[i] == r;
      assert points[i] == RowPoint(r);
    }
    forall p | p in points ensures p.orderId == orderId {
      var i :| 0 <= i < |points| && points[i] == p;
      assert rows[i] in rows;
    }
  }
}
