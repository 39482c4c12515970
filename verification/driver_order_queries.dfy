/**
 * The two driver-side queries `SupabaseOrderRepositoryImpl` adds in its
 * extensions: the driver's unfinished orders, and the driver's whole order
 * history capped at a limit. Both map rows exactly as `mapOrder` does.
 */
module DriverOrderQueries {
  import opened Wrappers
  import opened Seqs
  import opened OrderStatuses
  import opened Entities
  import opened OrderRepository

  /** `not("status", operator: .in, value: "(completed,cancelled)")`, on the raw column. */
  predicate IsOpenRaw(status: string) {
    status != "completed" && status != "cancelled"
  }

  /** A row assigned to `driverId` that is not finished. */
  predicate IsActiveFor(r: OrderRecord, driverId: Uuid) {
    r.driverId == Some(driverId) && IsOpenRaw(r.status)
  }

  /** `eq("driver_id", …).not("status", in, …).order("created_at", ascending: false)` */
  function SelectActiveDriverRows(table: seq<OrderRecord>, driverId: Uuid): (rows: seq<OrderRecord>)
    ensures forall x :: multiset(rows)[x] == if IsActiveFor(x, driverId) then multiset(table)[x] else 0
    ensures forall x :: x in rows <==> x in table && IsActiveFor(x, driverId)
    ensures NewestFirst(rows)
  {
    var rows := SelectAll(table, (r: OrderRecord) => IsActiveFor(r, driverId), Recency);
    SortedByRecencyIsNewestFirst(rows);
    rows
  }

  /** A row whose raw status is neither finished value never maps to a finished status. */
  lemma OpenRawMapsToOpenStatus(r: OrderRecord)
    requires IsOpenRaw(r.status)
    ensures MapOrder(r).status != Completed && MapOrder(r).status != Cancelled
  {
    if FromRawValue(r.status).Some? {
      assert RawValue(MapOrder(r).status) == r.status;
    }
  }

  /** `getMyActiveDriverOrders`: the driver's unfinished orders, newest first. */
  function GetMyActiveDriverOrders(table: seq<OrderRecord>, driverId: Uuid): (orders: seq<Order>)
    ensures forall o :: o in orders ==> o.driverId == Some(driverId)
    ensures forall o :: o in orders ==> o.status != Completed && o.status != Cancelled
    ensures OrdersNewestFirst(orders)
    ensures forall r :: r in table && IsActiveFor(r, driverId) ==> MapOrder(r) in orders
    ensures orders == MapOrders(SelectActiveDriverRows(table, driverId))
  {
    var rows := SelectActiveDriverRows(table, driverId);
    var orders := MapOrders(rows);
    ActiveOrderFacts(table, driverId, rows, orders);
    orders
  }

  lemma ActiveOrderFacts(table: seq<OrderRecord>, driverId: Uuid, rows: seq<OrderRecord>, orders: seq<Order>)
    requires rows == SelectActiveDriverRows(table, driverId) && orders == MapOrders(rows)
    ensures forall o :: o in orders ==> o.driverId == Some(driverId) && o.status != Completed && o.status != Cancelled
    ensures forall r :: r in table && IsActiveFor(r, driverId) ==> MapOrder(r) in orders
  {
    forall o | o in orders
      ensures o.driverId == Some(driverId) && o.status != Completed && o.status != Cancelled
    {
      var i :| 0 <= i < |orders| && orders[i] == o;
      assert rows[i] in rows;
      OpenRawMapsToOpenStatus(rows[i]);
    }
    forall r | r in table && IsActiveFor(r, driverId) ensures MapOrder(r) in orders {
      var i :| 0 <= i < |rows| && rows[i] == r;
      assert orders[i] == MapOrder(r);
    }
  }

  /** `getMyDriverOrders`' default `limit`. */
  const DefaultHistoryLimit: nat := 100

  /** `eq("driver_id", …).order("created_at", ascending: false).limit(limit)` */
  function SelectDriverRows(table: seq<OrderRecord>, driverId: Uuid, limit: nat): (rows: seq<OrderRecord>)
    ensures |rows| <= limit
    ensures forall x :: x in rows ==> x in table && x.driverId == Some(driverId)
    ensures multiset(rows) <= multiset(table)
    ensures NewestFirst(rows)
    // Whatever the limit cut off is no newer than anything kept.
    ensures forall x, y :: x in multiset(table) - multiset(rows) && x.driverId == Some(driverId) && y in rows
              ==> x.createdAt <= y.createdAt
    // Nothing matching is cut off while the limit leaves room.
    ensures |rows| < limit ==> forall x: OrderRecord :: x.driverId == Some(driverId) ==> multiset(rows)[x] == multiset(table)[x]
  {
    var rows := SelectTop(table, (r: OrderRecord) => r.driverId == Some(driverId), Recency, limit);
    SortedByRecencyIsNewestFirst(rows);
    rows
  }

  /** `getMyDriverOrders(driverId:limit:)`: the driver's newest `limit` orders, any status. */
  function GetMyDriverOrders(table: seq<OrderRecord>, driverId: Uuid, limit: nat := DefaultHistoryLimit): (orders: seq<Order>)
    ensures |orders| <= limit
    ensures forall o :: o in orders ==> o.driverId == Some(driverId)
    ensures OrdersNewestFirst(orders)
    ensures forall i :: 0 <= i < |orders| ==> exists r :: r in table && orders[i] == MapOrder(r)
    ensures orders == MapOrders(SelectDriverRows(table, driverId, limit))
  {
    var rows := SelectDriverRows(table, driverId, limit);
    var orders := MapOrders(rows);
    forall i | 0 <= i < |orders| ensures exists r :: r in table && orders[i] == MapOrder(r) {
      assert rows[i] in rows;
    }
    orders
  }

  /**
   * The history is the driver's newest orders: none of theirs left out is
   * newer than one returned, and while the limit leaves room none is left out.
   */
  lemma HistoryIsNewest(table: seq<OrderRecord>, driverId: Uuid, limit: nat)
    ensures var orders := GetMyDriverOrders(table, driverId, limit);
      && (forall x, o :: x in table && x.driverId == Some(driverId) && MapOrder(x) !in orders && o in orders
            ==> x.createdAt <= o.createdAt)
      && (|orders| < limit ==> forall x :: x in table && x.driverId == Some(driverId) ==> MapOrder(x) in orders)
  {
    HistoryRowsAreNewest(table, driverId, limit);
  }

  lemma HistoryRowsAreNewest(table: seq<OrderRecord>, driverId: Uuid, limit: nat)
    ensures var orders := MapOrders(SelectDriverRows(table, driverId, limit));
      && (forall x, o :: x in table && x.driverId == Some(driverId) && MapOrder(x) !in orders && o in orders
            ==> x.createdAt <= o.createdAt)
      && (|orders| < limit ==> forall x :: x in table && x.driverId == Some(driverId) ==> MapOrder(x) in orders)
  {
    var rows := SelectDriverRows(table, driverId, limit);
    MappedRowsAreOrders(rows, MapOrders(rows));
    NothingNewerLeftOut(table, driverId, rows, MapOrders(rows));
  }

  /** A row of the driver missing from the result is in the cut-off part, so it is no newer than anything kept. */
  lemma NothingNewerLeftOut(table: seq<OrderRecord>, driverId: Uuid, rows: seq<OrderRecord>, orders: seq<Order>)
    requires orders == MapOrders(rows)
    requires forall x :: x in rows ==> MapOrder(x) in orders
    requires forall x, y :: x in multiset(table) - multiset(rows) && x.driverId == Some(driverId) && y in rows
               ==> x.createdAt <= y.createdAt
    ensures forall x, o :: x in table && x.driverId == Some(driverId) && MapOrder(x) !in orders && o in orders
              ==> x.createdAt <= o.createdAt
  {
    forall x, o | x in table && x.driverId == Some(driverId) && MapOrder(x) !in orders && o in orders
      ensures x.createdAt <= o.createdAt
    {
      assert x in multiset(table) - multiset(rows);
      var j :| 0 <= j < |orders| && orders[j] == o;
      assert rows[j] in rows;
    }
  }

  /** Every row's mapping is among the mapped rows. */
  lemma MappedRowsAreOrders(rows: seq<OrderRecord>, orders: seq<Order>)
    requires orders == MapOrders(rows)
    ensures forall x :: x in rows ==> MapOrder(x) in orders
  {
    forall x | x in rows ensures MapOrder(x) in orders {
      var i :| 0 <= i < |rows| && rows[i] == x;
      assert orders[i] == MapOrder(x);
    }
  }

  /**
   * A driver's history includes finished orders too: every row of the
   * driver that a large enough limit keeps is returned whatever its status.
   */
  lemma HistoryIncludesFinished(table: seq<OrderRecord>, driverId: Uuid, r: OrderRecord)
    requires r in table && r.driverId == Some(driverId)
    requires |table| < DefaultHistoryLimit
    ensures MapOrder(r) in GetMyDriverOrders(table, driverId)
  {
    var rows := SelectDriverRows(table, driverId, DefaultHistoryLimit);
    assert |rows| <= |table| by {
      assert |multiset(rows)| <= |multiset(table)|;
    }
    assert multiset(rows)[r] == multiset(table)[r];
    assert r in rows;
  }
}
