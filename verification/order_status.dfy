/**
 * `OrderStatus`: the six states of an order, their wire raw values and their
 * display texts.
 */
module OrderStatuses {
  import opened Wrappers

  datatype OrderStatus = Requested | Accepted | Arrived | Started | Completed | Cancelled

  /** `OrderStatus.allCases`, in declaration order. */
  const AllCases: seq<OrderStatus> := [Requested, Accepted, Arrived, Started, Completed, Cancelled]

  /** The raw value of a `String`-backed enum case is the case name. */
  function RawValue(s: OrderStatus): string {
    match s
    case Requested => "requested"
    case Accepted => "accepted"
    case Arrived => "arrived"
    case Started => "started"
    case Completed => "completed"
    case Cancelled => "cancelled"
  }

  /** `OrderStatus(rawValue:)`: the status whose raw value is `raw`, if there is one. */
  function FromRawValue(raw: string): (r: Option<OrderStatus>)
    ensures r.Some? ==> RawValue(r.value) == raw
    ensures r.None? ==> forall s :: RawValue(s) != raw
  {
    match raw
    case "requested" => Some(Requested)
    case "accepted" => Some(Accepted)
    case "arrived" => Some(Arrived)
    case "started" => Some(Started)
    case "completed" => Some(Completed)
    case "cancelled" => Some(Cancelled)
    case _ => None
  }

  function DisplayText(s: OrderStatus): string {
    match s
    case Requested => "已发单"
    case Accepted => "已接单"
    case Arrived => "已到达"
    case Started => "行程中"
    case Completed => "已完成"
    case Cancelled => "已取消"
  }

  /** Exactly six statuses, each listed once, in declaration order. */
  lemma AllCasesEnumerates(s: OrderStatus)
    ensures |AllCases| == 6 && s in AllCases
    ensures forall i, j :: 0 <= i < j < |AllCases| ==> AllCases[i] != AllCases[j]
  {
  }

  /** Parsing a status's raw value gives the status back. */
  lemma RawValueRoundTrip(s: OrderStatus)
    ensures FromRawValue(RawValue(s)) == Some(s)
  {
  }

  /** The six raw values are pairwise distinct. */
  lemma RawValueInjective(s: OrderStatus, t: OrderStatus)
    ensures RawValue(s) == RawValue(t) <==> s == t
  {
    RawValueRoundTrip(s);
    RawValueRoundTrip(t);
  }

  /** The six display texts are pairwise distinct. */
  lemma DisplayTextInjective(s: OrderStatus, t: OrderStatus)
    ensures DisplayText(s) == DisplayText(t) <==> s == t
  {
  }
}
