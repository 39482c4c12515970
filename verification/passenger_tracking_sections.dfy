/**
 * `PassengerTrackingSections`: the passenger's hint text and the five-step
 * progress bar.
 */
module PassengerTrackingSections {
  import opened Wrappers
  import opened Seqs
  import opened OrderStatuses
  import opened TrackingVM

  /** `passengerHint(for:)`: one hint per status. */
  function PassengerHint(s: OrderStatus): (h: string)
    ensures |h| > 0
  {
    match s
    case Requested => "已为你呼叫附近司机，请等待接单。"
    case Accepted => "司机已接单，正在赶来上车点。"
    case Arrived => "司机已到达，请前往上车点。"
    case Started => "行程进行中，可在此查看实时轨迹。"
    case Completed => "行程已完成。"
    case Cancelled => "订单已取消。"
  }

  /** Every status has its own hint. */
  lemma PassengerHintInjective(s: OrderStatus, t: OrderStatus)
    ensures PassengerHint(s) == PassengerHint(t) <==> s == t
  {
  }

  /** The bar's `steps`: the lifecycle chain. */
  const ProgressSteps: seq<OrderStatus> := Chain

  /** `steps.firstIndex(of: status) ?? 0` */
  function StepIndex(s: OrderStatus): (i: nat)
    ensures i < |ProgressSteps|
    ensures s in ProgressSteps ==> ProgressSteps[i] == s
    ensures s !in ProgressSteps ==> i == 0
  {
    IndexOf(ProgressSteps, s).GetOr(0)
  }

  /** The bar has five steps; only `cancelled` is missing from it, and it shows as the first step. */
  lemma ProgressStepsShape(s: OrderStatus)
    ensures |ProgressSteps| == 5
    ensures s in ProgressSteps <==> s != Cancelled
    ensures StepIndex(Cancelled) == 0
  {
  }

  /** The segments' opacities as lit flags: segment `i` is lit when `i <= idx`. */
  function Segments(s: OrderStatus): (segs: seq<bool>)
    ensures |segs| == |ProgressSteps|
    ensures forall i :: 0 <= i < |segs| ==> (segs[i] <==> i <= StepIndex(s))
  {
    var idx := StepIndex(s);
    seq(|ProgressSteps|, i requires 0 <= i < |ProgressSteps| => i <= idx)
  }

  /** How many segments are lit. */
  function CountLit(segs: seq<bool>): nat
    decreases |segs|
  {
    if |segs| == 0 then 0 else (if segs[0] then 1 else 0) + CountLit(segs[1..])
  }

  /** A row of flags lit exactly up to `k` has `k + 1` lit flags (capped by its length). */
  lemma {:induction false} CountLitPrefix(segs: seq<bool>, k: int)
    requires forall i :: 0 <= i < |segs| ==> (segs[i] <==> i <= k)
    ensures CountLit(segs) == if k < 0 then 0 else if k + 1 <= |segs| then k + 1 else |segs|
    decreases |segs|
  {
    if |segs| > 0 {
      CountLitPrefix(segs[1..], k - 1);
    }
  }

  /** The bar lights `StepIndex(s) + 1` segments. */
  lemma LitCountIsIndexPlusOne(s: OrderStatus)
    ensures CountLit(Segments(s)) == StepIndex(s) + 1
  {
    CountLitPrefix(Segments(s), StepIndex(s));
  }

  /** Taking one step along the chain lights exactly one more segment. */
  lemma AdvanceLightsOneMore(s: OrderStatus)
    requires s != Completed && s != Cancelled
    ensures CountLit(Segments(NextStatus(s))) == CountLit(Segments(s)) + 1
  {
    LitCountIsIndexPlusOne(s);
    LitCountIsIndexPlusOne(NextStatus(s));
  }
}
