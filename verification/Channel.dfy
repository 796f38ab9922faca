/** One payment channel's stored cells and the functions that rewrite them. Each is
    handed to the store's `update`, so each runs atomically on the current value;
    the clock reading it is given was taken before. */
module Channel {
  import opened Wrappers
  import opened Sums
  import opened StoreChange

  // ---- the delivery lock ----------------------------------------------------------

  type LockId = nat

  const DELIVERY_LOCK_TTL_MS := 300_000

  /** A lock from before expiries were kept has none. */
  datatype Lock = Lock(id: LockId, expiresAt: Option<int>)

  function AcquireChange(current: Option<Lock>, id: LockId, now: int): Change<Lock, bool> {
    if current.Some? && current.value.expiresAt.Some? && now < current.value.expiresAt.value then Noop(false)
    else Set(Lock(id, Some(now + DELIVERY_LOCK_TTL_MS)), true)
  }

  function RevalidateChange(current: Option<Lock>, id: LockId, now: int): Change<Lock, bool> {
    if current.None? || current.value.id != id then Noop(false)
    else Set(Lock(id, Some(now + DELIVERY_LOCK_TTL_MS)), true)
  }

  function ReleaseChange(current: Option<Lock>, id: LockId): Change<Lock, bool> {
    if current.None? || current.value.id != id then Noop(false) else Delete(true)
  }

  // ---- the voucher ------------------------------------------------------------------

  type Signature = nat

  /** What the client signed: a cumulative amount and the signature over it. */
  datatype Signed = Signed(cumulative: nat, signature: Signature)

  datatype Voucher = Voucher(signed: Signed, lastSettled: int)

  function PutChange(current: Option<Voucher>, v: Signed): Change<Voucher, bool> {
    if current.Some? && current.value.signed.cumulative >= v.cumulative then Noop(true)
    else Set(Voucher(v, if current.Some? then current.value.lastSettled else 0), true)
  }

  function SettledChange(current: Option<Voucher>, settled: int): Change<Voucher, bool> {
    match current
    case None => Noop(false)
    case Some(v) =>
      if v.lastSettled >= settled then Noop(false)
      else Set(v.(lastSettled := settled), true)
  }

  const SETTLE_THRESHOLD := 2_000_000

  /** What the settlement decides on the voucher it read and the chain state. */
  predicate Due(v: Voucher, closing: bool) {
    var unsettled := v.signed.cumulative - v.lastSettled;
    unsettled > 0 && (closing || unsettled >= SETTLE_THRESHOLD)
  }

  // ---- the accepted watermark -----------------------------------------------------

  /** The cumulative amount the payment library has accepted. */
  datatype Watermark = Watermark(amount: nat, settling: bool)

  function AmountOf(w: Option<Watermark>): nat {
    if w.Some? then w.value.amount else 0
  }

  /** The library takes a voucher that advances the watermark by exactly the price. */
  predicate Accepts(w: Option<Watermark>, amount: nat, price: nat) {
    amount == AmountOf(w) + price && !(w.Some? && w.value.settling)
  }

  function RollbackChange(current: Option<Watermark>, accepted: nat, previous: nat): Change<Watermark, bool> {
    if current.None? || current.value.amount != accepted || current.value.settling then Noop(false)
    else if previous == 0 then Delete(true)
    else Set(Watermark(previous, false), true)
  }

  // ---- write-offs ---------------------------------------------------------------------

  function WriteOffChange(current: Option<int>, cumulative: int): Change<int, bool> {
    if current.Some? then Noop(false) else Set(cumulative, true)
  }

  /** Count, total and membership in one value, so that they advance together. */
  datatype Aggregate = Aggregate(count: int, total: int, channels: map<string, int>)

  function AggregateChange(current: Option<Aggregate>, channel: string, cumulative: int): Change<Aggregate, bool> {
    var was := current.UnwrapOr(Aggregate(0, 0, map[]));
    if channel in was.channels then Noop(false)
    else Set(Aggregate(was.count + 1, was.total + cumulative, was.channels[channel := cumulative]), true)
  }

  function AggregateAfter(current: Option<Aggregate>, marks: seq<(string, int)>): Option<Aggregate>
    decreases |marks|
  {
    if marks == [] then current
    else AggregateAfter(Updated(current, AggregateChange(current, marks[0].0, marks[0].1)), marks[1..])
  }

  ghost predicate AggregateExact(a: Aggregate) {
    a.count == |a.channels| && a.total == SumMap(a.channels)
  }

  /** The first amount marked for the channel. */
  function FirstMark(marks: seq<(string, int)>, channel: string): Option<int>
    decreases |marks|
  {
    if marks == [] then None
    else if marks[0].0 == channel then Some(marks[0].1)
    else FirstMark(marks[1..], channel)
  }

  /** However often each channel's write-off is marked again, and in whatever order,
      the aggregate counts every marked channel once, at the amount first marked. */
  lemma {:induction false} AggregateIsExact(current: Option<Aggregate>, marks: seq<(string, int)>, channel: string)
    requires current.Some? ==> AggregateExact(current.value)
    ensures AggregateAfter(current, marks).Some? <==> current.Some? || marks != []
    ensures AggregateAfter(current, marks).Some? ==> AggregateExact(AggregateAfter(current, marks).value)
    ensures var was := current.UnwrapOr(Aggregate(0, 0, map[])).channels;
            var now := AggregateAfter(current, marks).UnwrapOr(Aggregate(0, 0, map[])).channels;
            (if channel in now then Some(now[channel]) else None)
            == if channel in was then Some(was[channel]) else FirstMark(marks, channel)
    decreases |marks|
  {
    if marks != [] {
      var next := Updated(current, AggregateChange(current, marks[0].0, marks[0].1));
      OneMarkKeepsExact(current, marks[0].0, marks[0].1);
      AggregateIsExact(next, marks[1..], channel);
    }
  }

  lemma OneMarkKeepsExact(current: Option<Aggregate>, channel: string, cumulative: int)
    requires current.Some? ==> AggregateExact(current.value)
    ensures var next := Updated(current, AggregateChange(current, channel, cumulative));
            next.Some? && AggregateExact(next.value)
  {
    var was := current.UnwrapOr(Aggregate(0, 0, map[]));
    SumUpdate(was.channels, channel, cumulative);
  }
}
