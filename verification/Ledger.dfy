/** The prepaid ledger as a value, and each of its requests as a change of it.
    All amounts are atomic integers. */
module Ledger {
  import opened Wrappers
  import opened Sums

  datatype IntentStatus = Open | Consumed | Expired | OverCap

  /** One payment operation on chain. */
  type Payment = (string, int)

  datatype Session = Session(jti: string, exp: int)

  datatype Intent = Intent(
    account: string, amount: int, memo: string, destination: string, expiresAt: int,
    status: IntentStatus, payment: Option<Payment>, session: Option<Session>)

  datatype CallStatus = Held | Committed | Released

  datatype Call = Call(
    account: string, status: CallStatus, maxPrice: int, charged: int, at: int,
    dispatched: bool, reaped: bool, possiblyPaid: bool)

  datatype State = State(
    intents: map<string, Intent>,
    memos: map<string, string>,
    consumed: map<Payment, string>,
    balances: map<string, int>,
    deposits: map<(string, int), int>,   // by account and UTC day
    minted: map<(string, int), int>,     // by account and UTC hour
    openSlots: map<string, int>,
    calls: map<string, Call>,
    credited: int, committed: int, outstanding: int,
    alarm: Option<int>)

  /** Storage before the first request. */
  predicate Empty(s: State) {
    && s.intents == map[] && s.memos == map[] && s.consumed == map[] && s.balances == map[] && s.deposits == map[]
    && s.minted == map[] && s.openSlots == map[] && s.calls == map[]
    && s.credited == 0 && s.committed == 0 && s.outstanding == 0 && s.alarm.None?
  }

  const RESERVED_LEASE_MS := 5 * 60 * 1000
  const REAPER_INTERVAL_MS := 60 * 1000

  /** The caps the route passes with every request. */
  datatype Caps = Caps(perAccountDay: int, global: int, intentsPerHour: int, maxOpenIntents: int)

  function Get<K>(m: map<K, int>, k: K): int {
    if k in m then m[k] else 0
  }

  function Day(ms: int): int { ms / 86_400_000 }

  function Hour(ms: int): int { ms / 3_600_000 }

  // ---- intents ----------------------------------------------------------------

  datatype IntentRequest = IntentRequest(
    id: string, account: string, amount: int, memo: string, destination: string, now: int, expiresAt: int)

  datatype CreateReply =
    | Created(intent: Intent) | InvalidAmount | RateLimited | DayCapReached | GlobalCapReached
    | TooManyOpen | MemoCollision

  function CreateIntent(s: State, q: IntentRequest, caps: Caps): (State, CreateReply) {
    var hour := (q.account, Hour(q.now));
    if q.amount <= 0 then (s, InvalidAmount)
    else if Get(s.minted, hour) >= caps.intentsPerHour then (s, RateLimited)
    else if Get(s.deposits, (q.account, Day(q.now))) + q.amount > caps.perAccountDay then (s, DayCapReached)
    else if s.outstanding + q.amount > caps.global then (s, GlobalCapReached)
    else if Get(s.openSlots, q.account) >= caps.maxOpenIntents then (s, TooManyOpen)
    else if q.memo in s.memos then (s, MemoCollision)
    else
      var intent := Intent(q.account, q.amount, q.memo, q.destination, q.expiresAt, Open, None, None);
      (s.(intents := s.intents[q.id := intent],
          memos := s.memos[q.memo := q.id],
          minted := s.minted[hour := Get(s.minted, hour) + 1],
          openSlots := s.openSlots[q.account := Get(s.openSlots, q.account) + 1]),
       Created(intent))
  }

  datatype OpenRequest = OpenRequest(id: string, payment: Payment, now: int, confirmedAt: int, session: Session)

  datatype OpenReply =
    | Opened(intent: Intent, balance: int, replayed: bool) | NoIntent | ExceedsCap | AlreadyUsed
    | PaymentClaimed | ConfirmedTooLate

  function SlotReleased(s: State, account: string): map<string, int> {
    var n := Get(s.openSlots, account);
    s.openSlots[account := if n > 0 then n - 1 else 0]
  }

  function OpenIntent(s: State, q: OpenRequest, caps: Caps): (State, OpenReply) {
    if q.id !in s.intents then (s, NoIntent)
    else
      var intent := s.intents[q.id];
      if intent.status == OverCap then (s, ExceedsCap)
      else if intent.status == Consumed then
        if intent.payment != Some(q.payment) then (s, AlreadyUsed) else Replay(s, q, intent)
      else if q.payment in s.consumed then (s, PaymentClaimed)
      else if q.confirmedAt > intent.expiresAt then TooLate(s, q, intent)
      else if ExceedsCaps(s, q, intent, caps) then Refuse(s, q, intent)
      else Credit(s, q, intent)
  }

  /** The same payment for the same intent: a session still valid is handed back as
      it is, a lapsed one is renewed. */
  function Replay(s: State, q: OpenRequest, intent: Intent): (State, OpenReply) {
    var renew := intent.session.None? || intent.session.value.exp * 1000 <= q.now;
    var returned := if renew then intent.(session := Some(q.session)) else intent;
    (s.(intents := s.intents[q.id := returned]), Opened(returned, Get(s.balances, intent.account), true))
  }

  function TooLate(s: State, q: OpenRequest, intent: Intent): (State, OpenReply) {
    (s.(intents := s.intents[q.id := intent.(status := Expired)],
        openSlots := SlotReleased(s, intent.account)),
     ConfirmedTooLate)
  }

  /** The ceilings are enforced where credit comes into being, by the day the
      payment confirmed. */
  predicate ExceedsCaps(s: State, q: OpenRequest, intent: Intent, caps: Caps) {
    || Get(s.deposits, (intent.account, Day(q.confirmedAt))) + intent.amount > caps.perAccountDay
    || s.outstanding + intent.amount > caps.global
  }

  function Refuse(s: State, q: OpenRequest, intent: Intent): (State, OpenReply) {
    (s.(intents := s.intents[q.id := intent.(status := OverCap, payment := Some(q.payment))],
        openSlots := SlotReleased(s, intent.account)),
     ExceedsCap)
  }

  /** The payment is taken up, once and for this intent. */
  function Claim(s: State, q: OpenRequest, updated: Intent): State {
    s.(intents := s.intents[q.id := updated],
       consumed := s.consumed[q.payment := q.id],
       openSlots := SlotReleased(s, updated.account))
  }

  function AddCredit(s: State, account: string, day: (string, int), amount: int): State {
    s.(balances := s.balances[account := Get(s.balances, account) + amount],
       deposits := s.deposits[day := Get(s.deposits, day) + amount],
       credited := s.credited + amount,
       outstanding := s.outstanding + amount)
  }

  function Credit(s: State, q: OpenRequest, intent: Intent): (State, OpenReply) {
    var updated := intent.(status := Consumed, payment := Some(q.payment), session := Some(q.session));
    (AddCredit(Claim(s, q, updated), intent.account, (intent.account, Day(q.confirmedAt)), intent.amount),
     Opened(updated, Get(s.balances, intent.account) + intent.amount, false))
  }

  // ---- calls --------------------------------------------------------------------

  datatype ReserveReply =
    | Reserved(call: Call, balance: int) | Duplicate(call: Call, balance: int)
    | Insufficient(balance: int) | InvalidPrice

  function Reserve(s: State, callId: string, account: string, maxPrice: int, now: int): (State, ReserveReply) {
    if maxPrice < 0 then (s, InvalidPrice)
    else if callId in s.calls then (s, Duplicate(s.calls[callId], Get(s.balances, s.calls[callId].account)))
    else if Get(s.balances, account) < maxPrice then (s, Insufficient(Get(s.balances, account)))
    else
      var call := Call(account, Held, maxPrice, 0, now, false, false, false);
      var remaining := Get(s.balances, account) - maxPrice;
      (s.(balances := s.balances[account := remaining], calls := s.calls[callId := call]),
       Reserved(call, remaining))
  }

  /** What follows a hold just taken, in a write of its own: the alarm is armed unless
      it is already. */
  function ArmReaper(s: State, now: int): State {
    if s.alarm.None? then s.(alarm := Some(now + REAPER_INTERVAL_MS)) else s
  }

  datatype DispatchReply = Marked(marked: bool) | NoSuchCall

  function Dispatch(s: State, callId: string): (State, DispatchReply) {
    if callId !in s.calls then (s, NoSuchCall)
    else
      var call := s.calls[callId];
      if call.status != Held || call.dispatched then (s, Marked(false))
      else (s.(calls := s.calls[callId := call.(dispatched := true)]), Marked(true))
  }

  datatype SettleAction = Commit(charge: int) | Release

  datatype SettleReply = Settled(call: Call, balance: int) | AlreadySettled(call: Call, balance: int) | UnknownCall

  function Clamp(charge: int, held: int): int {
    var c := if charge < 0 then 0 else charge;
    if c > held then held else c
  }

  function Settle(s: State, callId: string, action: SettleAction): (State, SettleReply) {
    if callId !in s.calls then (s, UnknownCall)
    else
      var call := s.calls[callId];
      var balance := Get(s.balances, call.account);
      if call.status != Held then (s, AlreadySettled(call, balance))
      else match action
        case Release =>
          var settled := call.(status := Released, charged := 0);
          (s.(calls := s.calls[callId := settled],
              balances := s.balances[call.account := balance + call.maxPrice]),
           Settled(settled, balance + call.maxPrice))
        case Commit(charge) =>
          var charged := Clamp(charge, call.maxPrice);
          var settled := call.(status := Committed, charged := charged);
          (s.(calls := s.calls[callId := settled],
              balances := s.balances[call.account := balance + (call.maxPrice - charged)],
              committed := s.committed + charged,
              outstanding := s.outstanding - charged),
           Settled(settled, balance + (call.maxPrice - charged)))
  }

  // ---- the reaper -----------------------------------------------------------------

  predicate Stale(c: Call, now: int) {
    c.status == Held && now - c.at >= RESERVED_LEASE_MS
  }

  function ReapedCall(c: Call): Call {
    c.(status := Released, charged := 0, reaped := true, possiblyPaid := c.dispatched)
  }

  function StaleHold(c: Call, a: string, now: int): int {
    if Stale(c, now) && c.account == a then c.maxPrice else 0
  }

  function StaleHoldMap(calls: map<string, Call>, seen: set<string>, a: string, now: int): map<string, int> {
    map c | c in calls && c in seen :: StaleHold(calls[c], a, now)
  }

  /** The holds of account a's stale calls among `seen`. */
  ghost function StaleHolds(calls: map<string, Call>, seen: set<string>, a: string, now: int): int {
    SumMap(StaleHoldMap(calls, seen, a, now))
  }

  /** The state once the calls in `seen` have been looked at: each stale one
      released, each account given back all its stale holds. */
  ghost function ReapedSoFar(s: State, seen: set<string>, now: int): State {
    var refunded := set c | c in s.calls && c in seen && Stale(s.calls[c], now) :: s.calls[c].account;
    s.(calls := map c | c in s.calls ::
         if c in seen && Stale(s.calls[c], now) then ReapedCall(s.calls[c]) else s.calls[c],
       balances := map a | a in s.balances.Keys + refunded :: Get(s.balances, a) + StaleHolds(s.calls, seen, a, now))
  }

  predicate InFlight(s: State, now: int) {
    exists c :: c in s.calls && s.calls[c].status == Held && !Stale(s.calls[c], now)
  }

  /** What a firing of the alarm does, whatever the order it lists the calls in. */
  ghost function Alarm(s: State, now: int): State {
    ReapedSoFar(s, s.calls.Keys, now).(alarm := if InFlight(s, now) then Some(now + REAPER_INTERVAL_MS) else None)
  }

  // ---- runs -------------------------------------------------------------------------

  datatype Op =
    | DoCreate(create: IntentRequest, caps: Caps)
    | DoOpen(open: OpenRequest, caps: Caps)
    | DoReserve(callId: string, account: string, maxPrice: int, now: int)
    | DoDispatch(callId: string)
    | DoArm(callId: string)                       // the end of the reserve that took this hold
    | DoSettle(callId: string, action: SettleAction)
    | DoAlarm(now: int)
    | DoReapPart(seen: set<string>, now: int)     // a firing cut short, to be delivered again

  datatype Reply =
    | OnCreate(createReply: CreateReply) | OnOpen(openReply: OpenReply) | OnReserve(reserveReply: ReserveReply)
    | OnDispatch(dispatchReply: DispatchReply) | OnSettle(settleReply: SettleReply) | Nothing

  ghost function Do(s: State, op: Op): (State, Reply) {
    match op
    case DoCreate(q, caps) => var (s', r) := CreateIntent(s, q, caps); (s', OnCreate(r))
    case DoOpen(q, caps) => var (s', r) := OpenIntent(s, q, caps); (s', OnOpen(r))
    case DoReserve(id, account, maxPrice, now) =>
      var (s', r) := Reserve(s, id, account, maxPrice, now);
      (s', OnReserve(r))
    case DoDispatch(id) => var (s', r) := Dispatch(s, id); (s', OnDispatch(r))
    case DoSettle(id, action) => var (s', r) := Settle(s, id, action); (s', OnSettle(r))
    case DoArm(id) => (if id in s.calls then ArmReaper(s, s.calls[id].at) else s, Nothing)
    case DoAlarm(now) => (Alarm(s, now), Nothing)
    case DoReapPart(seen, now) => (ReapedSoFar(s, seen * s.calls.Keys, now), Nothing)
  }

  ghost function Run(s: State, ops: seq<Op>): State
    decreases |ops|
  {
    if ops == [] then s else Run(Do(s, ops[0]).0, ops[1..])
  }

  ghost function Replies(s: State, ops: seq<Op>): seq<Reply>
    decreases |ops|
  {
    if ops == [] then [] else [Do(s, ops[0]).1] + Replies(Do(s, ops[0]).0, ops[1..])
  }

  /** Intent ids are drawn at random: no request to create one names an existing one. */
  ghost predicate FreshIds(s: State, ops: seq<Op>)
    decreases |ops|
  {
    ops == [] || ((ops[0].DoCreate? ==> ops[0].create.id !in s.intents) && FreshIds(Do(s, ops[0]).0, ops[1..]))
  }
}
