/** Calls and settlements of one channel, any number of them at once, each action
    one atomic step. Every action happens at a clock time; the reading an action
    hands to the store was taken at that time or before. One that crashes is one
    that takes no further step. */
module ChannelProtocol {
  import opened Wrappers
  import opened StoreChange
  import opened Channel

  /** What the library accepted for a call: the voucher, the watermark the call had read
      at its capacity gate, and its price. */
  datatype Charge = Charge(v: Signed, previous: nat, price: nat)

  datatype Actor =
    // a call: `since` is the clock reading its hold on the lock goes back to
    | Entered(since: int)                              // it took the lock
    | Passed(since: int)                               // found the channel not blocked
    | Gated(previous: nat, price: nat, since: int)     // and found room for its price
    | Charged(charge: Charge, since: int)              // its voucher was accepted
    | Paying(charge: Charge, since: int)               // lock revalidated, upstream at work
    | Reversing(charge: Charge, since: int)            // not to be paid: to be rolled back
    | Stuck                                            // it could not be rolled back
    | Paid(charge: Charge, since: int)                 // upstream was paid
    | Persisting(charge: Charge, since: int)           // lock revalidated, about to store the voucher
    | Doubtful(charge: Charge, since: int)             // it may not be stored
    | Absorbing(charge: Charge, since: int)            // taken not to be
    | Absorbed(charge: Charge)                         // and the channel fenced
    // a settlement
    | Settling                                         // it took the lock
    | Reading(read: Voucher)                           // and read the voucher, and then the chain
    | Closing(read: Voucher, since: int)               // and revalidated its lock
    | Marked(read: Voucher)                            // and marked the channel closed
    | Submitted(read: Voucher)                         // and submitted the close
    | Recorded(read: Voucher)                          // and has the outcome: collected, or written off
    // either
    | Leaving                                          // nothing left but to release the lock
    | Gone

  datatype Sys = Sys(
    lock: Option<Lock>, voucher: Option<Voucher>, watermark: Option<Watermark>, deposit: nat,
    closed: bool, fenced: bool, writtenOff: Option<int>, actors: map<LockId, Actor>,
    closes: set<Signed>, supplied: set<Signed>,
    charged: map<LockId, Charge>,   // the charges accepted and not reversed
    paid: set<LockId>,              // the calls upstream was paid for
    freed: set<LockId>,             // those of them whose capacity was given back
    clock: int)

  datatype Action =
    | Enter(id: LockId, now: int, settling: bool)
    | Check(id: LockId)
    | Gate(id: LockId, price: nat)
    | Accept(id: LockId, v: Signed)
    | Refresh(id: LockId, now: int)
    | Pay(id: LockId, paid: bool)
    | Undo(id: LockId)
    | Persist(id: LockId, now: int)
    | Put(id: LockId)
    | PutLost(id: LockId, landed: bool)
    | Cover(id: LockId, readable: bool)
    | Block(id: LockId)
    | Read(id: LockId)
    | Proceed(id: LockId, now: int, closing: bool)
    | MarkClosed(id: LockId)
    | Submit(id: LockId)
    | WriteOff(id: LockId)
    | Collected(id: LockId)
    | MarkSettled(id: LockId)
    | Release(id: LockId)
    | Fence(id: LockId)

  datatype Event = Event(at: int, action: Action)

  /** Whatever an earlier version of the code or a crash left behind, but no channel
      already closed. */
  predicate Init(s: Sys) {
    && !s.closed && s.actors == map[] && s.closes == {} && s.writtenOff.None?
    && s.charged == map[] && s.paid == {} && s.freed == {}
    && (s.voucher.Some? ==>
          && s.voucher.value.lastSettled <= s.voucher.value.signed.cumulative
          && s.voucher.value.signed in s.supplied)
    && (forall v :: v in s.supplied ==> s.voucher.Some? && v.cumulative <= s.voucher.value.signed.cumulative)
  }

  predicate Holds(s: Sys, id: LockId) {
    s.lock.Some? && s.lock.value.id == id
  }

  /** The channel takes no new calls. */
  predicate Blocked(s: Sys) { s.closed || s.fenced }

  function At(s: Sys, id: LockId, a: Actor): Sys {
    s.(actors := s.actors[id := a])
  }

  // ---- calls and settlements ---------------------------------------------------------

  /** Lock ids are drawn at random: never one seen before. */
  function DoEnter(s: Sys, id: LockId, now: int, settling: bool): Sys {
    if id in s.actors || Holds(s, id) then s
    else
      var change := AcquireChange(s.lock, id, now);
      var a := if !change.result then Gone else if settling then Settling else Entered(now);
      At(s, id, a).(lock := Updated(s.lock, change))
  }

  function DoRevalidate(s: Sys, id: LockId, now: int, next: Actor, otherwise: Actor): Sys {
    var change := RevalidateChange(s.lock, id, now);
    At(s, id, if change.result then next else otherwise).(lock := Updated(s.lock, change))
  }

  function DoRelease(s: Sys, id: LockId): Sys {
    At(s, id, Gone).(lock := Updated(s.lock, ReleaseChange(s.lock, id)))
  }

  // ---- calls ---------------------------------------------------------------------------

  /** The capacity gate. Every price is positive. */
  function DoGate(s: Sys, id: LockId, price: nat, since: int): Sys {
    var previous := AmountOf(s.watermark);
    At(s, id, if previous + price > s.deposit then Leaving else Gated(previous, price, since))
  }

  function DoAccept(s: Sys, id: LockId, v: Signed, previous: nat, price: nat, since: int): Sys {
    if Accepts(s.watermark, v.cumulative, price) then
      At(s, id, Charged(Charge(v, previous, price), since))
        .(watermark := Some(Watermark(v.cumulative, false)), charged := s.charged[id := Charge(v, previous, price)])
    else At(s, id, Leaving)
  }

  function DoPay(s: Sys, id: LockId, c: Charge, since: int, paid: bool): Sys {
    if paid then At(s, id, Paid(c, since)).(paid := s.paid + {id}) else At(s, id, Reversing(c, since))
  }

  /** The rollback of a call that was not paid; its challenge is there until then, so it
      succeeds only by putting the watermark back. */
  function DoReverse(s: Sys, id: LockId, c: Charge): Sys {
    var change := RollbackChange(s.watermark, c.v.cumulative, c.previous);
    At(s, id, if change.result then Leaving else Stuck)
      .(watermark := Updated(s.watermark, change), charged := if change.result then s.charged - {id} else s.charged)
  }

  /** The rollback of a paid call, for accounting only: it stays charged. */
  function DoFree(s: Sys, id: LockId, c: Charge): Sys {
    At(s, id, Leaving).(watermark := Updated(s.watermark, RollbackChange(s.watermark, c.v.cumulative, c.previous)),
                        freed := s.freed + {id})
  }

  function DoPut(s: Sys, id: LockId, v: Signed, next: Actor): Sys {
    At(s, id, next).(voucher := Updated(s.voucher, PutChange(s.voucher, v)), supplied := s.supplied + {v})
  }

  /** The write threw, and may have landed all the same. */
  function DoPutLost(s: Sys, id: LockId, c: Charge, since: int, landed: bool): Sys {
    if landed then DoPut(s, id, c.v, Doubtful(c, since)) else At(s, id, Doubtful(c, since))
  }

  /** The charge stands only when the voucher is read back and covers it. */
  function DoCover(s: Sys, id: LockId, c: Charge, since: int, readable: bool): Sys {
    At(s, id, if readable && s.voucher.Some? && s.voucher.value.signed.cumulative >= c.v.cumulative then Leaving
              else Absorbing(c, since))
  }

  /** From the gates to the payment. */
  function DoCharge(s: Sys, x: Actor, a: Action): Sys {
    match a
    case Check(id) => if x.Entered? then At(s, id, if Blocked(s) then Leaving else Passed(x.since)) else s
    case Gate(id, price) => if x.Passed? && price > 0 then DoGate(s, id, price, x.since) else s
    case Accept(id, v) => if x.Gated? then DoAccept(s, id, v, x.previous, x.price, x.since) else s
    case Refresh(id, now) =>
      if x.Charged? then DoRevalidate(s, id, now, Paying(x.charge, now), Reversing(x.charge, now)) else s
    case Pay(id, paid) => if x.Paying? then DoPay(s, id, x.charge, x.since, paid) else s
    case _ => s
  }

  /** From there on. */
  function DoConclude(s: Sys, x: Actor, a: Action): Sys {
    match a
    case Undo(id) =>
      if x.Reversing? then DoReverse(s, id, x.charge) else if x.Absorbed? then DoFree(s, id, x.charge) else s
    case Persist(id, now) =>
      if x.Paid? then DoRevalidate(s, id, now, Persisting(x.charge, now), Doubtful(x.charge, now)) else s
    case Put(id) => if x.Persisting? then DoPut(s, id, x.charge.v, Leaving) else s
    case PutLost(id, landed) => if x.Persisting? then DoPutLost(s, id, x.charge, x.since, landed) else s
    case Cover(id, readable) => if x.Doubtful? then DoCover(s, id, x.charge, x.since, readable) else s
    case Block(id) =>
      if x.Absorbing? then At(s, id, Absorbed(x.charge)).(fenced := true)
      else if x.Stuck? then At(s, id, Leaving).(fenced := true)
      else s
    case _ => s
  }

  predicate OfCharge(a: Action) {
    a.Check? || a.Gate? || a.Accept? || a.Refresh? || a.Pay?
  }

  function DoCall(s: Sys, x: Actor, a: Action): Sys {
    if OfCharge(a) then DoCharge(s, x, a) else DoConclude(s, x, a)
  }

  // ---- settlements ------------------------------------------------------------------------

  function DoProceed(s: Sys, id: LockId, now: int, v: Voucher, closing: bool): Sys {
    if Due(v, closing) then DoRevalidate(s, id, now, Closing(v, now), Leaving) else At(s, id, Leaving)
  }

  function DoWriteOff(s: Sys, id: LockId, v: Voucher): Sys {
    At(s, id, Recorded(v)).(writtenOff := Updated(s.writtenOff, WriteOffChange(s.writtenOff, v.signed.cumulative)))
  }

  function DoMarkSettled(s: Sys, id: LockId, v: Voucher): Sys {
    At(s, id, Leaving).(voucher := Updated(s.voucher, SettledChange(s.voucher, v.signed.cumulative)))
  }

  function DoSettle(s: Sys, x: Actor, a: Action): Sys {
    match a
    case Read(id) => if x.Settling? then At(s, id, if s.voucher.Some? then Reading(s.voucher.value) else Leaving) else s
    case Proceed(id, now, closing) => if x.Reading? then DoProceed(s, id, now, x.read, closing) else s
    case MarkClosed(id) => if x.Closing? then At(s, id, Marked(x.read)).(closed := true) else s
    case Submit(id) => if x.Marked? then At(s, id, Submitted(x.read)).(closes := s.closes + {x.read.signed}) else s
    case WriteOff(id) => if x.Marked? || x.Submitted? then DoWriteOff(s, id, x.read) else s
    case Collected(id) => if x.Submitted? then At(s, id, Recorded(x.read)) else s
    case MarkSettled(id) => if x.Recorded? then DoMarkSettled(s, id, x.read) else s
    case _ => s
  }

  predicate OfSettlement(a: Action) {
    a.Read? || a.Proceed? || a.MarkClosed? || a.Submit? || a.WriteOff? || a.Collected? || a.MarkSettled?
  }

  /** A step of one participant; one it is not ready for changes nothing. */
  function DoStep(s: Sys, x: Actor, a: Action): Sys {
    if a.Release? then (if x.Gone? then s else DoRelease(s, a.id))
    else if OfSettlement(a) then DoSettle(s, x, a)
    else DoCall(s, x, a)
  }

  /** A fence may be set at any time, by whoever sees the channel closing. */
  function Act(s: Sys, a: Action): Sys {
    match a
    case Enter(id, now, settling) => DoEnter(s, id, now, settling)
    case Fence(_) => s.(fenced := true)
    case _ => if a.id in s.actors then DoStep(s, s.actors[a.id], a) else s
  }

  function Do(s: Sys, e: Event): Sys {
    Act(s, e.action).(clock := e.at)
  }

  function Run(s: Sys, events: seq<Event>): Sys
    decreases |events|
  {
    if events == [] then s else Run(Do(s, events[0]), events[1..])
  }

  // ---- time -----------------------------------------------------------------------

  /** How long the participants take: a call from the clock reading of its acquire to
      its voucher being accepted, and to its revalidation before paying; from that
      revalidation's reading to the rollback when it was not paid, and to the second
      revalidation when it was; from the second to the voucher being stored, and to the
      fence when it was not; and a settlement from its revalidation to the channel being
      marked closed. */
  datatype Pace = Pace(accept: nat, refresh: nat, reverse: nat, persist: nat, put: nat, fence: nat, mark: nat)

  predicate ActorInTime(x: Actor, a: Action, at: int, pace: Pace) {
    && (a.Accept? && x.Gated? ==> at - x.since <= pace.accept)
    && (a.Refresh? && x.Charged? ==> at - x.since <= pace.refresh)
    && (a.Undo? && x.Reversing? ==> at - x.since <= pace.reverse)
    && (a.Persist? && x.Paid? ==> at - x.since <= pace.persist)
    && ((a.Put? || a.PutLost?) && x.Persisting? ==> at - x.since <= pace.put)
    && (a.Block? && x.Absorbing? ==> at - x.since <= pace.fence)
    && (a.MarkClosed? && x.Closing? ==> at - x.since <= pace.mark)
  }

  predicate InTime(s: Sys, e: Event, pace: Pace) {
    && s.clock <= e.at
    && (e.action.Enter? || e.action.Refresh? || e.action.Persist? || e.action.Proceed? ==> e.action.now <= e.at)
    && (e.action.id in s.actors ==> ActorInTime(s.actors[e.action.id], e.action, e.at, pace))
  }

  ghost predicate AllInTime(s: Sys, events: seq<Event>, pace: Pace)
    decreases |events|
  {
    events == [] || (InTime(s, events[0], pace) && AllInTime(Do(s, events[0]), events[1..], pace))
  }

  /** Every close submitted carries the latest voucher stored, with its own signature,
      and what is written off is that voucher's amount; and either way the channel is
      closed. */
  predicate Safe(s: Sys) {
    && (forall c :: c in s.closes ==> s.closed && s.voucher.Some? && s.voucher.value.signed == c)
    && (s.writtenOff.Some? ==>
          s.closed && s.voucher.Some? && s.voucher.value.signed.cumulative == s.writtenOff.value)
  }
}
