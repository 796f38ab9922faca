/** Runs of a channel, put together step by step. */
module ChannelRuns {
  import opened Wrappers
  import opened Channel
  import opened ChannelProtocol

  ghost predicate Reaches(s: Sys, t: Sys, pace: Pace) {
    exists events: seq<Event> :: AllInTime(s, events, pace) && Run(s, events) == t
  }

  lemma {:induction false} OneMore(s: Sys, events: seq<Event>, e: Event, pace: Pace)
    requires AllInTime(s, events, pace) && InTime(Run(s, events), e, pace)
    ensures AllInTime(s, events + [e], pace) && Run(s, events + [e]) == Do(Run(s, events), e)
    decreases |events|
  {
    if events == [] {
      assert [e][1..] == [];
    } else {
      assert (events + [e])[1..] == events[1..] + [e];
      OneMore(Do(s, events[0]), events[1..], e, pace);
    }
  }

  lemma Reach(s: Sys, t: Sys, e: Event, t': Sys, pace: Pace)
    requires Reaches(s, t, pace) && InTime(t, e, pace) && t' == Do(t, e)
    ensures Reaches(s, t', pace)
  {
    var events :| AllInTime(s, events, pace) && Run(s, events) == t;
    OneMore(s, events, e, pace);
  }

  lemma StartReached(s: Sys, pace: Pace)
    ensures Reaches(s, s, pace)
  {
    assert AllInTime(s, [], pace) && Run(s, []) == s;
  }

  /** A channel nobody is using, with or without a voucher. */
  function Idle(voucher: Option<Voucher>, deposit: nat): Sys {
    var stored := if voucher.Some? then voucher.value.signed.cumulative else 0;
    Sys(None, voucher, Some(Watermark(stored, false)), deposit, false, false, None, map[],
        {}, if voucher.Some? then {voucher.value.signed} else {}, map[], {}, {}, 0)
  }

  /** The lock can be had at t. */
  predicate Free(s: Sys, id: LockId, t: int) {
    && id !in s.actors && s.clock <= t
    && (s.lock.Some? ==> s.lock.value.id != id && s.lock.value.expiresAt.Some? && s.lock.value.expiresAt.value <= t)
  }

  function Holding(s: Sys, id: LockId, a: Actor, t: int): Sys {
    s.(lock := Some(Lock(id, Some(t + DELIVERY_LOCK_TTL_MS))), actors := s.actors[id := a], clock := t)
  }

  // ---- one step -------------------------------------------------------------------------

  lemma Enters(s0: Sys, s: Sys, id: LockId, settling: bool, t: int, pace: Pace)
    requires Reaches(s0, s, pace) && Free(s, id, t)
    ensures Reaches(s0, Holding(s, id, if settling then Settling else Entered(t), t), pace)
  {
    Reach(s0, s, Event(t, Enter(id, t, settling)), Holding(s, id, if settling then Settling else Entered(t), t), pace);
  }

  lemma Passes(s0: Sys, s: Sys, id: LockId, since: int, pace: Pace)
    requires Reaches(s0, s, pace) && id in s.actors && s.actors[id] == Entered(since) && !Blocked(s)
    ensures Reaches(s0, At(s, id, Passed(since)), pace)
  {
    Reach(s0, s, Event(s.clock, Check(id)), At(s, id, Passed(since)), pace);
  }

  lemma IsGated(s0: Sys, s: Sys, id: LockId, price: nat, since: int, pace: Pace)
    requires Reaches(s0, s, pace) && id in s.actors && s.actors[id] == Passed(since)
    requires AmountOf(s.watermark) + price <= s.deposit && price > 0
    ensures Reaches(s0, At(s, id, Gated(AmountOf(s.watermark), price, since)), pace)
  {
    Reach(s0, s, Event(s.clock, Gate(id, price)), At(s, id, Gated(AmountOf(s.watermark), price, since)), pace);
  }

  function Charging(s: Sys, id: LockId, c: Charge, a: Actor): Sys {
    At(s, id, a).(watermark := Some(Watermark(c.v.cumulative, false)), charged := s.charged[id := c])
  }

  lemma IsAccepted(s0: Sys, s: Sys, id: LockId, c: Charge, since: int, pace: Pace)
    requires Reaches(s0, s, pace) && id in s.actors && s.actors[id] == Gated(c.previous, c.price, since)
    requires Accepts(s.watermark, c.v.cumulative, c.price) && s.clock - since <= pace.accept
    ensures Reaches(s0, Charging(s, id, c, Charged(c, since)), pace)
  {
    Reach(s0, s, Event(s.clock, Accept(id, c.v)), Charging(s, id, c, Charged(c, since)), pace);
  }

  lemma Refreshes(s0: Sys, s: Sys, id: LockId, c: Charge, since: int, pace: Pace)
    requires Reaches(s0, s, pace) && Holds(s, id) && id in s.actors && s.actors[id] == Charged(c, since)
    requires s.clock - since <= pace.refresh
    ensures Reaches(s0, Holding(s, id, Paying(c, s.clock), s.clock), pace)
  {
    Reach(s0, s, Event(s.clock, Refresh(id, s.clock)), Holding(s, id, Paying(c, s.clock), s.clock), pace);
  }

  lemma IsOvertaken(s0: Sys, s: Sys, id: LockId, c: Charge, since: int, pace: Pace)
    requires Reaches(s0, s, pace) && !Holds(s, id) && id in s.actors && s.actors[id] == Charged(c, since)
    requires s.clock - since <= pace.refresh
    ensures Reaches(s0, At(s, id, Reversing(c, s.clock)), pace)
  {
    Reach(s0, s, Event(s.clock, Refresh(id, s.clock)), At(s, id, Reversing(c, s.clock)), pace);
  }

  lemma IsPaid(s0: Sys, s: Sys, id: LockId, c: Charge, since: int, pace: Pace)
    requires Reaches(s0, s, pace) && id in s.actors && s.actors[id] == Paying(c, since)
    ensures Reaches(s0, At(s, id, Paid(c, since)).(paid := s.paid + {id}), pace)
  {
    Reach(s0, s, Event(s.clock, Pay(id, true)), At(s, id, Paid(c, since)).(paid := s.paid + {id}), pace);
  }

  lemma IsNotPaid(s0: Sys, s: Sys, id: LockId, c: Charge, since: int, pace: Pace)
    requires Reaches(s0, s, pace) && id in s.actors && s.actors[id] == Paying(c, since)
    ensures Reaches(s0, At(s, id, Reversing(c, since)), pace)
  {
    Reach(s0, s, Event(s.clock, Pay(id, false)), At(s, id, Reversing(c, since)), pace);
  }

  lemma IsReversed(s0: Sys, s: Sys, id: LockId, c: Charge, since: int, pace: Pace)
    requires Reaches(s0, s, pace) && id in s.actors && s.actors[id] == Reversing(c, since)
    requires s.watermark == Some(Watermark(c.v.cumulative, false)) && s.clock - since <= pace.reverse
    ensures Reaches(s0, At(s, id, Leaving).(watermark := PutBack(c.previous), charged := s.charged - {id}), pace)
  {
    Reach(s0, s, Event(s.clock, Undo(id)),
          At(s, id, Leaving).(watermark := PutBack(c.previous), charged := s.charged - {id}), pace);
  }

  function PutBack(previous: nat): Option<Watermark> {
    if previous == 0 then None else Some(Watermark(previous, false))
  }

  lemma Persists(s0: Sys, s: Sys, id: LockId, c: Charge, since: int, pace: Pace)
    requires Reaches(s0, s, pace) && Holds(s, id) && id in s.actors && s.actors[id] == Paid(c, since)
    requires s.clock - since <= pace.persist
    ensures Reaches(s0, Holding(s, id, Persisting(c, s.clock), s.clock), pace)
  {
    Reach(s0, s, Event(s.clock, Persist(id, s.clock)), Holding(s, id, Persisting(c, s.clock), s.clock), pace);
  }

  lemma Doubts(s0: Sys, s: Sys, id: LockId, c: Charge, since: int, pace: Pace)
    requires Reaches(s0, s, pace) && !Holds(s, id) && id in s.actors && s.actors[id] == Paid(c, since)
    requires s.clock - since <= pace.persist
    ensures Reaches(s0, At(s, id, Doubtful(c, s.clock)), pace)
  {
    Reach(s0, s, Event(s.clock, Persist(id, s.clock)), At(s, id, Doubtful(c, s.clock)), pace);
  }

  lemma IsLost(s0: Sys, s: Sys, id: LockId, c: Charge, since: int, pace: Pace)
    requires Reaches(s0, s, pace) && id in s.actors && s.actors[id] == Persisting(c, since)
    requires s.clock - since <= pace.put
    ensures Reaches(s0, At(s, id, Doubtful(c, since)), pace)
  {
    Reach(s0, s, Event(s.clock, PutLost(id, false)), At(s, id, Doubtful(c, since)), pace);
  }

  lemma Stores(s0: Sys, s: Sys, id: LockId, c: Charge, since: int, pace: Pace)
    requires Reaches(s0, s, pace) && id in s.actors && s.actors[id] == Persisting(c, since)
    requires s.clock - since <= pace.put
    ensures Reaches(s0, DoPut(s, id, c.v, Leaving), pace)
  {
    Reach(s0, s, Event(s.clock, Put(id)), DoPut(s, id, c.v, Leaving), pace);
  }

  lemma IsNotCovered(s0: Sys, s: Sys, id: LockId, c: Charge, since: int, pace: Pace)
    requires Reaches(s0, s, pace) && id in s.actors && s.actors[id] == Doubtful(c, since) && s.voucher.None?
    ensures Reaches(s0, At(s, id, Absorbing(c, since)), pace)
  {
    Reach(s0, s, Event(s.clock, Cover(id, true)), At(s, id, Absorbing(c, since)), pace);
  }

  lemma Fences(s0: Sys, s: Sys, id: LockId, c: Charge, since: int, pace: Pace)
    requires Reaches(s0, s, pace) && id in s.actors && s.actors[id] == Absorbing(c, since)
    requires s.clock - since <= pace.fence
    ensures Reaches(s0, At(s, id, Absorbed(c)).(fenced := true), pace)
  {
    Reach(s0, s, Event(s.clock, Block(id)), At(s, id, Absorbed(c)).(fenced := true), pace);
  }

  lemma IsFreed(s0: Sys, s: Sys, id: LockId, c: Charge, pace: Pace)
    requires Reaches(s0, s, pace) && id in s.actors && s.actors[id] == Absorbed(c)
    requires s.watermark == Some(Watermark(c.v.cumulative, false))
    ensures Reaches(s0, At(s, id, Leaving).(watermark := PutBack(c.previous), freed := s.freed + {id}), pace)
  {
    Reach(s0, s, Event(s.clock, Undo(id)),
          At(s, id, Leaving).(watermark := PutBack(c.previous), freed := s.freed + {id}), pace);
  }

  lemma Releases(s0: Sys, s: Sys, id: LockId, pace: Pace)
    requires Reaches(s0, s, pace) && id in s.actors && !s.actors[id].Gone?
    ensures Reaches(s0, DoRelease(s, id), pace)
  {
    Reach(s0, s, Event(s.clock, Release(id)), DoRelease(s, id), pace);
  }

  lemma Reads(s0: Sys, s: Sys, id: LockId, v: Voucher, pace: Pace)
    requires Reaches(s0, s, pace) && id in s.actors && s.actors[id] == Settling && s.voucher == Some(v)
    ensures Reaches(s0, At(s, id, Reading(v)), pace)
  {
    Reach(s0, s, Event(s.clock, Read(id)), At(s, id, Reading(v)), pace);
  }

  lemma Proceeds(s0: Sys, s: Sys, id: LockId, v: Voucher, pace: Pace)
    requires Reaches(s0, s, pace) && Holds(s, id) && id in s.actors && s.actors[id] == Reading(v) && Due(v, false)
    ensures Reaches(s0, Holding(s, id, Closing(v, s.clock), s.clock), pace)
  {
    Reach(s0, s, Event(s.clock, Proceed(id, s.clock, false)), Holding(s, id, Closing(v, s.clock), s.clock), pace);
  }

  lemma Marks(s0: Sys, s: Sys, id: LockId, v: Voucher, since: int, pace: Pace)
    requires Reaches(s0, s, pace) && id in s.actors && s.actors[id] == Closing(v, since)
    requires s.clock - since <= pace.mark
    ensures Reaches(s0, At(s, id, Marked(v)).(closed := true), pace)
  {
    Reach(s0, s, Event(s.clock, MarkClosed(id)), At(s, id, Marked(v)).(closed := true), pace);
  }

  lemma Submits(s0: Sys, s: Sys, id: LockId, v: Voucher, pace: Pace)
    requires Reaches(s0, s, pace) && id in s.actors && s.actors[id] == Marked(v)
    ensures Reaches(s0, At(s, id, Submitted(v)).(closes := s.closes + {v.signed}), pace)
  {
    Reach(s0, s, Event(s.clock, Submit(id)), At(s, id, Submitted(v)).(closes := s.closes + {v.signed}), pace);
  }

  // ---- several ---------------------------------------------------------------------------

  lemma Overwrites(s: Sys, id: LockId, a: Actor, b: Actor, t: int)
    ensures At(Holding(s, id, a, t), id, b) == Holding(s, id, b, t)
    ensures Holding(Holding(s, id, a, t), id, b, t) == Holding(s, id, b, t)
  {
    assert s.actors[id := a][id := b] == s.actors[id := b];
  }

  /** The library could take this charge now. */
  predicate Fits(s: Sys, c: Charge) {
    && Accepts(s.watermark, c.v.cumulative, c.price) && c.v.cumulative <= s.deposit && c.price > 0
    && c.previous == AmountOf(s.watermark)
  }

  lemma CallPasses(s0: Sys, s: Sys, id: LockId, t: int, pace: Pace)
    requires Reaches(s0, s, pace) && Free(s, id, t) && !Blocked(s)
    ensures Reaches(s0, Holding(s, id, Passed(t), t), pace)
  {
    Enters(s0, s, id, false, t, pace);
    Passes(s0, Holding(s, id, Entered(t), t), id, t, pace);
    Overwrites(s, id, Entered(t), Passed(t), t);
  }

  lemma CallIsGated(s0: Sys, s: Sys, id: LockId, price: nat, t: int, pace: Pace)
    requires Reaches(s0, s, pace) && Free(s, id, t) && !Blocked(s)
    requires AmountOf(s.watermark) + price <= s.deposit && price > 0
    ensures Reaches(s0, Holding(s, id, Gated(AmountOf(s.watermark), price, t), t), pace)
  {
    CallPasses(s0, s, id, t, pace);
    IsGated(s0, Holding(s, id, Passed(t), t), id, price, t, pace);
    Overwrites(s, id, Passed(t), Gated(AmountOf(s.watermark), price, t), t);
  }

  /** A call whose voucher was accepted, further on. */
  function Taken(s: Sys, id: LockId, c: Charge, a: Actor, t: int): Sys {
    Charging(Holding(s, id, Gated(c.previous, c.price, t), t), id, c, a)
  }

  lemma TakenMovesOn(s: Sys, id: LockId, c: Charge, a: Actor, b: Actor, t: int)
    ensures At(Taken(s, id, c, a, t), id, b) == Taken(s, id, c, b, t)
    ensures Holding(Taken(s, id, c, a, t), id, b, t) == Taken(s, id, c, b, t)
  {
    var was: map<LockId, Actor> := Holding(s, id, Gated(c.previous, c.price, t), t).actors;
    assert was[id := a][id := b] == was[id := b];
  }

  lemma CallIsCharged(s0: Sys, s: Sys, id: LockId, c: Charge, t: int, pace: Pace)
    requires Reaches(s0, s, pace) && Free(s, id, t) && !Blocked(s) && Fits(s, c)
    ensures Reaches(s0, Taken(s, id, c, Charged(c, t), t), pace)
  {
    CallIsGated(s0, s, id, c.price, t, pace);
    IsAccepted(s0, Holding(s, id, Gated(c.previous, c.price, t), t), id, c, t, pace);
  }

  lemma CallIsPaying(s0: Sys, s: Sys, id: LockId, c: Charge, t: int, pace: Pace)
    requires Reaches(s0, s, pace) && Free(s, id, t) && !Blocked(s) && Fits(s, c)
    ensures Reaches(s0, Taken(s, id, c, Paying(c, t), t), pace)
  {
    CallIsCharged(s0, s, id, c, t, pace);
    Refreshes(s0, Taken(s, id, c, Charged(c, t), t), id, c, t, pace);
    TakenMovesOn(s, id, c, Charged(c, t), Paying(c, t), t);
  }

  /** One paid for upstream. */
  function Spent(s: Sys, id: LockId, c: Charge, a: Actor, t: int): Sys {
    Taken(s, id, c, a, t).(paid := s.paid + {id})
  }

  lemma CallIsPaid(s0: Sys, s: Sys, id: LockId, c: Charge, t: int, pace: Pace)
    requires Reaches(s0, s, pace) && Free(s, id, t) && !Blocked(s) && Fits(s, c)
    ensures Reaches(s0, Spent(s, id, c, Paid(c, t), t), pace)
  {
    CallIsPaying(s0, s, id, c, t, pace);
    IsPaid(s0, Taken(s, id, c, Paying(c, t), t), id, c, t, pace);
    TakenMovesOn(s, id, c, Paying(c, t), Paid(c, t), t);
  }

  lemma CallIsAboutToStore(s0: Sys, s: Sys, id: LockId, c: Charge, t: int, pace: Pace)
    requires Reaches(s0, s, pace) && Free(s, id, t) && !Blocked(s) && Fits(s, c)
    ensures Reaches(s0, Spent(s, id, c, Persisting(c, t), t), pace)
  {
    CallIsPaid(s0, s, id, c, t, pace);
    Persists(s0, Spent(s, id, c, Paid(c, t), t), id, c, t, pace);
    TakenMovesOn(s, id, c, Paid(c, t), Persisting(c, t), t);
  }

  /** A settlement reads the voucher, finds it due, and revalidates. */
  lemma SettlementIsClosing(s0: Sys, s: Sys, id: LockId, v: Voucher, t: int, pace: Pace)
    requires Reaches(s0, s, pace) && Free(s, id, t) && s.voucher == Some(v) && Due(v, false)
    ensures Reaches(s0, Holding(s, id, Closing(v, t), t), pace)
  {
    Enters(s0, s, id, true, t, pace);
    Reads(s0, Holding(s, id, Settling, t), id, v, pace);
    Overwrites(s, id, Settling, Reading(v), t);
    ReaderCloses(s0, s, id, v, t, pace);
  }

  lemma ReaderCloses(s0: Sys, s: Sys, id: LockId, v: Voucher, t: int, pace: Pace)
    requires Reaches(s0, Holding(s, id, Reading(v), t), pace) && Due(v, false)
    ensures Reaches(s0, Holding(s, id, Closing(v, t), t), pace)
  {
    Proceeds(s0, Holding(s, id, Reading(v), t), id, v, pace);
    Overwrites(s, id, Reading(v), Closing(v, t), t);
  }

  /** It marks the channel closed and submits the close. */
  function Closed(s: Sys, id: LockId, v: Voucher): Sys {
    At(s, id, Submitted(v)).(closed := true, closes := s.closes + {v.signed})
  }

  lemma SettlementSubmits(s0: Sys, s: Sys, id: LockId, v: Voucher, since: int, pace: Pace)
    requires Reaches(s0, s, pace) && id in s.actors && s.actors[id] == Closing(v, since)
    requires s.clock - since <= pace.mark
    ensures Reaches(s0, Closed(s, id, v), pace)
  {
    Marks(s0, s, id, v, since, pace);
    Submits(s0, At(s, id, Marked(v)).(closed := true), id, v, pace);
    assert s.actors[id := Marked(v)][id := Submitted(v)] == s.actors[id := Submitted(v)];
  }
}
