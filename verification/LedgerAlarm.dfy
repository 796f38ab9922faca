/** The reaper's alarm on a clock: no hold outlives its lease by more than one
    interval and the alarm's own lateness, unless a reserve dies at the wrong point. */
module LedgerAlarm {
  import opened Ledger
  import opened LedgerConservation

  /** One request or firing. A reserve that is not finished dies between taking its
      hold and arming the alarm. */
  datatype Event = Event(at: int, op: Op, finished: bool)

  predicate StartsHold(op: Op, r: Reply) {
    op.DoReserve? && r.OnReserve? && r.reserveReply.Reserved?
  }

  ghost function Step(s: State, e: Event): State {
    var (s', r) := Do(s, e.op);
    if e.finished && StartsHold(e.op, r) then Do(s', DoArm(e.op.callId)).0 else s'
  }

  /** The reserve dies there while no alarm is armed. */
  ghost predicate Lost(s: State, e: Event) {
    !e.finished && s.alarm.None? && StartsHold(e.op, Do(s, e.op).1)
  }

  /** One clock for the route and the object: a request carries the time it is made.
      Arming is part of the reserve, not an event of its own. */
  predicate Stamped(e: Event) {
    match e.op
    case DoReserve(_, _, _, now) => now == e.at
    case DoAlarm(now) => now == e.at
    case DoReapPart(_, now) => now == e.at
    case DoArm(_) => false
    case _ => true
  }

  /** The alarm fires no earlier than armed, and nothing else happens once it is more
      than `lateness` overdue. A firing cut short leaves it armed. */
  predicate Punctual(s: State, e: Event, lateness: nat) {
    && (e.op.DoAlarm? || e.op.DoReapPart? ==> s.alarm.Some? && s.alarm.value <= e.at)
    && NotOverdue(s, e.at, lateness)
  }

  predicate NotOverdue(s: State, moment: int, lateness: nat) {
    s.alarm.Some? ==> moment <= s.alarm.value + lateness
  }

  ghost predicate OnTime(s: State, clock: int, events: seq<Event>, lateness: nat)
    decreases |events|
  {
    events == [] ||
    (&& clock <= events[0].at && Stamped(events[0]) && Punctual(s, events[0], lateness)
     && OnTime(Step(s, events[0]), events[0].at, events[1..], lateness))
  }

  ghost predicate NoneLost(s: State, events: seq<Event>)
    decreases |events|
  {
    events == [] || (!Lost(s, events[0]) && NoneLost(Step(s, events[0]), events[1..]))
  }

  ghost function After(s: State, events: seq<Event>): State
    decreases |events|
  {
    if events == [] then s else After(Step(s, events[0]), events[1..])
  }

  function LastClock(clock: int, events: seq<Event>): int {
    if events == [] then clock else events[|events| - 1].at
  }

  /** While a call is held the alarm is armed, at most one interval ahead and before
      the call's lease has been over for an interval. */
  predicate Armed(s: State, clock: int) {
    && (s.alarm.Some? ==> s.alarm.value <= clock + REAPER_INTERVAL_MS)
    && forall c :: c in s.calls && s.calls[c].status == Held ==>
         && s.alarm.Some? && s.calls[c].at <= clock
         && s.alarm.value < s.calls[c].at + RESERVED_LEASE_MS + REAPER_INTERVAL_MS
  }

  /** No call has been held for its lease, an interval and the lateness. */
  predicate NoneHeldLong(s: State, moment: int, lateness: nat) {
    forall c :: c in s.calls && s.calls[c].status == Held ==>
      moment < s.calls[c].at + RESERVED_LEASE_MS + REAPER_INTERVAL_MS + lateness
  }

  // ---- one event ---------------------------------------------------------------------

  lemma ArmedLater(s: State, clock: int, later: int)
    requires Armed(s, clock) && clock <= later
    ensures Armed(s, later)
  {
  }

  predicate HeldBefore(before: map<string, Call>, after: map<string, Call>) {
    forall c :: c in after && after[c].status == Held ==>
      c in before && before[c].status == Held && before[c].at == after[c].at
  }

  /** What starts no hold and leaves the alarm alone keeps every hold covered. */
  lemma FewerHoldsKeepArmed(s: State, s': State, clock: int)
    requires Armed(s, clock) && HeldBefore(s.calls, s'.calls) && s'.alarm == s.alarm
    ensures Armed(s', clock)
  {
  }

  lemma DispatchKeepsHolds(s: State, id: string)
    ensures HeldBefore(s.calls, Dispatch(s, id).0.calls) && Dispatch(s, id).0.alarm == s.alarm
  {
    if id in s.calls && s.calls[id].status == Held && !s.calls[id].dispatched {
      assert Dispatch(s, id).0.calls == s.calls[id := s.calls[id].(dispatched := true)];
    } else {
      assert Dispatch(s, id).0 == s;
    }
  }

  lemma SettleKeepsHolds(s: State, id: string, action: SettleAction)
    ensures HeldBefore(s.calls, Settle(s, id, action).0.calls) && Settle(s, id, action).0.alarm == s.alarm
  {
  }

  lemma ReapingKeepsHolds(s: State, seen: set<string>, now: int)
    ensures HeldBefore(s.calls, ReapedSoFar(s, seen, now).calls) && ReapedSoFar(s, seen, now).alarm == s.alarm
  {
  }

  lemma AlarmKeepsArmed(s: State, now: int)
    requires Armed(s, now)
    ensures Armed(Alarm(s, now), now)
  {
  }

  lemma OthersKeepArmed(s: State, op: Op, clock: int)
    requires Armed(s, clock) && !op.DoReserve? && !op.DoArm? && !op.DoAlarm?
    ensures Armed(Do(s, op).0, clock)
  {
    var s' := Do(s, op).0;
    match op
    case DoCreate(q, caps) => assert CreateIntent(s, q, caps).0.calls == s.calls;
    case DoOpen(q, caps) => OpenTouchesNoCall(s, q, caps);
    case DoDispatch(id) => DispatchKeepsHolds(s, id); FewerHoldsKeepArmed(s, s', clock);
    case DoSettle(id, action) => SettleKeepsHolds(s, id, action); FewerHoldsKeepArmed(s, s', clock);
    case DoReapPart(seen, now) => ReapingKeepsHolds(s, seen * s.calls.Keys, now); FewerHoldsKeepArmed(s, s', clock);
  }

  /** A state with one hold more. */
  predicate HoldAdded(s: State, s': State, callId: string, now: int) {
    && callId in s'.calls && s'.calls == s.calls[callId := s'.calls[callId]] && s'.alarm == s.alarm
    && s'.calls[callId].status == Held && s'.calls[callId].at == now
  }

  lemma ReserveAddsHold(s: State, callId: string, account: string, maxPrice: int, now: int)
    ensures var (s', r) := Reserve(s, callId, account, maxPrice, now);
            if r.Reserved? then HoldAdded(s, s', callId, now) else s' == s
  {
  }

  lemma HoldNeedsArming(s: State, s': State, callId: string, now: int)
    requires Armed(s, now) && HoldAdded(s, s', callId, now)
    ensures Armed(ArmReaper(s', now), now)
    ensures Armed(s', now) <==> s.alarm.Some?
  {
  }

  lemma StepOfReserve(s: State, e: Event)
    requires e.op.DoReserve? && e.op.now == e.at
    ensures var (s', r) := Reserve(s, e.op.callId, e.op.account, e.op.maxPrice, e.at);
            && Step(s, e) == (if e.finished && r.Reserved? then ArmReaper(s', e.at) else s')
            && (Lost(s, e) <==> !e.finished && s.alarm.None? && r.Reserved?)
  {
    ReserveAddsHold(s, e.op.callId, e.op.account, e.op.maxPrice, e.at);
  }

  lemma ReserveArmsUnlessLost(s: State, e: Event)
    requires Armed(s, e.at) && e.op.DoReserve? && e.op.now == e.at
    ensures Armed(Step(s, e), e.at) <==> !Lost(s, e)
  {
    var (s', r) := Reserve(s, e.op.callId, e.op.account, e.op.maxPrice, e.at);
    StepOfReserve(s, e);
    ReserveAddsHold(s, e.op.callId, e.op.account, e.op.maxPrice, e.at);
    if r.Reserved? {
      HoldNeedsArming(s, s', e.op.callId, e.at);
    }
  }

  /** One event leaves every hold covered exactly when it is not a reserve that dies
      after taking its hold while no alarm is armed. */
  lemma StepArmsExactlyUnlessLost(s: State, clock: int, e: Event)
    requires Armed(s, clock) && clock <= e.at && Stamped(e)
    ensures Armed(Step(s, e), e.at) <==> !Lost(s, e)
  {
    ArmedLater(s, clock, e.at);
    match e.op
    case DoReserve(_, _, _, _) => ReserveArmsUnlessLost(s, e);
    case DoAlarm(now) => AlarmKeepsArmed(s, now);
    case _ => OthersKeepArmed(s, e.op, e.at);
  }

  // ---- main results ----------------------------------------------------------------------

  /** With alarms at most `lateness` late, at every moment of every run in which no
      arming is lost no call has been held for as long as its lease, one interval and
      that lateness; and as long as one is held, the alarm is armed at most an interval
      ahead. */
  lemma {:induction false} HoldsEnd(s: State, clock: int, events: seq<Event>, lateness: nat, moment: int)
    requires Armed(s, clock) && OnTime(s, clock, events, lateness) && NoneLost(s, events)
    requires LastClock(clock, events) <= moment && NotOverdue(After(s, events), moment, lateness)
    ensures Armed(After(s, events), moment) && NoneHeldLong(After(s, events), moment, lateness)
    decreases |events|
  {
    if events == [] {
      ArmedLater(s, clock, moment);
    } else {
      StepArmsExactlyUnlessLost(s, clock, events[0]);
      HoldsEnd(Step(s, events[0]), events[0].at, events[1..], lateness, moment);
    }
  }

  /** Whatever happens from s on, short of another lost arming, holds end in time. */
  ghost predicate HoldsEndFrom(s: State, clock: int, lateness: nat) {
    forall events: seq<Event>, moment: int ::
      OnTime(s, clock, events, lateness) && NoneLost(s, events)
      && LastClock(clock, events) <= moment && NotOverdue(After(s, events), moment, lateness)
      ==> NoneHeldLong(After(s, events), moment, lateness)
  }

  /** The guarantee survives an event exactly when the event loses no arming. */
  lemma HoldsEndExactlyUnlessLost(s: State, clock: int, e: Event, lateness: nat)
    requires Armed(s, clock) && clock <= e.at && Stamped(e)
    ensures HoldsEndFrom(Step(s, e), e.at, lateness) <==> !Lost(s, e)
  {
    StepArmsExactlyUnlessLost(s, clock, e);
    if Lost(s, e) {
      LostHoldLasts(s, e, [], e.at + RESERVED_LEASE_MS + REAPER_INTERVAL_MS + lateness, lateness);
    } else {
      forall events: seq<Event>, moment: int
        | OnTime(Step(s, e), e.at, events, lateness) && NoneLost(Step(s, e), events)
          && LastClock(e.at, events) <= moment && NotOverdue(After(Step(s, e), events), moment, lateness)
        ensures NoneHeldLong(After(Step(s, e), events), moment, lateness)
      {
        HoldsEnd(Step(s, e), e.at, events, lateness, moment);
      }
    }
  }

  predicate RetriesOf(events: seq<Event>, callId: string, clock: int)
    decreases |events|
  {
    events == [] ||
    (&& events[0].op.DoReserve? && events[0].op.callId == callId && Stamped(events[0]) && clock <= events[0].at
     && RetriesOf(events[1..], callId, events[0].at))
  }

  /** The run that fails: after a lost arming the hold is still there at any later
      moment, with every alarm on time, and however often the call is tried again:
      each retry is answered as a duplicate, and arms nothing. */
  lemma LostHoldLasts(s: State, e: Event, retries: seq<Event>, moment: int, lateness: nat)
    requires Lost(s, e) && Stamped(e) && RetriesOf(retries, e.op.callId, e.at) && LastClock(e.at, retries) <= moment
    ensures OnTime(Step(s, e), e.at, retries, lateness) && NoneLost(Step(s, e), retries)
    ensures var later := After(Step(s, e), retries);
            && later == Step(s, e) && NotOverdue(later, moment, lateness)
            && later.calls[e.op.callId].status == Held && later.calls[e.op.callId].at == e.at
            && later.calls[e.op.callId].maxPrice == e.op.maxPrice
    ensures moment >= e.at + RESERVED_LEASE_MS + REAPER_INTERVAL_MS + lateness ==>
              !NoneHeldLong(After(Step(s, e), retries), moment, lateness)
  {
    RetriesArmNothing(Step(s, e), e.op.callId, e.at, retries, lateness);
  }

  lemma {:induction false} RetriesArmNothing(s: State, callId: string, clock: int, retries: seq<Event>, lateness: nat)
    requires callId in s.calls && s.alarm.None? && RetriesOf(retries, callId, clock)
    ensures OnTime(s, clock, retries, lateness) && NoneLost(s, retries) && After(s, retries) == s
    decreases |retries|
  {
    if retries != [] {
      var e := retries[0];
      assert Step(s, e) == s;
      RetriesArmNothing(s, callId, e.at, retries[1..], lateness);
    }
  }

  /** A firing releases every hold it finds past its lease, at no charge, and flags the
      one that had been dispatched. */
  lemma LapsedHoldIsReleased(s: State, id: string, now: int)
    requires id in s.calls && s.calls[id].status == Held && now >= s.calls[id].at + RESERVED_LEASE_MS
    ensures var c := Alarm(s, now).calls[id];
            && c.status == Released && c.charged == 0 && c.reaped && c.possiblyPaid == s.calls[id].dispatched
    ensures Alarm(s, now).committed == s.committed && Alarm(s, now).outstanding == s.outstanding
  {
  }

  lemma EmptyLedgerIsArmed(s: State, clock: int)
    requires Empty(s)
    ensures Armed(s, clock)
  {
  }

  // ---- the failing run is a real one --------------------------------------------------------

  /** An account buys credit and reserves all of it, and the reserve dies. */
  function DyingReserve(q: IntentRequest, open: OpenRequest, caps: Caps, callId: string, now: int): seq<Event> {
    [Event(q.now, DoCreate(q, caps), true), Event(open.now, DoOpen(open, caps), true),
     Event(now, DoReserve(callId, q.account, q.amount, now), false)]
  }

  lemma LostArmingIsReached(start: State, q: IntentRequest, open: OpenRequest, caps: Caps, callId: string, now: int)
    requires Empty(start) && q.amount > 0 && open.id == q.id && open.confirmedAt <= q.expiresAt
    requires caps.intentsPerHour > 0 && caps.maxOpenIntents > 0
    requires q.amount <= caps.perAccountDay && q.amount <= caps.global
    ensures var events := DyingReserve(q, open, caps, callId, now);
            && Lost(After(start, events[..2]), events[2])
            && Step(After(start, events[..2]), events[2]).calls[callId].maxPrice == q.amount
  {
    var events := DyingReserve(q, open, caps, callId, now);
    var (s1, r1) := CreateIntent(start, q, caps);
    assert r1.Created? && s1.intents == map[q.id := r1.intent] && s1.alarm.None? && s1.calls == map[];
    assert Step(start, events[0]) == s1;
    FundedByOpen(s1, open, caps, q);
    var s2 := OpenIntent(s1, open, caps).0;
    assert Step(s1, events[1]) == s2;
    assert events[..2][1..] == [events[1]] && [events[1]][1..] == [];
    assert After(s1, [events[1]]) == s2;
  }

  lemma FundedByOpen(s: State, open: OpenRequest, caps: Caps, q: IntentRequest)
    requires q.id in s.intents && open.id == q.id && s.intents[q.id].status == Open
    requires s.intents[q.id].account == q.account && s.intents[q.id].amount == q.amount
    requires s.consumed == map[] && s.balances == map[] && s.deposits == map[] && s.outstanding == 0
    requires open.confirmedAt <= s.intents[q.id].expiresAt && q.amount <= caps.perAccountDay && q.amount <= caps.global
    ensures var s' := OpenIntent(s, open, caps).0;
            Get(s'.balances, q.account) == q.amount && s'.calls == s.calls && s'.alarm == s.alarm
  {
    assert OpenIntent(s, open, caps) == Credit(s, open, s.intents[q.id]);
  }
}
