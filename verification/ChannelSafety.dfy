/** Closes carry the final voucher, provided calls and settlements finish what a
    revalidation protects within the lock's lifetime. */
module ChannelSafety {
  import opened Wrappers
  import opened Channel
  import opened ChannelProtocol

  /** The lock is held by id under the clock reading t. */
  predicate Leased(s: Sys, id: LockId, t: int) {
    s.lock == Some(Lock(id, Some(t + DELIVERY_LOCK_TTL_MS)))
  }

  predicate Over(s: Sys, t: int) { s.clock >= t + DELIVERY_LOCK_TTL_MS }

  predicate Shows(s: Sys, v: Voucher) { s.voucher.Some? && s.voucher.value.signed == v.signed }

  /** Past the gate for blocked channels, and not yet paid for. */
  predicate PastGate(a: Actor) {
    a.Passed? || a.Gated? || a.Charged? || a.Paying? || a.Paid?
  }

  /** What is known of each participant. One about to write under a revalidation holds
      the lock still, unless the lock's lifetime is over; so a settlement that marks the
      channel closed in time finds the voucher it read, no call past the gate, and no
      call in time left to write. */
  predicate ActorOk(s: Sys, id: LockId, a: Actor) {
    match a
    case Persisting(_, t) => Over(s, t) || (Leased(s, id, t) && !s.closed)
    case Reading(v) => Holds(s, id) ==> Shows(s, v)
    case Closing(v, t) => Over(s, t) || (Leased(s, id, t) && Shows(s, v))
    case Marked(v) => s.closed && Shows(s, v)
    case Submitted(v) => s.closed && Shows(s, v)
    case Recorded(v) => s.closed && Shows(s, v)
    case _ => PastGate(a) && s.closed ==> !Holds(s, id)
  }

  ghost predicate Inv(s: Sys) {
    && (forall id :: id in s.actors ==> ActorOk(s, id, s.actors[id]))
    && Safe(s)
  }

  /** All a closing depends on. */
  predicate SameButCounts(s: Sys, s': Sys) {
    && s'.lock == s.lock && s'.voucher == s.voucher && s'.closed == s.closed
    && s'.closes == s.closes && s'.supplied == s.supplied
  }

  /** An action that only lets time pass. */
  lemma WaitKeepsInv(s: Sys, s': Sys)
    requires Inv(s) && s' == s.(clock := s'.clock, fenced := s'.fenced) && s.clock <= s'.clock
    ensures Inv(s')
  {
  }

  // ---- each action --------------------------------------------------------------------

  lemma EnterKeepsInv(s: Sys, id: LockId, now: int, settling: bool, at: int)
    requires Inv(s) && s.clock <= at && now <= at
    ensures Inv(DoEnter(s, id, now, settling).(clock := at))
  {
  }

  lemma RevalidateKeepsInv(s: Sys, id: LockId, now: int, next: Actor, otherwise: Actor, at: int)
    requires Inv(s) && id in s.actors && s.clock <= at
    requires Holds(s, id) ==> ActorOk(DoRevalidate(s, id, now, next, otherwise).(clock := at), id, next)
    requires !Holds(s, id) ==> ActorOk(DoRevalidate(s, id, now, next, otherwise).(clock := at), id, otherwise)
    ensures Inv(DoRevalidate(s, id, now, next, otherwise).(clock := at))
  {
  }

  lemma PutKeepsInv(s: Sys, id: LockId, next: Actor, at: int)
    requires Inv(s) && id in s.actors && s.actors[id].Persisting? && s.clock <= at
    requires at < s.actors[id].since + DELIVERY_LOCK_TTL_MS && (next.Leaving? || next.Doubtful?)
    ensures Inv(DoPut(s, id, s.actors[id].charge.v, next).(clock := at))
  {
  }

  lemma MarkClosedKeepsInv(s: Sys, id: LockId, at: int)
    requires Inv(s) && id in s.actors && s.actors[id].Closing? && s.clock <= at
    requires at < s.actors[id].since + DELIVERY_LOCK_TTL_MS
    ensures Inv(At(s, id, Marked(s.actors[id].read)).(closed := true, clock := at))
  {
  }

  lemma MarkSettledKeepsInv(s: Sys, id: LockId, v: Voucher, at: int)
    requires Inv(s) && id in s.actors && s.clock <= at
    ensures Inv(DoMarkSettled(s, id, v).(clock := at))
  {
  }

  lemma ReleaseKeepsInv(s: Sys, id: LockId, at: int)
    requires Inv(s) && id in s.actors && s.clock <= at
    ensures Inv(DoRelease(s, id).(clock := at))
  {
  }

  lemma SubmitKeepsInv(s: Sys, id: LockId, at: int)
    requires Inv(s) && id in s.actors && s.actors[id].Marked? && s.clock <= at
    ensures Inv(At(s, id, Submitted(s.actors[id].read)).(closes := s.closes + {s.actors[id].read.signed}, clock := at))
  {
  }

  /** A participant that moves on by itself. */
  lemma AdvanceKeepsInv(s: Sys, s': Sys, id: LockId, a: Actor)
    requires Inv(s) && s.clock <= s'.clock && ActorOk(s', id, a)
    requires SameButCounts(s, s') && s'.actors == s.actors[id := a]
    requires s'.writtenOff == s.writtenOff || (a.Recorded? && s'.writtenOff == Some(a.read.signed.cumulative))
    ensures Inv(s')
  {
  }

  lemma CallKeepsInv(s: Sys, e: Event, pace: Pace)
    requires Inv(s) && InTime(s, e, pace) && pace.put < DELIVERY_LOCK_TTL_MS
    requires e.action.id in s.actors && !OfSettlement(e.action)
    ensures Inv(DoCall(s, s.actors[e.action.id], e.action).(clock := e.at))
  {
    var x, at, a := s.actors[e.action.id], e.at, e.action;
    assert ActorOk(s, a.id, x);
    WaitKeepsInv(s, s.(clock := at));
    if a.Refresh? {
      if x.Charged? { RevalidateKeepsInv(s, a.id, a.now, Paying(x.charge, a.now), Reversing(x.charge, a.now), at); }
    } else if a.Persist? {
      if x.Paid? { RevalidateKeepsInv(s, a.id, a.now, Persisting(x.charge, a.now), Doubtful(x.charge, a.now), at); }
    } else if x.Persisting? && (a.Put? || (a.PutLost? && a.landed)) {
      PutKeepsInv(s, a.id, if a.Put? then Leaving else Doubtful(x.charge, x.since), at);
    } else {
      CallAdvances(s, x, a, at);
      AdvanceKeepsInv(s, DoCall(s, x, a).(clock := at), a.id, DoCall(s, x, a).actors[a.id]);
    }
  }

  /** Whatever else a call does leaves the lock and the voucher alone. */
  predicate Advances(s: Sys, s': Sys, id: LockId) {
    && SameButCounts(s, s') && s'.writtenOff == s.writtenOff
    && id in s'.actors && s'.actors == s.actors[id := s'.actors[id]] && ActorOk(s', id, s'.actors[id])
  }

  lemma CallAdvances(s: Sys, x: Actor, a: Action, at: int)
    requires a.id in s.actors && s.actors[a.id] == x && ActorOk(s, a.id, x) && s.clock <= at
    requires !a.Refresh? && !a.Persist? && !(x.Persisting? && (a.Put? || (a.PutLost? && a.landed)))
    ensures Advances(s, DoCall(s, x, a).(clock := at), a.id)
  {
    if a.Check? || a.Gate? || a.Pay? {
      GateAdvances(s, x, a, at);
    } else if a.Accept? {
      AcceptAdvances(s, x, a, at);
    } else if a.Undo? {
      UndoAdvances(s, x, a, at);
    } else {
      ConclusionAdvances(s, x, a, at);
    }
  }

  lemma GateAdvances(s: Sys, x: Actor, a: Action, at: int)
    requires a.id in s.actors && s.actors[a.id] == x && ActorOk(s, a.id, x) && s.clock <= at
    requires a.Check? || a.Gate? || a.Pay?
    ensures Advances(s, DoCharge(s, x, a).(clock := at), a.id)
  {
  }

  lemma AcceptAdvances(s: Sys, x: Actor, a: Action, at: int)
    requires a.id in s.actors && s.actors[a.id] == x && ActorOk(s, a.id, x) && s.clock <= at
    requires a.Accept?
    ensures Advances(s, DoCharge(s, x, a).(clock := at), a.id)
  {
  }

  lemma UndoAdvances(s: Sys, x: Actor, a: Action, at: int)
    requires a.id in s.actors && s.actors[a.id] == x && ActorOk(s, a.id, x) && s.clock <= at
    requires a.Undo?
    ensures Advances(s, DoConclude(s, x, a).(clock := at), a.id)
  {
  }

  lemma ConclusionAdvances(s: Sys, x: Actor, a: Action, at: int)
    requires a.id in s.actors && s.actors[a.id] == x && ActorOk(s, a.id, x) && s.clock <= at
    requires !OfCharge(a) && !a.Undo? && !a.Persist? && !(x.Persisting? && (a.Put? || (a.PutLost? && a.landed)))
    ensures Advances(s, DoConclude(s, x, a).(clock := at), a.id)
  {
  }

  lemma SettlementKeepsInv(s: Sys, e: Event, pace: Pace)
    requires Inv(s) && InTime(s, e, pace) && pace.mark < DELIVERY_LOCK_TTL_MS
    requires e.action.id in s.actors && OfSettlement(e.action)
    ensures Inv(DoSettle(s, s.actors[e.action.id], e.action).(clock := e.at))
  {
    var x, at, a := s.actors[e.action.id], e.at, e.action;
    assert ActorOk(s, a.id, x);
    WaitKeepsInv(s, s.(clock := at));
    if a.Proceed? && x.Reading? && Due(x.read, a.closing) {
      RevalidateKeepsInv(s, a.id, a.now, Closing(x.read, a.now), Leaving, at);
    } else if a.MarkClosed? {
      if x.Closing? { MarkClosedKeepsInv(s, a.id, at); }
    } else if a.Submit? {
      if x.Marked? { SubmitKeepsInv(s, a.id, at); }
    } else if a.MarkSettled? {
      if x.Recorded? { MarkSettledKeepsInv(s, a.id, x.read, at); }
    } else if a.Read? || a.Proceed? {
      ReaderAdvances(s, x, a, at);
      AdvanceKeepsInv(s, DoSettle(s, x, a).(clock := at), a.id, DoSettle(s, x, a).actors[a.id]);
    } else {
      OutcomeAdvances(s, x, a, at);
      AdvanceKeepsInv(s, DoSettle(s, x, a).(clock := at), a.id, DoSettle(s, x, a).actors[a.id]);
    }
  }

  lemma ReaderAdvances(s: Sys, x: Actor, a: Action, at: int)
    requires a.id in s.actors && s.actors[a.id] == x && ActorOk(s, a.id, x) && s.clock <= at
    requires a.Read? || (a.Proceed? && !(x.Reading? && Due(x.read, a.closing)))
    ensures Advances(s, DoSettle(s, x, a).(clock := at), a.id)
  {
  }

  lemma OutcomeAdvances(s: Sys, x: Actor, a: Action, at: int)
    requires a.id in s.actors && s.actors[a.id] == x && ActorOk(s, a.id, x) && s.clock <= at && Safe(s)
    requires a.WriteOff? || a.Collected?
    ensures var s' := DoSettle(s, x, a).(clock := at);
            && SameButCounts(s, s') && a.id in s'.actors && s'.actors == s.actors[a.id := s'.actors[a.id]]
            && ActorOk(s', a.id, s'.actors[a.id])
            && (s'.writtenOff == s.writtenOff
                || (s'.actors[a.id].Recorded? && s'.writtenOff == Some(s'.actors[a.id].read.signed.cumulative)))
  {
  }

  lemma DoKeepsInv(s: Sys, e: Event, pace: Pace)
    requires Inv(s) && InTime(s, e, pace) && pace.put < DELIVERY_LOCK_TTL_MS && pace.mark < DELIVERY_LOCK_TTL_MS
    ensures Inv(Do(s, e))
  {
    var a := e.action;
    if a.Enter? {
      EnterKeepsInv(s, a.id, a.now, a.settling, e.at);
    } else if a.Fence? || a.id !in s.actors || (a.Release? && s.actors[a.id].Gone?) {
      WaitKeepsInv(s, Do(s, e));
    } else if a.Release? {
      ReleaseKeepsInv(s, a.id, e.at);
    } else if OfSettlement(a) {
      SettlementKeepsInv(s, e, pace);
    } else {
      CallKeepsInv(s, e, pace);
    }
  }

  lemma {:induction false} RunKeepsInv(s: Sys, events: seq<Event>, pace: Pace)
    requires Inv(s) && AllInTime(s, events, pace) && pace.put < DELIVERY_LOCK_TTL_MS && pace.mark < DELIVERY_LOCK_TTL_MS
    ensures Inv(Run(s, events))
    decreases |events|
  {
    if events != [] {
      DoKeepsInv(s, events[0], pace);
      RunKeepsInv(Do(s, events[0]), events[1..], pace);
    }
  }
}
