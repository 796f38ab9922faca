/** What holds of every run of a channel, and exactly how punctual its participants
    have to be. */
module ChannelTheorems {
  import opened Wrappers
  import opened StoreChange
  import opened Channel
  import opened ChannelProtocol
  import opened ChannelRuns
  import opened ChannelSafety

  // ---- closes ---------------------------------------------------------------------------

  /** A pace is safe when no run at that pace ever submits a close, or writes off an
      amount, other than the final voucher's. */
  ghost predicate PaceIsSafe(pace: Pace) {
    forall s: Sys, events: seq<Event> :: Init(s) && AllInTime(s, events, pace) ==> Safe(Run(s, events))
  }

  /** The lock's lifetime is exactly the slack there is: both the time from a call's
      revalidation to its voucher being stored, and the time from a settlement's
      revalidation to the channel being marked closed, must stay below it. */
  lemma SafeExactlyWithinLockTime(pace: Pace)
    ensures PaceIsSafe(pace) <==> pace.put < DELIVERY_LOCK_TTL_MS && pace.mark < DELIVERY_LOCK_TTL_MS
  {
    if pace.put < DELIVERY_LOCK_TTL_MS && pace.mark < DELIVERY_LOCK_TTL_MS {
      forall s: Sys, events: seq<Event> | Init(s) && AllInTime(s, events, pace)
        ensures Safe(Run(s, events))
      {
        RunKeepsInv(s, events, pace);
      }
    } else if pace.put >= DELIVERY_LOCK_TTL_MS {
      LatePutIsUnsafe(pace, DELIVERY_LOCK_TTL_MS, SETTLE_THRESHOLD);
    } else {
      LateMarkIsUnsafe(pace, DELIVERY_LOCK_TTL_MS, SETTLE_THRESHOLD);
    }
  }

  /** From the first close on, at a safe pace, the stored voucher is the one collected,
      the channel stays blocked, and every call that asks is turned away. */
  lemma CloseIsFinal(s: Sys, before: seq<Event>, after: seq<Event>, pace: Pace, c: Signed, id: LockId)
    requires Init(s) && AllInTime(s, before, pace) && AllInTime(Run(s, before), after, pace)
    requires pace.put < DELIVERY_LOCK_TTL_MS && pace.mark < DELIVERY_LOCK_TTL_MS
    requires c in Run(s, before).closes
    ensures var later := Run(Run(s, before), after);
            && Run(s, before).voucher.Some? && Run(s, before).voucher.value.signed == c
            && later.voucher.Some? && later.voucher.value.signed == c && Blocked(later)
            && later.closes == {c} && (forall v :: v in later.supplied ==> v.cumulative <= c.cumulative)
            && (id in later.actors && later.actors[id].Entered? ==> Act(later, Check(id)).actors[id] == Leaving)
  {
    RunKeepsInv(s, before, pace);
    RunKeepsInv(Run(s, before), after, pace);
    ClosesOnlyGrow(Run(s, before), after);
    VoucherNeverRewinds(s, before);
    VoucherNeverRewinds(Run(s, before), after);
  }

  lemma {:induction false} ClosesOnlyGrow(s: Sys, events: seq<Event>)
    ensures s.closes <= Run(s, events).closes
    decreases |events|
  {
    if events != [] {
      StepKeepsCloses(s, events[0].action);
      ClosesOnlyGrow(Do(s, events[0]), events[1..]);
    }
  }

  lemma StepKeepsCloses(s: Sys, a: Action)
    ensures s.closes <= Act(s, a).closes
  {
  }

  // ---- the two ways it fails beyond that ----------------------------------------------------

  /** One unit more than v. */
  function Higher(v: Voucher): Charge {
    Charge(Signed(v.signed.cumulative + 1, v.signed.signature + 1), v.signed.cumulative, 1)
  }

  lemma UnsafeReached(s0: Sys, s: Sys, pace: Pace, c: Signed)
    requires Reaches(s0, s, pace) && Init(s0) && c in s.closes && s.voucher.Some? && s.voucher.value.signed != c
    ensures !PaceIsSafe(pace)
  {
  }

  /** A call slow to store its voucher is overtaken by a settlement that closes
      without it. */
  lemma LatePutIsUnsafe(pace: Pace, t: int, amount: nat)
    requires t == DELIVERY_LOCK_TTL_MS <= pace.put && amount == SETTLE_THRESHOLD
    ensures !PaceIsSafe(pace)
  {
    var v := Voucher(Signed(amount, 0), 0);
    var s0 := Idle(Some(v), amount + 1);
    var s1 := Spent(s0, 1, Higher(v), Persisting(Higher(v), 0), 0);
    var s2 := Holding(s1, 2, Closing(v, t), t);
    CallOutlivesLock(pace, t, v);
    SettlementSubmits(s0, s2, 2, v, t, pace);
    Stores(s0, Closed(s2, 2, v), 1, Higher(v), 0, pace);
    UnsafeReached(s0, DoPut(Closed(s2, 2, v), 1, Higher(v).v, Leaving), pace, v.signed);
  }

  lemma CallOutlivesLock(pace: Pace, t: int, v: Voucher)
    requires t == DELIVERY_LOCK_TTL_MS && Due(v, false)
    ensures var s0 := Idle(Some(v), v.signed.cumulative + 1);
            Reaches(s0, Holding(Spent(s0, 1, Higher(v), Persisting(Higher(v), 0), 0), 2, Closing(v, t), t), pace)
  {
    var s0 := Idle(Some(v), v.signed.cumulative + 1);
    StartReached(s0, pace);
    CallIsAboutToStore(s0, s0, 1, Higher(v), 0, pace);
    SettlementIsClosing(s0, Spent(s0, 1, Higher(v), Persisting(Higher(v), 0), 0), 2, v, t, pace);
  }

  /** A settlement slow to mark the channel closed is overtaken by a call that stores
      a higher voucher, and closes without it. */
  lemma LateMarkIsUnsafe(pace: Pace, t: int, amount: nat)
    requires t == DELIVERY_LOCK_TTL_MS <= pace.mark && amount == SETTLE_THRESHOLD
    ensures !PaceIsSafe(pace)
  {
    var v := Voucher(Signed(amount, 0), 0);
    var s0 := Idle(Some(v), amount + 1);
    var s1 := Holding(s0, 2, Closing(v, 0), 0);
    var s2 := Spent(s1, 1, Higher(v), Persisting(Higher(v), t), t);
    var s3 := DoPut(s2, 1, Higher(v).v, Leaving);
    SettlementOutlivesLock(pace, t, v);
    Stores(s0, s2, 1, Higher(v), t, pace);
    SettlementSubmits(s0, s3, 2, v, 0, pace);
    UnsafeReached(s0, Closed(s3, 2, v), pace, v.signed);
  }

  lemma SettlementOutlivesLock(pace: Pace, t: int, v: Voucher)
    requires t == DELIVERY_LOCK_TTL_MS && Due(v, false)
    ensures var s0 := Idle(Some(v), v.signed.cumulative + 1);
            Reaches(s0, Spent(Holding(s0, 2, Closing(v, 0), 0), 1, Higher(v), Persisting(Higher(v), t), t), pace)
  {
    var s0 := Idle(Some(v), v.signed.cumulative + 1);
    StartReached(s0, pace);
    SettlementIsClosing(s0, s0, 2, v, 0, pace);
    CallIsAboutToStore(s0, Holding(s0, 2, Closing(v, 0), 0), 1, Higher(v), t, pace);
  }

  // ---- the lock alone, at any pace -----------------------------------------------------------

  predicate ByOthers(events: seq<Event>, id: LockId, until: int) {
    forall k :: 0 <= k < |events| ==> events[k].action.id != id && events[k].at < until
  }

  /** From a commit that sets expiry e, nobody else's acquire, revalidation or release,
      however old the clock reading it works with, touches the lock before e. */
  lemma {:induction false} WindowIsExclusive(s: Sys, events: seq<Event>, id: LockId, e: int, pace: Pace)
    requires s.lock == Some(Lock(id, Some(e))) && ByOthers(events, id, e) && AllInTime(s, events, pace)
    ensures Run(s, events).lock == s.lock
    decreases |events|
  {
    if events != [] {
      OthersLeaveLock(s, events[0], id, e, pace);
      WindowIsExclusive(Do(s, events[0]), events[1..], id, e, pace);
    }
  }

  lemma OthersLeaveLock(s: Sys, event: Event, id: LockId, e: int, pace: Pace)
    requires s.lock == Some(Lock(id, Some(e))) && event.action.id != id && event.at < e && InTime(s, event, pace)
    ensures Do(s, event).lock == s.lock
  {
  }

  /** A participant that was overtaken never touches its successor's lock again, at
      whatever time: ids are not drawn twice. */
  lemma SupersededLeavesLock(s: Sys, event: Event)
    requires s.lock.Some? && event.action.id in s.actors && event.action.id != s.lock.value.id
    ensures Do(s, event).lock == s.lock
  {
  }

  /** A lock nobody releases is not lost: a participant who asks with a clock at or past
      its expiry gets it, one who asks before does not, and one left from before
      expiries were kept goes to the first who asks. */
  lemma LeakedLockIsTakenOver(s: Sys, id: LockId, now: int, settling: bool)
    requires s.lock.Some? && id !in s.actors && !Holds(s, id)
    ensures Holds(Act(s, Enter(id, now, settling)), id)
            <==> s.lock.value.expiresAt.None? || now >= s.lock.value.expiresAt.value
  {
  }

  /** Once the voucher it read has been recorded as settled, no settlement finds anything
      due, whatever the chain says of the channel, until a higher voucher is stored. */
  lemma SettledIsNotDueAgain(current: Voucher, read: Voucher, closing: bool)
    requires current.signed == read.signed
    ensures var later := Updated(Some(current), SettledChange(Some(current), read.signed.cumulative));
            later.Some? && later.value.signed == current.signed && !Due(later.value, closing)
  {
  }

  // ---- the voucher alone, at any pace ----------------------------------------------------------

  predicate OfClose(a: Actor) {
    a.Reading? || a.Closing? || a.Marked? || a.Submitted? || a.Recorded?
  }

  predicate ReadNoHigher(s: Sys, a: Actor) {
    OfClose(a) ==>
      s.voucher.Some? && a.read.signed.cumulative <= s.voucher.value.signed.cumulative
  }

  /** What is stored covers everything ever supplied, and was supplied itself. */
  predicate StoredOk(s: Sys) {
    && (s.voucher.Some? ==>
          && s.voucher.value.lastSettled <= s.voucher.value.signed.cumulative
          && s.voucher.value.signed in s.supplied)
    && (forall v :: v in s.supplied ==> s.voucher.Some? && v.cumulative <= s.voucher.value.signed.cumulative)
  }

  ghost predicate VoucherOk(s: Sys) {
    && StoredOk(s)
    && (forall id :: id in s.actors ==> ReadNoHigher(s, s.actors[id]))
  }

  predicate NoLower(before: Option<Voucher>, after: Option<Voucher>) {
    before.Some? ==>
      (&& after.Some?
       && before.value.signed.cumulative <= after.value.signed.cumulative
       && before.value.lastSettled <= after.value.lastSettled
       && (after.value.signed.cumulative == before.value.signed.cumulative ==>
             after.value.signed == before.value.signed))
  }

  lemma ReadStaysNoHigher(s: Sys, s': Sys, a: Actor)
    requires ReadNoHigher(s, a) && NoLower(s.voucher, s'.voucher)
    ensures ReadNoHigher(s', a)
  {
  }

  predicate MovesUp(s: Sys, s': Sys, id: LockId) {
    && NoLower(s.voucher, s'.voucher) && StoredOk(s')
    && id in s'.actors && ReadNoHigher(s', s'.actors[id]) && s'.actors == s.actors[id := s'.actors[id]]
  }

  lemma PutNoLower(s: Sys, id: LockId, v: Signed, next: Actor)
    requires StoredOk(s) && id in s.actors && (next.Leaving? || next.Doubtful?)
    ensures MovesUp(s, DoPut(s, id, v, next), id)
  {
  }

  predicate Storing(x: Actor, a: Action) {
    x.Persisting? && (a.Put? || (a.PutLost? && a.landed))
  }

  lemma CallNoLower(s: Sys, x: Actor, a: Action)
    requires ReadNoHigher(s, x) && StoredOk(s) && a.id in s.actors && s.actors[a.id] == x
    ensures MovesUp(s, DoCall(s, x, a), a.id)
  {
    if Storing(x, a) {
      PutNoLower(s, a.id, x.charge.v, if a.Put? then Leaving else Doubtful(x.charge, x.since));
    } else {
      CallLeavesVoucher(s, x, a);
      CallMovesItself(s, x, a);
    }
  }

  lemma CallLeavesVoucher(s: Sys, x: Actor, a: Action)
    requires !Storing(x, a)
    ensures DoCall(s, x, a).voucher == s.voucher && DoCall(s, x, a).supplied == s.supplied
  {
  }

  lemma CallMovesItself(s: Sys, x: Actor, a: Action)
    requires a.id in s.actors && s.actors[a.id] == x
    ensures var now := DoCall(s, x, a).actors;
            a.id in now && now == s.actors[a.id := now[a.id]] && (now[a.id] == x || !OfClose(now[a.id]))
  {
    if DoCall(s, x, a) != s {
      if OfCharge(a) {
        ChargeMovesItself(s, x, a);
      } else {
        ConclusionMovesItself(s, x, a);
      }
    }
  }

  lemma ChargeMovesItself(s: Sys, x: Actor, a: Action)
    requires a.id in s.actors && DoCharge(s, x, a) != s
    ensures var now := DoCharge(s, x, a).actors;
            a.id in now && now == s.actors[a.id := now[a.id]] && !OfClose(now[a.id])
  {
  }

  lemma ConclusionMovesItself(s: Sys, x: Actor, a: Action)
    requires a.id in s.actors && DoConclude(s, x, a) != s
    ensures var now := DoConclude(s, x, a).actors;
            a.id in now && now == s.actors[a.id := now[a.id]] && !OfClose(now[a.id])
  {
  }

  lemma SettlementNoLower(s: Sys, x: Actor, a: Action)
    requires ReadNoHigher(s, x) && StoredOk(s) && a.id in s.actors && s.actors[a.id] == x
    ensures MovesUp(s, DoSettle(s, x, a), a.id)
  {
  }

  lemma StepNoLower(s: Sys, x: Actor, a: Action)
    requires ReadNoHigher(s, x) && StoredOk(s) && a.id in s.actors && s.actors[a.id] == x
    ensures MovesUp(s, DoStep(s, x, a), a.id)
  {
    CallNoLower(s, x, a);
    SettlementNoLower(s, x, a);
  }

  lemma ActNoLower(s: Sys, a: Action)
    requires VoucherOk(s)
    ensures VoucherOk(Act(s, a)) && NoLower(s.voucher, Act(s, a).voucher)
  {
    var s' := Act(s, a);
    if a.id in s.actors && !a.Enter? && !a.Fence? {
      StepNoLower(s, s.actors[a.id], a);
    }
    forall id | id in s'.actors
      ensures ReadNoHigher(s', s'.actors[id])
    {
      if id in s.actors && s'.actors[id] == s.actors[id] {
        ReadStaysNoHigher(s, s', s.actors[id]);
      }
    }
  }

  lemma VoucherStep(s: Sys, e: Event)
    requires VoucherOk(s)
    ensures VoucherOk(Do(s, e)) && NoLower(s.voucher, Do(s, e).voucher)
  {
    ActNoLower(s, e.action);
    var t := Act(s, e.action);
    forall id | id in t.actors
      ensures ReadNoHigher(Do(s, e), t.actors[id])
    {
      assert ReadNoHigher(t, t.actors[id]);
    }
  }

  /** With any delays, crashes and retries: the stored cumulative is the highest ever
      supplied, under a signature supplied with that very cumulative; it and the settled
      watermark never go down, and the watermark is at most the cumulative. */
  lemma {:induction false} VoucherNeverRewinds(s: Sys, events: seq<Event>)
    requires VoucherOk(s)
    ensures VoucherOk(Run(s, events)) && NoLower(s.voucher, Run(s, events).voucher)
    decreases |events|
  {
    if events != [] {
      VoucherStep(s, events[0]);
      VoucherNeverRewinds(Do(s, events[0]), events[1..]);
    }
  }
}
