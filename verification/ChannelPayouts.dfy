/** What the router pays upstream on the strength of a channel: the invariant that keeps
    it within the deposit, and within one call more. */
module ChannelPayouts {
  import opened Sums
  import opened Channel
  import opened ChannelProtocol
  import opened ChannelSafety
  import opened ChannelCapacity

  // ---- who still counts ---------------------------------------------------------------

  /** No call is both accepted and revalidated after its lock's lifetime. */
  predicate Orderly(pace: Pace) {
    pace.accept < DELIVERY_LOCK_TTL_MS || pace.refresh < DELIVERY_LOCK_TTL_MS
  }

  /** A paid call stores its voucher, or fences the channel, while the lock is its own. */
  predicate Prompt(pace: Pace) {
    pace.persist < DELIVERY_LOCK_TTL_MS && pace.fence < DELIVERY_LOCK_TTL_MS
  }

  /** Its voucher accepted, it may yet be revalidated. */
  predicate GoesOn(s: Sys, a: Actor, pace: Pace) {
    a.Charged? && (pace.refresh < DELIVERY_LOCK_TTL_MS ==> !Over(s, a.since))
  }

  /** Upstream was paid for it, or may yet be. */
  predicate Committed(s: Sys, id: LockId, pace: Pace) {
    id in s.charged && (id in s.paid || (id in s.actors && (GoesOn(s, s.actors[id], pace) || s.actors[id].Paying?)))
  }

  /** It may yet be reversed. */
  predicate Unsettled(s: Sys, id: LockId, pace: Pace) {
    id in s.charged && id in s.actors
    && (GoesOn(s, s.actors[id], pace) || s.actors[id].Paying? || s.actors[id].Reversing?)
  }

  predicate Tracked(s: Sys, id: LockId, pace: Pace) { Committed(s, id, pace) || Unsettled(s, id, pace) }

  function Cum(s: Sys, id: LockId): nat
    requires id in s.charged
  {
    s.charged[id].v.cumulative
  }

  function Commitments(s: Sys, pace: Pace): map<LockId, int> {
    map id | id in s.charged && Committed(s, id, pace) :: s.charged[id].price
  }

  /** Those whose vouchers lie below an amount. */
  function Under(s: Sys, amount: nat, pace: Pace): map<LockId, int> {
    map id | id in s.charged && Committed(s, id, pace) && Cum(s, id) < amount :: s.charged[id].price
  }

  ghost function Sum(s: Sys, pace: Pace): int { SumMap(Commitments(s, pace)) }

  // ---- the invariant ------------------------------------------------------------------

  /** It holds the lock since a reading, unless the lock's lifetime is over. */
  predicate KeepsLock(a: Actor, pace: Pace) {
    || a.Entered? || a.Passed? || a.Gated? || a.Charged? || a.Paying? || a.Paid? || a.Persisting?
    || (pace.persist < DELIVERY_LOCK_TTL_MS && (a.Doubtful? || a.Absorbing?))
  }

  predicate HoldsLive(s: Sys, a: Actor, pace: Pace) { KeepsLock(a, pace) && !Over(s, a.since) }

  predicate Unaccepted(a: Actor) { a.Entered? || a.Passed? || a.Gated? }

  predicate ActorRecorded(s: Sys, id: LockId, a: Actor) {
    && (Unaccepted(a) ==> id !in s.charged)
    && (Bears(a) ==> id in s.charged && s.charged[id] == a.charge)
    && (a.Charged? || a.Paying? || a.Reversing? ==> id !in s.paid)
    && (a.Gated? ==> a.previous + a.price <= s.deposit && a.price > 0)
    && (a.Absorbed? ==> Blocked(s))
  }

  ghost predicate RecordsOk(s: Sys) {
    && (forall id :: id in s.actors ==> ActorRecorded(s, id, s.actors[id]))
    && (forall id :: id in s.charged ==> id in s.actors)
    && (forall id :: id in s.paid ==> id in s.charged)
    && (s.freed != {} ==> Blocked(s))
  }

  ghost predicate Leases(s: Sys, pace: Pace) {
    forall id :: id in s.actors && HoldsLive(s, s.actors[id], pace) ==> Leased(s, id, s.actors[id].since)
  }

  /** While nothing was given back, the watermark covers every charge that counts, and one
      that may be reversed was accepted on top of all that lie below it. */
  ghost predicate Stacked(s: Sys, start: nat, pace: Pace) {
    && start + Sum(s, pace) <= Mark(s)
    && (forall id :: Tracked(s, id, pace) ==> Cum(s, id) <= Mark(s))
    && (forall x, b :: Unsettled(s, x, pace) && Tracked(s, b, pace) && b != x ==>
          Cum(s, b) != Cum(s, x) && (Cum(s, b) < Cum(s, x) ==> Cum(s, b) <= s.charged[x].previous))
    && (forall x :: Unsettled(s, x, pace) ==> start + SumMap(Under(s, Cum(s, x), pace)) <= s.charged[x].previous)
  }

  predicate Waits(s: Sys, a: Actor) { (a.Passed? || a.Gated?) && !Over(s, a.since) }

  /** A call past the capacity gate saw a watermark that covered all of them. */
  ghost predicate GatedOk(s: Sys, start: nat, a: Actor, pace: Pace) {
    a.Gated? && !Over(s, a.since) ==>
      && start + Sum(s, pace) <= a.previous
      && (forall id :: Tracked(s, id, pace) ==> Cum(s, id) <= a.previous)
  }

  /** All but one call's price is within the deposit. */
  ghost predicate AllButOneFits(s: Sys, start: nat, pace: Pace) {
    || start + Sum(s, pace) <= s.deposit
    || exists id :: Committed(s, id, pace) && start + Sum(s, pace) - s.charged[id].price <= s.deposit
  }

  /** What remains within the deposit: everything until something is given back, and for
      prompt calls ever after; else everything while a call still waits. */
  ghost predicate Covered(s: Sys, start: nat, pace: Pace) {
    && AllButOneFits(s, start, pace)
    && (s.freed == {} || Prompt(pace) ==> start + Sum(s, pace) <= s.deposit)
    && (forall id :: id in s.actors && Waits(s, s.actors[id]) ==> start + Sum(s, pace) <= s.deposit)
  }

  /** Prompt calls fence the channel while nobody waits. */
  ghost predicate NobodyWaits(s: Sys) { forall id :: id in s.actors ==> !Waits(s, s.actors[id]) }

  ghost predicate Sealed(s: Sys) {
    (s.freed != {} || exists id :: id in s.actors && s.actors[id].Absorbed?) ==> NobodyWaits(s)
  }

  ghost predicate CoreInv(s: Sys, start: nat, pace: Pace) {
    && RecordsOk(s) && Leases(s, pace) && Covered(s, start, pace)
    && (s.freed == {} ==> Stacked(s, start, pace)
                          && forall id :: id in s.actors ==> GatedOk(s, start, s.actors[id], pace))
  }

  ghost predicate PayInv(s: Sys, start: nat, pace: Pace) {
    CoreInv(s, start, pace) && (Prompt(pace) ==> Sealed(s))
  }

  // ---- when no more calls count ---------------------------------------------------------

  predicate Keeps(s: Sys, s': Sys) {
    && s.clock <= s'.clock && (Blocked(s) ==> Blocked(s')) && s'.deposit == s.deposit
    && (s'.freed == {} ==> s.freed == {})
  }

  ghost predicate NoMoreCount(s: Sys, s': Sys, pace: Pace) {
    && (forall id :: Committed(s', id, pace) ==> Committed(s, id, pace) && s'.charged[id] == s.charged[id])
    && (forall id :: Unsettled(s', id, pace) ==> Unsettled(s, id, pace) && s'.charged[id] == s.charged[id])
  }

  lemma SumsShrink(s: Sys, s': Sys, amount: nat, pace: Pace)
    requires NoMoreCount(s, s', pace)
    ensures Sum(s', pace) <= Sum(s, pace) && SumMap(Under(s', amount, pace)) <= SumMap(Under(s, amount, pace))
  {
    SumPart(Commitments(s', pace), Commitments(s, pace));
    SumPart(Under(s', amount, pace), Under(s, amount, pace));
  }

  lemma StackShrinks(s: Sys, start: nat, s': Sys, pace: Pace)
    requires Stacked(s, start, pace) && Mark(s') >= Mark(s) && NoMoreCount(s, s', pace)
    ensures Stacked(s', start, pace)
  {
    SumsShrink(s, s', 0, pace);
    forall x | Unsettled(s', x, pace)
      ensures start + SumMap(Under(s', Cum(s', x), pace)) <= s'.charged[x].previous
    {
      SumsShrink(s, s', Cum(s, x), pace);
    }
  }

  /** Nobody comes to wait, unless let through an open gate. */
  predicate WaitsAsBefore(s: Sys, s': Sys) {
    forall id :: id in s'.actors && Waits(s', s'.actors[id]) ==>
      (id in s.actors && Waits(s, s.actors[id])) || !Blocked(s)
  }

  lemma CoverShrinks(s: Sys, start: nat, s': Sys, pace: Pace)
    requires Covered(s, start, pace) && Keeps(s, s') && NoMoreCount(s, s', pace) && WaitsAsBefore(s, s')
    requires s.freed != {} ==> Blocked(s)
    ensures Covered(s', start, pace)
  {
    SumsShrink(s, s', 0, pace);
    if start + Sum(s', pace) > s'.deposit {
      var top :| Committed(s, top, pace) && start + Sum(s, pace) - s.charged[top].price <= s.deposit;
      TopStays(s, start, s', top, pace);
    }
  }

  lemma TopStays(s: Sys, start: nat, s': Sys, top: LockId, pace: Pace)
    requires s'.deposit == s.deposit && NoMoreCount(s, s', pace)
    requires Committed(s, top, pace) && start + Sum(s, pace) - s.charged[top].price <= s.deposit < start + Sum(s', pace)
    ensures Committed(s', top, pace) && start + Sum(s', pace) - s'.charged[top].price <= s'.deposit
  {
    var all, part := Commitments(s, pace), Commitments(s', pace);
    SumRemove(all, top);
    if !Committed(s', top, pace) {
      SumPart(part, all - {top});
      assert false;
    } else {
      SumRemove(part, top);
      SumPart(part - {top}, all - {top});
    }
  }

  lemma GatedShrinks(s: Sys, start: nat, s': Sys, a: Actor, pace: Pace)
    requires GatedOk(s, start, a, pace) && s.clock <= s'.clock && NoMoreCount(s, s', pace)
    ensures GatedOk(s', start, a, pace)
  {
    SumsShrink(s, s', 0, pace);
  }
}
