/** Exactly how punctual calls have to be for the router to pay out no more than the
    deposit, or no more than the deposit and one call. */
module ChannelPayoutLimits {
  import opened Wrappers
  import opened Sums
  import opened Channel
  import opened ChannelProtocol
  import opened ChannelCapacity
  import opened ChannelLimits
  import opened ChannelPayoutSteps
  import opened ChannelPayouts
  import opened ChannelRuns

  function Outlay(s: Sys): map<LockId, int> {
    map id | id in s.charged && id in s.paid :: s.charged[id].price
  }

  /** What upstream was paid. */
  ghost function PaidOut(s: Sys): int { SumMap(Outlay(s)) }

  /** With what an earlier run left on the watermark, and leaving one paid call out if all
      together is too much. */
  ghost predicate PaidButOneFits(s: Sys, start: nat) {
    || start + PaidOut(s) <= s.deposit
    || exists id :: id in Outlay(s) && start + PaidOut(s) - Outlay(s)[id] <= s.deposit
  }

  ghost predicate PaysWithinDeposit(pace: Pace) {
    forall s: Sys, events: seq<Event> ::
      InitWithin(s) && AllInTime(s, events, pace) ==> Mark(s) + PaidOut(Run(s, events)) <= Run(s, events).deposit
  }

  ghost predicate PaysWithinOneCall(pace: Pace) {
    forall s: Sys, events: seq<Event> ::
      InitWithin(s) && AllInTime(s, events, pace) ==> PaidButOneFits(Run(s, events), Mark(s))
  }

  /** The router pays out at most the deposit exactly when no call is both accepted and
      revalidated after its lock's lifetime, and every paid call stores its voucher, or
      fences the channel, while the lock is its own. */
  lemma PaysWithinDepositExactly(pace: Pace)
    ensures PaysWithinDeposit(pace) <==> Orderly(pace) && Prompt(pace)
  {
    if Orderly(pace) && Prompt(pace) {
      forall s: Sys, events: seq<Event> | InitWithin(s) && AllInTime(s, events, pace)
        ensures Mark(s) + PaidOut(Run(s, events)) <= Run(s, events).deposit
      {
        InitPays(s, pace);
        RunKeepsPay(s, Mark(s), events, pace);
        PaidCounts(Run(s, events), Mark(s), pace);
      }
    } else if Orderly(pace) {
      SecondIsPaidForToo(pace, DELIVERY_LOCK_TTL_MS, 1, 1);
      var s: Sys :| Reaches(Idle(None, 1), s, pace) && PaidOut(s) == 2 && s.deposit == 1;
      IdleIsWithin(1);
      OverpaidReached(Idle(None, 1), s, pace);
    } else {
      ThreeAreTooMany(pace);
    }
  }

  /** It pays out at most the deposit and the price of one call more exactly when no call
      is both accepted and revalidated after its lock's lifetime. */
  lemma PaysWithinOneCallExactly(pace: Pace)
    ensures PaysWithinOneCall(pace) <==> Orderly(pace)
  {
    if Orderly(pace) {
      forall s: Sys, events: seq<Event> | InitWithin(s) && AllInTime(s, events, pace)
        ensures PaidButOneFits(Run(s, events), Mark(s))
      {
        InitPays(s, pace);
        RunKeepsPay(s, Mark(s), events, pace);
        PaidCounts(Run(s, events), Mark(s), pace);
      }
    } else {
      ThreeAreTooMany(pace);
    }
  }

  lemma InitPays(s: Sys, pace: Pace)
    requires InitWithin(s)
    ensures PayInv(s, Mark(s), pace)
  {
    assert Commitments(s, pace) == map[];
  }

  lemma PaidCounts(s: Sys, start: nat, pace: Pace)
    requires PayInv(s, start, pace)
    ensures PaidButOneFits(s, start) && (Prompt(pace) ==> start + PaidOut(s) <= s.deposit)
  {
    var all, part := Commitments(s, pace), Outlay(s);
    SumPart(part, all);
    if start + Sum(s, pace) > s.deposit {
      var top :| Committed(s, top, pace) && start + Sum(s, pace) - s.charged[top].price <= s.deposit;
      SumRemove(all, top);
      SumPart(part - {top}, all - {top});
      if top in part {
        SumRemove(part, top);
      } else {
        assert part - {top} == part;
      }
    }
  }

  lemma OverpaidReached(s0: Sys, s: Sys, pace: Pace)
    requires Reaches(s0, s, pace) && InitWithin(s0) && Mark(s0) + PaidOut(s) > s.deposit
    ensures !PaysWithinDeposit(pace)
  {
  }

  lemma FarOverpaidReached(s0: Sys, s: Sys, pace: Pace)
    requires Reaches(s0, s, pace) && InitWithin(s0) && !PaidButOneFits(s, Mark(s0))
    ensures !PaysWithinOneCall(pace) && !PaysWithinDeposit(pace)
  {
  }

  lemma IdleIsWithin(d: nat)
    ensures InitWithin(Idle(None, d)) && Mark(Idle(None, d)) == 0
  {
    assert Prices(Idle(None, d).charged) == map[];
  }

  // ---- one call more ---------------------------------------------------------------------

  /** The first call was paid for and is to be absorbed; a second has passed the gate for
      blocked channels in the meantime. */
  predicate SecondIsIn(s: Sys, d: nat, t: int) {
    && s.deposit == d && s.clock == t && Holds(s, 2) && s.watermark == Some(Watermark(d, false)) && s.voucher.None?
    && s.charged == map[1 := First(d)] && s.paid == {1} && 1 in s.actors && 2 in s.actors && s.actors[2] == Passed(t)
  }

  /** When a paid call outlives its lock before it revalidates, or before it sets the
      fence, another is let in, and paid for once the first one's capacity is freed: for
      every deposit and every price up to it, the deposit and that price are paid out. */
  lemma SecondIsPaidForToo(pace: Pace, t: int, d: nat, p: nat)
    requires t == DELIVERY_LOCK_TTL_MS && !Prompt(pace) && 0 < p <= d
    ensures exists s: Sys :: Reaches(Idle(None, d), s, pace) && PaidOut(s) == d + p && s.deposit == d
  {
    if pace.persist >= DELIVERY_LOCK_TTL_MS {
      FirstIsOvertaken(pace, t, d);
      FirstIsFreed(Idle(None, d), LateToPersist(d, t), d, p, t, t, pace);
    } else {
      FirstIsSlowToFence(pace, t, d);
      FirstIsFreed(Idle(None, d), LateToFence(d, t), d, p, 0, t, pace);
    }
  }

  function LateToPersist(d: nat, t: int): Sys {
    At(Holding(Spent(Idle(None, d), 1, First(d), Paid(First(d), 0), 0), 2, Passed(t), t), 1, Absorbing(First(d), t))
  }

  lemma FirstIsOvertaken(pace: Pace, t: int, d: nat)
    requires t == DELIVERY_LOCK_TTL_MS <= pace.persist && d > 0
    ensures Reaches(Idle(None, d), LateToPersist(d, t), pace) && SecondIsIn(LateToPersist(d, t), d, t)
  {
    var s0 := Idle(None, d);
    var s1 := Spent(s0, 1, First(d), Paid(First(d), 0), 0);
    StartReached(s0, pace);
    CallIsPaid(s0, s0, 1, First(d), 0, pace);
    CallPasses(s0, s1, 2, t, pace);
    PaidIsAbsorbing(s0, Holding(s1, 2, Passed(t), t), First(d), 0, t, pace);
  }

  lemma PaidIsAbsorbing(s0: Sys, s: Sys, c: Charge, since: int, t: int, pace: Pace)
    requires Reaches(s0, s, pace) && !Holds(s, 1) && 1 in s.actors && s.actors[1] == Paid(c, since)
    requires s.clock == t && t - since <= pace.persist && s.voucher.None?
    ensures Reaches(s0, At(s, 1, Absorbing(c, t)), pace)
  {
    Doubts(s0, s, 1, c, since, pace);
    IsNotCovered(s0, At(s, 1, Doubtful(c, t)), 1, c, t, pace);
    MovesTwice(s, 1, Doubtful(c, t), Absorbing(c, t));
  }

  lemma MovesTwice(s: Sys, id: LockId, a: Actor, b: Actor)
    ensures At(At(s, id, a), id, b) == At(s, id, b)
  {
    assert s.actors[id := a][id := b] == s.actors[id := b];
  }

  function LateToFence(d: nat, t: int): Sys {
    Holding(Spent(Idle(None, d), 1, First(d), Absorbing(First(d), 0), 0), 2, Passed(t), t)
  }

  lemma FirstIsSlowToFence(pace: Pace, t: int, d: nat)
    requires t == DELIVERY_LOCK_TTL_MS && d > 0
    ensures Reaches(Idle(None, d), LateToFence(d, t), pace) && SecondIsIn(LateToFence(d, t), d, t)
  {
    FirstIsNotStored(pace, d);
    CallPasses(Idle(None, d), Spent(Idle(None, d), 1, First(d), Absorbing(First(d), 0), 0), 2, t, pace);
  }

  lemma FirstIsNotStored(pace: Pace, d: nat)
    requires d > 0
    ensures Reaches(Idle(None, d), Spent(Idle(None, d), 1, First(d), Absorbing(First(d), 0), 0), pace)
  {
    var s0, c := Idle(None, d), First(d);
    StartReached(s0, pace);
    CallIsAboutToStore(s0, s0, 1, c, 0, pace);
    IsLost(s0, Spent(s0, 1, c, Persisting(c, 0), 0), 1, c, 0, pace);
    TakenMovesOn(s0, 1, c, Persisting(c, 0), Doubtful(c, 0), 0);
    IsNotCovered(s0, Spent(s0, 1, c, Doubtful(c, 0), 0), 1, c, 0, pace);
    TakenMovesOn(s0, 1, c, Doubtful(c, 0), Absorbing(c, 0), 0);
  }

  /** The fence, and then the rollback. */
  lemma FirstIsFreed(s0: Sys, s: Sys, d: nat, p: nat, since: int, t: int, pace: Pace)
    requires Reaches(s0, s, pace) && SecondIsIn(s, d, t) && 0 < p <= d && s.actors[1] == Absorbing(First(d), since)
    requires t - since <= pace.fence
    ensures exists s': Sys :: Reaches(s0, s', pace) && PaidOut(s') == d + p && s'.deposit == d
  {
    var s1 := At(s, 1, Absorbed(First(d))).(fenced := true);
    var s2 := At(s1, 1, Leaving).(watermark := None, freed := s.freed + {1});
    Fences(s0, s, 1, First(d), since, pace);
    IsFreed(s0, s1, 1, First(d), pace);
    SecondGoesOn(s0, s2, d, p, t, pace);
  }

  lemma SecondGoesOn(s0: Sys, s: Sys, d: nat, p: nat, t: int, pace: Pace)
    requires Reaches(s0, s, pace) && Holds(s, 2) && 2 in s.actors && s.actors[2] == Passed(t) && s.clock == t
    requires s.watermark.None? && s.deposit == d && 0 < p <= d && s.charged == map[1 := First(d)] && s.paid == {1}
    ensures exists s': Sys :: Reaches(s0, s', pace) && PaidOut(s') == d + p && s'.deposit == d
  {
    var s1 := At(s, 2, Gated(0, p, t));
    IsGated(s0, s, 2, p, t, pace);
    IsAccepted(s0, s1, 2, First(p), t, pace);
    SecondIsPaid(s0, Charging(s1, 2, First(p), Charged(First(p), t)), d, p, t, pace);
  }

  lemma SecondIsPaid(s0: Sys, s: Sys, d: nat, p: nat, t: int, pace: Pace)
    requires Reaches(s0, s, pace) && Holds(s, 2) && 2 in s.actors && s.actors[2] == Charged(First(p), t) && s.clock == t
    requires s.deposit == d && s.charged == map[1 := First(d), 2 := First(p)] && s.paid == {1}
    ensures exists s': Sys :: Reaches(s0, s', pace) && PaidOut(s') == d + p && s'.deposit == d
  {
    var s1 := Holding(s, 2, Paying(First(p), t), t);
    Refreshes(s0, s, 2, First(p), t, pace);
    IsPaid(s0, s1, 2, First(p), t, pace);
    BothArePaid(At(s1, 2, Paid(First(p), t)).(paid := s1.paid + {2}), d, p);
  }

  lemma BothArePaid(s: Sys, d: nat, p: nat)
    requires s.charged == map[1 := First(d), 2 := First(p)] && s.paid == {1, 2}
    ensures PaidOut(s) == d + p
  {
    var one: map<LockId, int> := map[1 := d];
    SumRemove(Outlay(s), 2);
    assert Outlay(s) - {2} == one;
    SumRemove(one, 1);
    assert one - {1} == map[];
  }

  // ---- without bound ---------------------------------------------------------------------

  /** A call that read the watermark before another's acceptance, and was accepted after. */
  function Late(p: nat): Charge { Charge(Signed(p + p, 0), 0, p) }

  predicate AtNothing(w: Option<Watermark>) { AmountOf(w) == 0 && (w.Some? ==> !w.value.settling) }

  /** Nothing on the watermark, though n calls were paid for. */
  ghost predicate Forgotten(s: Sys, d: nat, p: nat, n: nat) {
    && s.deposit == d && s.lock.None? && AtNothing(s.watermark) && !Blocked(s)
    && (forall id :: id in s.actors ==> id < 2 * n) && (forall id :: id in s.charged ==> id in s.actors)
    && (forall id :: id in s.charged ==> s.charged[id].price == p)
    && PaidOut(s) == n * p
  }

  function OnePaid(s: Sys, a: LockId, b: LockId, p: nat, t: int, u: int): Sys {
    Spent(Holding(s, a, Gated(0, p, t), t), b, First(p), Persisting(First(p), u), u)
  }

  function OneStored(s: Sys, a: LockId, b: LockId, p: nat, t: int, u: int): Sys {
    DoRelease(DoPut(OnePaid(s, a, b, p, t, u), b, First(p).v, Leaving), b)
  }

  function OneRolledBack(s: Sys, a: LockId): Sys {
    At(s, a, Leaving).(watermark := None, charged := s.charged - {a})
  }

  /** One call reads the watermark and stalls; the next comes in when its lock expires,
      is paid for, stores its voucher and leaves. */
  lemma OneIsPaidMeanwhile(s0: Sys, s: Sys, a: LockId, b: LockId, p: nat, t: int, u: int, pace: Pace)
    requires Reaches(s0, s, pace) && Free(s, a, t) && b !in s.actors && a != b && u == t + DELIVERY_LOCK_TTL_MS
    requires AtNothing(s.watermark) && !Blocked(s) && 0 < p <= s.deposit
    ensures Reaches(s0, OneStored(s, a, b, p, t, u), pace)
  {
    CallIsGated(s0, s, a, p, t, pace);
    CallIsAboutToStore(s0, Holding(s, a, Gated(0, p, t), t), b, First(p), u, pace);
    Stores(s0, OnePaid(s, a, b, p, t, u), b, First(p), u, pace);
    Releases(s0, DoPut(OnePaid(s, a, b, p, t, u), b, First(p).v, Leaving), b, pace);
  }

  /** Then the first is accepted on top, finds its lock gone, and puts the watermark back
      to what it had read: the charge in between is forgotten. */
  lemma StalledForgetsIt(s0: Sys, s: Sys, a: LockId, p: nat, t: int, u: int, pace: Pace)
    requires Reaches(s0, s, pace) && a in s.actors && s.actors[a] == Gated(0, p, t) && s.lock.None? && s.clock == u
    requires s.watermark == Some(Watermark(p, false)) && u - t <= pace.accept && u - t <= pace.refresh
    ensures Reaches(s0, OneRolledBack(s, a), pace)
  {
    var s1 := Charging(s, a, Late(p), Charged(Late(p), t));
    var s2 := At(s1, a, Reversing(Late(p), u));
    IsAccepted(s0, s, a, Late(p), t, pace);
    IsOvertaken(s0, s1, a, Late(p), t, pace);
    IsReversed(s0, s2, a, Late(p), u, pace);
    RolledBackTo(s, a, p, t, u);
  }

  lemma RolledBackTo(s: Sys, a: LockId, p: nat, t: int, u: int)
    ensures var s1 := At(Charging(s, a, Late(p), Charged(Late(p), t)), a, Reversing(Late(p), u));
            At(s1, a, Leaving).(watermark := None, charged := s1.charged - {a}) == OneRolledBack(s, a)
  {
    MovesTwice(s, a, Charged(Late(p), t), Reversing(Late(p), u));
    MovesTwice(s, a, Reversing(Late(p), u), Leaving);
    assert s.charged[a := Late(p)] - {a} == s.charged - {a};
  }

  /** What such a round makes of things before the first call goes on. */
  predicate Meanwhile(s: Sys, s1: Sys, a: LockId, b: LockId, p: nat, t: int, u: int) {
    && s1.actors == s.actors[a := Gated(0, p, t)][b := Gone] && s1.lock.None? && s1.clock == u
    && s1.watermark == Some(Watermark(p, false)) && s1.charged == s.charged[b := First(p)] && s1.paid == s.paid + {b}
    && s1.deposit == s.deposit && Blocked(s1) == Blocked(s)
  }

  lemma OneStoredIs(s: Sys, a: LockId, b: LockId, p: nat, t: int, u: int)
    requires a != b
    ensures Meanwhile(s, OneStored(s, a, b, p, t, u), a, b, p, t, u)
  {
    var s1 := OnePaid(s, a, b, p, t, u);
    assert s1.actors == s.actors[a := Gated(0, p, t)][b := Persisting(First(p), u)];
  }

  lemma RoundPays(s: Sys, s1: Sys, a: LockId, b: LockId, p: nat, t: int, u: int)
    requires Meanwhile(s, s1, a, b, p, t, u) && a != b && a !in s.charged && b !in s.charged
    ensures PaidOut(OneRolledBack(s1, a)) == PaidOut(s) + p
  {
    SumUpdate(Outlay(s), b, p);
    assert Outlay(OneRolledBack(s1, a)) == Outlay(s)[b := p];
  }

  lemma RoundForgets(s: Sys, s1: Sys, a: LockId, d: nat, p: nat, n: nat, t: int, u: int)
    requires Forgotten(s, d, p, n) && a == 2 * n && Meanwhile(s, s1, a, a + 1, p, t, u)
    ensures Forgotten(OneRolledBack(s1, a), d, p, n + 1)
  {
    assert a !in s.actors && a + 1 !in s.actors;
    RoundPays(s, s1, a, a + 1, p, t, u);
    assert (n + 1) * p == n * p + p;
  }

  lemma NextRound(s0: Sys, s: Sys, d: nat, p: nat, n: nat, t: int, u: int, pace: Pace) returns (s': Sys)
    requires Reaches(s0, s, pace) && Forgotten(s, d, p, n) && s.clock == t && u == t + DELIVERY_LOCK_TTL_MS
    requires !Orderly(pace) && 0 < p <= d
    ensures Reaches(s0, s', pace) && Forgotten(s', d, p, n + 1)
  {
    var a := 2 * n;
    var s1 := OneStored(s, a, a + 1, p, t, u);
    assert Free(s, a, t);
    OneIsPaidMeanwhile(s0, s, a, a + 1, p, t, u, pace);
    OneStoredIs(s, a, a + 1, p, t, u);
    RoundForgets(s, s1, a, d, p, n, t, u);
    StalledForgetsIt(s0, s1, a, p, t, u, pace);
    s' := OneRolledBack(s1, a);
  }

  /** When calls may be both accepted and revalidated after their lock's lifetime, there
      is no bound: from an empty channel, for every deposit, every price up to it and every
      number of calls, that many are paid for at that price. */
  lemma {:induction false} PaymentsAreForgotten(pace: Pace, d: nat, p: nat, n: nat) returns (s: Sys)
    requires !Orderly(pace) && 0 < p <= d
    ensures Reaches(Idle(None, d), s, pace) && Forgotten(s, d, p, n)
  {
    if n == 0 {
      s := Idle(None, d);
      StartReached(s, pace);
    } else {
      var was := PaymentsAreForgotten(pace, d, p, n - 1);
      s := NextRound(Idle(None, d), was, d, p, n - 1, was.clock, was.clock + DELIVERY_LOCK_TTL_MS, pace);
    }
  }

  /** Three calls at the whole deposit are too many, with or without one. */
  lemma ThreeAreTooMany(pace: Pace)
    requires !Orderly(pace)
    ensures !PaysWithinOneCall(pace) && !PaysWithinDeposit(pace)
  {
    var s := PaymentsAreForgotten(pace, 1, 1, 3);
    IdleIsWithin(1);
    FarOverpaidReached(Idle(None, 1), s, pace);
  }
}
