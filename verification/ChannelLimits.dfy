/** What a channel's watermark counts, exactly how punctual calls have to be for that, and
    what the fence does at any pace. */
module ChannelLimits {
  import opened Wrappers
  import opened Channel
  import opened ChannelProtocol
  import opened ChannelRuns
  import opened ChannelCapacity

  /** Whatever an earlier run left behind, within the deposit. */
  ghost predicate InitWithin(s: Sys) { Init(s) && Counted(s, Mark(s)) }

  lemma InitIsInOrder(s: Sys)
    requires InitWithin(s)
    ensures CapInv(s, Mark(s))
  {
    assert Prices(s.charged) == map[];
  }

  // ---- the watermark ----------------------------------------------------------------------

  ghost predicate CountsAtPace(pace: Pace) {
    forall s: Sys, events: seq<Event> ::
      InitWithin(s) && AllInTime(s, events, pace) ==> Counted(Run(s, events), Mark(s))
  }

  /** The stored voucher stays within the accepted watermark, which stays within the
      deposit and counts just the charges that stand, exactly when these three times stay
      below the lock's lifetime: from a call's acquire to its voucher being accepted, from
      its acquire to its revalidation, and from that to its rollback. */
  lemma CountsExactlyWithinLockTime(pace: Pace)
    ensures CountsAtPace(pace) <==> CapPace(pace)
  {
    if CapPace(pace) {
      forall s: Sys, events: seq<Event> | InitWithin(s) && AllInTime(s, events, pace)
        ensures Counted(Run(s, events), Mark(s))
      {
        InitIsInOrder(s);
        RunKeepsCap(s, Mark(s), events, pace);
      }
    } else if pace.accept >= DELIVERY_LOCK_TTL_MS {
      LateAcceptExceedsDeposit(pace, DELIVERY_LOCK_TTL_MS, 1);
      var s: Sys :| Reaches(Idle(None, 1), s, pace) && Mark(s) > s.deposit;
      MiscountReached(Idle(None, 1), s, pace);
    } else if pace.refresh >= DELIVERY_LOCK_TTL_MS {
      LateRefreshMiscounts(pace, DELIVERY_LOCK_TTL_MS, 1);
      GhostChargeMiscounts(1, pace);
    } else {
      LateReverseMiscounts(pace, DELIVERY_LOCK_TTL_MS, 1);
      GhostChargeMiscounts(1, pace);
    }
  }

  lemma MiscountReached(s0: Sys, s: Sys, pace: Pace)
    requires Reaches(s0, s, pace) && InitWithin(s0) && !Counted(s, Mark(s0))
    ensures !CountsAtPace(pace)
  {
  }

  /** A run from an idle channel in which no charge stands any more, and the watermark
      says one does. */
  ghost predicate GhostCharge(d: nat, pace: Pace) {
    exists s: Sys :: Reaches(Idle(None, d + d), s, pace) && !Blocked(s) && s.charged == map[] && Mark(s) == d
  }

  lemma GhostChargeMiscounts(d: nat, pace: Pace)
    requires d > 0 && GhostCharge(d, pace)
    ensures !CountsAtPace(pace)
  {
    var s: Sys :| Reaches(Idle(None, d + d), s, pace) && !Blocked(s) && s.charged == map[] && Mark(s) == d;
    MiscountReached(Idle(None, d + d), s, pace);
  }

  /** A call that has read the watermark stalls; another is accepted in the meantime for
      all of the deposit; and then the first is, too. */
  lemma LateAcceptExceedsDeposit(pace: Pace, t: int, d: nat)
    requires t == DELIVERY_LOCK_TTL_MS <= pace.accept && d > 0
    ensures exists s: Sys :: Reaches(Idle(None, d), s, pace) && Mark(s) > s.deposit
  {
    var s0 := Idle(None, d);
    var s1 := Holding(s0, 1, Gated(0, d, 0), 0);
    var c, late := Charge(Signed(d, 0), 0, d), Charge(Signed(d + d, 0), 0, d);
    var s2 := Taken(s1, 2, c, Charged(c, t), t);
    StartReached(s0, pace);
    CallIsGated(s0, s0, 1, d, 0, pace);
    CallIsCharged(s0, s1, 2, c, t, pace);
    IsAccepted(s0, s2, 1, late, 0, pace);
    assert Mark(Charging(s2, 1, late, Charged(late, 0))) == d + d;
  }

  /** The charge of the first call. */
  function First(d: nat): Charge { Charge(Signed(d, 0), 0, d) }

  /** The charge of one that read the watermark before the first was rolled back, and was
      accepted after. */
  function Second(d: nat): Charge { Charge(Signed(d, 0), d, d) }

  /** The first goes back to nothing; the second goes on from there, is not paid for, and
      goes back to the first one's amount. */
  lemma CrossesAt(s0: Sys, s: Sys, d: nat, since: int, t: int, pace: Pace)
    requires Reaches(s0, s, pace) && s0 == Idle(None, d + d) && d > 0 && s.clock == t && t - since <= pace.reverse
    requires Holds(s, 2) && !Blocked(s) && s.watermark == Some(Watermark(d, false)) && s.charged == map[1 := First(d)]
    requires 1 in s.actors && s.actors[1] == Reversing(First(d), since)
    requires 2 in s.actors && s.actors[2] == Gated(d, d, t)
    ensures GhostCharge(d, pace)
  {
    var s1 := At(s, 1, Leaving).(watermark := None, charged := map[]);
    IsReversed(s0, s, 1, First(d), since, pace);
    assert s.charged - {1} == map[];
    IsAccepted(s0, s1, 2, Second(d), t, pace);
    SecondGoesBack(s0, Charging(s1, 2, Second(d), Charged(Second(d), t)), d, t, pace);
  }

  lemma SecondGoesBack(s0: Sys, s: Sys, d: nat, t: int, pace: Pace)
    requires Reaches(s0, s, pace) && s0 == Idle(None, d + d) && d > 0 && s.clock == t
    requires Holds(s, 2) && !Blocked(s) && s.watermark == Some(Watermark(d, false)) && s.charged == map[2 := Second(d)]
    requires 2 in s.actors && s.actors[2] == Charged(Second(d), t)
    ensures GhostCharge(d, pace)
  {
    var s1 := Holding(s, 2, Paying(Second(d), t), t);
    var s2 := At(s1, 2, Reversing(Second(d), t));
    Refreshes(s0, s, 2, Second(d), t, pace);
    IsNotPaid(s0, s1, 2, Second(d), t, pace);
    IsReversed(s0, s2, 2, Second(d), t, pace);
    assert s2.charged - {2} == map[];
    var s3 := At(s2, 2, Leaving).(watermark := PutBack(d), charged := map[]);
    assert Reaches(s0, s3, pace) && Mark(s3) == d;
  }

  lemma LateRefreshMiscounts(pace: Pace, t: int, d: nat)
    requires t == DELIVERY_LOCK_TTL_MS <= pace.refresh && d > 0
    ensures GhostCharge(d, pace)
  {
    var s0 := Idle(None, d + d);
    var s1 := Taken(s0, 1, First(d), Charged(First(d), 0), 0);
    var s2 := Holding(s1, 2, Gated(d, d, t), t);
    StartReached(s0, pace);
    CallIsCharged(s0, s0, 1, First(d), 0, pace);
    CallIsGated(s0, s1, 2, d, t, pace);
    IsOvertaken(s0, s2, 1, First(d), 0, pace);
    CrossesAt(s0, At(s2, 1, Reversing(First(d), t)), d, t, t, pace);
  }

  lemma LateReverseMiscounts(pace: Pace, t: int, d: nat)
    requires t == DELIVERY_LOCK_TTL_MS <= pace.reverse && d > 0
    ensures GhostCharge(d, pace)
  {
    var s0 := Idle(None, d + d);
    var s1 := At(Taken(s0, 1, First(d), Paying(First(d), 0), 0), 1, Reversing(First(d), 0));
    StartReached(s0, pace);
    CallIsPaying(s0, s0, 1, First(d), 0, pace);
    IsNotPaid(s0, Taken(s0, 1, First(d), Paying(First(d), 0), 0), 1, First(d), 0, pace);
    CallIsGated(s0, s1, 2, d, t, pace);
    CrossesAt(s0, Holding(s1, 2, Gated(d, d, t), t), d, 0, t, pace);
  }

  // ---- the fence, at any pace ----------------------------------------------------------------

  /** What an action of one participant leaves of another. */
  predicate LeavesAlone(s: Sys, s': Sys, id: LockId) {
    && (id in s'.actors <==> id in s.actors) && (id in s.actors ==> s'.actors[id] == s.actors[id])
    && (id in s'.charged <==> id in s.charged) && (id in s'.paid <==> id in s.paid) && (Blocked(s) ==> Blocked(s'))
  }

  lemma OthersAreLeftAlone(s: Sys, a: Action, id: LockId)
    requires a.id != id
    ensures LeavesAlone(s, Act(s, a), id)
  {
    if !a.Enter? && !a.Fence? && a.id in s.actors && !a.Release? {
      if OfSettlement(a) {
        SettlementLeavesAlone(s, s.actors[a.id], a, id);
      } else if OfCharge(a) {
        ChargeLeavesAlone(s, s.actors[a.id], a, id);
      } else {
        ConclusionLeavesAlone(s, s.actors[a.id], a, id);
      }
    }
  }

  lemma SettlementLeavesAlone(s: Sys, x: Actor, a: Action, id: LockId)
    requires a.id != id
    ensures LeavesAlone(s, DoSettle(s, x, a), id)
  {
  }

  lemma ChargeLeavesAlone(s: Sys, x: Actor, a: Action, id: LockId)
    requires a.id != id
    ensures LeavesAlone(s, DoCharge(s, x, a), id)
  {
  }

  lemma ConclusionLeavesAlone(s: Sys, x: Actor, a: Action, id: LockId)
    requires a.id != id
    ensures LeavesAlone(s, DoConclude(s, x, a), id)
  {
  }

  /** Not past the gate. */
  predicate TurnedAway(s: Sys, id: LockId) {
    id in s.actors ==> OutsideGate(s.actors[id])
  }

  predicate OutsideGate(a: Actor) { !a.Passed? && !a.Gated? && !a.Stuck? && !Bears(a) }

  lemma BlockedTurnsAway(s: Sys, a: Action)
    requires Blocked(s) && TurnedAway(s, a.id) && a.id !in s.charged
    ensures Blocked(Act(s, a)) && TurnedAway(Act(s, a), a.id) && a.id !in Act(s, a).charged
  {
    if !a.Enter? && !a.Fence? && a.id in s.actors && !a.Release? {
      if OfSettlement(a) {
        SettlementStaysOutside(s, s.actors[a.id], a);
      } else if OfCharge(a) {
        GateTurnsAway(s, s.actors[a.id], a);
      } else {
        OutsideConcludesNothing(s, s.actors[a.id], a);
      }
    }
  }

  lemma OutsideConcludesNothing(s: Sys, x: Actor, a: Action)
    requires OutsideGate(x)
    ensures DoConclude(s, x, a) == s
  {
  }

  lemma SettlementStaysOutside(s: Sys, x: Actor, a: Action)
    requires Blocked(s) && a.id in s.actors && s.actors[a.id] == x && OutsideGate(x)
    ensures var s' := DoSettle(s, x, a);
            Blocked(s') && a.id in s'.actors && OutsideGate(s'.actors[a.id]) && s'.charged == s.charged
  {
  }

  lemma GateTurnsAway(s: Sys, x: Actor, a: Action)
    requires Blocked(s) && a.id in s.actors && s.actors[a.id] == x && OutsideGate(x)
    ensures var s' := DoCharge(s, x, a);
            Blocked(s') && a.id in s'.actors && OutsideGate(s'.actors[a.id]) && s'.charged == s.charged
  {
  }

  /** Once a channel is blocked no call is accepted that had not passed the gate by then. */
  lemma {:induction false} BlockedTakesNoCalls(s: Sys, events: seq<Event>, id: LockId)
    requires Blocked(s) && TurnedAway(s, id) && id !in s.charged
    ensures var t := Run(s, events); Blocked(t) && TurnedAway(t, id) && id !in t.charged
    decreases |events|
  {
    if events != [] {
      if events[0].action.id == id {
        BlockedTurnsAway(s, events[0].action);
      } else {
        OthersAreLeftAlone(s, events[0].action, id);
      }
      BlockedTakesNoCalls(Do(s, events[0]), events[1..], id);
    }
  }

  /** A paid call is past reversing, and absorbed only behind the fence. */
  predicate PaidOk(s: Sys, id: LockId) {
    && (id in s.paid ==> id in s.actors && !Early(s.actors[id]))
    && (id in s.actors && s.actors[id].Absorbed? ==> Blocked(s))
  }

  lemma {:induction false} PaidStaysOk(s: Sys, events: seq<Event>, id: LockId)
    requires PaidOk(s, id)
    ensures PaidOk(Run(s, events), id)
    decreases |events|
  {
    if events != [] {
      if events[0].action.id == id {
        OwnStepKeepsPaidOk(s, events[0].action);
      } else {
        OthersAreLeftAlone(s, events[0].action, id);
      }
      PaidStaysOk(Do(s, events[0]), events[1..], id);
    }
  }

  lemma OwnStepKeepsPaidOk(s: Sys, a: Action)
    requires PaidOk(s, a.id)
    ensures PaidOk(Act(s, a), a.id)
  {
    if !a.Enter? && !a.Fence? && a.id in s.actors && !a.Release? {
      if OfSettlement(a) {
        SettlementKeepsPaidOk(s, s.actors[a.id], a);
      } else if OfCharge(a) {
        ChargeKeepsPaidOk(s, s.actors[a.id], a);
      } else {
        ConclusionKeepsPaidOk(s, s.actors[a.id], a);
      }
    }
  }

  lemma SettlementKeepsPaidOk(s: Sys, x: Actor, a: Action)
    requires PaidOk(s, a.id) && a.id in s.actors && s.actors[a.id] == x
    ensures PaidOk(DoSettle(s, x, a), a.id)
  {
  }

  lemma ChargeKeepsPaidOk(s: Sys, x: Actor, a: Action)
    requires PaidOk(s, a.id) && a.id in s.actors && s.actors[a.id] == x
    ensures PaidOk(DoCharge(s, x, a), a.id)
  {
  }

  lemma ConclusionKeepsPaidOk(s: Sys, x: Actor, a: Action)
    requires PaidOk(s, a.id) && a.id in s.actors && s.actors[a.id] == x
    ensures PaidOk(DoConclude(s, x, a), a.id)
  {
  }

  /** What a paid call took is given back only on a channel already blocked: the fence
      comes before the rollback in every run, whatever the delays and crashes. */
  lemma PaidIsFreedOnlyBehindFence(s: Sys, events: seq<Event>, a: Action)
    requires Init(s) && a.id in Run(s, events).paid
    ensures var t := Run(s, events);
            Act(t, a).charged == t.charged && (Act(t, a).watermark != t.watermark ==> Blocked(t))
  {
    PaidStaysOk(s, events, a.id);
    var t := Run(s, events);
    if a.Undo? && t.actors[a.id].Absorbed? {
    } else {
      PaidLeavesWatermark(t, a);
    }
  }

  lemma PaidLeavesWatermark(t: Sys, a: Action)
    requires a.id in t.actors && !Early(t.actors[a.id]) && !(a.Undo? && t.actors[a.id].Absorbed?)
    ensures Act(t, a).charged == t.charged && Act(t, a).watermark == t.watermark
  {
  }
}
