/** Every step keeps the invariant on payouts, provided no call is both accepted and
    revalidated after its lock's lifetime. */
module ChannelPayoutSteps {
  import opened Sums
  import opened Channel
  import opened ChannelProtocol
  import opened ChannelSafety
  import opened ChannelCapacity
  import opened ChannelPayouts

  // ---- steps after which no more calls count --------------------------------------------

  function Was(s: Sys, id: LockId): Actor { if id in s.actors then s.actors[id] else Gone }

  /** Nobody else holds the lock since a reading. */
  predicate OnlyHolder(s: Sys, id: LockId, pace: Pace) {
    forall j :: j in s.actors && j != id ==> !HoldsLive(s, s.actors[j], pace)
  }

  /** It counts no more than it did, and waits only if it did or was let through an open
      gate. */
  predicate CountsNoMore(s: Sys, x: Actor, s': Sys, next: Actor, pace: Pace) {
    && (next.Gated? ==> next.previous == Mark(s))
    && (GoesOn(s', next, pace) ==> GoesOn(s, x, pace))
    && (next.Paying? ==> GoesOn(s, x, pace) || x.Paying?)
    && (next.Reversing? ==> GoesOn(s, x, pace) || x.Paying? || x.Reversing?)
    && (Waits(s', next) ==> Waits(s, x) || !Blocked(s))
  }

  predicate LocksProperly(s: Sys, s': Sys, id: LockId, pace: Pace) {
    && id in s'.actors
    && (s'.lock == s.lock || OnlyHolder(s', id, pace))
    && (HoldsLive(s', s'.actors[id], pace) ==> Leased(s', id, s'.actors[id].since))
  }

  predicate Moves(s: Sys, s': Sys, id: LockId, pace: Pace) {
    && Keeps(s, s') && s'.freed == s.freed && Mark(s') >= Mark(s)
    && id in s'.actors && s'.actors == s.actors[id := s'.actors[id]]
    && (forall j :: j in s.charged ==> j in s'.charged && s'.charged[j] == s.charged[j])
    && (forall j :: j in s'.charged ==> j in s.charged || j == id)
    && (s'.paid == s.paid || (s'.paid == s.paid + {id} && Was(s, id).Paying?))
    && LocksProperly(s, s', id, pace)
    && ActorRecorded(s', id, s'.actors[id]) && CountsNoMore(s, Was(s, id), s', s'.actors[id], pace)
  }

  lemma MovesCountNoMore(s: Sys, s': Sys, id: LockId, pace: Pace)
    requires RecordsOk(s) && Moves(s, s', id, pace)
    ensures NoMoreCount(s, s', pace) && WaitsAsBefore(s, s')
  {
    forall j | Committed(s', j, pace)
      ensures Committed(s, j, pace)
    {
      assert j != id && j in s'.actors ==> s'.actors[j] == s.actors[j];
    }
    forall j | Unsettled(s', j, pace)
      ensures Unsettled(s, j, pace)
    {
      assert j != id && j in s'.actors ==> s'.actors[j] == s.actors[j];
    }
  }

  lemma MovesKeepRecords(s: Sys, s': Sys, id: LockId, pace: Pace)
    requires RecordsOk(s) && Moves(s, s', id, pace)
    ensures RecordsOk(s')
  {
    forall j | j in s'.actors && j != id
      ensures ActorRecorded(s', j, s'.actors[j])
    {
      assert ActorRecorded(s, j, s.actors[j]);
    }
    assert Was(s, id).Paying? ==> ActorRecorded(s, id, s.actors[id]);
  }

  lemma LocksKeepLeases(s: Sys, s': Sys, id: LockId, pace: Pace)
    requires Leases(s, pace) && s.clock <= s'.clock && LocksProperly(s, s', id, pace)
    requires s'.actors == s.actors[id := s'.actors[id]]
    ensures Leases(s', pace)
  {
    forall j | j in s'.actors && j != id && HoldsLive(s', s'.actors[j], pace)
      ensures Leased(s', j, s'.actors[j].since)
    {
      assert HoldsLive(s, s.actors[j], pace);
    }
  }

  /** It has just read the watermark. */
  lemma NewlyGatedOk(s: Sys, start: nat, s': Sys, a: Actor, pace: Pace)
    requires Stacked(s, start, pace) && NoMoreCount(s, s', pace) && (a.Gated? ==> a.previous == Mark(s))
    ensures GatedOk(s', start, a, pace)
  {
    SumsShrink(s, s', 0, pace);
    forall j | Tracked(s', j, pace)
      ensures Cum(s', j) <= Mark(s)
    {
      assert Tracked(s, j, pace) && s'.charged[j] == s.charged[j];
    }
  }

  lemma MovesKeepGated(s: Sys, start: nat, s': Sys, id: LockId, pace: Pace)
    requires CoreInv(s, start, pace) && Moves(s, s', id, pace) && NoMoreCount(s, s', pace) && s.freed == {}
    ensures forall j :: j in s'.actors ==> GatedOk(s', start, s'.actors[j], pace)
  {
    forall j | j in s'.actors
      ensures GatedOk(s', start, s'.actors[j], pace)
    {
      if j == id {
        NewlyGatedOk(s, start, s', s'.actors[id], pace);
      } else {
        GatedShrinks(s, start, s', s.actors[j], pace);
      }
    }
  }

  lemma MovesKeepSealed(s: Sys, s': Sys, id: LockId, pace: Pace)
    requires RecordsOk(s) && Sealed(s) && Moves(s, s', id, pace) && !s'.actors[id].Absorbed? && WaitsAsBefore(s, s')
    ensures Sealed(s')
  {
    if s'.freed != {} || exists j :: j in s'.actors && s'.actors[j].Absorbed? {
      if s.freed == {} {
        var j :| j in s'.actors && s'.actors[j].Absorbed?;
        assert ActorRecorded(s, j, s.actors[j]);
      }
    }
  }

  lemma MovesKeepCore(s: Sys, start: nat, s': Sys, id: LockId, pace: Pace)
    requires CoreInv(s, start, pace) && Moves(s, s', id, pace)
    ensures CoreInv(s', start, pace) && WaitsAsBefore(s, s')
  {
    MovesCountNoMore(s, s', id, pace);
    MovesKeepRecords(s, s', id, pace);
    LocksKeepLeases(s, s', id, pace);
    CoverShrinks(s, start, s', pace);
    if s.freed == {} {
      StackShrinks(s, start, s', pace);
      MovesKeepGated(s, start, s', id, pace);
    }
  }

  lemma MovesKeepPay(s: Sys, start: nat, s': Sys, id: LockId, pace: Pace)
    requires PayInv(s, start, pace) && Moves(s, s', id, pace) && !s'.actors[id].Absorbed?
    ensures PayInv(s', start, pace)
  {
    MovesKeepCore(s, start, s', id, pace);
    if Prompt(pace) {
      MovesKeepSealed(s, s', id, pace);
    }
  }

  lemma WaitKeepsPay(s: Sys, start: nat, s': Sys, pace: Pace)
    requires PayInv(s, start, pace) && s' == s.(clock := s'.clock, fenced := s'.fenced)
    requires s.clock <= s'.clock && (s.fenced ==> s'.fenced)
    ensures PayInv(s', start, pace)
  {
    assert NoMoreCount(s, s', pace) && WaitsAsBefore(s, s');
    CoverShrinks(s, start, s', pace);
    if s.freed == {} {
      StackShrinks(s, start, s', pace);
      forall j | j in s'.actors
        ensures GatedOk(s', start, s'.actors[j], pace)
      {
        GatedShrinks(s, start, s', s.actors[j], pace);
      }
    }
  }

  // ---- which steps those are -----------------------------------------------------------

  lemma EnterMoves(s: Sys, id: LockId, now: int, settling: bool, at: int, pace: Pace)
    requires RecordsOk(s) && Leases(s, pace) && s.clock <= at && now <= at && id !in s.actors && !Holds(s, id)
    ensures Moves(s, DoEnter(s, id, now, settling).(clock := at), id, pace)
  {
    var s' := DoEnter(s, id, now, settling).(clock := at);
    forall j | j in s'.actors && j != id && s'.lock != s.lock
      ensures !HoldsLive(s', s'.actors[j], pace)
    {
      assert HoldsLive(s, s.actors[j], pace) ==> Leased(s, j, s.actors[j].since);
    }
  }

  /** It holds the lock: nobody else does since a reading. */
  lemma HolderIsOnly(s: Sys, id: LockId, pace: Pace)
    requires Leases(s, pace) && Holds(s, id)
    ensures OnlyHolder(s, id, pace)
  {
  }

  /** A step of id that takes the lock, if it changes it, from nobody but itself. */
  lemma OwnLockIsProper(s: Sys, s': Sys, id: LockId, pace: Pace)
    requires Leases(s, pace) && s.clock <= s'.clock && id in s'.actors && s'.actors == s.actors[id := s'.actors[id]]
    requires s'.lock == s.lock || Holds(s, id)
    requires HoldsLive(s', s'.actors[id], pace) ==> Leased(s', id, s'.actors[id].since)
    ensures LocksProperly(s, s', id, pace)
  {
    if s'.lock != s.lock {
      HolderIsOnly(s, id, pace);
      assert forall j :: j in s'.actors && j != id ==> s'.actors[j] == s.actors[j];
    }
  }

  lemma ReleaseMoves(s: Sys, id: LockId, at: int, pace: Pace)
    requires RecordsOk(s) && Leases(s, pace) && s.clock <= at && id in s.actors
    ensures Moves(s, DoRelease(s, id).(clock := at), id, pace)
  {
    OwnLockIsProper(s, DoRelease(s, id).(clock := at), id, pace);
  }

  lemma RevalidateIsProper(s: Sys, id: LockId, now: int, next: Actor, otherwise: Actor, at: int, pace: Pace)
    requires Leases(s, pace) && s.clock <= at && id in s.actors
    requires KeepsLock(next, pace) ==> next.since == now
    requires !Holds(s, id) ==> !HoldsLive(s.(clock := at), otherwise, pace)
    ensures LocksProperly(s, DoRevalidate(s, id, now, next, otherwise).(clock := at), id, pace)
  {
    OwnLockIsProper(s, DoRevalidate(s, id, now, next, otherwise).(clock := at), id, pace);
  }

  lemma RefreshMoves(s: Sys, x: Actor, a: Action, at: int, pace: Pace)
    requires RecordsOk(s) && Leases(s, pace) && s.clock <= at && a.id in s.actors && s.actors[a.id] == x
    requires a.Refresh? && x.Charged? && ActorInTime(x, a, at, pace)
    ensures Moves(s, DoCharge(s, x, a).(clock := at), a.id, pace)
  {
    assert ActorRecorded(s, a.id, x);
    RevalidateIsProper(s, a.id, a.now, Paying(x.charge, a.now), Reversing(x.charge, a.now), at, pace);
  }

  /** A paid call that revalidates in time finds the lock its own. */
  lemma PersistMoves(s: Sys, x: Actor, a: Action, at: int, pace: Pace)
    requires RecordsOk(s) && Leases(s, pace) && s.clock <= at && a.id in s.actors && s.actors[a.id] == x
    requires a.Persist? && x.Paid? && ActorInTime(x, a, at, pace)
    ensures Moves(s, DoConclude(s, x, a).(clock := at), a.id, pace)
  {
    assert ActorRecorded(s, a.id, x) && (HoldsLive(s, x, pace) ==> Leased(s, a.id, x.since));
    RevalidateIsProper(s, a.id, a.now, Persisting(x.charge, a.now), Doubtful(x.charge, a.now), at, pace);
  }

  lemma PayMoves(s: Sys, id: LockId, c: Charge, since: int, paid: bool, at: int, pace: Pace)
    requires RecordsOk(s) && Leases(s, pace) && s.clock <= at && id in s.actors && s.actors[id] == Paying(c, since)
    ensures Moves(s, DoPay(s, id, c, since, paid).(clock := at), id, pace)
  {
    assert ActorRecorded(s, id, s.actors[id]);
    assert HoldsLive(s, s.actors[id], pace) ==> Leased(s, id, since);
  }

  /** At the gates, unless the voucher is accepted. */
  lemma GateMoves(s: Sys, x: Actor, a: Action, at: int, pace: Pace)
    requires RecordsOk(s) && Leases(s, pace) && s.clock <= at && a.id in s.actors && s.actors[a.id] == x
    requires (a.Check? && x.Entered?) || (a.Gate? && x.Passed? && a.price > 0) || (a.Accept? && x.Gated?)
    requires !DoCharge(s, x, a).actors[a.id].Charged?
    ensures Moves(s, DoCharge(s, x, a).(clock := at), a.id, pace)
  {
    assert ActorRecorded(s, a.id, x) && (HoldsLive(s, x, pace) ==> Leased(s, a.id, x.since));
  }

  /** It was not on its way to be paid for, or is no longer; it keeps the reading its hold
      on the lock goes back to. */
  predicate Recedes(s: Sys, s': Sys, id: LockId, pace: Pace) {
    && id in s.actors && id in s'.actors && s'.actors == s.actors[id := s'.actors[id]]
    && (var x, next := s.actors[id], s'.actors[id];
        && !next.Entered? && !next.Passed? && !next.Gated? && !next.Charged? && !next.Paying? && !next.Reversing?
        && !next.Absorbed? && (Bears(next) ==> Bears(x) && next.charge == x.charge)
        && (KeepsLock(next, pace) ==> KeepsLock(x, pace) && next.since == x.since))
  }

  predicate LeavesCounts(s: Sys, s': Sys) {
    && s.clock <= s'.clock && (Blocked(s) ==> Blocked(s')) && s'.deposit == s.deposit && s'.lock == s.lock
    && s'.watermark == s.watermark && s'.charged == s.charged && s'.paid == s.paid && s'.freed == s.freed
  }

  lemma RecedingMoves(s: Sys, s': Sys, id: LockId, pace: Pace)
    requires RecordsOk(s) && Leases(s, pace) && Recedes(s, s', id, pace) && LeavesCounts(s, s')
    ensures Moves(s, s', id, pace)
  {
    assert ActorRecorded(s, id, s.actors[id]);
    assert HoldsLive(s', s'.actors[id], pace) ==> HoldsLive(s, s.actors[id], pace);
  }

  lemma StoreMoves(s: Sys, x: Actor, a: Action, at: int, pace: Pace)
    requires RecordsOk(s) && Leases(s, pace) && s.clock <= at && a.id in s.actors && s.actors[a.id] == x
    requires (a.Put? || a.PutLost?) && x.Persisting?
    ensures Moves(s, DoConclude(s, x, a).(clock := at), a.id, pace)
  {
    RecedingMoves(s, DoConclude(s, x, a).(clock := at), a.id, pace);
  }

  lemma DoubtMoves(s: Sys, x: Actor, a: Action, at: int, pace: Pace)
    requires RecordsOk(s) && Leases(s, pace) && s.clock <= at && a.id in s.actors && s.actors[a.id] == x
    requires (a.Cover? && x.Doubtful?) || (a.Block? && x.Stuck?)
    ensures Moves(s, DoConclude(s, x, a).(clock := at), a.id, pace)
  {
    RecedingMoves(s, DoConclude(s, x, a).(clock := at), a.id, pace);
  }

  lemma ReaderMoves(s: Sys, x: Actor, a: Action, at: int, pace: Pace)
    requires RecordsOk(s) && Leases(s, pace) && s.clock <= at && a.id in s.actors && s.actors[a.id] == x
    requires (a.Read? && x.Settling?) || (a.MarkClosed? && x.Closing?)
    ensures Moves(s, DoSettle(s, x, a).(clock := at), a.id, pace)
  {
    RecedingMoves(s, DoSettle(s, x, a).(clock := at), a.id, pace);
  }

  lemma CloserMoves(s: Sys, x: Actor, a: Action, at: int, pace: Pace)
    requires RecordsOk(s) && Leases(s, pace) && s.clock <= at && a.id in s.actors && s.actors[a.id] == x
    requires a.Submit? || a.WriteOff? || a.Collected? || a.MarkSettled?
    requires DoSettle(s, x, a) != s
    ensures Moves(s, DoSettle(s, x, a).(clock := at), a.id, pace)
  {
    RecedingMoves(s, DoSettle(s, x, a).(clock := at), a.id, pace);
  }

  lemma ProceedMoves(s: Sys, id: LockId, now: int, v: Voucher, closing: bool, at: int, pace: Pace)
    requires RecordsOk(s) && Leases(s, pace) && s.clock <= at && id in s.actors && s.actors[id] == Reading(v)
    ensures Moves(s, DoProceed(s, id, now, v, closing).(clock := at), id, pace)
  {
    if Due(v, closing) {
      RevalidateIsProper(s, id, now, Closing(v, now), Leaving, at, pace);
    }
  }

  // ---- acceptance ------------------------------------------------------------------------

  predicate AcceptStep(s: Sys, s': Sys, id: LockId) {
    && id in s.actors && s.actors[id].Gated? && id in s'.actors && s'.actors == s.actors[id := s'.actors[id]]
    && s'.actors[id].Charged? && s'.actors[id].since == s.actors[id].since
    && s'.actors[id].charge.previous == s.actors[id].previous && s'.actors[id].charge.price == s.actors[id].price
    && s'.actors[id].charge.v.cumulative == Mark(s) + s.actors[id].price == Mark(s')
    && s'.charged == s.charged[id := s'.actors[id].charge] && s'.paid == s.paid && s'.freed == s.freed
    && s'.lock == s.lock && s.clock <= s'.clock && Blocked(s') == Blocked(s) && s'.deposit == s.deposit
  }

  /** One accepted after its lock's lifetime will not be revalidated. */
  lemma LateAcceptMoves(s: Sys, s': Sys, id: LockId, pace: Pace)
    requires RecordsOk(s) && AcceptStep(s, s', id) && Over(s', s.actors[id].since)
    requires pace.refresh < DELIVERY_LOCK_TTL_MS
    ensures Moves(s, s', id, pace)
  {
    assert ActorRecorded(s, id, s.actors[id]);
  }

  lemma AcceptedIsOnly(s: Sys, s': Sys, id: LockId, pace: Pace)
    requires Leases(s, pace) && AcceptStep(s, s', id) && !Over(s', s.actors[id].since)
    ensures OnlyHolder(s, id, pace) && OnlyHolder(s', id, pace)
  {
    assert HoldsLive(s, s.actors[id], pace);
    HolderIsOnly(s, id, pace);
    assert forall j :: j in s'.actors && j != id ==> s'.actors[j] == s.actors[j];
  }

  lemma AcceptCounts(s: Sys, s': Sys, id: LockId, pace: Pace)
    requires RecordsOk(s) && AcceptStep(s, s', id)
    ensures id !in s.charged
    ensures forall j :: j != id && Committed(s', j, pace) ==> Committed(s, j, pace) && s'.charged[j] == s.charged[j]
    ensures forall j :: j != id && Unsettled(s', j, pace) ==> Unsettled(s, j, pace) && s'.charged[j] == s.charged[j]
  {
    assert ActorRecorded(s, id, s.actors[id]);
    assert forall j :: j in s'.actors && j != id ==> s'.actors[j] == s.actors[j];
  }

  lemma AcceptAdds(s: Sys, s': Sys, id: LockId, amount: nat, pace: Pace)
    requires RecordsOk(s) && AcceptStep(s, s', id) && amount <= Mark(s')
    ensures Sum(s', pace) <= Sum(s, pace) + s.actors[id].price
    ensures SumMap(Under(s', amount, pace)) <= SumMap(Under(s, amount, pace)) <= Sum(s, pace)
  {
    AcceptCounts(s, s', id, pace);
    var all := Commitments(s', pace);
    if Committed(s', id, pace) {
      SumRemove(all, id);
      SumPart(all - {id}, Commitments(s, pace));
    } else {
      SumPart(all, Commitments(s, pace));
    }
    SumPart(Under(s', amount, pace), Under(s, amount, pace));
    SumPart(Under(s, amount, pace), Commitments(s, pace));
  }

  /** What is accepted goes on top of everything that counts. */
  lemma AcceptStacks(s: Sys, start: nat, s': Sys, id: LockId, pace: Pace)
    requires RecordsOk(s) && Stacked(s, start, pace) && AcceptStep(s, s', id) && !Over(s', s.actors[id].since)
    requires GatedOk(s, start, s.actors[id], pace)
    ensures Stacked(s', start, pace)
  {
    AcceptCounts(s, s', id, pace);
    AcceptAdds(s, s', id, 0, pace);
    AcceptsOnTop(s, start, s', id, pace);
    forall x | Unsettled(s', x, pace)
      ensures start + SumMap(Under(s', Cum(s', x), pace)) <= s'.charged[x].previous
    {
      AcceptAdds(s, s', id, Cum(s', x), pace);
    }
  }

  lemma AcceptsOnTop(s: Sys, start: nat, s': Sys, id: LockId, pace: Pace)
    requires RecordsOk(s) && Stacked(s, start, pace) && AcceptStep(s, s', id) && !Over(s', s.actors[id].since)
    requires GatedOk(s, start, s.actors[id], pace)
    ensures forall j :: Tracked(s', j, pace) ==> Cum(s', j) <= Mark(s')
    ensures forall x, b :: Unsettled(s', x, pace) && Tracked(s', b, pace) && b != x ==>
              Cum(s', b) != Cum(s', x) && (Cum(s', b) < Cum(s', x) ==> Cum(s', b) <= s'.charged[x].previous)
  {
    AcceptCounts(s, s', id, pace);
    assert ActorRecorded(s, id, s.actors[id]);
  }

  lemma AcceptKeepsRecords(s: Sys, s': Sys, id: LockId)
    requires RecordsOk(s) && AcceptStep(s, s', id)
    ensures RecordsOk(s')
  {
    assert ActorRecorded(s, id, s.actors[id]);
    forall j | j in s'.actors && j != id
      ensures ActorRecorded(s', j, s'.actors[j])
    {
      assert ActorRecorded(s, j, s.actors[j]);
    }
  }

  lemma AcceptCovers(s: Sys, start: nat, s': Sys, id: LockId, pace: Pace)
    requires CoreInv(s, start, pace) && AcceptStep(s, s', id) && !Over(s', s.actors[id].since)
    requires Prompt(pace) ==> Sealed(s)
    requires OnlyHolder(s', id, pace)
    ensures Covered(s', start, pace)
  {
    AcceptAdds(s, s', id, 0, pace);
    assert ActorRecorded(s, id, s.actors[id]) && Waits(s, s.actors[id]);
    assert s.freed == {} ==> GatedOk(s, start, s.actors[id], pace);
    assert s.freed == {} || !Prompt(pace);
    assert start + Sum(s, pace) <= s.deposit;
    assert s'.freed == {} ==> start + Sum(s', pace) <= s'.deposit;
    assert Committed(s', id, pace) && start + Sum(s', pace) - s'.charged[id].price <= s'.deposit;
  }

  lemma AcceptKeepsPay(s: Sys, start: nat, s': Sys, id: LockId, pace: Pace)
    requires PayInv(s, start, pace) && AcceptStep(s, s', id) && !Over(s', s.actors[id].since)
    ensures PayInv(s', start, pace)
  {
    AcceptedIsOnly(s, s', id, pace);
    AcceptKeepsRecords(s, s', id);
    LocksKeepLeases(s, s', id, pace);
    AcceptCovers(s, start, s', id, pace);
    if s.freed == {} {
      AcceptStacks(s, start, s', id, pace);
    }
    assert NobodyWaits(s');
  }

  // ---- what is given back ------------------------------------------------------------------

  predicate ReverseStep(s: Sys, s': Sys, id: LockId) {
    && id in s.actors && s.actors[id].Reversing? && id in s.charged
    && Mark(s) == s.actors[id].charge.v.cumulative && Mark(s') == s.actors[id].charge.previous
    && s'.actors == s.actors[id := Leaving] && s'.charged == s.charged - {id} && s'.paid == s.paid
    && s'.freed == s.freed && s'.lock == s.lock && s.clock <= s'.clock && Blocked(s') == Blocked(s)
    && s'.deposit == s.deposit
  }

  lemma ReverseCountsNoMore(s: Sys, s': Sys, id: LockId, pace: Pace)
    requires ReverseStep(s, s', id)
    ensures NoMoreCount(s, s', pace) && WaitsAsBefore(s, s')
    ensures forall j :: Committed(s', j, pace) || Unsettled(s', j, pace) ==> j != id
  {
    assert forall j :: j in s'.actors && j != id ==> s'.actors[j] == s.actors[j];
  }

  /** Everything that counts lay below the charge that is taken off. */
  lemma ReverseStacks(s: Sys, start: nat, s': Sys, id: LockId, pace: Pace)
    requires RecordsOk(s) && Stacked(s, start, pace) && ReverseStep(s, s', id) && NoMoreCount(s, s', pace)
    requires forall j :: Committed(s', j, pace) || Unsettled(s', j, pace) ==> j != id
    ensures Stacked(s', start, pace)
  {
    assert ActorRecorded(s, id, s.actors[id]) && Unsettled(s, id, pace);
    SumPart(Commitments(s', pace), Under(s, Cum(s, id), pace));
    forall x | Unsettled(s', x, pace)
      ensures start + SumMap(Under(s', Cum(s', x), pace)) <= s'.charged[x].previous
    {
      SumsShrink(s, s', Cum(s, x), pace);
    }
  }

  lemma ReverseKeepsRecords(s: Sys, s': Sys, id: LockId)
    requires RecordsOk(s) && ReverseStep(s, s', id)
    ensures RecordsOk(s')
  {
    assert ActorRecorded(s, id, s.actors[id]);
    forall j | j in s'.actors && j != id
      ensures ActorRecorded(s', j, s'.actors[j])
    {
      assert ActorRecorded(s, j, s.actors[j]);
    }
  }

  lemma ReverseKeepsPay(s: Sys, start: nat, s': Sys, id: LockId, pace: Pace)
    requires PayInv(s, start, pace) && ReverseStep(s, s', id)
    ensures PayInv(s', start, pace)
  {
    ReverseCountsNoMore(s, s', id, pace);
    ReverseKeepsRecords(s, s', id);
    LocksKeepLeases(s, s', id, pace);
    CoverShrinks(s, start, s', pace);
    if s.freed == {} {
      ReverseStacks(s, start, s', id, pace);
      forall j | j in s'.actors
        ensures GatedOk(s', start, s'.actors[j], pace)
      {
        GatedShrinks(s, start, s', s'.actors[j], pace);
      }
    }
    if Prompt(pace) {
      ReverseKeepsSealed(s, s', id);
    }
  }

  lemma ReverseKeepsSealed(s: Sys, s': Sys, id: LockId)
    requires Sealed(s) && ReverseStep(s, s', id)
    ensures Sealed(s')
  {
    assert forall j :: j in s'.actors && j != id ==> s'.actors[j] == s.actors[j];
  }

  predicate FreeStep(s: Sys, s': Sys, id: LockId) {
    && id in s.actors && s.actors[id].Absorbed?
    && s'.actors == s.actors[id := Leaving] && s'.charged == s.charged && s'.paid == s.paid
    && s'.freed == s.freed + {id} && s'.lock == s.lock && s.clock <= s'.clock && Blocked(s') == Blocked(s)
    && s'.deposit == s.deposit
  }

  lemma FreeKeepsPay(s: Sys, start: nat, s': Sys, id: LockId, pace: Pace)
    requires PayInv(s, start, pace) && FreeStep(s, s', id)
    ensures PayInv(s', start, pace)
  {
    assert ActorRecorded(s, id, s.actors[id]);
    assert forall j :: j in s'.actors && j != id ==> s'.actors[j] == s.actors[j];
    assert NoMoreCount(s, s', pace) && WaitsAsBefore(s, s');
    LocksKeepLeases(s, s', id, pace);
    CoverShrinks(s, start, s', pace);
    FreeKeepsRecords(s, s', id);
    assert id in s'.freed;
  }

  lemma FreeKeepsRecords(s: Sys, s': Sys, id: LockId)
    requires RecordsOk(s) && FreeStep(s, s', id)
    ensures RecordsOk(s')
  {
    assert ActorRecorded(s, id, s.actors[id]);
    forall j | j in s'.actors && j != id
      ensures ActorRecorded(s', j, s'.actors[j])
    {
      assert ActorRecorded(s, j, s.actors[j]);
    }
  }

  /** A prompt call sets the fence while the lock is its own, and so while nobody waits. */
  lemma FenceKeepsPay(s: Sys, start: nat, id: LockId, at: int, pace: Pace)
    requires PayInv(s, start, pace) && id in s.actors && s.actors[id].Absorbing? && s.clock <= at
    requires at - s.actors[id].since <= pace.fence
    ensures PayInv(At(s, id, Absorbed(s.actors[id].charge)).(fenced := true, clock := at), start, pace)
  {
    var s' := At(s, id, Absorbed(s.actors[id].charge)).(fenced := true, clock := at);
    assert ActorRecorded(s, id, s.actors[id]);
    MovesKeepCore(s, start, s', id, pace);
    if Prompt(pace) {
      assert HoldsLive(s, s.actors[id], pace);
      HolderIsOnly(s, id, pace);
      assert NobodyWaits(s');
    }
  }

  // ---- every action -------------------------------------------------------------------------

  lemma AcceptStepKeepsPay(s: Sys, start: nat, x: Actor, a: Action, at: int, pace: Pace)
    requires PayInv(s, start, pace) && Orderly(pace) && a.id in s.actors && s.actors[a.id] == x && s.clock <= at
    requires a.Accept? && x.Gated? && Accepts(s.watermark, a.v.cumulative, x.price) && ActorInTime(x, a, at, pace)
    ensures PayInv(DoCharge(s, x, a).(clock := at), start, pace)
  {
    var s' := DoCharge(s, x, a).(clock := at);
    if Over(s', x.since) {
      LateAcceptMoves(s, s', a.id, pace);
      MovesKeepPay(s, start, s', a.id, pace);
    } else {
      AcceptKeepsPay(s, start, s', a.id, pace);
    }
  }

  lemma ChargeMoves(s: Sys, x: Actor, a: Action, at: int, pace: Pace)
    requires RecordsOk(s) && Leases(s, pace) && a.id in s.actors && s.actors[a.id] == x && s.clock <= at
    requires OfCharge(a) && ActorInTime(x, a, at, pace)
    requires !(a.Accept? && x.Gated? && Accepts(s.watermark, a.v.cumulative, x.price))
    ensures DoCharge(s, x, a) == s || Moves(s, DoCharge(s, x, a).(clock := at), a.id, pace)
  {
    if (a.Check? && x.Entered?) || (a.Gate? && x.Passed? && a.price > 0) || (a.Accept? && x.Gated?) {
      GateMoves(s, x, a, at, pace);
    } else if a.Refresh? && x.Charged? {
      RefreshMoves(s, x, a, at, pace);
    } else if a.Pay? && x.Paying? {
      PayMoves(s, a.id, x.charge, x.since, a.paid, at, pace);
    }
  }

  lemma ChargeKeepsPay(s: Sys, start: nat, x: Actor, a: Action, at: int, pace: Pace)
    requires PayInv(s, start, pace) && Orderly(pace) && a.id in s.actors && s.actors[a.id] == x && s.clock <= at
    requires OfCharge(a) && ActorInTime(x, a, at, pace)
    ensures PayInv(DoCharge(s, x, a).(clock := at), start, pace)
  {
    if a.Accept? && x.Gated? && Accepts(s.watermark, a.v.cumulative, x.price) {
      AcceptStepKeepsPay(s, start, x, a, at, pace);
    } else {
      ChargeMoves(s, x, a, at, pace);
      if DoCharge(s, x, a) == s {
        WaitKeepsPay(s, start, s.(clock := at), pace);
      } else {
        MovesKeepPay(s, start, DoCharge(s, x, a).(clock := at), a.id, pace);
      }
    }
  }

  /** A rollback that fails leaves the charge where it is. */
  lemma StuckMoves(s: Sys, s': Sys, id: LockId, pace: Pace)
    requires RecordsOk(s) && Leases(s, pace) && id in s.actors && s.actors[id].Reversing? && s.clock <= s'.clock
    requires s' == At(s, id, Stuck).(clock := s'.clock)
    ensures Moves(s, s', id, pace)
  {
    RecedingMoves(s, s', id, pace);
  }

  lemma UndoKeepsPay(s: Sys, start: nat, x: Actor, a: Action, at: int, pace: Pace)
    requires PayInv(s, start, pace) && a.id in s.actors && s.actors[a.id] == x && s.clock <= at && a.Undo?
    ensures PayInv(DoConclude(s, x, a).(clock := at), start, pace)
  {
    var s' := DoConclude(s, x, a).(clock := at);
    assert ActorRecorded(s, a.id, x);
    if x.Absorbed? {
      FreeKeepsPay(s, start, s', a.id, pace);
    } else if !x.Reversing? {
      WaitKeepsPay(s, start, s', pace);
    } else if RollbackChange(s.watermark, x.charge.v.cumulative, x.charge.previous).result {
      ReverseKeepsPay(s, start, s', a.id, pace);
    } else {
      StuckMoves(s, s', a.id, pace);
      MovesKeepPay(s, start, s', a.id, pace);
    }
  }

  lemma ConclusionMoves(s: Sys, x: Actor, a: Action, at: int, pace: Pace)
    requires RecordsOk(s) && Leases(s, pace) && a.id in s.actors && s.actors[a.id] == x && s.clock <= at
    requires !OfCharge(a) && !a.Undo? && !(a.Block? && x.Absorbing?) && ActorInTime(x, a, at, pace)
    ensures DoConclude(s, x, a) == s || Moves(s, DoConclude(s, x, a).(clock := at), a.id, pace)
  {
    if a.Persist? && x.Paid? {
      PersistMoves(s, x, a, at, pace);
    } else if (a.Put? || a.PutLost?) && x.Persisting? {
      StoreMoves(s, x, a, at, pace);
    } else if (a.Cover? && x.Doubtful?) || (a.Block? && x.Stuck?) {
      DoubtMoves(s, x, a, at, pace);
    }
  }

  lemma ConclusionKeepsPay(s: Sys, start: nat, x: Actor, a: Action, at: int, pace: Pace)
    requires PayInv(s, start, pace) && a.id in s.actors && s.actors[a.id] == x && s.clock <= at
    requires !OfCharge(a) && ActorInTime(x, a, at, pace)
    ensures PayInv(DoConclude(s, x, a).(clock := at), start, pace)
  {
    if a.Undo? {
      UndoKeepsPay(s, start, x, a, at, pace);
    } else if a.Block? && x.Absorbing? {
      FenceKeepsPay(s, start, a.id, at, pace);
    } else {
      ConclusionMoves(s, x, a, at, pace);
      if DoConclude(s, x, a) == s {
        WaitKeepsPay(s, start, s.(clock := at), pace);
      } else {
        ConclusionAbsorbsNone(s, x, a);
        MovesKeepPay(s, start, DoConclude(s, x, a).(clock := at), a.id, pace);
      }
    }
  }

  lemma ConclusionAbsorbsNone(s: Sys, x: Actor, a: Action)
    requires a.id in s.actors && s.actors[a.id] == x
    requires !a.Undo? && !(a.Block? && x.Absorbing?) && DoConclude(s, x, a) != s
    ensures a.id in DoConclude(s, x, a).actors && !DoConclude(s, x, a).actors[a.id].Absorbed?
  {
  }

  lemma SettlementKeepsPay(s: Sys, start: nat, x: Actor, a: Action, at: int, pace: Pace)
    requires PayInv(s, start, pace) && a.id in s.actors && s.actors[a.id] == x && s.clock <= at && OfSettlement(a)
    ensures PayInv(DoSettle(s, x, a).(clock := at), start, pace)
  {
    var s' := DoSettle(s, x, a).(clock := at);
    if DoSettle(s, x, a) == s {
      WaitKeepsPay(s, start, s', pace);
    } else {
      if a.Proceed? {
        ProceedMoves(s, a.id, a.now, x.read, a.closing, at, pace);
      } else if a.Read? || a.MarkClosed? {
        ReaderMoves(s, x, a, at, pace);
      } else {
        CloserMoves(s, x, a, at, pace);
      }
      MovesKeepPay(s, start, s', a.id, pace);
    }
  }

  lemma EnterKeepsPay(s: Sys, start: nat, id: LockId, now: int, settling: bool, at: int, pace: Pace)
    requires PayInv(s, start, pace) && s.clock <= at && now <= at
    ensures PayInv(DoEnter(s, id, now, settling).(clock := at), start, pace)
  {
    var s' := DoEnter(s, id, now, settling).(clock := at);
    if id in s.actors || Holds(s, id) {
      WaitKeepsPay(s, start, s', pace);
    } else {
      EnterMoves(s, id, now, settling, at, pace);
      MovesKeepPay(s, start, s', id, pace);
    }
  }

  lemma DoKeepsPay(s: Sys, start: nat, e: Event, pace: Pace)
    requires PayInv(s, start, pace) && Orderly(pace) && InTime(s, e, pace)
    ensures PayInv(Do(s, e), start, pace)
  {
    var a := e.action;
    if a.Enter? {
      EnterKeepsPay(s, start, a.id, a.now, a.settling, e.at, pace);
    } else if a.Fence? || a.id !in s.actors || (a.Release? && s.actors[a.id].Gone?) {
      WaitKeepsPay(s, start, Do(s, e), pace);
    } else if a.Release? {
      ReleaseMoves(s, a.id, e.at, pace);
      MovesKeepPay(s, start, Do(s, e), a.id, pace);
    } else if OfSettlement(a) {
      SettlementKeepsPay(s, start, s.actors[a.id], a, e.at, pace);
    } else if OfCharge(a) {
      ChargeKeepsPay(s, start, s.actors[a.id], a, e.at, pace);
    } else {
      ConclusionKeepsPay(s, start, s.actors[a.id], a, e.at, pace);
    }
  }

  lemma {:induction false} RunKeepsPay(s: Sys, start: nat, events: seq<Event>, pace: Pace)
    requires PayInv(s, start, pace) && Orderly(pace) && AllInTime(s, events, pace)
    ensures PayInv(Run(s, events), start, pace)
    decreases |events|
  {
    if events != [] {
      DoKeepsPay(s, start, events[0], pace);
      RunKeepsPay(Do(s, events[0]), start, events[1..], pace);
    }
  }
}
