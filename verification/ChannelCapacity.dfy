/** What a channel's calls may take out of its deposit: the capacity rule, kept by the
    gate, the lock, the rollback of calls that were not paid for, and the fence. */
module ChannelCapacity {
  import opened Sums
  import opened Channel
  import opened ChannelProtocol
  import opened ChannelSafety

  function Stored(s: Sys): nat { if s.voucher.Some? then s.voucher.value.signed.cumulative else 0 }

  function Mark(s: Sys): nat { AmountOf(s.watermark) }

  function Prices(charged: map<LockId, Charge>): map<LockId, int> {
    map id | id in charged :: charged[id].price
  }

  /** All charges accepted and not reversed. */
  ghost function Total(s: Sys): int { SumMap(Prices(s.charged)) }

  lemma PricesOfOneMore(charged: map<LockId, Charge>, id: LockId, c: Charge)
    requires id !in charged
    ensures SumMap(Prices(charged[id := c])) == SumMap(Prices(charged)) + c.price
  {
    assert Prices(charged[id := c]) == Prices(charged)[id := c.price];
    SumUpdate(Prices(charged), id, c.price);
  }

  lemma PricesOfOneLess(charged: map<LockId, Charge>, id: LockId)
    requires id in charged
    ensures SumMap(Prices(charged)) == charged[id].price + SumMap(Prices(charged - {id}))
  {
    SumRemove(Prices(charged), id);
    assert Prices(charged) - {id} == Prices(charged - {id});
  }

  /** Nothing goes beyond the deposit; and until the channel is blocked the watermark has
      moved by just the charges that stand, and covers the voucher stored. */
  ghost predicate Counted(s: Sys, start: nat) {
    && Mark(s) <= s.deposit && Stored(s) <= s.deposit
    && (!Blocked(s) ==> Stored(s) <= Mark(s) == start + Total(s))
  }

  // ---- the invariant ------------------------------------------------------------------

  /** A call that upstream has not been paid for. */
  predicate Early(a: Actor) {
    a.Entered? || a.Passed? || a.Gated? || a.Charged? || a.Paying? || a.Reversing?
  }

  predicate Live(s: Sys, a: Actor) { Early(a) && !Over(s, a.since) }

  predicate Bears(a: Actor) {
    a.Charged? || a.Paying? || a.Reversing? || a.Paid? || a.Persisting? || a.Doubtful? || a.Absorbing? || a.Absorbed?
  }

  /** It can still be accepted. */
  predicate Waiting(s: Sys, a: Actor) { Live(s, a) && (a.Passed? || a.Gated?) }

  /** It can still be reversed. */
  predicate Open(s: Sys, a: Actor) { Live(s, a) && (a.Charged? || a.Paying? || a.Reversing?) }

  /** Its rollback would not take the watermark down by its price. */
  predicate Skewed(a: Actor) { Bears(a) && a.charge.previous + a.charge.price != a.charge.v.cumulative }

  predicate WaitingOk(s: Sys, id: LockId, a: Actor) {
    && (Live(s, a) ==> Leased(s, id, a.since))
    && (a.Entered? || a.Passed? || a.Gated? ==> id !in s.charged)
    && (a.Gated? ==> a.previous + a.price <= s.deposit)
    && (a.Gated? && Live(s, a) ==> Mark(s) <= a.previous && (!Blocked(s) ==> Mark(s) == a.previous))
  }

  predicate ChargeOk(s: Sys, id: LockId, a: Actor) {
    Bears(a) ==>
      && a.charge.previous + a.charge.price <= s.deposit && a.charge.v.cumulative <= a.charge.previous + a.charge.price
      && id in s.charged && s.charged[id] == a.charge
      && (a.Charged? || a.Paying? || a.Reversing? ==> id !in s.paid)
      && (a.Absorbed? || Skewed(a) ==> Blocked(s))
      && (!Blocked(s) ==> a.charge.v.cumulative <= Mark(s))
      && (!Blocked(s) && Open(s, a) ==> Mark(s) == a.charge.v.cumulative && Stored(s) <= a.charge.previous)
  }

  /** Every other charge that stands lies below one that can still be reversed, and once
      a charge is skewed no call waits any more. */
  predicate PairOk(s: Sys, a: Actor, b: Actor) {
    && (!Blocked(s) && Open(s, a) && Bears(b) ==> b.charge.v.cumulative <= a.charge.previous)
    && (Skewed(a) ==> !Waiting(s, b))
  }

  ghost predicate EachOk(s: Sys) {
    forall id :: id in s.actors ==> WaitingOk(s, id, s.actors[id]) && ChargeOk(s, id, s.actors[id])
  }

  ghost predicate PairsOk(s: Sys) {
    forall i, j :: i in s.actors && j in s.actors && i != j ==> PairOk(s, s.actors[i], s.actors[j])
  }

  ghost predicate BooksOk(s: Sys, start: nat) {
    && Counted(s, start)
    && (forall id :: id in s.charged ==> id in s.actors)
    && (forall id :: id in s.paid ==> id in s.charged)
  }

  ghost predicate CapInv(s: Sys, start: nat) {
    EachOk(s) && PairsOk(s) && BooksOk(s, start)
  }

  predicate CapPace(pace: Pace) {
    pace.accept < DELIVERY_LOCK_TTL_MS && pace.refresh < DELIVERY_LOCK_TTL_MS && pace.reverse < DELIVERY_LOCK_TTL_MS
  }

  predicate Later(s: Sys, s': Sys) {
    s.clock <= s'.clock && (Blocked(s) ==> Blocked(s')) && s'.deposit == s.deposit
  }

  /** Nobody but id is live. */
  predicate Alone(s: Sys, id: LockId) {
    forall j :: j in s.actors && j != id ==> !Live(s, s.actors[j])
  }

  lemma HolderIsAlone(s: Sys, id: LockId)
    requires EachOk(s) && (Holds(s, id) || s.lock.None?)
    ensures Alone(s, id)
  {
    forall j | j in s.actors && j != id
      ensures !Live(s, s.actors[j])
    {
      assert WaitingOk(s, j, s.actors[j]);
    }
  }

  // ---- steps that count nothing ------------------------------------------------------------

  /** The same watermark, voucher and charges. The lock changes only while nobody else is
      live. */
  predicate Quiet(s: Sys, s': Sys, id: LockId) {
    && Later(s, s') && s'.watermark == s.watermark && s'.charged == s.charged && Stored(s') == Stored(s)
    && (s'.lock == s.lock || Alone(s', id))
  }

  /** It bears the charge it bore, if any; it is still to be reversed, or waiting, only if
      it was, or was let through an open gate. */
  predicate Follows(s: Sys, x: Actor, s': Sys, next: Actor) {
    && (Bears(next) ==> Bears(x) && next.charge == x.charge)
    && (Open(s', next) ==> Open(s, x))
    && (Waiting(s', next) ==> Waiting(s, x) || !Blocked(s))
  }

  predicate MovesQuietly(s: Sys, s': Sys, id: LockId, next: Actor) {
    && id in s.actors && s'.actors == s.actors[id := next] && Quiet(s, s', id) && Follows(s, s.actors[id], s', next)
    && WaitingOk(s', id, next) && ChargeOk(s', id, next)
    && (s'.paid == s.paid || (s'.paid == s.paid + {id} && s.actors[id].Paying? && id in s.charged))
  }

  lemma QuietKeepsEach(s: Sys, s': Sys, id: LockId, next: Actor)
    requires EachOk(s) && MovesQuietly(s, s', id, next)
    ensures EachOk(s')
  {
    forall j | j in s'.actors && j != id
      ensures WaitingOk(s', j, s'.actors[j]) && ChargeOk(s', j, s'.actors[j])
    {
      assert s'.actors[j] == s.actors[j] && (Live(s', s.actors[j]) ==> Live(s, s.actors[j]));
      assert WaitingOk(s, j, s.actors[j]) && ChargeOk(s, j, s.actors[j]);
    }
  }

  lemma QuietKeepsPairs(s: Sys, s': Sys, id: LockId, next: Actor)
    requires EachOk(s) && PairsOk(s) && MovesQuietly(s, s', id, next)
    ensures PairsOk(s')
  {
    forall i, j | i in s'.actors && j in s'.actors && i != j
      ensures PairOk(s', s'.actors[i], s'.actors[j])
    {
      assert PairOk(s, s.actors[i], s.actors[j]);
      assert ChargeOk(s, i, s.actors[i]);
    }
  }

  lemma QuietKeepsCap(s: Sys, start: nat, s': Sys, id: LockId, next: Actor)
    requires CapInv(s, start) && MovesQuietly(s, s', id, next)
    ensures CapInv(s', start)
  {
    QuietKeepsEach(s, s', id, next);
    QuietKeepsPairs(s, s', id, next);
  }

  lemma WaitKeepsCap(s: Sys, start: nat, s': Sys)
    requires CapInv(s, start) && Later(s, s') && s' == s.(clock := s'.clock, fenced := s'.fenced)
    ensures CapInv(s', start)
  {
  }

  lemma NewcomerKeepsCap(s: Sys, start: nat, id: LockId, a: Actor, s': Sys)
    requires CapInv(s, start) && id !in s.actors && (a.Entered? || (!Early(a) && !Bears(a)))
    requires s'.actors == s.actors[id := a] && s'.paid == s.paid && Quiet(s, s', id) && WaitingOk(s', id, a)
    ensures CapInv(s', start)
  {
    forall i, j | i in s'.actors && j in s'.actors && i != j
      ensures PairOk(s', s'.actors[i], s'.actors[j])
    {
      if i != id && j != id {
        assert PairOk(s, s.actors[i], s.actors[j]);
      }
    }
    NewcomerKeepsEach(s, id, a, s');
  }

  lemma NewcomerKeepsEach(s: Sys, id: LockId, a: Actor, s': Sys)
    requires EachOk(s) && id !in s.actors && !Bears(a)
    requires s'.actors == s.actors[id := a] && s'.paid == s.paid && Quiet(s, s', id) && WaitingOk(s', id, a)
    ensures EachOk(s')
  {
    forall j | j in s'.actors && j != id
      ensures WaitingOk(s', j, s'.actors[j]) && ChargeOk(s', j, s'.actors[j])
    {
      assert WaitingOk(s, j, s.actors[j]) && ChargeOk(s, j, s.actors[j]);
    }
  }

  lemma EnterKeepsCap(s: Sys, start: nat, id: LockId, now: int, settling: bool, at: int)
    requires CapInv(s, start) && s.clock <= at && now <= at
    ensures CapInv(DoEnter(s, id, now, settling).(clock := at), start)
  {
    var s' := DoEnter(s, id, now, settling).(clock := at);
    if id in s.actors || Holds(s, id) {
      WaitKeepsCap(s, start, s');
    } else {
      forall j | j in s'.actors && j != id && s'.lock != s.lock
        ensures !Live(s', s'.actors[j])
      {
        assert WaitingOk(s, j, s.actors[j]);
      }
      NewcomerKeepsCap(s, start, id, s'.actors[id], s');
    }
  }

  /** A step of id that takes the lock, if it changes it, from nobody but itself. */
  lemma OwnLockKeepsQuiet(s: Sys, s': Sys, id: LockId)
    requires EachOk(s) && Later(s, s') && id in s.actors && id in s'.actors
    requires s'.actors == s.actors[id := s'.actors[id]]
    requires s'.lock == s.lock || Holds(s, id)
    requires s'.watermark == s.watermark && s'.charged == s.charged && Stored(s') == Stored(s)
    ensures Quiet(s, s', id)
  {
    if s'.lock != s.lock {
      HolderIsAlone(s, id);
      assert forall j :: j in s'.actors && j != id ==> s'.actors[j] == s.actors[j];
    }
  }

  /** Nothing is left that could be accepted or reversed. */
  predicate Settles(x: Actor, next: Actor) {
    !Early(next) && (Bears(next) ==> Bears(x) && next.charge == x.charge && !next.Absorbed?)
  }

  predicate SettlesBy(s: Sys, s': Sys, id: LockId) {
    && Later(s, s') && id in s.actors && id in s'.actors
    && s'.actors == s.actors[id := s'.actors[id]] && Settles(s.actors[id], s'.actors[id])
    && (s'.lock == s.lock || Holds(s, id))
    && s'.watermark == s.watermark && s'.charged == s.charged && Stored(s') == Stored(s)
    && (s'.paid == s.paid || (s'.paid == s.paid + {id} && s.actors[id].Paying?))
  }

  lemma SettlingKeepsCap(s: Sys, start: nat, id: LockId, s': Sys)
    requires CapInv(s, start) && SettlesBy(s, s', id)
    ensures CapInv(s', start)
  {
    assert WaitingOk(s, id, s.actors[id]) && ChargeOk(s, id, s.actors[id]);
    OwnLockKeepsQuiet(s, s', id);
    QuietKeepsCap(s, start, s', id, s'.actors[id]);
  }

  lemma CheckKeepsCap(s: Sys, start: nat, id: LockId, at: int)
    requires CapInv(s, start) && id in s.actors && s.actors[id].Entered? && !Blocked(s) && s.clock <= at
    ensures CapInv(At(s, id, Passed(s.actors[id].since)).(clock := at), start)
  {
    assert WaitingOk(s, id, s.actors[id]);
    QuietKeepsCap(s, start, At(s, id, Passed(s.actors[id].since)).(clock := at), id, Passed(s.actors[id].since));
  }

  lemma GateKeepsCap(s: Sys, start: nat, id: LockId, price: nat, at: int)
    requires CapInv(s, start) && id in s.actors && s.actors[id].Passed? && s.clock <= at
    ensures CapInv(DoGate(s, id, price, s.actors[id].since).(clock := at), start)
  {
    var s' := DoGate(s, id, price, s.actors[id].since).(clock := at);
    assert WaitingOk(s, id, s.actors[id]);
    QuietKeepsCap(s, start, s', id, s'.actors[id]);
  }

  lemma RefreshKeepsCap(s: Sys, start: nat, id: LockId, now: int, at: int)
    requires CapInv(s, start) && id in s.actors && s.actors[id].Charged? && s.clock <= at && now <= at
    requires at < s.actors[id].since + DELIVERY_LOCK_TTL_MS
    ensures var c := s.actors[id].charge;
            CapInv(DoRevalidate(s, id, now, Paying(c, now), Reversing(c, now)).(clock := at), start)
  {
    var c := s.actors[id].charge;
    var s' := DoRevalidate(s, id, now, Paying(c, now), Reversing(c, now)).(clock := at);
    assert WaitingOk(s, id, s.actors[id]) && ChargeOk(s, id, s.actors[id]);
    OwnLockKeepsQuiet(s, s', id);
    QuietKeepsCap(s, start, s', id, s'.actors[id]);
  }

  lemma UnpaidKeepsCap(s: Sys, start: nat, id: LockId, at: int)
    requires CapInv(s, start) && id in s.actors && s.actors[id].Paying? && s.clock <= at
    ensures var x := s.actors[id]; CapInv(At(s, id, Reversing(x.charge, x.since)).(clock := at), start)
  {
    var x := s.actors[id];
    assert WaitingOk(s, id, x) && ChargeOk(s, id, x);
    QuietKeepsCap(s, start, At(s, id, Reversing(x.charge, x.since)).(clock := at), id, Reversing(x.charge, x.since));
  }

  lemma FenceFirstKeepsCap(s: Sys, start: nat, id: LockId, at: int)
    requires CapInv(s, start) && id in s.actors && s.actors[id].Absorbing? && s.clock <= at
    ensures CapInv(At(s, id, Absorbed(s.actors[id].charge)).(fenced := true, clock := at), start)
  {
    var s' := At(s, id, Absorbed(s.actors[id].charge)).(fenced := true, clock := at);
    assert WaitingOk(s, id, s.actors[id]) && ChargeOk(s, id, s.actors[id]);
    QuietKeepsCap(s, start, s', id, s'.actors[id]);
  }

  // ---- steps that count ------------------------------------------------------------------

  lemma PutKeepsCap(s: Sys, start: nat, id: LockId, next: Actor, at: int)
    requires CapInv(s, start) && id in s.actors && s.actors[id].Persisting? && s.clock <= at
    requires Settles(s.actors[id], next)
    ensures CapInv(DoPut(s, id, s.actors[id].charge.v, next).(clock := at), start)
  {
    var c := s.actors[id].charge;
    var s' := DoPut(s, id, c.v, next).(clock := at);
    assert ChargeOk(s, id, s.actors[id]);
    forall j | j in s'.actors && j != id
      ensures WaitingOk(s', j, s'.actors[j]) && ChargeOk(s', j, s'.actors[j])
    {
      assert PairOk(s, s.actors[j], s.actors[id]);
      assert WaitingOk(s, j, s.actors[j]) && ChargeOk(s, j, s.actors[j]);
    }
    PutKeepsPairs(s, s', id);
  }

  lemma PutKeepsPairs(s: Sys, s': Sys, id: LockId)
    requires PairsOk(s) && Later(s, s') && id in s.actors && id in s'.actors
    requires s'.actors == s.actors[id := s'.actors[id]] && Settles(s.actors[id], s'.actors[id])
    ensures PairsOk(s')
  {
    forall i, j | i in s'.actors && j in s'.actors && i != j
      ensures PairOk(s', s'.actors[i], s'.actors[j])
    {
      assert PairOk(s, s.actors[i], s.actors[j]);
    }
  }

  /** The voucher accepted goes on top of all charges that stand; nobody else is live. */
  lemma AcceptKeepsCap(s: Sys, start: nat, id: LockId, v: Signed, at: int)
    requires CapInv(s, start) && id in s.actors && s.actors[id].Gated? && s.clock <= at
    requires at < s.actors[id].since + DELIVERY_LOCK_TTL_MS && Accepts(s.watermark, v.cumulative, s.actors[id].price)
    ensures var x := s.actors[id];
            CapInv(DoAccept(s, id, v, x.previous, x.price, x.since).(clock := at), start)
  {
    var x := s.actors[id];
    var s' := DoAccept(s, id, v, x.previous, x.price, x.since).(clock := at);
    assert WaitingOk(s, id, x) && Waiting(s, x);
    HolderIsAlone(s, id);
    AcceptKeepsEach(s, s', id);
    AcceptKeepsPairs(s, s', id);
    PricesOfOneMore(s.charged, id, Charge(v, x.previous, x.price));
  }

  /** What acceptance by id makes of things. */
  predicate AcceptedBy(s: Sys, s': Sys, id: LockId) {
    && id in s.actors && s.actors[id].Gated? && Live(s, s.actors[id])
    && id in s'.actors && s'.actors == s.actors[id := s'.actors[id]] && s'.actors[id].Charged?
    && s'.actors[id].since == s.actors[id].since
    && s'.actors[id].charge.previous == s.actors[id].previous && s'.actors[id].charge.price == s.actors[id].price
    && s'.actors[id].charge.v.cumulative == Mark(s) + s.actors[id].price == Mark(s')
    && s'.charged == s.charged[id := s'.actors[id].charge] && s'.paid == s.paid && s'.lock == s.lock
    && Later(s, s') && Blocked(s') == Blocked(s) && Stored(s') == Stored(s)
  }

  lemma AcceptKeepsEach(s: Sys, s': Sys, id: LockId)
    requires EachOk(s) && Alone(s, id) && AcceptedBy(s, s', id) && (forall j :: j in s.paid ==> j in s.charged)
    requires !Blocked(s) ==> Stored(s) <= Mark(s)
    ensures EachOk(s')
  {
    assert WaitingOk(s, id, s.actors[id]);
    forall j | j in s'.actors && j != id
      ensures WaitingOk(s', j, s'.actors[j]) && ChargeOk(s', j, s'.actors[j])
    {
      assert WaitingOk(s, j, s.actors[j]) && ChargeOk(s, j, s.actors[j]);
    }
  }

  lemma AcceptKeepsPairs(s: Sys, s': Sys, id: LockId)
    requires EachOk(s) && PairsOk(s) && Alone(s, id) && AcceptedBy(s, s', id)
    ensures PairsOk(s')
  {
    assert WaitingOk(s, id, s.actors[id]);
    forall i, j | i in s'.actors && j in s'.actors && i != j
      ensures PairOk(s', s'.actors[i], s'.actors[j])
    {
      assert PairOk(s, s.actors[i], s.actors[j]);
      assert ChargeOk(s, j, s.actors[j]);
    }
  }

  /** The charge on top is taken off again; what lies below it stays covered. */
  lemma ReverseKeepsCap(s: Sys, start: nat, id: LockId, at: int)
    requires CapInv(s, start) && id in s.actors && s.actors[id].Reversing? && s.clock <= at
    requires at < s.actors[id].since + DELIVERY_LOCK_TTL_MS
    ensures CapInv(DoReverse(s, id, s.actors[id].charge).(clock := at), start)
  {
    var x := s.actors[id];
    var s' := DoReverse(s, id, x.charge).(clock := at);
    assert WaitingOk(s, id, x) && ChargeOk(s, id, x) && Open(s, x);
    HolderIsAlone(s, id);
    if RollbackChange(s.watermark, x.charge.v.cumulative, x.charge.previous).result {
      PricesOfOneLess(s.charged, id);
      ReversedKeepsEach(s, s', id);
      ReversedKeepsPairs(s, s', id);
      ReversedKeepsBooks(s, s', start, id);
    } else {
      QuietKeepsCap(s, start, s', id, Stuck);
    }
  }

  predicate ReversedBy(s: Sys, s': Sys, id: LockId) {
    && id in s.actors && s.actors[id].Reversing? && Open(s, s.actors[id]) && id in s.charged && id !in s.paid
    && s'.actors == s.actors[id := Leaving] && s'.charged == s.charged - {id} && s'.paid == s.paid
    && Mark(s') == s.actors[id].charge.previous && s'.lock == s.lock
    && Later(s, s') && Blocked(s') == Blocked(s) && Stored(s') == Stored(s)
  }

  lemma ReversedKeepsEach(s: Sys, s': Sys, id: LockId)
    requires EachOk(s) && PairsOk(s) && Alone(s, id) && ReversedBy(s, s', id)
    ensures EachOk(s')
  {
    forall j | j in s'.actors && j != id
      ensures WaitingOk(s', j, s'.actors[j]) && ChargeOk(s', j, s'.actors[j])
    {
      assert PairOk(s, s.actors[id], s.actors[j]);
      assert WaitingOk(s, j, s.actors[j]) && ChargeOk(s, j, s.actors[j]);
    }
  }

  lemma ReversedKeepsPairs(s: Sys, s': Sys, id: LockId)
    requires PairsOk(s) && ReversedBy(s, s', id)
    ensures PairsOk(s')
  {
    forall i, j | i in s'.actors && j in s'.actors && i != j
      ensures PairOk(s', s'.actors[i], s'.actors[j])
    {
      assert PairOk(s, s.actors[i], s.actors[j]);
    }
  }

  lemma ReversedKeepsBooks(s: Sys, s': Sys, start: nat, id: LockId)
    requires EachOk(s) && BooksOk(s, start) && Alone(s, id) && ReversedBy(s, s', id)
    requires Total(s) == s.charged[id].price + Total(s')
    ensures BooksOk(s', start)
  {
    assert ChargeOk(s, id, s.actors[id]);
  }

  /** A paid call's capacity comes free only behind the fence; a call that waits has seen
      a watermark at least as high. */
  lemma FreeKeepsCap(s: Sys, start: nat, id: LockId, at: int)
    requires CapInv(s, start) && id in s.actors && s.actors[id].Absorbed? && s.clock <= at
    ensures CapInv(DoFree(s, id, s.actors[id].charge).(clock := at), start)
  {
    var x := s.actors[id];
    var s' := DoFree(s, id, x.charge).(clock := at);
    assert ChargeOk(s, id, x);
    forall j | j in s'.actors && j != id
      ensures WaitingOk(s', j, s'.actors[j]) && ChargeOk(s', j, s'.actors[j])
    {
      assert PairOk(s, x, s.actors[j]);
      assert WaitingOk(s, j, s.actors[j]) && ChargeOk(s, j, s.actors[j]);
    }
    PutKeepsPairs(s, s', id);
  }

  // ---- every action -----------------------------------------------------------------------

  lemma ChargeKeepsCap(s: Sys, start: nat, x: Actor, a: Action, at: int, pace: Pace)
    requires CapInv(s, start) && CapPace(pace) && a.id in s.actors && s.actors[a.id] == x && s.clock <= at
    requires OfCharge(a) && ActorInTime(x, a, at, pace) && (a.Refresh? ==> a.now <= at)
    ensures CapInv(DoCharge(s, x, a).(clock := at), start)
  {
    if a.Check? && x.Entered? && !Blocked(s) {
      CheckKeepsCap(s, start, a.id, at);
    } else if a.Gate? && x.Passed? && a.price > 0 {
      GateKeepsCap(s, start, a.id, a.price, at);
    } else if a.Accept? && x.Gated? && Accepts(s.watermark, a.v.cumulative, x.price) {
      AcceptKeepsCap(s, start, a.id, a.v, at);
    } else if a.Refresh? && x.Charged? {
      RefreshKeepsCap(s, start, a.id, a.now, at);
    } else if a.Pay? && x.Paying? && !a.paid {
      UnpaidKeepsCap(s, start, a.id, at);
    } else {
      PlainCallKeepsCap(s, start, x, a, at);
    }
  }

  lemma ConclusionKeepsCap(s: Sys, start: nat, x: Actor, a: Action, at: int, pace: Pace)
    requires CapInv(s, start) && CapPace(pace) && a.id in s.actors && s.actors[a.id] == x && s.clock <= at
    requires !OfCharge(a) && ActorInTime(x, a, at, pace)
    ensures CapInv(DoConclude(s, x, a).(clock := at), start)
  {
    if a.Undo? && x.Reversing? {
      ReverseKeepsCap(s, start, a.id, at);
    } else if a.Undo? && x.Absorbed? {
      FreeKeepsCap(s, start, a.id, at);
    } else if a.Put? && x.Persisting? {
      PutKeepsCap(s, start, a.id, Leaving, at);
    } else if a.PutLost? && a.landed && x.Persisting? {
      PutKeepsCap(s, start, a.id, Doubtful(x.charge, x.since), at);
    } else if a.Block? && x.Absorbing? {
      FenceFirstKeepsCap(s, start, a.id, at);
    } else {
      PlainCallKeepsCap(s, start, x, a, at);
    }
  }

  /** Steps that let a call go on towards being paid for, or take it back. */
  predicate LetsThrough(s: Sys, x: Actor, a: Action) {
    || (a.Check? && x.Entered? && !Blocked(s)) || (a.Gate? && x.Passed? && a.price > 0) || (a.Refresh? && x.Charged?)
    || (a.Accept? && x.Gated? && Accepts(s.watermark, a.v.cumulative, x.price)) || (a.Pay? && x.Paying? && !a.paid)
  }

  predicate Counts(x: Actor, a: Action) {
    || (a.Undo? && (x.Reversing? || x.Absorbed?)) || (a.Block? && x.Absorbing?)
    || (x.Persisting? && (a.Put? || (a.PutLost? && a.landed)))
  }

  lemma PlainCallKeepsCap(s: Sys, start: nat, x: Actor, a: Action, at: int)
    requires CapInv(s, start) && a.id in s.actors && s.actors[a.id] == x && s.clock <= at
    requires !LetsThrough(s, x, a) && !Counts(x, a)
    ensures CapInv(DoCall(s, x, a).(clock := at), start)
  {
    var s' := DoCall(s, x, a).(clock := at);
    if DoCall(s, x, a) == s {
      WaitKeepsCap(s, start, s');
    } else {
      CallSettles(s, x, a, at);
      SettlingKeepsCap(s, start, a.id, s');
    }
  }

  /** What is left: refused, paid, about to store, not stored, read back, or given up. */
  lemma CallSettles(s: Sys, x: Actor, a: Action, at: int)
    requires a.id in s.actors && s.actors[a.id] == x && s.clock <= at
    requires !LetsThrough(s, x, a) && !Counts(x, a) && DoCall(s, x, a) != s
    ensures SettlesBy(s, DoCall(s, x, a).(clock := at), a.id)
  {
  }

  lemma SettlementKeepsCap(s: Sys, start: nat, x: Actor, a: Action, at: int)
    requires CapInv(s, start) && a.id in s.actors && s.actors[a.id] == x && s.clock <= at && OfSettlement(a)
    ensures CapInv(DoSettle(s, x, a).(clock := at), start)
  {
    var s' := DoSettle(s, x, a).(clock := at);
    if DoSettle(s, x, a) == s {
      WaitKeepsCap(s, start, s');
    } else {
      if a.Read? || a.Proceed? || a.MarkClosed? {
        EarlySettlementSettles(s, x, a, at);
      } else {
        LateSettlementSettles(s, x, a, at);
      }
      SettlingKeepsCap(s, start, a.id, s');
    }
  }

  lemma EarlySettlementSettles(s: Sys, x: Actor, a: Action, at: int)
    requires a.id in s.actors && s.actors[a.id] == x && s.clock <= at && DoSettle(s, x, a) != s
    requires a.Read? || a.Proceed? || a.MarkClosed?
    ensures SettlesBy(s, DoSettle(s, x, a).(clock := at), a.id)
  {
  }

  lemma LateSettlementSettles(s: Sys, x: Actor, a: Action, at: int)
    requires a.id in s.actors && s.actors[a.id] == x && s.clock <= at && DoSettle(s, x, a) != s
    requires a.Submit? || a.WriteOff? || a.Collected? || a.MarkSettled?
    ensures SettlesBy(s, DoSettle(s, x, a).(clock := at), a.id)
  {
  }

  lemma ReleaseKeepsCap(s: Sys, start: nat, id: LockId, at: int)
    requires CapInv(s, start) && id in s.actors && s.clock <= at
    ensures CapInv(DoRelease(s, id).(clock := at), start)
  {
    SettlingKeepsCap(s, start, id, DoRelease(s, id).(clock := at));
  }

  lemma DoKeepsCap(s: Sys, start: nat, e: Event, pace: Pace)
    requires CapInv(s, start) && CapPace(pace) && InTime(s, e, pace)
    ensures CapInv(Do(s, e), start)
  {
    var a := e.action;
    if a.Enter? {
      EnterKeepsCap(s, start, a.id, a.now, a.settling, e.at);
    } else if a.Fence? || a.id !in s.actors || (a.Release? && s.actors[a.id].Gone?) {
      WaitKeepsCap(s, start, Do(s, e));
    } else if a.Release? {
      ReleaseKeepsCap(s, start, a.id, e.at);
    } else if OfSettlement(a) {
      SettlementKeepsCap(s, start, s.actors[a.id], a, e.at);
    } else if OfCharge(a) {
      ChargeKeepsCap(s, start, s.actors[a.id], a, e.at, pace);
    } else {
      ConclusionKeepsCap(s, start, s.actors[a.id], a, e.at, pace);
    }
  }

  lemma {:induction false} RunKeepsCap(s: Sys, start: nat, events: seq<Event>, pace: Pace)
    requires CapInv(s, start) && CapPace(pace) && AllInTime(s, events, pace)
    ensures CapInv(Run(s, events), start)
    decreases |events|
  {
    if events != [] {
      DoKeepsCap(s, start, events[0], pace);
      RunKeepsCap(Do(s, events[0]), start, events[1..], pace);
    }
  }
}
