/** Conservation: in every reachable state all credit is accounted for. */
module LedgerConservation {
  import opened Wrappers
  import opened Sums
  import opened Ledger

  // ---- the tallies, recomputed from the rows ------------------------------------

  function HoldOf(c: Call): int { if c.status == Held then c.maxPrice else 0 }

  function ChargeOf(c: Call): int { if c.status == Committed then c.charged else 0 }

  function CreditOf(i: Intent): int { if i.status == Consumed then i.amount else 0 }

  function Holds(calls: map<string, Call>): map<string, int> {
    map c | c in calls :: HoldOf(calls[c])
  }

  function Charges(calls: map<string, Call>): map<string, int> {
    map c | c in calls :: ChargeOf(calls[c])
  }

  function Credits(intents: map<string, Intent>): map<string, int> {
    map i | i in intents :: CreditOf(intents[i])
  }

  lemma OneCallChanges(calls: map<string, Call>, id: string, c: Call)
    ensures SumMap(Holds(calls[id := c]))
            == SumMap(Holds(calls)) + HoldOf(c) - if id in calls then HoldOf(calls[id]) else 0
    ensures SumMap(Charges(calls[id := c]))
            == SumMap(Charges(calls)) + ChargeOf(c) - if id in calls then ChargeOf(calls[id]) else 0
  {
    assert Holds(calls[id := c]) == Holds(calls)[id := HoldOf(c)];
    assert Charges(calls[id := c]) == Charges(calls)[id := ChargeOf(c)];
    SumUpdate(Holds(calls), id, HoldOf(c));
    SumUpdate(Charges(calls), id, ChargeOf(c));
  }

  lemma OneIntentChanges(intents: map<string, Intent>, id: string, i: Intent)
    ensures SumMap(Credits(intents[id := i]))
            == SumMap(Credits(intents)) + CreditOf(i) - if id in intents then CreditOf(intents[id]) else 0
  {
    assert Credits(intents[id := i]) == Credits(intents)[id := CreditOf(i)];
    SumUpdate(Credits(intents), id, CreditOf(i));
  }

  lemma OneBalanceChanges(balances: map<string, int>, a: string, v: int)
    ensures SumMap(balances[a := v]) == SumMap(balances) + v - Get(balances, a)
  {
    SumUpdate(balances, a, v);
  }

  // ---- the invariant ----------------------------------------------------------------

  predicate CallOk(c: Call) {
    0 <= c.charged <= c.maxPrice && (c.status != Committed ==> c.charged == 0)
  }

  /** The money: every unit credited was either spent or is still held or spendable,
      and each running counter equals the rows it stands for. */
  ghost predicate Balanced(s: State) {
    && s.credited == s.committed + s.outstanding
    && s.outstanding == SumMap(s.balances) + SumMap(Holds(s.calls))
    && s.committed == SumMap(Charges(s.calls))
    && s.credited == SumMap(Credits(s.intents))
  }

  ghost predicate RowsOk(s: State) {
    && (forall a :: a in s.balances ==> s.balances[a] >= 0)
    && (forall c :: c in s.calls ==> CallOk(s.calls[c]))
    && (forall i :: i in s.intents ==> s.intents[i].amount > 0)
  }

  /** Consumed payments and consumed intents stand in one-to-one correspondence. */
  ghost predicate Matched(s: State) {
    && (forall p :: p in s.consumed ==>
          && s.consumed[p] in s.intents && s.intents[s.consumed[p]].status == Consumed
          && s.intents[s.consumed[p]].payment == Some(p))
    && (forall i :: i in s.intents && s.intents[i].status == Consumed ==>
          && s.intents[i].payment.Some? && s.intents[i].payment.value in s.consumed
          && s.consumed[s.intents[i].payment.value] == i)
  }

  ghost predicate Inv(s: State) {
    Balanced(s) && RowsOk(s) && Matched(s)
  }

  // ---- each request keeps it ------------------------------------------------------------

  lemma CreateKeepsInv(s: State, q: IntentRequest, caps: Caps)
    requires Inv(s) && q.id !in s.intents
    ensures Inv(CreateIntent(s, q, caps).0)
  {
    var (s', r) := CreateIntent(s, q, caps);
    CreateEffect(s, q, caps);
    if r.Created? {
      PutIntentKeepsInv(s, s', q.id, r.intent);
    }
  }

  /** Creating touches no money. */
  lemma CreateEffect(s: State, q: IntentRequest, caps: Caps)
    ensures var (s', r) := CreateIntent(s, q, caps);
            && s' == s.(intents := s'.intents, memos := s'.memos, minted := s'.minted, openSlots := s'.openSlots)
            && (if r.Created?
                then s'.intents == s.intents[q.id := r.intent] && r.intent.status == Open && r.intent.amount > 0
                else s' == s)
  {
  }

  /** An open intent put where there was none, or none consumed, keeps the books; put
      over a consumed one it takes that one's credit out of them. */
  lemma PutIntentKeepsInv(s: State, s': State, id: string, intent: Intent)
    requires Inv(s) && intent.status == Open && intent.amount > 0
    requires s' == s.(intents := s.intents[id := intent], memos := s'.memos, minted := s'.minted,
                      openSlots := s'.openSlots)
    ensures Inv(s') <==> !(id in s.intents && s.intents[id].status == Consumed)
  {
    OneIntentChanges(s.intents, id, intent);
    if id in s.intents && s.intents[id].status == Consumed {
      assert !Balanced(s');
    } else {
      assert Balanced(s') && RowsOk(s');
      assert Matched(s');
    }
  }

  lemma RewriteKeepsInv(s: State, s': State, id: string, intent: Intent)
    requires Inv(s) && id in s.intents && s' == s.(intents := s.intents[id := intent], openSlots := s'.openSlots)
    requires intent.amount == s.intents[id].amount && (intent.status == Consumed <==> s.intents[id].status == Consumed)
    requires intent.status == Consumed ==> intent.payment == s.intents[id].payment
    ensures Inv(s')
  {
    OneIntentChanges(s.intents, id, intent);
    assert Balanced(s');
    assert RowsOk(s');
    assert Matched(s');
  }

  lemma CreditBalances(s: State, q: OpenRequest, intent: Intent)
    requires Balanced(s) && q.id in s.intents && s.intents[q.id] == intent && intent.status != Consumed
    ensures Balanced(Credit(s, q, intent).0)
  {
    var (s', r) := Credit(s, q, intent);
    OneIntentChanges(s.intents, q.id, r.intent);
    OneBalanceChanges(s.balances, r.intent.account, r.balance);
  }

  lemma CreditMatches(s: State, q: OpenRequest, intent: Intent)
    requires Matched(s) && q.id in s.intents && s.intents[q.id] == intent && intent.status != Consumed
    requires q.payment !in s.consumed
    ensures Matched(Credit(s, q, intent).0)
  {
  }

  lemma CreditKeepsInv(s: State, q: OpenRequest, intent: Intent)
    requires Inv(s) && q.id in s.intents && s.intents[q.id] == intent && intent.status != Consumed
    requires q.payment !in s.consumed
    ensures Inv(Credit(s, q, intent).0)
  {
    CreditBalances(s, q, intent);
    CreditMatches(s, q, intent);
    assert RowsOk(Credit(s, q, intent).0);
  }

  lemma OpenKeepsInv(s: State, q: OpenRequest, caps: Caps)
    requires Inv(s)
    ensures Inv(OpenIntent(s, q, caps).0)
  {
    if q.id in s.intents {
      var intent := s.intents[q.id];
      var s' := OpenIntent(s, q, caps).0;
      if intent.status == OverCap || (intent.status == Consumed && intent.payment != Some(q.payment)) {
      } else if intent.status == Consumed {
        RewriteKeepsInv(s, Replay(s, q, intent).0, q.id, Replay(s, q, intent).1.intent);
      } else if q.payment in s.consumed {
      } else if q.confirmedAt > intent.expiresAt {
        RewriteKeepsInv(s, TooLate(s, q, intent).0, q.id, intent.(status := Expired));
      } else if ExceedsCaps(s, q, intent, caps) {
        RewriteKeepsInv(s, Refuse(s, q, intent).0, q.id, intent.(status := OverCap, payment := Some(q.payment)));
      } else {
        CreditKeepsInv(s, q, intent);
      }
    }
  }

  lemma TerminalChanges(s: State, q: OpenRequest, i: Intent)
    requires q.id in s.intents && i == s.intents[q.id]
    ensures TooLate(s, q, i).0.intents == s.intents[q.id := i.(status := Expired)]
    ensures Refuse(s, q, i).0.intents == s.intents[q.id := i.(status := OverCap, payment := Some(q.payment))]
    ensures Credit(s, q, i).0.intents == s.intents[q.id := Credit(s, q, i).1.intent]
    ensures Credit(s, q, i).1.intent.status == Consumed
    ensures TooLate(s, q, i).0.openSlots == Refuse(s, q, i).0.openSlots == SlotReleased(s, i.account)
    ensures Credit(s, q, i).0.openSlots == SlotReleased(s, i.account)
  {
  }

  lemma BranchesTouchNoCall(s: State, q: OpenRequest, i: Intent)
    ensures var (a, b, c, d) := (Replay(s, q, i).0, TooLate(s, q, i).0, Refuse(s, q, i).0, Credit(s, q, i).0);
            && a.calls == b.calls == c.calls == d.calls == s.calls
            && a.alarm == b.alarm == c.alarm == d.alarm == s.alarm
  {
  }

  lemma OpenTouchesNoCall(s: State, q: OpenRequest, caps: Caps)
    ensures OpenIntent(s, q, caps).0.calls == s.calls && OpenIntent(s, q, caps).0.alarm == s.alarm
  {
    if q.id in s.intents {
      BranchesTouchNoCall(s, q, s.intents[q.id]);
    }
  }

  /** A request on one call that moves its account's balance by what the call's hold
      and charge leave over keeps the books. */
  lemma CallMoveKeepsInv(s: State, s': State, id: string, c: Call, balance: int)
    requires Inv(s) && CallOk(c) && balance >= 0
    requires id in s.calls ==> s.calls[id].status == Held && s.calls[id].account == c.account
    requires var hold := if id in s.calls then HoldOf(s.calls[id]) else 0;
             && balance + HoldOf(c) + ChargeOf(c) == Get(s.balances, c.account) + hold
             && s' == s.(calls := s.calls[id := c], balances := s.balances[c.account := balance],
                         committed := s.committed + ChargeOf(c), outstanding := s.outstanding - ChargeOf(c),
                         alarm := s'.alarm)
    ensures Inv(s')
  {
    OneCallChanges(s.calls, id, c);
    OneBalanceChanges(s.balances, c.account, balance);
    assert Balanced(s');
    assert RowsOk(s');
    assert Matched(s');
  }

  lemma ReserveKeepsInv(s: State, id: string, account: string, maxPrice: int, now: int)
    requires Inv(s)
    ensures Inv(Reserve(s, id, account, maxPrice, now).0)
  {
    var (s', r) := Reserve(s, id, account, maxPrice, now);
    if r.Reserved? {
      CallMoveKeepsInv(s, s', id, r.call, r.balance);
    }
  }

  lemma DispatchKeepsInv(s: State, id: string)
    requires Inv(s)
    ensures Inv(Dispatch(s, id).0)
  {
    var (s', r) := Dispatch(s, id);
    if s' != s {
      OneCallChanges(s.calls, id, s'.calls[id]);
      assert RowsOk(s');
    }
  }

  lemma SettleKeepsInv(s: State, id: string, action: SettleAction)
    requires Inv(s)
    ensures Inv(Settle(s, id, action).0)
  {
    var (s', r) := Settle(s, id, action);
    if r.Settled? {
      assert CallOk(s.calls[id]) && Get(s.balances, s.calls[id].account) >= 0;
      CallMoveKeepsInv(s, s', id, r.call, r.balance);
    }
  }

  // ---- the reaper ---------------------------------------------------------------------------

  lemma StaleHoldsOfOneMore(s: State, seen: set<string>, id: string, a: string, now: int)
    requires id in s.calls && id !in seen
    ensures StaleHolds(s.calls, seen + {id}, a, now)
            == StaleHolds(s.calls, seen, a, now) + StaleHold(s.calls[id], a, now)
  {
    var before, v := StaleHoldMap(s.calls, seen, a, now), StaleHold(s.calls[id], a, now);
    assert StaleHoldMap(s.calls, seen + {id}, a, now) == before[id := v];
    SumUpdate(before, id, v);
  }

  /** One turn of the reaper's loop, on the state as it stands by then. */
  function ReapOne(s: State, id: string, now: int): State
    requires id in s.calls
  {
    var call := s.calls[id];
    if !Stale(call, now) then s
    else s.(calls := s.calls[id := ReapedCall(call)],
            balances := s.balances[call.account := Get(s.balances, call.account) + call.maxPrice])
  }

  lemma ReapStepCalls(s: State, seen: set<string>, id: string, now: int)
    requires id in s.calls && id !in seen
    ensures ReapedSoFar(s, seen + {id}, now).calls == ReapOne(ReapedSoFar(s, seen, now), id, now).calls
  {
  }

  ghost predicate HasStale(s: State, seen: set<string>, a: string, now: int) {
    exists c :: c in s.calls && c in seen && Stale(s.calls[c], now) && s.calls[c].account == a
  }

  lemma ReapedBalance(s: State, seen: set<string>, now: int, a: string)
    ensures Get(ReapedSoFar(s, seen, now).balances, a) == Get(s.balances, a) + StaleHolds(s.calls, seen, a, now)
    ensures a in ReapedSoFar(s, seen, now).balances <==> a in s.balances || HasStale(s, seen, a, now)
  {
    if !HasStale(s, seen, a, now) {
      NoHoldsOutsideRefunded(s, seen, a, now);
    }
  }

  lemma ReapStepBalance(s: State, seen: set<string>, id: string, now: int, a: string)
    requires id in s.calls && id !in seen
    ensures Get(ReapedSoFar(s, seen + {id}, now).balances, a)
            == Get(ReapOne(ReapedSoFar(s, seen, now), id, now).balances, a)
    ensures a in ReapedSoFar(s, seen + {id}, now).balances
            <==> a in ReapOne(ReapedSoFar(s, seen, now), id, now).balances
  {
    StaleHoldsOfOneMore(s, seen, id, a, now);
    ReapedBalance(s, seen, now, a);
    ReapedBalance(s, seen + {id}, now, a);
    ReapOneBalance(s, ReapedSoFar(s, seen, now), id, now, a);
    HasStaleOfOneMore(s, seen, id, now, a);
  }

  lemma HasStaleOfOneMore(s: State, seen: set<string>, id: string, now: int, a: string)
    requires id in s.calls
    ensures HasStale(s, seen + {id}, a, now)
            <==> HasStale(s, seen, a, now) || (Stale(s.calls[id], now) && s.calls[id].account == a)
  {
  }

  lemma ReapOneBalance(s: State, t: State, id: string, now: int, a: string)
    requires id in t.calls && id in s.calls && t.calls[id] == s.calls[id]
    ensures Get(ReapOne(t, id, now).balances, a) == Get(t.balances, a) + StaleHold(s.calls[id], a, now)
    ensures a in ReapOne(t, id, now).balances
            <==> a in t.balances || (Stale(s.calls[id], now) && s.calls[id].account == a)
  {
  }

  /** Taking one more call of the listing into account is one turn of the loop, also
      when the account it belongs to has had other stale calls before. */
  lemma ReapStep(s: State, seen: set<string>, id: string, now: int)
    requires id in s.calls && id !in seen
    ensures ReapedSoFar(s, seen + {id}, now) == ReapOne(ReapedSoFar(s, seen, now), id, now)
  {
    var b, c := ReapedSoFar(s, seen + {id}, now), ReapOne(ReapedSoFar(s, seen, now), id, now);
    ReapStepCalls(s, seen, id, now);
    forall a: string
      ensures Get(b.balances, a) == Get(c.balances, a) && (a in b.balances <==> a in c.balances)
    {
      ReapStepBalance(s, seen, id, now, a);
    }
    SameBalances(b.balances, c.balances);
  }

  lemma SameBalances(b: map<string, int>, c: map<string, int>)
    requires forall a :: Get(b, a) == Get(c, a) && (a in b <==> a in c)
    ensures b == c
  {
  }

  /** An account none of whose calls seen so far is stale is owed nothing yet. */
  lemma {:induction false} NoHoldsOutsideRefunded(s: State, seen: set<string>, a: string, now: int)
    requires !HasStale(s, seen, a, now)
    ensures StaleHolds(s.calls, seen, a, now) == 0
    decreases |seen|
  {
    if seen == {} {
      assert StaleHoldMap(s.calls, seen, a, now) == map[];
    } else {
      var id :| id in seen;
      assert seen == seen - {id} + {id};
      NoHoldsOutsideRefunded(s, seen - {id}, a, now);
      if id in s.calls {
        StaleHoldsOfOneMore(s, seen - {id}, id, a, now);
      } else {
        assert StaleHoldMap(s.calls, seen, a, now) == StaleHoldMap(s.calls, seen - {id}, a, now);
      }
    }
  }

  lemma ReapOneKeepsInv(s: State, id: string, now: int)
    requires Inv(s) && id in s.calls
    ensures Inv(ReapOne(s, id, now))
  {
    if Stale(s.calls[id], now) {
      var call := s.calls[id];
      assert CallOk(call) && Get(s.balances, call.account) >= 0;
      CallMoveKeepsInv(s, ReapOne(s, id, now), id, ReapedCall(call), Get(s.balances, call.account) + call.maxPrice);
    }
  }

  lemma ReapedNone(s: State, now: int)
    ensures ReapedSoFar(s, {}, now) == s
  {
  }

  lemma {:induction false} ReapingKeepsInv(s: State, seen: set<string>, now: int)
    requires Inv(s) && seen <= s.calls.Keys
    ensures Inv(ReapedSoFar(s, seen, now)) && ReapedSoFar(s, seen, now).committed == s.committed
    decreases |seen|
  {
    if seen == {} {
      ReapedNone(s, now);
    } else {
      var id :| id in seen;
      assert seen == seen - {id} + {id};
      ReapingKeepsInv(s, seen - {id}, now);
      ReapStep(s, seen - {id}, id, now);
      ReapOneKeepsInv(ReapedSoFar(s, seen - {id}, now), id, now);
    }
  }

  // ---- main results --------------------------------------------------------------------------

  lemma DoKeepsInv(s: State, op: Op)
    requires Inv(s) && (op.DoCreate? ==> op.create.id !in s.intents)
    ensures Inv(Do(s, op).0)
  {
    match op
    case DoCreate(q, caps) => CreateKeepsInv(s, q, caps);
    case DoOpen(q, caps) => OpenKeepsInv(s, q, caps);
    case DoReserve(id, account, maxPrice, now) => ReserveKeepsInv(s, id, account, maxPrice, now);
    case DoDispatch(id) => DispatchKeepsInv(s, id);
    case DoSettle(id, action) => SettleKeepsInv(s, id, action);
    case DoArm(id) =>
    case DoAlarm(now) => ReapingKeepsInv(s, s.calls.Keys, now);
    case DoReapPart(seen, now) => ReapingKeepsInv(s, seen * s.calls.Keys, now);
  }

  /** In every reachable state: credited = committed + balances + holds, the
      outstanding counter agrees with a full rescan, credit and consumed intents
      agree, charges lie between nothing and the hold, payments and consumed intents
      match one to one, and no balance is negative. */
  lemma {:induction false} RunKeepsInv(s: State, ops: seq<Op>)
    requires Inv(s) && FreshIds(s, ops)
    ensures Inv(Run(s, ops))
    decreases |ops|
  {
    if ops != [] {
      DoKeepsInv(s, ops[0]);
      RunKeepsInv(Do(s, ops[0]).0, ops[1..]);
    }
  }

  lemma EmptyLedgerIsInOrder(s: State)
    requires Empty(s)
    ensures Inv(s)
  {
  }

  /** No payment is ever credited to two intents, nor an intent by two payments. */
  lemma PaymentCreditedOnce(start: State, ops: seq<Op>, i: string, j: string)
    requires Empty(start) && FreshIds(start, ops)
    requires var s := Run(start, ops);
             && i in s.intents && j in s.intents && s.intents[i].status == Consumed && s.intents[j].status == Consumed
             && s.intents[i].payment == s.intents[j].payment
    ensures i == j
  {
    EmptyLedgerIsInOrder(start);
    RunKeepsInv(start, ops);
  }

  /** Why ids have to be fresh: creating over an existing id keeps the books exactly
      when that id is not of a consumed intent, or nothing was created. */
  lemma CreateKeepsInvExactlyOffConsumed(s: State, q: IntentRequest, caps: Caps)
    requires Inv(s)
    ensures Inv(CreateIntent(s, q, caps).0) <==>
            !(CreateIntent(s, q, caps).1.Created? && q.id in s.intents && s.intents[q.id].status == Consumed)
  {
    var (s', r) := CreateIntent(s, q, caps);
    CreateEffect(s, q, caps);
    if r.Created? {
      PutIntentKeepsInv(s, s', q.id, r.intent);
    }
  }

  // ---- ceilings --------------------------------------------------------------------------------

  ghost predicate WithinCaps(s: State, caps: Caps) {
    && s.outstanding <= caps.global
    && (forall k :: k in s.deposits ==> s.deposits[k] <= caps.perAccountDay)
  }

  lemma SettleSpends(s: State, id: string, action: SettleAction)
    requires RowsOk(s)
    ensures Settle(s, id, action).0.deposits == s.deposits && Settle(s, id, action).0.outstanding <= s.outstanding
  {
  }

  lemma ReserveSpendsNothing(s: State, id: string, account: string, maxPrice: int, now: int)
    ensures var s' := Reserve(s, id, account, maxPrice, now).0;
            s'.deposits == s.deposits && s'.outstanding == s.outstanding && s'.committed == s.committed
  {
  }

  lemma OnlyOpensCredit(s: State, op: Op)
    requires RowsOk(s) && !op.DoOpen?
    ensures Do(s, op).0.deposits == s.deposits && Do(s, op).0.outstanding <= s.outstanding
  {
    match op
    case DoCreate(q, caps) => CreateEffect(s, q, caps);
    case DoReserve(id, account, maxPrice, now) => ReserveSpendsNothing(s, id, account, maxPrice, now);
    case DoDispatch(id) =>
    case DoSettle(id, action) => SettleSpends(s, id, action);
    case DoArm(id) =>
    case DoAlarm(now) =>
    case DoReapPart(seen, now) =>
  }

  predicate AtMost(given: Caps, caps: Caps) {
    && given.perAccountDay <= caps.perAccountDay && given.global <= caps.global
    && given.intentsPerHour <= caps.intentsPerHour && given.maxOpenIntents <= caps.maxOpenIntents
  }

  /** Every request that passes caps passes none above these. */
  predicate Under(ops: seq<Op>, caps: Caps) {
    forall k :: 0 <= k < |ops| && (ops[k].DoCreate? || ops[k].DoOpen?) ==> AtMost(ops[k].caps, caps)
  }

  lemma CreditKeepsCaps(s: State, q: OpenRequest, intent: Intent, given: Caps, caps: Caps)
    requires WithinCaps(s, caps) && AtMost(given, caps) && !ExceedsCaps(s, q, intent, given)
    ensures WithinCaps(Credit(s, q, intent).0, caps)
  {
  }

  lemma OpenKeepsCaps(s: State, q: OpenRequest, given: Caps, caps: Caps)
    requires WithinCaps(s, caps) && AtMost(given, caps)
    ensures WithinCaps(OpenIntent(s, q, given).0, caps)
  {
    var r := OpenIntent(s, q, given).1;
    if r.Opened? && !r.replayed {
      CreditKeepsCaps(s, q, s.intents[q.id], given, caps);
    } else {
      OnlyCreditsMoveMoney(s, q, given);
    }
  }

  lemma OnlyCreditsMoveMoney(s: State, q: OpenRequest, caps: Caps)
    requires var r := OpenIntent(s, q, caps).1; !(r.Opened? && !r.replayed)
    ensures var s' := OpenIntent(s, q, caps).0;
            && s'.deposits == s.deposits && s'.outstanding == s.outstanding && s'.balances == s.balances
  {
    if q.id in s.intents {
      var intent := s.intents[q.id];
      if intent.status == Consumed && intent.payment == Some(q.payment) {
        assert OpenIntent(s, q, caps) == Replay(s, q, intent);
      } else if intent.status == OverCap || intent.status == Consumed || q.payment in s.consumed {
        assert OpenIntent(s, q, caps).0 == s;
      } else if q.confirmedAt > intent.expiresAt {
        assert OpenIntent(s, q, caps) == TooLate(s, q, intent);
      } else {
        assert OpenIntent(s, q, caps) == Refuse(s, q, intent);
      }
    }
  }

  /** Although intents reserve no headroom, no run whose requests pass caps up to these
      ever exceeds the global ceiling on outstanding credit or the daily one of any
      account. */
  lemma {:induction false} CapsHold(s: State, ops: seq<Op>, caps: Caps)
    requires Inv(s) && FreshIds(s, ops) && Under(ops, caps) && WithinCaps(s, caps)
    ensures WithinCaps(Run(s, ops), caps)
    decreases |ops|
  {
    if ops != [] {
      DoKeepsInv(s, ops[0]);
      if ops[0].DoOpen? {
        OpenKeepsCaps(s, ops[0].open, ops[0].caps, caps);
      } else {
        OnlyOpensCredit(s, ops[0]);
      }
      CapsHold(Do(s, ops[0]).0, ops[1..], caps);
    }
  }

  /** What one request credited to an account for a payment confirmed on a day, read
      off the request and its reply. */
  function CreditedBy(op: Op, r: Reply, account: string, day: int): int {
    if op.DoOpen? && r.OnOpen? && r.openReply.Opened? && !r.openReply.replayed
       && r.openReply.intent.account == account && Day(op.open.confirmedAt) == day
    then r.openReply.intent.amount else 0
  }

  ghost function CreditedOn(s: State, ops: seq<Op>, account: string, day: int): int
    decreases |ops|
  {
    if ops == [] then 0
    else CreditedBy(ops[0], Do(s, ops[0]).1, account, day)
         + CreditedOn(Do(s, ops[0]).0, ops[1..], account, day)
  }

  lemma OpenTally(s: State, q: OpenRequest, caps: Caps, account: string, day: int)
    ensures Get(OpenIntent(s, q, caps).0.deposits, (account, day))
            == Get(s.deposits, (account, day))
               + CreditedBy(DoOpen(q, caps), OnOpen(OpenIntent(s, q, caps).1), account, day)
  {
    var r := OpenIntent(s, q, caps).1;
    if r.Opened? && !r.replayed {
      assert OpenIntent(s, q, caps) == Credit(s, q, s.intents[q.id]);
    } else {
      OnlyCreditsMoveMoney(s, q, caps);
    }
  }

  lemma OneOpTally(s: State, op: Op, account: string, day: int)
    ensures Get(Do(s, op).0.deposits, (account, day))
            == Get(s.deposits, (account, day)) + CreditedBy(op, Do(s, op).1, account, day)
  {
    if op.DoOpen? {
      OpenTally(s, op.open, op.caps, account, day);
    }
  }

  lemma {:induction false} DepositTallyIsExact(s: State, ops: seq<Op>, account: string, day: int)
    ensures Get(Run(s, ops).deposits, (account, day))
            == Get(s.deposits, (account, day)) + CreditedOn(s, ops, account, day)
    decreases |ops|
  {
    if ops != [] {
      OneOpTally(s, ops[0], account, day);
      DepositTallyIsExact(Do(s, ops[0]).0, ops[1..], account, day);
    }
  }

  /** So over any run from an empty ledger, an account's credit for payments that
      confirmed on one day stays within the daily cap, however the claims are spread. */
  lemma DailyCreditWithinCap(s: State, ops: seq<Op>, caps: Caps, account: string, day: int)
    requires Empty(s) && FreshIds(s, ops) && Under(ops, caps) && caps.global >= 0 && caps.perAccountDay >= 0
    ensures CreditedOn(s, ops, account, day) <= caps.perAccountDay
    ensures Run(s, ops).outstanding <= caps.global
  {
    EmptyLedgerIsInOrder(s);
    CapsHold(s, ops, caps);
    DepositTallyIsExact(s, ops, account, day);
  }
}
