/** The ledger object itself: its stored fields, its request handlers and its alarm.
    Each handler is proved to be the change of the ledger value that carries its name. */
module LedgerObject {
  import opened Wrappers
  import opened Sums
  import L = Ledger
  import opened LedgerConservation

  type Payment = L.Payment

  /** What reconciliation reports of one consumed deposit. */
  datatype Deposit = Deposit(
    payment: Payment, intentId: string, account: Option<string>, amount: Option<int>, memo: Option<string>)

  datatype Totals = Totals(
    credited: int, committed: int, outstanding: int, balancesSum: int, holdsSum: int,
    reapedReleased: int, possiblyPaid: int, consumed: seq<Deposit>)

  function DepositOf(s: L.State, p: Payment): Deposit
    requires p in s.consumed
  {
    var id := s.consumed[p];
    if id in s.intents
    then Deposit(p, id, Some(s.intents[id].account), Some(s.intents[id].amount), Some(s.intents[id].memo))
    else Deposit(p, id, None, None, None)
  }

  /** The calls among `seen` the reaper released, and those of them that had been
      dispatched, so that the upstream may have been paid. */
  function Reaped(calls: map<string, L.Call>, seen: set<string>): set<string> {
    set c | c in calls && c in seen && calls[c].reaped && calls[c].status == L.Released
  }

  function MaybePaid(calls: map<string, L.Call>, seen: set<string>): set<string> {
    set c | c in calls && c in seen && calls[c].reaped && calls[c].status == L.Released && calls[c].possiblyPaid
  }

  /** Each consumed payment listed once, bound to the intent it was credited for. */
  predicate ListsDeposits(s: L.State, seen: set<Payment>, list: seq<Deposit>) {
    && (forall k :: 0 <= k < |list| ==>
          list[k].payment in seen && list[k].payment in s.consumed && list[k] == DepositOf(s, list[k].payment))
    && (forall p :: p in seen ==> exists k :: 0 <= k < |list| && list[k].payment == p)
    && (forall j, k :: 0 <= j < k < |list| ==> list[j].payment != list[k].payment)
  }

  function ReapedOne(c: L.Call): int { if c.reaped && c.status == L.Released then 1 else 0 }

  function PaidOne(c: L.Call): int { if ReapedOne(c) == 1 && c.possiblyPaid then 1 else 0 }

  lemma ReapedOneMore(calls: map<string, L.Call>, seen: set<string>, id: string)
    requires id in calls && id !in seen
    ensures |Reaped(calls, seen + {id})| == |Reaped(calls, seen)| + ReapedOne(calls[id])
  {
    assert Reaped(calls, seen + {id}) == Reaped(calls, seen) + if ReapedOne(calls[id]) == 1 then {id} else {};
  }

  lemma PaidOneMore(calls: map<string, L.Call>, seen: set<string>, id: string)
    requires id in calls && id !in seen
    ensures |MaybePaid(calls, seen + {id})| == |MaybePaid(calls, seen)| + PaidOne(calls[id])
  {
    assert MaybePaid(calls, seen + {id}) == MaybePaid(calls, seen) + if PaidOne(calls[id]) == 1 then {id} else {};
  }

  /** One more call looked at by the scan. */
  lemma ScanOneMore(calls: map<string, L.Call>, todo: set<string>, id: string)
    requires todo <= calls.Keys && id in todo
    ensures SumMap(Holds(calls) - (todo - {id})) == SumMap(Holds(calls) - todo) + HoldOf(calls[id])
    ensures |Reaped(calls, calls.Keys - (todo - {id}))| == |Reaped(calls, calls.Keys - todo)| + ReapedOne(calls[id])
    ensures |MaybePaid(calls, calls.Keys - (todo - {id}))| == |MaybePaid(calls, calls.Keys - todo)| + PaidOne(calls[id])
  {
    SumOneMore(Holds(calls), todo, id);
    ReapedOneMore(calls, calls.Keys - todo, id);
    PaidOneMore(calls, calls.Keys - todo, id);
    assert calls.Keys - (todo - {id}) == calls.Keys - todo + {id};
  }

  /** A call outside `todo` is held and within its lease. */
  predicate InFlightBut(calls: map<string, L.Call>, todo: set<string>, now: int) {
    exists c :: c in calls && c !in todo && calls[c].status == L.Held && !L.Stale(calls[c], now)
  }

  lemma InFlightOneMore(calls: map<string, L.Call>, todo: set<string>, id: string, now: int)
    requires todo <= calls.Keys && id in todo
    ensures calls.Keys - (todo - {id}) == calls.Keys - todo + {id}
    ensures InFlightBut(calls, todo - {id}, now)
            <==> InFlightBut(calls, todo, now) || (calls[id].status == L.Held && !L.Stale(calls[id], now))
  {
  }

  lemma SumOneMore(m: map<string, int>, left: set<string>, k: string)
    requires k in m && k in left
    ensures SumMap(m - (left - {k})) == SumMap(m - left) + m[k]
  {
    assert m - (left - {k}) == (m - left)[k := m[k]];
    SumUpdate(m - left, k, m[k]);
  }

  method SumListed(listed: map<string, int>) returns (sum: int)
    ensures sum == SumMap(listed)
  {
    sum := 0;
    var todo := listed.Keys;
    assert listed - todo == map[];
    while todo != {}
      invariant todo <= listed.Keys && sum == SumMap(listed - todo)
      decreases |todo|
    {
      var k :| k in todo;
      SumOneMore(listed, todo, k);
      sum := sum + listed[k];
      todo := todo - {k};
    }
    assert listed - todo == listed;
  }

  method ScanCalls(listed: map<string, L.Call>) returns (holdsSum: int, reapedReleased: int, possiblyPaid: int)
    ensures holdsSum == SumMap(Holds(listed))
    ensures reapedReleased == |Reaped(listed, listed.Keys)| && possiblyPaid == |MaybePaid(listed, listed.Keys)|
  {
    holdsSum, reapedReleased, possiblyPaid := 0, 0, 0;
    var todo := listed.Keys;
    assert Holds(listed) - todo == map[];
    while todo != {}
      invariant todo <= listed.Keys
      invariant holdsSum == SumMap(Holds(listed) - todo)
      invariant reapedReleased == |Reaped(listed, listed.Keys - todo)|
      invariant possiblyPaid == |MaybePaid(listed, listed.Keys - todo)|
      decreases |todo|
    {
      var id :| id in todo;
      ScanOneMore(listed, todo, id);
      var c := listed[id];
      if c.status == L.Held {
        holdsSum := holdsSum + c.maxPrice;
      }
      if c.reaped && c.status == L.Released {
        reapedReleased := reapedReleased + 1;
        if c.possiblyPaid {
          possiblyPaid := possiblyPaid + 1;
        }
      }
      todo := todo - {id};
    }
    assert Holds(listed) - todo == Holds(listed) && listed.Keys - todo == listed.Keys;
  }

  class PlaygroundLedger {
    var intents: map<string, L.Intent>
    var memos: map<string, string>
    var consumed: map<Payment, string>
    var balances: map<string, int>
    var deposits: map<(string, int), int>
    var minted: map<(string, int), int>
    var openSlots: map<string, int>
    var calls: map<string, L.Call>
    var credited: int
    var committed: int
    var outstanding: int
    var alarm: Option<int>

    ghost function View(): L.State
      reads this
    {
      L.State(intents, memos, consumed, balances, deposits, minted, openSlots, calls,
              credited, committed, outstanding, alarm)
    }

    constructor ()
      ensures L.Empty(View())
    {
      intents, memos, consumed, balances := map[], map[], map[], map[];
      deposits, minted, openSlots, calls := map[], map[], map[], map[];
      credited, committed, outstanding, alarm := 0, 0, 0, None;
    }

    method CreateIntent(q: L.IntentRequest, caps: L.Caps) returns (r: L.CreateReply)
      modifies this
      ensures (View(), r) == L.CreateIntent(old(View()), q, caps)
    {
      if q.amount <= 0 {
        return L.InvalidAmount;
      }
      var hour := (q.account, L.Hour(q.now));
      var used := L.Get(minted, hour);
      if used >= caps.intentsPerHour {
        return L.RateLimited;
      }
      if L.Get(deposits, (q.account, L.Day(q.now))) + q.amount > caps.perAccountDay {
        return L.DayCapReached;
      }
      if outstanding + q.amount > caps.global {
        return L.GlobalCapReached;
      }
      var open := L.Get(openSlots, q.account);
      if open >= caps.maxOpenIntents {
        return L.TooManyOpen;
      }
      if q.memo in memos {
        return L.MemoCollision;
      }
      var intent := L.Intent(q.account, q.amount, q.memo, q.destination, q.expiresAt, L.Open, None, None);
      intents := intents[q.id := intent];
      memos := memos[q.memo := q.id];
      minted := minted[hour := used + 1];
      openSlots := openSlots[q.account := open + 1];
      r := L.Created(intent);
    }

    method ReleaseOpenSlot(account: string)
      modifies this`openSlots
      ensures openSlots == L.SlotReleased(old(View()), account)
    {
      var current := L.Get(openSlots, account);
      openSlots := openSlots[account := if current > 0 then current - 1 else 0];
    }

    method Open(q: L.OpenRequest, caps: L.Caps) returns (r: L.OpenReply)
      modifies this
      ensures (View(), r) == L.OpenIntent(old(View()), q, caps)
    {
      if q.id !in intents {
        return L.NoIntent;
      }
      var intent := intents[q.id];
      if intent.status == L.OverCap {
        return L.ExceedsCap;
      }
      if intent.status == L.Consumed {
        if intent.payment == Some(q.payment) {
          r := Replay(q, intent);
          return;
        }
        return L.AlreadyUsed;
      }
      if q.payment in consumed {
        return L.PaymentClaimed;
      }
      if q.confirmedAt > intent.expiresAt {
        intents := intents[q.id := intent.(status := L.Expired)];
        ReleaseOpenSlot(intent.account);
        return L.ConfirmedTooLate;
      }
      var day := (intent.account, L.Day(q.confirmedAt));
      var depositedToday := L.Get(deposits, day);
      if depositedToday + intent.amount > caps.perAccountDay || outstanding + intent.amount > caps.global {
        intents := intents[q.id := intent.(status := L.OverCap, payment := Some(q.payment))];
        ReleaseOpenSlot(intent.account);
        return L.ExceedsCap;
      }
      r := CreditDeposit(q, intent, day, depositedToday);
    }

    /** Hands back the session of a claimed intent, or renews it once it has lapsed. */
    method Replay(q: L.OpenRequest, intent: L.Intent) returns (r: L.OpenReply)
      requires q.id in intents && intents[q.id] == intent
      modifies this`intents
      ensures (View(), r) == L.Replay(old(View()), q, intent)
    {
      var returned := intent;
      if intent.session.None? || intent.session.value.exp * 1000 <= q.now {
        returned := intent.(session := Some(q.session));
        intents := intents[q.id := returned];
      }
      assert intents == old(intents)[q.id := returned];
      r := L.Opened(returned, L.Get(balances, intent.account), true);
    }

    method CreditDeposit(q: L.OpenRequest, intent: L.Intent, day: (string, int), depositedToday: int)
      returns (r: L.OpenReply)
      requires day == (intent.account, L.Day(q.confirmedAt)) && depositedToday == L.Get(deposits, day)
      modifies this
      ensures (View(), r) == L.Credit(old(View()), q, intent)
    {
      var updated := intent.(status := L.Consumed, payment := Some(q.payment), session := Some(q.session));
      Claim(q, updated);
      var balance := AddCredit(intent.account, day, depositedToday, intent.amount);
      r := L.Opened(updated, balance, false);
    }

    method Claim(q: L.OpenRequest, updated: L.Intent)
      modifies this`consumed, this`intents, this`openSlots
      ensures View() == L.Claim(old(View()), q, updated)
    {
      consumed := consumed[q.payment := q.id];
      intents := intents[q.id := updated];
      ReleaseOpenSlot(updated.account);
    }

    method AddCredit(account: string, day: (string, int), depositedToday: int, amount: int) returns (balance: int)
      modifies this`balances, this`deposits, this`credited, this`outstanding
      ensures balance == L.Get(old(balances), account) + amount && balances == old(balances)[account := balance]
      ensures deposits == old(deposits)[day := depositedToday + amount]
      ensures credited == old(credited) + amount && outstanding == old(outstanding) + amount
    {
      balance := L.Get(balances, account) + amount;
      balances := balances[account := balance];
      deposits := deposits[day := depositedToday + amount];
      credited := credited + amount;
      outstanding := outstanding + amount;
    }

    /** The hold is taken in one transaction; the alarm is armed after it, in another
        write, which a crash in between leaves undone. */
    method Reserve(callId: string, account: string, maxPrice: int, now: int) returns (r: L.ReserveReply)
      modifies this
      ensures r == L.Reserve(old(View()), callId, account, maxPrice, now).1
      ensures View() == var held := L.Reserve(old(View()), callId, account, maxPrice, now).0;
                        if r.Reserved? then L.ArmReaper(held, now) else held
    {
      r := TakeHold(callId, account, maxPrice, now);
      if r.Reserved? {
        Arm(now);
      }
    }

    method TakeHold(callId: string, account: string, maxPrice: int, now: int) returns (r: L.ReserveReply)
      modifies this
      ensures (View(), r) == L.Reserve(old(View()), callId, account, maxPrice, now)
    {
      if maxPrice < 0 {
        return L.InvalidPrice;
      }
      if callId in calls {
        return L.Duplicate(calls[callId], L.Get(balances, calls[callId].account));
      }
      var balance := L.Get(balances, account);
      if balance < maxPrice {
        return L.Insufficient(balance);
      }
      var call := L.Call(account, L.Held, maxPrice, 0, now, false, false, false);
      balances := balances[account := balance - maxPrice];
      calls := calls[callId := call];
      r := L.Reserved(call, balance - maxPrice);
    }

    method Arm(now: int)
      modifies this`alarm
      ensures View() == L.ArmReaper(old(View()), now)
    {
      if alarm.None? {
        alarm := Some(now + L.REAPER_INTERVAL_MS);
      }
    }

    method MarkDispatched(callId: string) returns (r: L.DispatchReply)
      modifies this
      ensures (View(), r) == L.Dispatch(old(View()), callId)
    {
      if callId !in calls {
        return L.NoSuchCall;
      }
      var call := calls[callId];
      if call.status != L.Held || call.dispatched {
        return L.Marked(false);
      }
      calls := calls[callId := call.(dispatched := true)];
      r := L.Marked(true);
    }

    method Settle(callId: string, action: L.SettleAction) returns (r: L.SettleReply)
      modifies this
      ensures (View(), r) == L.Settle(old(View()), callId, action)
    {
      if callId !in calls {
        return L.UnknownCall;
      }
      var call := calls[callId];
      var balance := L.Get(balances, call.account);
      if call.status != L.Held {
        return L.AlreadySettled(call, balance);
      }
      var held := call.maxPrice;
      match action {
        case Release =>
          var settled := call.(status := L.Released, charged := 0);
          calls := calls[callId := settled];
          balances := balances[call.account := balance + held];
          r := L.Settled(settled, balance + held);
        case Commit(charge) =>
          var charged := charge;
          if charged < 0 {
            charged := 0;
          }
          if charged > held {
            charged := held;
          }
          var settled := call.(status := L.Committed, charged := charged);
          calls := calls[callId := settled];
          balances := balances[call.account := balance + (held - charged)];
          committed := committed + charged;
          outstanding := outstanding - charged;
          r := L.Settled(settled, balance + (held - charged));
      }
    }

    /** The reaper. A firing clears the alarm; it is set again while any call is in
        flight. */
    method Alarm(now: int)
      modifies this
      ensures View() == L.Alarm(old(View()), now)
    {
      alarm := None;
      var remaining := ReapListed(calls, now);
      if remaining > 0 {
        alarm := Some(now + L.REAPER_INTERVAL_MS);
      }
    }

    /** A loop over the calls as listed when it starts, reading each account's balance
        again at every turn. */
    method ReapListed(listed: map<string, L.Call>, now: int) returns (remaining: nat)
      requires listed == calls
      modifies this`calls, this`balances
      ensures View() == L.ReapedSoFar(old(View()), listed.Keys, now)
      ensures remaining > 0 <==> L.InFlight(old(View()), now)
    {
      ghost var start := View();
      ReapedNone(start, now);
      remaining := 0;
      var todo := listed.Keys;
      assert listed.Keys - todo == {};
      while todo != {}
        invariant todo <= listed.Keys
        invariant View() == L.ReapedSoFar(start, listed.Keys - todo, now)
        invariant remaining > 0 <==> InFlightBut(listed, todo, now)
        decreases |todo|
      {
        var id :| id in todo;
        var inFlight := ReapTurn(start, listed.Keys - todo, id, listed[id], now);
        if inFlight {
          remaining := remaining + 1;
        }
        InFlightOneMore(listed, todo, id, now);
        todo := todo - {id};
      }
      assert listed.Keys - todo == listed.Keys;
    }

    method ReapTurn(ghost start: L.State, ghost seen: set<string>, id: string, call: L.Call, now: int)
      returns (inFlight: bool)
      requires id in start.calls && id !in seen && call == start.calls[id]
      requires View() == L.ReapedSoFar(start, seen, now)
      modifies this`calls, this`balances
      ensures View() == L.ReapedSoFar(start, seen + {id}, now)
      ensures inFlight <==> call.status == L.Held && !L.Stale(call, now)
    {
      ReapStep(start, seen, id, now);
      inFlight := false;
      if call.status == L.Held {
        if now - call.at < L.RESERVED_LEASE_MS {
          inFlight := true;
        } else {
          ReleaseStale(id, call, now);
        }
      }
    }

    /** One write: the released call and the restored balance land together. */
    method ReleaseStale(id: string, call: L.Call, now: int)
      requires id in calls && calls[id] == call && L.Stale(call, now)
      modifies this`calls, this`balances
      ensures View() == ReapOne(old(View()), id, now)
    {
      var balance := L.Get(balances, call.account);
      calls := calls[id := call.(status := L.Released, charged := 0, reaped := true, possiblyPaid := call.dispatched)];
      balances := balances[call.account := balance + call.maxPrice];
    }

    method ScanConsumed() returns (list: seq<Deposit>)
      ensures ListsDeposits(View(), consumed.Keys, list)
    {
      list := [];
      var todo := consumed.Keys;
      while todo != {}
        invariant todo <= consumed.Keys
        invariant ListsDeposits(View(), consumed.Keys - todo, list)
        decreases |todo|
      {
        var p :| p in todo;
        var id := consumed[p];
        var entry := Deposit(p, id, None, None, None);
        if id in intents {
          entry := Deposit(p, id, Some(intents[id].account), Some(intents[id].amount), Some(intents[id].memo));
        }
        assert entry == DepositOf(View(), p);
        DepositAppended(View(), consumed.Keys - todo, list, p);
        assert consumed.Keys - (todo - {p}) == consumed.Keys - todo + {p};
        list := list + [entry];
        todo := todo - {p};
      }
      assert consumed.Keys - todo == consumed.Keys;
    }

    /** Reconciliation: the counters as stored, and the sums by full scan. */
    method ReadTotals() returns (t: Totals)
      ensures t.credited == credited && t.committed == committed && t.outstanding == outstanding
      ensures t.balancesSum == SumMap(balances) && t.holdsSum == SumMap(Holds(calls))
      ensures t.reapedReleased == |Reaped(calls, calls.Keys)| && t.possiblyPaid == |MaybePaid(calls, calls.Keys)|
      ensures ListsDeposits(View(), consumed.Keys, t.consumed)
      ensures Inv(View()) ==> Reconciles(t)
    {
      var balancesSum := SumListed(balances);
      var holdsSum, reaped, paid := ScanCalls(calls);
      var list := ScanConsumed();
      t := Totals(credited, committed, outstanding, balancesSum, holdsSum, reaped, paid, list);
      if Inv(View()) {
        ListedCredit(View(), list);
      }
    }
  }

  lemma DepositAppended(s: L.State, seen: set<Payment>, list: seq<Deposit>, p: Payment)
    requires ListsDeposits(s, seen, list) && p in s.consumed && p !in seen
    ensures ListsDeposits(s, seen + {p}, list + [DepositOf(s, p)])
  {
    var longer := list + [DepositOf(s, p)];
    forall q | q in seen + {p}
      ensures exists k :: 0 <= k < |longer| && longer[k].payment == q
    {
      if q == p {
        assert longer[|list|].payment == p;
      } else {
        var k :| 0 <= k < |list| && list[k].payment == q;
        assert longer[k].payment == q;
      }
    }
  }

  // ---- what a report of a ledger in order says ---------------------------------------

  /** An amount counts for nothing where the report could not bind it. */
  function ListedAmount(list: seq<Deposit>): int {
    if list == [] then 0 else ListedAmount(list[..|list| - 1]) + list[|list| - 1].amount.UnwrapOr(0)
  }

  /** The checks a reconciliation makes: no drift between counters and rows, and every
      unit of credit traced to a bound payment. */
  predicate Reconciles(t: Totals) {
    && t.outstanding == t.balancesSum + t.holdsSum
    && t.credited == t.committed + t.balancesSum + t.holdsSum
    && ListedAmount(t.consumed) == t.credited
    && (forall k :: 0 <= k < |t.consumed| ==> t.consumed[k].account.Some? && t.consumed[k].memo.Some?)
  }

  function ListedIds(list: seq<Deposit>): set<string> { set d | d in list :: d.intentId }

  /** The credit of the intents among `ids`. */
  function CreditsAmong(intents: map<string, L.Intent>, ids: set<string>): map<string, int> {
    map i | i in intents :: if i in ids then CreditOf(intents[i]) else 0
  }

  lemma {:induction false} NoCreditAmongNone(m: map<string, int>)
    requires forall k :: k in m ==> m[k] == 0
    ensures SumMap(m) == 0
    decreases |m|
  {
    if m != map[] {
      var k :| k in m;
      SumRemove(m, k);
      NoCreditAmongNone(m - {k});
    }
  }

  lemma {:induction false} CreditListed(s: L.State, seen: set<Payment>, list: seq<Deposit>)
    requires Matched(s) && ListsDeposits(s, seen, list)
    ensures ListedAmount(list) == SumMap(CreditsAmong(s.intents, ListedIds(list)))
    decreases |list|
  {
    if list == [] {
      NoCreditAmongNone(CreditsAmong(s.intents, ListedIds(list)));
    } else {
      var n := |list| - 1;
      PayersRemain(s, seen, list);
      CreditListed(s, seen - {list[n].payment}, list[..n]);
      assert list == list[..n] + [list[n]];
      OneMoreListed(s.intents, list[..n], list[n]);
    }
  }

  lemma OneMoreListed(intents: map<string, L.Intent>, shorter: seq<Deposit>, d: Deposit)
    requires d.intentId in intents && d.intentId !in ListedIds(shorter)
    ensures SumMap(CreditsAmong(intents, ListedIds(shorter + [d])))
            == SumMap(CreditsAmong(intents, ListedIds(shorter))) + CreditOf(intents[d.intentId])
  {
    var before := CreditsAmong(intents, ListedIds(shorter));
    assert ListedIds(shorter + [d]) == ListedIds(shorter) + {d.intentId};
    assert CreditsAmong(intents, ListedIds(shorter + [d])) == before[d.intentId := CreditOf(intents[d.intentId])];
    SumUpdate(before, d.intentId, CreditOf(intents[d.intentId]));
  }

  lemma PayersRemain(s: L.State, seen: set<Payment>, list: seq<Deposit>)
    requires Matched(s) && ListsDeposits(s, seen, list) && list != []
    ensures ListsDeposits(s, seen - {list[|list| - 1].payment}, list[..|list| - 1])
    ensures list[|list| - 1].intentId !in ListedIds(list[..|list| - 1])
  {
  }

  lemma ListedCredit(s: L.State, list: seq<Deposit>)
    requires Inv(s) && ListsDeposits(s, s.consumed.Keys, list)
    ensures ListedAmount(list) == s.credited
    ensures forall k :: 0 <= k < |list| ==> list[k].account.Some? && list[k].memo.Some?
  {
    CreditListed(s, s.consumed.Keys, list);
    forall i | i in s.intents && s.intents[i].status == L.Consumed
      ensures i in ListedIds(list)
    {
      var k :| 0 <= k < |list| && list[k].payment == s.intents[i].payment.value;
      assert list[k].intentId == i;
    }
    assert CreditsAmong(s.intents, ListedIds(list)) == Credits(s.intents);
  }
}
