/** The open route, the deposit scan and the ledger together: a transaction on chain
    credits at most one intent, and that one once, however many payments it holds. */
module DepositClaims {
  import opened Wrappers
  import opened DepositScan
  import opened Ledger
  import opened LedgerConservation
  import opened LedgerIntents
  import opened LedgerRetries

  /** A successful transaction: its memo, if it is one of text, and its operations. */
  datatype Transaction = Transaction(memo: Option<string>, records: seq<Operation>)

  type Chain = map<string, Transaction>

  /** The deposit an intent asks for, in the asset the router takes. */
  function Asked(i: Intent, issuer: string): Wanted { Wanted(i.destination, i.account, i.amount, issuer) }

  /** The verification of an intent's deposit finds this payment. */
  predicate Verifies(chain: Chain, i: Intent, p: Payment, issuer: string) {
    && p.0 in chain && chain[p.0].memo == Some(i.memo)
    && p.1 >= 0 && IsFirstPayment(chain[p.0].records, Asked(i, issuer), Some(p.1))
  }

  /** An open the route lets through to the ledger: verified, or a repeat for the payment
      the intent was credited with. Nothing it looks at in the intent changes afterwards. */
  predicate FromRoute(s: State, chain: Chain, q: OpenRequest, issuer: string) {
    && q.id in s.intents && s.intents[q.id].destination != ""
    && (|| (s.intents[q.id].status == Consumed && s.intents[q.id].payment == Some(q.payment))
        || Verifies(chain, s.intents[q.id], q.payment, issuer))
  }

  ghost predicate AllFromRoute(s: State, chain: Chain, ops: seq<Op>, issuer: string)
    decreases |ops|
  {
    ops == [] || ((ops[0].DoOpen? ==> FromRoute(s, chain, ops[0].open, issuer))
                  && AllFromRoute(Do(s, ops[0]).0, chain, ops[1..], issuer))
  }

  /** Every payment taken up was verified for its intent. */
  ghost predicate ClaimsOk(s: State, chain: Chain, issuer: string) {
    forall p :: p in s.consumed ==>
      s.consumed[p] in s.intents && s.intents[s.consumed[p]].status == Consumed
      && Verifies(chain, s.intents[s.consumed[p]], p, issuer)
  }

  lemma OpenKeepsClaims(s: State, chain: Chain, q: OpenRequest, caps: Caps, issuer: string)
    requires ClaimsOk(s, chain, issuer) && FromRoute(s, chain, q, issuer)
    ensures ClaimsOk(OpenIntent(s, q, caps).0, chain, issuer)
  {
    var s' := OpenIntent(s, q, caps).0;
    OpenAdvances(s, q, caps);
    OpenClaims(s, q, caps);
    forall p | p in s'.consumed
      ensures s'.consumed[p] in s'.intents && s'.intents[s'.consumed[p]].status == Consumed
              && Verifies(chain, s'.intents[s'.consumed[p]], p, issuer)
    {
      if p in s.consumed && s'.consumed[p] == s.consumed[p] {
        assert SameIntent(s.intents[s.consumed[p]], s'.intents[s.consumed[p]]);
      }
    }
  }

  /** What is taken up is what was asked for, for an intent not yet credited. */
  lemma OpenClaims(s: State, q: OpenRequest, caps: Caps)
    ensures var s' := OpenIntent(s, q, caps).0;
            s'.consumed == s.consumed
            || (&& q.id in s.intents && s.intents[q.id].status != Consumed
                && s'.consumed == s.consumed[q.payment := q.id]
                && q.id in s'.intents && s'.intents[q.id].status == Consumed
                && s'.intents[q.id] == s.intents[q.id].(status := Consumed, payment := s'.intents[q.id].payment,
                                                        session := s'.intents[q.id].session))
  {
    if q.id in s.intents {
      OneBranch(s, q, s.intents[q.id]);
    }
  }

  lemma OneBranch(s: State, q: OpenRequest, i: Intent)
    requires q.id in s.intents && i == s.intents[q.id]
    ensures Replay(s, q, i).0.consumed == TooLate(s, q, i).0.consumed == Refuse(s, q, i).0.consumed == s.consumed
    ensures Credit(s, q, i).0.consumed == s.consumed[q.payment := q.id]
    ensures Credit(s, q, i).0.intents
            == s.intents[q.id := i.(status := Consumed, payment := Some(q.payment), session := Some(q.session))]
  {
  }

  lemma OthersClaimNothing(s: State, op: Op)
    requires !op.DoOpen?
    ensures Do(s, op).0.consumed == s.consumed
  {
    match op
    case DoCreate(q, caps) =>
    case DoReserve(id, account, maxPrice, now) =>
      var s' := Reserve(s, id, account, maxPrice, now).0;
      assert s' == s.(balances := s'.balances, calls := s'.calls);
    case DoDispatch(id) => assert Dispatch(s, id).0 == s.(calls := Dispatch(s, id).0.calls);
    case DoSettle(id, action) => SettleClaimsNothing(s, id, action);
    case DoArm(id) =>
    case DoAlarm(now) =>
    case DoReapPart(seen, now) =>
  }

  lemma SettleClaimsNothing(s: State, id: string, action: SettleAction)
    ensures Settle(s, id, action).0.consumed == s.consumed
  {
  }

  lemma StepKeepsClaims(s: State, chain: Chain, op: Op, issuer: string)
    requires ClaimsOk(s, chain, issuer) && (op.DoCreate? ==> op.create.id !in s.intents)
    requires op.DoOpen? ==> FromRoute(s, chain, op.open, issuer)
    ensures ClaimsOk(Do(s, op).0, chain, issuer)
  {
    if op.DoOpen? {
      OpenKeepsClaims(s, chain, op.open, op.caps, issuer);
    } else {
      var s' := Do(s, op).0;
      OthersClaimNothing(s, op);
      OneStepAdvances(s, op);
      forall p | p in s'.consumed
        ensures s'.consumed[p] in s'.intents && s'.intents[s'.consumed[p]].status == Consumed
                && Verifies(chain, s'.intents[s'.consumed[p]], p, issuer)
      {
        assert SameIntent(s.intents[s.consumed[p]], s'.intents[s.consumed[p]]);
      }
    }
  }

  lemma {:induction false} RunKeepsClaims(s: State, chain: Chain, ops: seq<Op>, issuer: string)
    requires ClaimsOk(s, chain, issuer) && FreshIds(s, ops) && AllFromRoute(s, chain, ops, issuer)
    ensures ClaimsOk(Run(s, ops), chain, issuer)
    decreases |ops|
  {
    if ops != [] {
      StepKeepsClaims(s, chain, ops[0], issuer);
      RunKeepsClaims(Do(s, ops[0]).0, chain, ops[1..], issuer);
    }
  }

  ghost predicate InOrder(s: State, chain: Chain, issuer: string) {
    Matched(s) && MemosMatch(s) && ClaimsOk(s, chain, issuer)
  }

  lemma RunIsInOrder(start: State, chain: Chain, ops: seq<Op>, issuer: string)
    requires Empty(start) && FreshIds(start, ops) && AllFromRoute(start, chain, ops, issuer)
    ensures InOrder(Run(start, ops), chain, issuer)
  {
    EmptyLedgerIsInOrder(start);
    RunKeepsInv(start, ops);
    RunKeepsMemos(start, ops);
    RunKeepsClaims(start, chain, ops, issuer);
  }

  /** The memo names the one intent that a payment of the transaction may be for. */
  lemma MemoNamesTheIntent(s: State, chain: Chain, issuer: string, p: Payment, id: string)
    requires InOrder(s, chain, issuer) && p in s.consumed && id in s.intents
    requires chain[p.0].memo == Some(s.intents[id].memo)
    ensures id == s.consumed[p]
  {
    assert Verifies(chain, s.intents[s.consumed[p]], p, issuer);
    assert s.memos[s.intents[s.consumed[p]].memo] == s.consumed[p];
  }

  lemma OnePaymentIsTakenUp(s: State, chain: Chain, issuer: string, p: Payment, q: Payment)
    requires InOrder(s, chain, issuer) && p in s.consumed && q in s.consumed && p.0 == q.0
    ensures p == q
  {
    assert Verifies(chain, s.intents[s.consumed[q]], q, issuer);
    MemoNamesTheIntent(s, chain, issuer, p, s.consumed[q]);
    assert s.intents[s.consumed[p]].payment == Some(p);
  }

  lemma OnlyItsIntentIsLetThrough(s: State, chain: Chain, issuer: string, p: Payment, again: OpenRequest)
    requires InOrder(s, chain, issuer) && p in s.consumed && again.payment.0 == p.0
    requires FromRoute(s, chain, again, issuer)
    ensures again.id == s.consumed[p] && again.payment == p
  {
    var i := s.intents[again.id];
    if i.status == Consumed && i.payment == Some(again.payment) {
      OnePaymentIsTakenUp(s, chain, issuer, p, again.payment);
    } else {
      MemoNamesTheIntent(s, chain, issuer, p, again.id);
      SameFirstPayment(chain[p.0].records, Asked(i, issuer), p.1, again.payment.1);
    }
  }

  lemma SameFirstPayment(records: seq<Operation>, w: Wanted, i: int, j: int)
    requires i >= 0 && j >= 0 && IsFirstPayment(records, w, Some(i)) && IsFirstPayment(records, w, Some(j))
    ensures i == j
  {
    assert Pays(records[i], w) && Pays(records[j], w);
  }

  /** Over every run, of all the payments in one transaction at most one is ever taken
      up: the first that pays what the intent named by the memo asks for. */
  lemma TransactionCreditsOnce(start: State, chain: Chain, ops: seq<Op>, issuer: string, p: Payment, q: Payment)
    requires Empty(start) && FreshIds(start, ops) && AllFromRoute(start, chain, ops, issuer)
    requires p in Run(start, ops).consumed && q in Run(start, ops).consumed && p.0 == q.0
    ensures p == q
    ensures var s := Run(start, ops);
            s.consumed[p] in s.intents && Verifies(chain, s.intents[s.consumed[p]], p, issuer)
  {
    RunIsInOrder(start, chain, ops, issuer);
    OnePaymentIsTakenUp(Run(start, ops), chain, issuer, p, q);
  }

  /** From then on no open that the route lets through for that transaction is for any
      other intent or any other payment, and none moves money: it gets the session of the
      intent that was credited. */
  lemma SpentTransactionMovesNothing(
      start: State, chain: Chain, ops: seq<Op>, issuer: string, p: Payment, again: OpenRequest, caps: Caps)
    requires Empty(start) && FreshIds(start, ops) && AllFromRoute(start, chain, ops, issuer)
    requires p in Run(start, ops).consumed && again.payment.0 == p.0 && FromRoute(Run(start, ops), chain, again, issuer)
    ensures var s := Run(start, ops);
            var (s', r) := OpenIntent(s, again, caps);
            && again.id == s.consumed[p] && again.payment == p && r.Opened? && r.replayed
            && s' == s.(intents := s'.intents)
  {
    RunIsInOrder(start, chain, ops, issuer);
    OnlyItsIntentIsLetThrough(Run(start, ops), chain, issuer, p, again);
    RepeatMovesNothing(Run(start, ops), again, caps);
  }

  lemma RepeatMovesNothing(s: State, again: OpenRequest, caps: Caps)
    requires Matched(s) && again.payment in s.consumed && s.consumed[again.payment] == again.id
    ensures var (s', r) := OpenIntent(s, again, caps); r.Opened? && r.replayed && s' == s.(intents := s'.intents)
  {
  }
}
