/** What the protocol's guarantees add up to: money paid back against one payment,
    and refunds that cannot get stuck behind an expired envelope. */
module RefundTotals {
  import opened Sums
  import opened RefundRecord
  import opened RefundChain
  import opened RefundCoordinator
  import opened RefundProtocol
  import opened RefundSafety
  import opened RefundTheorems

  /** The envelopes broadcast for any refund of one payment that have paid. */
  function PaidBack(s: Sys, paymentTx: string): set<Envelope> {
    set q | q in s.sent && Succeeded(s.chain, q.1) && q.0 in s.records
            && s.records[q.0].payment.paymentTx == paymentTx :: q.1
  }

  ghost function Amount(es: set<Envelope>): int {
    SumMap(map e | e in es :: e.amount)
  }

  lemma AmountOfOneMore(es: set<Envelope>, e: Envelope)
    requires e !in es
    ensures Amount(es + {e}) == Amount(es) + e.amount
  {
    var m := map f | f in es :: f.amount;
    assert (map f | f in es + {e} :: f.amount) == m[e := e.amount];
    SumUpdate(m, e, e.amount);
  }

  /** The part of PaidBack owed to the first k reservations. */
  function PaidBackBy(s: Sys, paymentTx: string, k: nat): set<Envelope>
    requires k <= |s.rows|
  {
    set q, i | q in s.sent && 0 <= i < k && Succeeded(s.chain, q.1)
               && s.rows[i].refundId == q.0 && s.rows[i].paymentTx == paymentTx :: q.1
  }

  /** What the invariant says of broadcast envelopes that have paid. */
  ghost predicate PaybacksAreReserved(s: Sys) {
    && TableOk(s.rows)
    && (forall q :: q in s.sent && Succeeded(s.chain, q.1) ==>
          HasReservation(s, q.0) && Find(s.rows, q.0).value.amount == q.1.amount)
    && (forall q, p :: q in s.sent && p in s.sent && q.0 == p.0 && Succeeded(s.chain, q.1) && Succeeded(s.chain, p.1)
                       ==> q == p)
  }

  lemma InvReservesPaybacks(paid: map<string, int>, s: Sys)
    requires Inv(paid, s)
    ensures PaybacksAreReserved(s)
  {
  }

  lemma {:induction false} PaidBackWithinReservations(s: Sys, paymentTx: string, k: nat)
    requires PaybacksAreReserved(s) && k <= |s.rows|
    ensures Amount(PaidBackBy(s, paymentTx, k)) <= SumFor(s.rows[..k], paymentTx)
  {
    if k == 0 {
      assert PaidBackBy(s, paymentTx, 0) == {};
      assert (map e | e in PaidBackBy(s, paymentTx, 0) :: e.amount) == map[];
    } else {
      PaidBackWithinReservations(s, paymentTx, k - 1);
      assert s.rows[..k][..k - 1] == s.rows[..k - 1];
      var before, now := PaidBackBy(s, paymentTx, k - 1), PaidBackBy(s, paymentTx, k);
      assert before <= now;
      if now == before {
      } else {
        var e :| e in now && e !in before;
        OnlyEnvelopeOfRow(s, paymentTx, k, e);
        assert now == before + {e};
        AmountOfOneMore(before, e);
      }
    }
  }

  lemma NewPaybackIsOfLastRow(s: Sys, paymentTx: string, k: nat, e: Envelope)
    requires 0 < k <= |s.rows|
    requires e in PaidBackBy(s, paymentTx, k) && e !in PaidBackBy(s, paymentTx, k - 1)
    ensures (s.rows[k - 1].refundId, e) in s.sent && Succeeded(s.chain, e) && s.rows[k - 1].paymentTx == paymentTx
  {
  }

  /** A reservation adds at most one envelope, of exactly the reserved amount. */
  lemma OnlyEnvelopeOfRow(s: Sys, paymentTx: string, k: nat, e: Envelope)
    requires PaybacksAreReserved(s) && 0 < k <= |s.rows|
    requires e in PaidBackBy(s, paymentTx, k) && e !in PaidBackBy(s, paymentTx, k - 1)
    ensures s.rows[k - 1].paymentTx == paymentTx && e.amount == s.rows[k - 1].amount
    ensures forall f :: f in PaidBackBy(s, paymentTx, k) && f !in PaidBackBy(s, paymentTx, k - 1) ==> f == e
  {
    var r := s.rows[k - 1].refundId;
    NewPaybackIsOfLastRow(s, paymentTx, k, e);
    FindIsComplete(s.rows, k - 1);
    assert (r, e) in s.sent;
    forall f | f in PaidBackBy(s, paymentTx, k) && f !in PaidBackBy(s, paymentTx, k - 1)
      ensures f == e
    {
      NewPaybackIsOfLastRow(s, paymentTx, k, f);
      assert (r, f) == (r, e);
    }
  }

  lemma EveryPaybackHasReservation(s: Sys, paymentTx: string)
    requires PaybacksAreReserved(s)
    ensures PaidBack(s, paymentTx) <= PaidBackBy(s, paymentTx, |s.rows|)
  {
    forall e | e in PaidBack(s, paymentTx)
      ensures e in PaidBackBy(s, paymentTx, |s.rows|)
    {
      var q :| q in s.sent && q.1 == e && Succeeded(s.chain, q.1)
               && q.0 in s.records && s.records[q.0].payment.paymentTx == paymentTx;
      FindIsMembership(s.rows, q.0);
      var i :| 0 <= i < |s.rows| && s.rows[i] == Find(s.rows, q.0).value;
      assert s.rows[i].refundId == q.0;
    }
  }

  lemma {:induction false} AmountIsMonotone(small: set<Envelope>, large: set<Envelope>)
    requires small <= large && forall e :: e in large ==> e.amount >= 0
    ensures Amount(small) <= Amount(large)
    decreases |large|
  {
    if small == large {
    } else {
      var e :| e in large && e !in small;
      assert small <= large - {e};
      AmountIsMonotone(small, large - {e});
      AmountOfOneMore(large - {e}, e);
      assert large - {e} + {e} == large;
    }
  }

  lemma PaybacksWithinTable(paid: map<string, int>, s: Sys, paymentTx: string)
    requires PaybacksAreReserved(s) && FundedBy(s.rows, paid) && PaidBack(s, paymentTx) != {}
    ensures paymentTx in paid && Amount(PaidBack(s, paymentTx)) <= paid[paymentTx]
  {
    var back, all := PaidBack(s, paymentTx), PaidBackBy(s, paymentTx, |s.rows|);
    EveryPaybackHasReservation(s, paymentTx);
    forall e | e in all
      ensures e.amount > 0
    {
      var q, i :| q in s.sent && 0 <= i < |s.rows| && q.1 == e && Succeeded(s.chain, q.1)
                  && s.rows[i].refundId == q.0 && s.rows[i].paymentTx == paymentTx;
      FindIsComplete(s.rows, i);
    }
    AmountIsMonotone(back, all);
    PaidBackWithinReservations(s, paymentTx, |s.rows|);
    assert s.rows[..|s.rows|] == s.rows;
    var e :| e in all;
    var q, i :| && q in s.sent && 0 <= i < |s.rows| && q.1 == e
                && s.rows[i].refundId == q.0 && s.rows[i].paymentTx == paymentTx;
    assert s.rows[i].paymentTx in paid;
  }

  /** Over any run, the money actually paid back on chain against one original
      payment, summed over all refunds of it, never exceeds what was paid. */
  lemma PaidBackWithinPayment(paid: map<string, int>, init: Sys, acts: seq<Action>, s: Sys, paymentTx: string)
    requires Reached(paid, init, acts, s)
    ensures PaidBack(s, paymentTx) != {} ==> paymentTx in paid && Amount(PaidBack(s, paymentTx)) <= paid[paymentTx]
  {
    ReachedKeepsInv(paid, init, acts, s);
    InvReservesPaybacks(paid, s);
    if PaidBack(s, paymentTx) != {} {
      PaybacksWithinTable(paid, s, paymentTx);
    }
  }
}
