/** Every action keeps the invariant, except the two hazards. */
module RefundSteps {
  import opened Wrappers
  import opened RefundRecord
  import opened RefundChain
  import opened RefundCoordinator
  import opened RefundProtocol
  import opened RefundSafety
  import Sequence = RefundSequence

  lemma EnqueueKeepsInv(paid: map<string, int>, s: Sys, r: RefundId, proof: PaymentProof)
    requires Inv(paid, s) && r !in s.records
    ensures Inv(paid, Store(s, r, NewRecord(proof)))
  {
    var x := ExecId(FreshRun(s), r);
    EnqueueIsGood(paid, s, x, r, proof, UnheldLease(paid, s, x));
    MoveKeepsInv(paid, s, Store(s, r, NewRecord(proof)), x, r, UnheldLease(paid, s, x));
  }

  lemma EnqueueIsGood(paid: map<string, int>, s: Sys, x: ExecId, r: RefundId, proof: PaymentProof, l: LeaseId)
    requires r !in s.records && x !in s.execs
    ensures GoodMove(paid, s, Store(s, r, NewRecord(proof)), x, r, l)
  {
  }

  lemma UnparkKeepsInv(paid: map<string, int>, s: Sys, r: RefundId)
    requires Inv(paid, s) && !Hazard(s, Unpark(r))
    ensures Inv(paid, DoUnpark(s, r))
  {
    if UnparkChange(Current(s, r)).Set? {
      var x := ExecId(FreshRun(s), r);
      UnparkIsGood(paid, s, x, r, UnheldLease(paid, s, x));
      MoveKeepsInv(paid, s, DoUnpark(s, r), x, r, UnheldLease(paid, s, x));
    }
  }

  lemma UnparkIsGood(paid: map<string, int>, s: Sys, x: ExecId, r: RefundId, l: LeaseId)
    requires r in s.records && RecordOk(paid, s, r) && UnparkChange(Current(s, r)).Set? && !Hazard(s, Unpark(r))
    requires x !in s.execs
    ensures GoodMove(paid, s, DoUnpark(s, r), x, r, l)
  {
    RewriteExtends(s, DoUnpark(s, r), r);
  }

  lemma CloseExtends(s: Sys, t: int, sequence: int, batch: map<Envelope, bool>)
    requires CanClose(s.chain, t, sequence, batch)
    ensures Extends(s, s.(chain := Close(s.chain, t, sequence, batch)))
  {
  }

  /** A step that changes no record and no executor, but extends the rest. */
  lemma AllStayOk(paid: map<string, int>, s: Sys, later: Sys)
    requires Inv(paid, s) && Extends(s, later)
    requires later.records == s.records && later.execs == s.execs && later.accepted == s.accepted
    ensures forall q :: q in later.records ==> RecordOk(paid, later, q)
    ensures forall y :: y in later.execs ==> ExecOk(paid, later, later.execs[y])
    ensures forall q, f :: (q, f) in s.sent ==> SentOk(later, q, f)
    ensures forall m :: m in later.accepted ==> SentOk(later, later.accepted[m].0, later.accepted[m].1)
  {
    AllRecordsStayOk(paid, s, later);
    AllExecsStayOk(paid, s, later);
  }

  lemma AllRecordsStayOk(paid: map<string, int>, s: Sys, later: Sys)
    requires Inv(paid, s) && Extends(s, later)
    requires later.records == s.records && later.accepted == s.accepted
    ensures forall q :: q in later.records ==> RecordOk(paid, later, q)
  {
    forall q | q in later.records
      ensures RecordOk(paid, later, q)
    {
      RecordStaysOk(paid, s, later, q);
    }
  }

  lemma AllExecsStayOk(paid: map<string, int>, s: Sys, later: Sys)
    requires Inv(paid, s) && Extends(s, later)
    requires later.execs == s.execs && later.accepted == s.accepted
    ensures forall y :: y in later.execs ==> ExecOk(paid, later, later.execs[y])
  {
    forall y | y in later.execs
      ensures ExecOk(paid, later, later.execs[y])
    {
      ExecStaysOk(paid, s, later, s.execs[y]);
    }
  }

  lemma CloseKeepsInv(paid: map<string, int>, s: Sys, t: int, sequence: int, batch: map<Envelope, bool>)
    requires Inv(paid, s) && batch.Keys <= SentEnvelopes(s) && CanClose(s.chain, t, sequence, batch)
    ensures Inv(paid, s.(chain := Close(s.chain, t, sequence, batch)))
  {
    var later := s.(chain := Close(s.chain, t, sequence, batch));
    CloseExtends(s, t, sequence, batch);
    CloseKeepsChainOk(s.chain, t, sequence, batch);
    AllStayOk(paid, s, later);
    TablesStayOk(paid, s, later);
  }

  lemma BeginKeepsInv(paid: map<string, int>, s: Sys, run: RunId)
    requires Inv(paid, s)
    ensures Inv(paid, Begun(s, run))
  {
    var later := Begun(s, run);
    BeginExtends(s, run);
    forall r | r in s.records
      ensures RecordOk(paid, later, r)
    {
      RecordStaysOk(paid, s, later, r);
    }
    forall x | x in later.execs
      ensures ExecOk(paid, later, later.execs[x])
    {
      BegunExecIsOk(paid, s, run, x);
    }
    HoldersStay(s, run);
    TablesStayOk(paid, s, later);
  }

  lemma BeginExtends(s: Sys, run: RunId)
    ensures Extends(s, Begun(s, run))
  {
    SameExtends(s, Begun(s, run));
  }

  lemma SameExtends(s: Sys, later: Sys)
    requires later.records == s.records && later.rows == s.rows && later.leases == s.leases && later.chain == s.chain
    requires later.accepted == s.accepted && later.signed == s.signed && later.sent == s.sent
    ensures Extends(s, later)
  {
  }

  lemma BegunExecIsOk(paid: map<string, int>, s: Sys, run: RunId, x: ExecId)
    requires forall r :: r in s.records ==> RecordOk(paid, s, r)
    requires forall l :: l in s.accepted ==> l in s.leases
    requires x in s.execs ==> ExecOk(paid, s, s.execs[x])
    requires x in Begun(s, run).execs
    ensures ExecOk(paid, Begun(s, run), Begun(s, run).execs[x])
  {
    BeginExtends(s, run);
    if x in Listing(s, run) {
      ListIsOk(paid, s, x.refund);
    }
    ExecStaysOk(paid, s, Begun(s, run), Begun(s, run).execs[x]);
  }

  /** Those listed hold no lease. */
  lemma HoldersStay(s: Sys, run: RunId)
    ensures forall x :: x in Begun(s, run).execs && HoldsUnspent(Begun(s, run).execs[x]) ==>
              x in s.execs && Begun(s, run).execs[x] == s.execs[x]
  {
  }

  lemma ListIsOk(paid: map<string, int>, s: Sys, r: RefundId)
    requires r in s.records && RecordOk(paid, s, r) && IsListed(s.records[r])
    requires forall l :: l in s.accepted ==> l in s.leases
    ensures ExecOk(paid, s, Listed(Job(r, s.records[r])))
  {
  }

  lemma ReservationExtends(paid: map<string, int>, s: Sys, job: Job)
    requires TableOk(s.rows) && FundedBy(s.rows, paid) && JobOk(s, job) && Payable(paid, job)
    ensures var (rows, res) := ReserveRows(s.rows, job.refundId, job.record.payment.paymentTx,
                                           job.record.refundAmount, paid[job.record.payment.paymentTx]);
            && Extends(s, s.(rows := rows)) && TableOk(rows) && FundedBy(rows, paid)
            && ((res == Reserved || res == AlreadyReserved) ==> HasReservation(s.(rows := rows), job.refundId))
            && (rows == s.rows || (s.rows == rows[..|rows| - 1] && rows[|rows| - 1].refundId == job.refundId
                                   && HasReservation(s.(rows := rows), job.refundId)))
  {
    var p := job.record.payment.paymentTx;
    var (rows, res) := ReserveRows(s.rows, job.refundId, p, job.record.refundAmount, paid[p]);
    ReserveKeepsTable(s.rows, job.refundId, p, job.record.refundAmount, paid);
    if rows != s.rows {
      var row := Row(job.refundId, p, job.record.refundAmount, paid[p], false);
      assert rows == s.rows + [row];
      OneRowExtends(s, row);
    }
  }

  lemma OneRowExtends(s: Sys, row: Row)
    requires Find(s.rows, row.refundId).None?
    ensures Extends(s, s.(rows := s.rows + [row])) && Find(s.rows + [row], row.refundId) == Some(row)
  {
    forall q: RefundId
      ensures Find(s.rows + [row], q) == if q == row.refundId then Some(row) else Find(s.rows, q)
    {
      FindInOneMore(s.rows, row, q);
    }
  }

  lemma ReservationKeepsInv(paid: map<string, int>, s: Sys, job: Job)
    requires Inv(paid, s) && JobOk(s, job) && Payable(paid, job)
    ensures Inv(paid, s.(rows := ReserveRows(s.rows, job.refundId, job.record.payment.paymentTx,
                                             job.record.refundAmount, paid[job.record.payment.paymentTx]).0))
  {
    var rows := ReserveRows(s.rows, job.refundId, job.record.payment.paymentTx,
                            job.record.refundAmount, paid[job.record.payment.paymentTx]).0;
    var later := s.(rows := rows);
    ReservationExtends(paid, s, job);
    AllStayOk(paid, s, later);
    forall i | 0 <= i < |later.rows|
      ensures HasReservation(later, later.rows[i].refundId)
    {
      if i < |s.rows| {
        assert HasReservation(s, s.rows[i].refundId);
      }
    }
    assert SentEnvelopes(later) == SentEnvelopes(s);
  }

  lemma ClearedExecIsOk(paid: map<string, int>, s: Sys, later: Sys, job: Job)
    requires ExecOk(paid, s, Listed(job)) && Extends(s, later)
    requires Payable(paid, job) && HasReservation(later, job.refundId)
    ensures ExecOk(paid, later, Cleared(job))
    ensures job.record.state == Submitted ==>
              ExecOk(paid, later, Accepted(job, job.record.lease.value.id, job.record.signedXdr.value))
  {
  }

  lemma ClearKeepsInv(paid: map<string, int>, s: Sys, x: ExecId, job: Job)
    requires Inv(paid, s) && x in s.execs && s.execs[x] == Listed(job)
    ensures Inv(paid, DoClear(paid, s, x, job))
  {
    ExecFacts(paid, s, x);
    if !Payable(paid, job) {
      StopKeepsInv(paid, s, x);
    } else {
      var (rows, res) := ReserveRows(s.rows, job.refundId, job.record.payment.paymentTx,
                                     job.record.refundAmount, paid[job.record.payment.paymentTx]);
      ReservationKeepsInv(paid, s, job);
      if res == Reserved || res == AlreadyReserved {
        ReservationExtends(paid, s, job);
        ClearedExecIsOk(paid, s, s.(rows := rows), job);
        ClearedKeepsInv(paid, s.(rows := rows), x, job);
      } else {
        StopKeepsInv(paid, s.(rows := rows), x);
      }
    }
  }

  lemma ClearedKeepsInv(paid: map<string, int>, s: Sys, x: ExecId, job: Job)
    requires Inv(paid, s)
    requires if job.record.state == Submitted
             then job.record.lease.Some? && job.record.signedXdr.Some?
                  && ExecOk(paid, s, Accepted(job, job.record.lease.value.id, job.record.signedXdr.value))
             else ExecOk(paid, s, Cleared(job))
    ensures Inv(paid, At(s, x, if job.record.state == Submitted
                               then Accepted(job, job.record.lease.value.id, job.record.signedXdr.value)
                               else Cleared(job)))
  {
    if job.record.state == Submitted {
      ExecMoveKeepsInv(paid, s, x, Accepted(job, job.record.lease.value.id, job.record.signedXdr.value));
    } else {
      ExecMoveKeepsInv(paid, s, x, Cleared(job));
    }
  }

  lemma TakeLeaseKeepsInv(paid: map<string, int>, s: Sys, x: ExecId, job: Job, lease: LeaseId, now: int)
    requires Inv(paid, s) && x in s.execs && s.execs[x] == Cleared(job) && lease !in s.leases
    ensures Inv(paid, DoTakeLease(s, x, job, lease, now))
  {
    if LeaseChange(Current(s, job.refundId), lease, now).Set? {
      ExecFacts(paid, s, x);
      NewLeaseIsUnheld(paid, s, x, lease);
      TakeLeaseIsGood(paid, s, x, job, lease, now);
      MoveKeepsInv(paid, s, DoTakeLease(s, x, job, lease, now), x, job.refundId, lease);
    } else {
      StopKeepsInv(paid, s, x);
    }
  }

  lemma TakeLeaseIsGood(paid: map<string, int>, s: Sys, x: ExecId, job: Job, lease: LeaseId, now: int)
    requires ExecOk(paid, s, Cleared(job)) && RecordOk(paid, s, job.refundId)
    requires lease !in s.leases && lease !in s.accepted
    requires LeaseChange(Current(s, job.refundId), lease, now).Set?
    ensures GoodMove(paid, s, DoTakeLease(s, x, job, lease, now), x, job.refundId, lease)
  {
    RewriteExtends(s, DoTakeLease(s, x, job, lease, now), job.refundId);
  }

  lemma SignKeepsInv(paid: map<string, int>, s: Sys, x: ExecId, job: Job, lease: LeaseId, e: Envelope)
    requires Inv(paid, s) && x in s.execs && s.execs[x] == Holding(job, lease) && Pays(job.record, e)
    ensures Inv(paid, DoSign(s, x, job, lease, e))
  {
    ExecFacts(paid, s, x);
    ExecMoveIsGood(paid, s, DoSign(s, x, job, lease, e), x, job.refundId, lease);
    MoveKeepsInv(paid, s, DoSign(s, x, job, lease, e), x, job.refundId, lease);
  }

  lemma PresentKeepsInv(paid: map<string, int>, s: Sys, x: ExecId, job: Job, lease: LeaseId, e: Envelope)
    requires Inv(paid, s) && x in s.execs && s.execs[x] == Signed(job, lease, e)
    ensures Inv(paid, DoPresent(s, x, job, lease, e))
  {
    ExecFacts(paid, s, x);
    StopKeepsInv(paid, s, x);
    ExecMoveKeepsInv(paid, s, x, Checked(job, lease, e));
  }

  lemma SubmitKeepsInv(paid: map<string, int>, s: Sys, x: ExecId, job: Job, lease: LeaseId, e: Envelope)
    requires Inv(paid, s) && x in s.execs && s.execs[x] == Checked(job, lease, e) && !Hazard(s, Submit(x))
    ensures Inv(paid, DoSubmit(s, x, job, lease, e))
  {
    var change := CompleteChange(Current(s, job.refundId), lease, Completion(Submitted, HashOf(e), Some(e), None));
    if change.result.None? {
      StopKeepsInv(paid, s, x);
    } else {
      ExecFacts(paid, s, x);
      SubmitIsGood(paid, s, x, job, lease, e);
      MoveKeepsInv(paid, s, DoSubmit(s, x, job, lease, e), x, job.refundId, lease);
    }
  }

  /** The record was either still leased, and now remembers the envelope, or it
      was confirmed: then, with the hazard excluded, the envelope is the confirmed
      one or can never be paid. */
  lemma SubmitIsGood(paid: map<string, int>, s: Sys, x: ExecId, job: Job, lease: LeaseId, e: Envelope)
    requires ExecOk(paid, s, Checked(job, lease, e)) && RecordOk(paid, s, job.refundId)
    requires x in s.execs && s.execs[x] == Checked(job, lease, e) && !Hazard(s, Submit(x))
    requires CompleteChange(Current(s, job.refundId), lease,
                            Completion(Submitted, HashOf(e), Some(e), None)).result.Some?
    ensures GoodMove(paid, s, DoSubmit(s, x, job, lease, e), x, job.refundId, lease)
  {
    if s.records[job.refundId].state == RefundState.Confirmed {
      LateSubmitIsGood(paid, s, x, job, lease, e);
    } else {
      assert s.records[job.refundId].state == Leased;
      LeasedSubmitIsGood(paid, s, x, job, lease, e);
    }
  }

  function SubmittedRecord(rec: RefundRecord, e: Envelope): RefundRecord {
    rec.(state := Submitted, refundTx := Some(HashOf(e)), signedXdr := Some(e))
  }

  lemma LeasedSubmitIsGood(paid: map<string, int>, s: Sys, x: ExecId, job: Job, lease: LeaseId, e: Envelope)
    requires ExecOk(paid, s, Checked(job, lease, e)) && RecordOk(paid, s, job.refundId)
    requires s.records[job.refundId].state == Leased && HasLease(s.records[job.refundId], lease)
    ensures GoodMove(paid, s, DoSubmit(s, x, job, lease, e), x, job.refundId, lease)
  {
    LeasedSubmitEffect(s, x, job, lease, e);
    LeasedAcceptIsGood(paid, s, x, job, lease, e);
  }

  lemma LeasedSubmitEffect(s: Sys, x: ExecId, job: Job, lease: LeaseId, e: Envelope)
    requires job.refundId in s.records && s.records[job.refundId].state == Leased
    requires HasLease(s.records[job.refundId], lease)
    ensures DoSubmit(s, x, job, lease, e)
            == At(Store(s, job.refundId, SubmittedRecord(s.records[job.refundId], e)), x, Accepted(job, lease, e))
               .(accepted := s.accepted[lease := (job.refundId, e)])
  {
  }

  lemma LeasedAcceptIsGood(paid: map<string, int>, s: Sys, x: ExecId, job: Job, lease: LeaseId, e: Envelope)
    requires ExecOk(paid, s, Checked(job, lease, e)) && RecordOk(paid, s, job.refundId)
    requires s.records[job.refundId].state == Leased && HasLease(s.records[job.refundId], lease)
    ensures GoodMove(paid, s,
                     At(Store(s, job.refundId, SubmittedRecord(s.records[job.refundId], e)), x, Accepted(job, lease, e))
                              .(accepted := s.accepted[lease := (job.refundId, e)]),
                     x, job.refundId, lease)
  {
    var later := At(Store(s, job.refundId, SubmittedRecord(s.records[job.refundId], e)), x, Accepted(job, lease, e))
                 .(accepted := s.accepted[lease := (job.refundId, e)]);
    assert Stored(later, job.refundId, e);
    RewriteExtends(s, later, job.refundId);
    AcceptedRecordIsOk(paid, s, later, job, lease, e);
  }

  lemma AcceptedRecordIsOk(paid: map<string, int>, s: Sys, later: Sys, job: Job, lease: LeaseId, e: Envelope)
    requires ExecOk(paid, s, Checked(job, lease, e)) && Extends(s, later) && later.rows == s.rows
    requires s.records[job.refundId].state == Leased && HasLease(s.records[job.refundId], lease)
    requires job.refundId in later.records
    requires later.records[job.refundId] == SubmittedRecord(s.records[job.refundId], e)
    requires lease in later.accepted && later.accepted[lease] == (job.refundId, e)
    ensures RecordOk(paid, later, job.refundId) && SentOk(later, job.refundId, e)
  {
  }

  lemma LateSubmitIsGood(paid: map<string, int>, s: Sys, x: ExecId, job: Job, lease: LeaseId, e: Envelope)
    requires ExecOk(paid, s, Checked(job, lease, e)) && RecordOk(paid, s, job.refundId)
    requires s.records[job.refundId].state == RefundState.Confirmed && StoredOrDead(s, job.refundId, e)
    ensures GoodMove(paid, s, DoSubmit(s, x, job, lease, e), x, job.refundId, lease)
  {
    LateSubmitEffect(s, x, job, lease, e);
    LateAcceptIsGood(paid, s, x, job, lease, e);
  }

  /** The confirmed record comes back as it is. */
  lemma LateSubmitEffect(s: Sys, x: ExecId, job: Job, lease: LeaseId, e: Envelope)
    requires job.refundId in s.records && s.records[job.refundId].state == RefundState.Confirmed
    ensures DoSubmit(s, x, job, lease, e)
            == At(s, x, Accepted(job, lease, e)).(accepted := s.accepted[lease := (job.refundId, e)])
  {
  }

  lemma LateAcceptIsGood(paid: map<string, int>, s: Sys, x: ExecId, job: Job, lease: LeaseId, e: Envelope)
    requires ExecOk(paid, s, Checked(job, lease, e)) && RecordOk(paid, s, job.refundId)
    requires s.records[job.refundId].state == RefundState.Confirmed && StoredOrDead(s, job.refundId, e)
    ensures GoodMove(paid, s, At(s, x, Accepted(job, lease, e)).(accepted := s.accepted[lease := (job.refundId, e)]),
                     x, job.refundId, lease)
  {
  }

  lemma SendKeepsInv(paid: map<string, int>, s: Sys, x: ExecId, job: Job, lease: LeaseId, e: Envelope,
                     reply: Sequence.SendStatus, code: SendError)
    requires Inv(paid, s) && x in s.execs && s.execs[x] == Accepted(job, lease, e)
    ensures Inv(paid, DoSend(s, x, job, lease, e, reply, code))
  {
    var l := UnheldLease(paid, s, x);
    ExecFacts(paid, s, x);
    SendIsGood(paid, s, x, job, lease, e, reply, code, l);
    MoveKeepsInv(paid, s, DoSend(s, x, job, lease, e, reply, code), x, job.refundId, l);
  }

  /** A node has it, and the executor waits, parks, or gives up. */
  ghost predicate HandsOver(s: Sys, later: Sys, x: ExecId, job: Job, lease: LeaseId, e: Envelope) {
    && later == s.(execs := later.execs, runs := later.runs, sent := s.sent + {(job.refundId, e)})
    && (later.execs == s.execs - {x} || later.execs == s.execs[x := Sent(job, lease, e)]
        || later.execs == s.execs[x := Refused(job, lease, e)])
  }

  lemma SendHandsOver(s: Sys, x: ExecId, job: Job, lease: LeaseId, e: Envelope,
                      reply: Sequence.SendStatus, code: SendError)
    ensures HandsOver(s, DoSend(s, x, job, lease, e, reply, code), x, job, lease, e)
  {
  }

  lemma SendIsGood(paid: map<string, int>, s: Sys, x: ExecId, job: Job, lease: LeaseId, e: Envelope,
                   reply: Sequence.SendStatus, code: SendError, l: LeaseId)
    requires ExecOk(paid, s, Accepted(job, lease, e)) && RecordOk(paid, s, job.refundId)
    ensures GoodMove(paid, s, DoSend(s, x, job, lease, e, reply, code), x, job.refundId, l)
  {
    var later := DoSend(s, x, job, lease, e, reply, code);
    SendHandsOver(s, x, job, lease, e, reply, code);
    HandingOverIsGood(paid, s, later, x, job, lease, e, l);
  }

  lemma HandingOverIsGood(paid: map<string, int>, s: Sys, later: Sys, x: ExecId, job: Job, lease: LeaseId, e: Envelope,
                          l: LeaseId)
    requires ExecOk(paid, s, Accepted(job, lease, e)) && RecordOk(paid, s, job.refundId)
    requires HandsOver(s, later, x, job, lease, e)
    ensures GoodMove(paid, s, later, x, job.refundId, l)
  {
    assert Extends(s, later);
    RecordStaysOk(paid, s, later, job.refundId);
    ExecStaysOk(paid, s, later, Accepted(job, lease, e));
  }

  lemma ParkKeepsInv(paid: map<string, int>, s: Sys, x: ExecId, job: Job, lease: LeaseId, e: Envelope)
    requires Inv(paid, s) && x in s.execs && s.execs[x] == Refused(job, lease, e)
    ensures Inv(paid, DoPark(s, x, job, lease, e))
  {
    if CompleteChange(Current(s, job.refundId), lease, Completion(ManualReview, HashOf(e), None, None)).Set? {
      var l := UnheldLease(paid, s, x);
      ExecFacts(paid, s, x);
      ParkIsGood(paid, s, x, job, lease, e, l);
      MoveKeepsInv(paid, s, DoPark(s, x, job, lease, e), x, job.refundId, l);
    } else {
      StopKeepsInv(paid, s, x);
    }
  }

  lemma ParkIsGood(paid: map<string, int>, s: Sys, x: ExecId, job: Job, lease: LeaseId, e: Envelope, l: LeaseId)
    requires ExecOk(paid, s, Refused(job, lease, e)) && RecordOk(paid, s, job.refundId)
    requires CompleteChange(Current(s, job.refundId), lease, Completion(ManualReview, HashOf(e), None, None)).Set?
    ensures GoodMove(paid, s, DoPark(s, x, job, lease, e), x, job.refundId, l)
  {
    assert s.records[job.refundId].signedXdr == Some(e);
    RewriteExtends(s, DoPark(s, x, job, lease, e), job.refundId);
  }

  lemma ProveKeepsInv(paid: map<string, int>, s: Sys, x: ExecId, job: Job, lease: LeaseId)
    requires Inv(paid, s) && x in s.execs && (s.execs[x].Accepted? || s.execs[x].Sent?)
    requires s.execs[x].job == job && s.execs[x].lease == lease
    ensures Inv(paid, DoProve(s, x, job, lease))
  {
    ExecFacts(paid, s, x);
    if DoProve(s, x, job, lease) == Stopped(s, x) {
      StopKeepsInv(paid, s, x);
    } else {
      ExecMoveKeepsInv(paid, s, x, Proven(job, lease, HashOf(s.records[job.refundId].signedXdr.value)));
    }
  }

  lemma ConfirmKeepsInv(paid: map<string, int>, s: Sys, x: ExecId, job: Job, lease: LeaseId, tx: TxHash, ledger: int)
    requires Inv(paid, s) && x in s.execs && s.execs[x] == Proven(job, lease, tx)
    ensures Inv(paid, DoConfirm(s, x, job, lease, tx, ledger))
  {
    if CompleteChange(Current(s, job.refundId), lease, Completion(RefundState.Confirmed, tx, None, Some(ledger))).Set? {
      var l := UnheldLease(paid, s, x);
      ExecFacts(paid, s, x);
      ConfirmIsGood(paid, s, x, job, lease, tx, ledger, l);
      MoveKeepsInv(paid, s, DoConfirm(s, x, job, lease, tx, ledger), x, job.refundId, l);
    } else {
      StopKeepsInv(paid, s, x);
    }
  }

  lemma ConfirmIsGood(paid: map<string, int>, s: Sys, x: ExecId, job: Job, lease: LeaseId, tx: TxHash, ledger: int,
                      l: LeaseId)
    requires ExecOk(paid, s, Proven(job, lease, tx)) && RecordOk(paid, s, job.refundId)
    requires CompleteChange(Current(s, job.refundId), lease,
                            Completion(RefundState.Confirmed, tx, None, Some(ledger))).Set?
    ensures GoodMove(paid, s, DoConfirm(s, x, job, lease, tx, ledger), x, job.refundId, l)
  {
    assert s.records[job.refundId].refundTx == Some(tx);
    RewriteExtends(s, DoConfirm(s, x, job, lease, tx, ledger), job.refundId);
  }

  lemma CondemnKeepsInv(paid: map<string, int>, s: Sys, x: ExecId, job: Job, lease: LeaseId, oldest: int,
                        latestSeen: int)
    requires Inv(paid, s) && x in s.execs && s.execs[x].Accepted?
    requires s.execs[x].job == job && s.execs[x].lease == lease
    ensures Inv(paid, DoCondemn(s, x, job, lease, oldest, latestSeen))
  {
    ExecFacts(paid, s, x);
    if DoCondemn(s, x, job, lease, oldest, latestSeen) == Stopped(s, x) {
      StopKeepsInv(paid, s, x);
    } else {
      var e := s.records[job.refundId].signedXdr.value;
      ProvablyDeadIsDead(s.chain, e, oldest, latestSeen);
      ExecMoveKeepsInv(paid, s, x, Condemned(job, lease, HashOf(e)));
    }
  }

  lemma RequeueKeepsInv(paid: map<string, int>, s: Sys, x: ExecId, job: Job, lease: LeaseId, tx: TxHash)
    requires Inv(paid, s) && x in s.execs && s.execs[x] == Condemned(job, lease, tx)
    ensures Inv(paid, DoRequeue(s, x, job, lease, tx))
  {
    if RequeueChange(Current(s, job.refundId), lease, tx).Set? {
      var l := UnheldLease(paid, s, x);
      ExecFacts(paid, s, x);
      RequeueIsGood(paid, s, x, job, lease, tx, l);
      MoveKeepsInv(paid, s, DoRequeue(s, x, job, lease, tx), x, job.refundId, l);
    } else {
      StopKeepsInv(paid, s, x);
    }
  }

  lemma RequeueIsGood(paid: map<string, int>, s: Sys, x: ExecId, job: Job, lease: LeaseId, tx: TxHash, l: LeaseId)
    requires ExecOk(paid, s, Condemned(job, lease, tx)) && RecordOk(paid, s, job.refundId)
    requires RequeueChange(Current(s, job.refundId), lease, tx).Set?
    ensures GoodMove(paid, s, DoRequeue(s, x, job, lease, tx), x, job.refundId, l)
  {
    assert s.records[job.refundId].signedXdr == Some(tx.envelope);
    RewriteExtends(s, DoRequeue(s, x, job, lease, tx), job.refundId);
  }

  lemma StepKeepsInv(paid: map<string, int>, s: Sys, a: Action)
    requires Inv(paid, s) && !Hazard(s, a)
    ensures Inv(paid, Do(paid, s, a))
  {
    if a.Enqueue? || a.Unpark? || a.CloseLedger? || a.Begin? {
      OutsideStepKeepsInv(paid, s, a);
    } else if a.x in s.execs {
      ExecStepKeepsInv(paid, s, a.x, s.execs[a.x], a);
    }
  }

  lemma OutsideStepKeepsInv(paid: map<string, int>, s: Sys, a: Action)
    requires Inv(paid, s) && !Hazard(s, a)
    requires a.Enqueue? || a.Unpark? || a.CloseLedger? || a.Begin?
    ensures Inv(paid, Do(paid, s, a))
  {
    if Do(paid, s, a) == s {
    } else if a.Enqueue? {
      EnqueueKeepsInv(paid, s, a.refundId, a.proof);
    } else if a.Unpark? {
      UnparkKeepsInv(paid, s, a.refundId);
    } else if a.CloseLedger? {
      CloseKeepsInv(paid, s, a.t, a.sequence, a.batch);
    } else {
      BeginKeepsInv(paid, s, a.run);
    }
  }

  lemma ExecStepKeepsInv(paid: map<string, int>, s: Sys, x: ExecId, ex: Exec, a: Action)
    requires Inv(paid, s) && x in s.execs && s.execs[x] == ex && !Hazard(s, a)
    requires !a.Enqueue? && !a.Unpark? && !a.CloseLedger? && !a.Begin? && a.x == x
    ensures Inv(paid, DoExec(paid, s, x, ex, a))
  {
    match a
    case Clear(_) => if ex.Listed? && !Busy(s, x) { ClearKeepsInv(paid, s, x, ex.job); }
    case TakeLease(_, lease, now) =>
      if ex.Cleared? && lease !in s.leases { TakeLeaseKeepsInv(paid, s, x, ex.job, lease, now); }
    case Sign(_, from, until, fetched) =>
      if ex.Holding? && CanSign(s, from, until, fetched) {
        SignKeepsInv(paid, s, x, ex.job, ex.lease, EnvelopeOf(s, x, ex.job, from, until, fetched));
      }
    case Present(_) => if ex.Signed? { PresentKeepsInv(paid, s, x, ex.job, ex.lease, ex.env); }
    case Submit(_) => if ex.Checked? { SubmitKeepsInv(paid, s, x, ex.job, ex.lease, ex.env); }
    case Send(_, reply, code) =>
      if ex.Accepted? { SendKeepsInv(paid, s, x, ex.job, ex.lease, ex.env, reply, code); }
    case Park(_) => if ex.Refused? { ParkKeepsInv(paid, s, x, ex.job, ex.lease, ex.env); }
    case Prove(_) => if ex.Accepted? || ex.Sent? { ProveKeepsInv(paid, s, x, ex.job, ex.lease); }
    case Confirm(_, ledger) => if ex.Proven? { ConfirmKeepsInv(paid, s, x, ex.job, ex.lease, ex.tx, ledger); }
    case Condemn(_, lo, hi) => if ex.Accepted? { CondemnKeepsInv(paid, s, x, ex.job, ex.lease, lo, hi); }
    case Requeue(_) => if ex.Condemned? { RequeueKeepsInv(paid, s, x, ex.job, ex.lease, ex.tx); }
    case Stop(_) => StopKeepsInv(paid, s, x);
  }
}
