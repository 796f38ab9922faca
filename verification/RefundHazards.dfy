/** The two hazards are met by runs that start from fresh records, with every envelope of
    live bounds and of a sequence its run builds on. */
module RefundHazards {
  import opened Wrappers
  import opened RefundRecord
  import opened RefundChain
  import opened RefundCoordinator
  import opened RefundProtocol
  import opened RefundSafety
  import opened RefundTheorems
  import opened RefundRuns
  import opened RefundLateWrites
  import opened RefundRecovery
  import Sequence = RefundSequence

  // ---- the unpark -----------------------------------------------------------------------

  lemma ReachStopped(paid: map<string, int>, s: Sys, mid: Sys, x: ExecId)
    requires CanReach(paid, s, mid) && x in mid.execs
    ensures CanReach(paid, s, Stopped(mid, x))
  {
    ReachStep(paid, s, mid, Stop(x), Stopped(mid, x));
  }

  lemma ReachPickedUp(paid: map<string, int>, s: Sys, mid: Sys, x: ExecId, r: RefundId)
    requires CanReach(paid, s, mid) && x == ExecId(FreshRun(mid), r)
    requires r in mid.records && RecordOk(paid, mid, r) && mid.records[r].state == Submitted && FundedBy(mid.rows, paid)
    ensures CanReach(paid, s, PickedUp(mid, x))
  {
    var begun := Begun(mid, x.run);
    FreshRunIsIdle(mid, x.run, r);
    ReachStep(paid, s, mid, Begin(x.run), begun);
    ClearSubmitted(paid, begun, x, r);
    ReachStep(paid, s, begun, Clear(x), PickedUp(mid, x));
  }

  lemma RefusedStep(paid: map<string, int>, s: Sys, x: ExecId, job: Job, lease: LeaseId, e: Envelope)
    requires x in s.execs && s.execs[x] == Accepted(job, lease, e)
    ensures Do(paid, s, Send(x, Sequence.Error, OtherError))
            == At(s, x, Refused(job, lease, e)).(sent := s.sent + {(job.refundId, e)})
  {
  }

  lemma ParkStep(paid: map<string, int>, s: Sys, x: ExecId, job: Job, lease: LeaseId, e: Envelope)
    requires x in s.execs && s.execs[x] == Refused(job, lease, e)
    requires Remembers(s, job.refundId, lease, e) && !Dead(s.chain, e)
    ensures Hazard(Do(paid, s, Park(x)), Unpark(job.refundId))
  {
    var rec := s.records[job.refundId];
    assert CompleteChange(Some(rec), lease, Completion(ManualReview, HashOf(e), None, None)).value
        == rec.(state := ManualReview);
  }

  lemma ReachParked(paid: map<string, int>, s: Sys, mid: Sys, x: ExecId, job: Job, lease: LeaseId, e: Envelope)
    returns (later: Sys)
    requires CanReach(paid, s, mid) && IsPickedUp(mid, x, job, lease, e) && !Dead(mid.chain, e)
    ensures CanReach(paid, s, later) && Hazard(later, Unpark(job.refundId))
  {
    var refused := At(mid, x, Refused(job, lease, e)).(sent := mid.sent + {(job.refundId, e)});
    RefusedStep(paid, mid, x, job, lease, e);
    ReachStep(paid, s, mid, Send(x, Sequence.Error, OtherError), refused);
    later := Do(paid, refused, Park(x));
    ParkStep(paid, refused, x, job, lease, e);
    ReachStep(paid, s, refused, Park(x), later);
  }

  /** The refund is broadcast once, and the node takes it; the executor stops waiting. */
  lemma ReachGivenUp(paid: map<string, int>, s: Sys, mid: Sys, r: RefundId)
    returns (later: Sys, lease: LeaseId, e: Envelope)
    requires CanReach(paid, s, mid) && CanExecute(paid, mid, r, 0)
    ensures CanReach(paid, s, later) && Remembers(later, r, lease, e) && (r, e) in later.sent
    ensures later.chain == mid.chain && !Dead(later.chain, e) && later.rows == mid.rows
  {
    var accepted, x;
    accepted, x, lease, e := ReachAccepted(paid, s, mid, r, 0);
    var sent := ReachSent(paid, s, accepted, x, Job(r, mid.records[r]), lease, e);
    ReachStopped(paid, s, sent, x);
    later := Stopped(sent, x);
  }

  /** The next run sends it once more, is refused for a reason that does not heal, and
      parks it, still live: unparking it now is the first hazard. */
  lemma UnparkHazardIsReachable(paid: map<string, int>, s: Sys, mid: Sys, r: RefundId) returns (later: Sys)
    requires Inv(paid, s) && CanReach(paid, s, mid) && CanExecute(paid, mid, r, 0)
    ensures CanReach(paid, s, later) && Hazard(later, Unpark(r))
    ensures r in later.records && later.records[r].signedXdr.Some?
    ensures (r, later.records[r].signedXdr.value) in later.sent
  {
    var given, lease, e := ReachGivenUp(paid, s, mid, r);
    ReachKeepsInv(paid, s, given);
    assert RecordOk(paid, given, r);
    var x := ExecId(FreshRun(given), r);
    ReachPickedUp(paid, s, given, x, r);
    PickedUpRemembers(paid, given, x);
    later := ReachParked(paid, s, PickedUp(given, x), x, Job(r, given.records[r]), lease, e);
    ReachKeepsInv(paid, s, later);
    assert RecordOk(paid, later, r);
  }

  lemma ReachKeepsInv(paid: map<string, int>, s: Sys, later: Sys)
    requires Inv(paid, s) && CanReach(paid, s, later)
    ensures Inv(paid, later)
  {
    var acts :| HazardFree(paid, s, acts) && Run(paid, s, acts) == later;
    HazardFreeRunsKeepInv(paid, s, acts);
  }

  // ---- the late write, from two fresh refunds -----------------------------------------------

  /** Two fresh refunds, and nothing else. */
  function TwoRefunds(q: RefundId, p: PaymentProof, r: RefundId, w: PaymentProof): Sys {
    Sys(map[q := NewRecord(p), r := NewRecord(w)], [], map[], map[], map[], map[], {}, {}, Chain(0, 0, map[]))
  }

  function RowFor(r: RefundId, proof: PaymentProof): Row {
    Row(r, proof.paymentTx, proof.amountAtomic, proof.amountAtomic, false)
  }

  function JobFor(r: RefundId, proof: PaymentProof): Job { Job(r, NewRecord(proof)) }

  lemma ClearReserves(paid: map<string, int>, s: Sys, x: ExecId, r: RefundId, proof: PaymentProof)
    requires x in s.execs && s.execs[x] == Listed(JobFor(r, proof)) && !Busy(s, x) && Payable(paid, JobFor(r, proof))
    requires Find(s.rows, r).None? && SumFor(s.rows, proof.paymentTx) == 0
    ensures Do(paid, s, Clear(x)) == At(s, x, Cleared(JobFor(r, proof))).(rows := s.rows + [RowFor(r, proof)])
  {
  }

  lemma ReachReserved(paid: map<string, int>, s: Sys, mid: Sys, x: ExecId, r: RefundId, proof: PaymentProof)
    requires CanReach(paid, s, mid)
    requires x in mid.execs && mid.execs[x] == Listed(JobFor(r, proof)) && !Busy(mid, x)
    requires Payable(paid, JobFor(r, proof)) && Find(mid.rows, r).None? && SumFor(mid.rows, proof.paymentTx) == 0
    ensures CanReach(paid, s, At(mid, x, Cleared(JobFor(r, proof))).(rows := mid.rows + [RowFor(r, proof)]))
  {
    ClearReserves(paid, mid, x, r, proof);
    ReachStep(paid, s, mid, Clear(x), At(mid, x, Cleared(JobFor(r, proof))).(rows := mid.rows + [RowFor(r, proof)]));
  }

  lemma OneRow(q: RefundId, p: PaymentProof, r: RefundId, w: PaymentProof)
    requires q != r && p.paymentTx != w.paymentTx
    ensures Find([RowFor(q, p)], r).None? && SumFor([RowFor(q, p)], w.paymentTx) == 0
    ensures [] + [RowFor(q, p)] == [RowFor(q, p)]
  {
    SumOfOneMore([], RowFor(q, p), w.paymentTx);
    FindInOneMore([], RowFor(q, p), r);
  }

  /** The run is about to work on the second refund: the first one's envelope is out,
      taken and not landed. */
  ghost predicate FirstIsOut(s: Sys, run: RunId, q: RefundId, p: PaymentProof, r: RefundId, w: PaymentProof,
                             g: Envelope) {
    && s.rows == [RowFor(q, p)] && s.execs.Keys == {ExecId(run, r)} && s.execs[ExecId(run, r)] == Listed(JobFor(r, w))
    && r in s.records && s.records[r] == NewRecord(w) && s.chain == Chain(0, 0, map[])
    && GuardOf(s, run) == Some(1) && s.signed == {(q, g)} && g.sequence == 1 && (q, g) in s.sent
  }

  /** The run's list. */
  function TwoListed(q: RefundId, p: PaymentProof, r: RefundId, w: PaymentProof, run: RunId): Sys {
    Begun(TwoRefunds(q, p, r, w), run)
  }

  lemma ListOfTwo(q: RefundId, p: PaymentProof, r: RefundId, w: PaymentProof, run: RunId)
    requires q != r
    ensures var s := TwoListed(q, p, r, w, run);
            && s.execs == map[ExecId(run, q) := Listed(JobFor(q, p)), ExecId(run, r) := Listed(JobFor(r, w))]
            && !Busy(s, ExecId(run, q)) && GuardOf(s, run) == None
  {
  }

  /** The first refund's executor, from the list to its envelope on the record. */
  function FirstCleared(q: RefundId, p: PaymentProof, r: RefundId, w: PaymentProof, run: RunId): Sys {
    At(TwoListed(q, p, r, w, run), ExecId(run, q), Cleared(JobFor(q, p))).(rows := [RowFor(q, p)])
  }

  lemma ReachFirstCleared(paid: map<string, int>, q: RefundId, p: PaymentProof, r: RefundId, w: PaymentProof,
                          run: RunId)
    requires q != r && p.paymentTx != w.paymentTx && Payable(paid, JobFor(q, p))
    ensures CanReach(paid, TwoRefunds(q, p, r, w), FirstCleared(q, p, r, w, run))
  {
    var s, x := TwoRefunds(q, p, r, w), ExecId(run, q);
    ReachItself(paid, s);
    ReachStep(paid, s, s, Begin(run), TwoListed(q, p, r, w, run));
    ListOfTwo(q, p, r, w, run);
    OneRow(q, p, r, w);
    ReachReserved(paid, s, TwoListed(q, p, r, w, run), x, q, p);
  }

  /** The clock reads 100; no ledger has closed yet. */
  function FirstEnvelope(p: PaymentProof): Envelope { Envelope(p.payer, p.amountAtomic, 40, 700, 1) }

  function SecondEnvelope(w: PaymentProof): Envelope { Envelope(w.payer, w.amountAtomic, 40, 700, 2) }

  function FirstWritten(q: RefundId, p: PaymentProof, r: RefundId, w: PaymentProof, run: RunId): Sys {
    var s, x, job, e := FirstCleared(q, p, r, w, run), ExecId(run, q), JobFor(q, p), FirstEnvelope(p);
    WrittenAt(SignedAt(s, x, job, 0, 0, e), x, job, 0, e)
  }

  lemma ReachFirstWritten(paid: map<string, int>, q: RefundId, p: PaymentProof, r: RefundId, w: PaymentProof,
                          run: RunId)
    requires q != r && p.paymentTx != w.paymentTx && Payable(paid, JobFor(q, p))
    ensures CanReach(paid, TwoRefunds(q, p, r, w), FirstWritten(q, p, r, w, run))
  {
    var s0, s, x := TwoRefunds(q, p, r, w), FirstCleared(q, p, r, w, run), ExecId(run, q);
    ReachFirstCleared(paid, q, p, r, w, run);
    ListOfTwo(q, p, r, w, run);
    ReachSigned(paid, s0, s, x, JobFor(q, p), 0, 0, 100, 100, 0);
    assert EnvelopeOf(s, x, JobFor(q, p), 100, 100, 0) == FirstEnvelope(p);
    ReachWritten(paid, s0, SignedAt(s, x, JobFor(q, p), 0, 0, FirstEnvelope(p)), x, JobFor(q, p), 0, FirstEnvelope(p));
  }

  function FirstGone(q: RefundId, p: PaymentProof, r: RefundId, w: PaymentProof, run: RunId): Sys {
    var x := ExecId(run, q);
    Stopped(HandedOver(FirstWritten(q, p, r, w, run), x, JobFor(q, p), 0, FirstEnvelope(p)), x)
  }

  lemma ReachFirstGone(paid: map<string, int>, q: RefundId, p: PaymentProof, r: RefundId, w: PaymentProof, run: RunId)
    requires q != r && p.paymentTx != w.paymentTx && Payable(paid, JobFor(q, p))
    ensures CanReach(paid, TwoRefunds(q, p, r, w), FirstGone(q, p, r, w, run))
  {
    var s0, x := TwoRefunds(q, p, r, w), ExecId(run, q);
    ReachFirstWritten(paid, q, p, r, w, run);
    var sent := ReachSent(paid, s0, FirstWritten(q, p, r, w, run), x, JobFor(q, p), 0, FirstEnvelope(p));
    ReachStopped(paid, s0, sent, x);
  }

  lemma FirstGoneIsOut(q: RefundId, p: PaymentProof, r: RefundId, w: PaymentProof, run: RunId)
    requires q != r
    ensures FirstIsOut(FirstGone(q, p, r, w, run), run, q, p, r, w, FirstEnvelope(p))
  {
    ListOfTwo(q, p, r, w, run);
  }

  /** The second one's, up to its signature, two ahead of the chain. */
  lemma ReachSecondSigned(paid: map<string, int>, s: Sys, mid: Sys, run: RunId, q: RefundId, p: PaymentProof,
                          r: RefundId, w: PaymentProof, g: Envelope, lease: LeaseId)
    returns (later: Sys)
    requires CanReach(paid, s, mid) && FirstIsOut(mid, run, q, p, r, w, g) && lease !in mid.leases
    requires q != r && p.paymentTx != w.paymentTx && Payable(paid, JobFor(r, w))
    ensures var (x, job, e) := (ExecId(run, r), JobFor(r, w), SecondEnvelope(w));
            && CanReach(paid, s, later) && x in later.execs && later.execs[x] == Signed(job, lease, e)
            && MayComeLate(later, job, lease, e) && later.signed == {(q, g), (r, e)}
  {
    var x, job := ExecId(run, r), JobFor(r, w);
    var cleared := At(mid, x, Cleared(job)).(rows := mid.rows + [RowFor(r, w)]);
    OneRow(q, p, r, w);
    ReachReserved(paid, s, mid, x, r, w);
    ReachSigned(paid, s, cleared, x, job, lease, 0, 100, 100, 0);
    assert EnvelopeOf(cleared, x, job, 100, 100, 0) == SecondEnvelope(w);
    later := SignedAt(cleared, x, job, lease, 0, SecondEnvelope(w));
  }

  lemma SecondComesLate(paid: map<string, int>, s0: Sys, mid: Sys, run: RunId, q: RefundId, p: PaymentProof,
                        r: RefundId, w: PaymentProof, g: Envelope)
    requires Init(s0) && CanReach(paid, s0, mid) && FirstIsOut(mid, run, q, p, r, w, g)
    requires q != r && p.paymentTx != w.paymentTx && Payable(paid, JobFor(r, w))
    ensures exists acts, s, x :: Reached(paid, s0, acts, s) && Unshared(s) && Hazard(s, Submit(x))
  {
    var lease := Above(mid.leases.Keys);
    var signed := ReachSecondSigned(paid, s0, mid, run, q, p, r, w, g, lease);
    SignedComesLate(paid, s0, signed, ExecId(run, r), JobFor(r, w), lease, SecondEnvelope(w));
  }

  lemma TwoAreFresh(q: RefundId, p: PaymentProof, r: RefundId, w: PaymentProof)
    ensures Init(TwoRefunds(q, p, r, w))
  {
  }

  /** For every two payments the router may refund: a run from fresh records, free of
      hazards, comes to the second hazard. The run's first envelope is taken and then
      lost; on the second its executor stalls before the write, and another run's
      envelope, for the sequence that was lost, is paid and confirmed. */
  lemma LateWriteIsReached(paid: map<string, int>, q: RefundId, p: PaymentProof, r: RefundId, w: PaymentProof,
                           run: RunId)
    requires q != r && p.paymentTx != w.paymentTx
    requires Payable(paid, JobFor(q, p)) && Payable(paid, JobFor(r, w))
    ensures exists acts, s, x :: Reached(paid, TwoRefunds(q, p, r, w), acts, s) && Unshared(s) && Hazard(s, Submit(x))
  {
    TwoAreFresh(q, p, r, w);
    ReachFirstGone(paid, q, p, r, w, run);
    FirstGoneIsOut(q, p, r, w, run);
    SecondComesLate(paid, TwoRefunds(q, p, r, w), FirstGone(q, p, r, w, run), run, q, p, r, w, FirstEnvelope(p));
  }

  lemma SignedComesLate(paid: map<string, int>, s0: Sys, signed: Sys, x: ExecId, job: Job, lease: LeaseId, e: Envelope)
    requires Init(s0) && CanReach(paid, s0, signed) && Unshared(signed)
    requires x in signed.execs && signed.execs[x] == Signed(job, lease, e) && MayComeLate(signed, job, lease, e)
    ensures exists acts, s, y :: Reached(paid, s0, acts, s) && Unshared(s) && Hazard(s, Submit(y))
  {
    var acts :| HazardFree(paid, s0, acts) && Run(paid, s0, acts) == signed;
    assert Reached(paid, s0, acts, signed);
    ComesLateExactlyWhenAhead(paid, s0, acts, signed, x);
    var later: Sys :| CanReach(paid, signed, later) && Unshared(later) && Hazard(later, Submit(x));
    ReachBeyond(paid, s0, signed, later);
    var more :| HazardFree(paid, s0, more) && Run(paid, s0, more) == later;
    assert Reached(paid, s0, more, later);
  }

  lemma UnparkIsReached(paid: map<string, int>, q: RefundId, p: PaymentProof, r: RefundId, w: PaymentProof, run: RunId)
    requires q != r && p.paymentTx != w.paymentTx && Payable(paid, JobFor(q, p))
    ensures exists acts, s :: Reached(paid, TwoRefunds(q, p, r, w), acts, s) && Hazard(s, Unpark(q))
  {
    var s0 := TwoRefunds(q, p, r, w);
    var mid := FirstCleared(q, p, r, w, run);
    TwoAreFresh(q, p, r, w);
    ReachFirstCleared(paid, q, p, r, w, run);
    ReachKeepsInvFromInit(paid, s0, mid);
    ReservedCanExecute(paid, q, p, r, w, run);
    var parked := UnparkHazardIsReachable(paid, s0, mid, q);
    var acts :| HazardFree(paid, s0, acts) && Run(paid, s0, acts) == parked;
    assert Reached(paid, s0, acts, parked);
  }

  lemma ReachKeepsInvFromInit(paid: map<string, int>, s0: Sys, s: Sys)
    requires Init(s0) && CanReach(paid, s0, s)
    ensures Inv(paid, s0) && Inv(paid, s)
  {
    var none: seq<Action> := [];
    assert Reached(paid, s0, none, s0);
    ReachedKeepsInv(paid, s0, none, s0);
    ReachKeepsInv(paid, s0, s);
  }

  lemma ReservedCanExecute(paid: map<string, int>, q: RefundId, p: PaymentProof, r: RefundId, w: PaymentProof,
                           run: RunId)
    requires q != r && Payable(paid, JobFor(q, p))
    ensures CanExecute(paid, FirstCleared(q, p, r, w, run), q, 0)
  {
    SumOfOneMore([], RowFor(q, p), p.paymentTx);
    FindInOneMore([], RowFor(q, p), q);
    assert [] + [RowFor(q, p)] == [RowFor(q, p)];
  }
}
