/** Runs of the refund protocol, put together step by step. */
module RefundRuns {
  import opened Wrappers
  import opened RefundRecord
  import opened RefundChain
  import opened RefundCoordinator
  import opened RefundProtocol
  import opened RefundSafety
  import Sequence = RefundSequence

  ghost predicate CanReach(paid: map<string, int>, s: Sys, later: Sys) {
    exists acts :: HazardFree(paid, s, acts) && Run(paid, s, acts) == later
  }

  lemma ReachItself(paid: map<string, int>, s: Sys)
    ensures CanReach(paid, s, s)
  {
    var none: seq<Action> := [];
    assert HazardFree(paid, s, none) && Run(paid, s, none) == s;
  }

  lemma OneMoreAction(paid: map<string, int>, s: Sys, acts: seq<Action>, a: Action)
    ensures Run(paid, s, acts + [a]) == Do(paid, Run(paid, s, acts), a)
    ensures HazardFree(paid, s, acts + [a]) <==> HazardFree(paid, s, acts) && !Hazard(Run(paid, s, acts), a)
  {
    assert (acts + [a])[..|acts|] == acts;
  }

  lemma ReachStep(paid: map<string, int>, s: Sys, mid: Sys, a: Action, later: Sys)
    requires CanReach(paid, s, mid) && !Hazard(mid, a) && later == Do(paid, mid, a)
    ensures CanReach(paid, s, later)
  {
    var acts :| HazardFree(paid, s, acts) && Run(paid, s, acts) == mid;
    OneMoreAction(paid, s, acts, a);
  }

  lemma {:induction false} ReachOnwards(paid: map<string, int>, s: Sys, mid: Sys, acts: seq<Action>)
    requires CanReach(paid, s, mid) && HazardFree(paid, mid, acts)
    ensures CanReach(paid, s, Run(paid, mid, acts))
  {
    if acts != [] {
      ReachOnwards(paid, s, mid, acts[..|acts| - 1]);
      ReachStep(paid, s, Run(paid, mid, acts[..|acts| - 1]), acts[|acts| - 1], Run(paid, mid, acts));
    }
  }

  lemma ReachBeyond(paid: map<string, int>, s: Sys, mid: Sys, later: Sys)
    requires CanReach(paid, s, mid) && CanReach(paid, mid, later)
    ensures CanReach(paid, s, later)
  {
    var acts :| HazardFree(paid, mid, acts) && Run(paid, mid, acts) == later;
    ReachOnwards(paid, s, mid, acts);
  }

  // ---- what lets a refund be executed ------------------------------------------------

  /** A lease asked for with this clock reading is granted. */
  predicate Grants(rec: RefundRecord, now: int) {
    rec.state == Pending || (rec.state == Leased && (rec.lease.None? || rec.lease.value.until <= now))
  }

  /** A record free to lease, reserved for. */
  ghost predicate CanExecute(paid: map<string, int>, s: Sys, r: RefundId, now: int) {
    && r in s.records && Grants(s.records[r], now) && HasReservation(s, r)
    && FundedBy(s.rows, paid) && Payable(paid, Job(r, s.records[r])) && ChainOk(s.chain)
  }

  /** The other executors are where they were. */
  predicate OthersStay(s: Sys, later: Sys, x: ExecId) {
    forall y :: y in s.execs && y != x ==> y in later.execs && later.execs[y] == s.execs[y]
  }

  /** The record remembers the envelope under the lease. */
  predicate Remembers(s: Sys, r: RefundId, lease: LeaseId, e: Envelope) {
    && r in s.records && s.records[r].state == Submitted && HasLease(s.records[r], lease)
    && s.records[r].signedXdr == Some(e) && s.records[r].refundTx == Some(HashOf(e))
  }

  /** A clock reading in step with the chain. */
  function Now(c: Chain): int {
    if c.latest > REFUND_TX_MIN_TIME_GRACE_SECONDS then c.latest + 1 else REFUND_TX_MIN_TIME_GRACE_SECONDS + 1
  }

  ghost function LastBound(signed: set<(RefundId, Envelope)>): (t: int)
    ensures forall q :: q in signed ==> q.1.maxTime <= t
  {
    if signed == {} then 0
    else
      var q :| q in signed;
      var t := LastBound(signed - {q});
      assert forall p :: p in signed ==> p == q || p in signed - {q};
      if t < q.1.maxTime then q.1.maxTime else t
  }

  /** A later reading, so that the envelope signed with it is none signed before. */
  ghost function FreshUntil(s: Sys): (until: int)
    ensures until >= Now(s.chain)
    ensures forall q :: q in s.signed ==> q.1.maxTime < until + REFUND_TX_VALIDITY_SECONDS
  {
    var t := LastBound(s.signed);
    if t > Now(s.chain) then t else Now(s.chain)
  }

  /** A new envelope, of bounds around the chain's time and the next sequence. */
  ghost function FreshEnvelope(s: Sys, job: Job): (e: Envelope)
    requires ChainOk(s.chain)
    ensures Pays(job.record, e) && e.sequence == s.chain.sequence + 1 && !Dead(s.chain, e)
    ensures 0 < e.minTime <= s.chain.latest + 1 < e.maxTime
    ensures forall q :: q in s.signed ==> q.1 != e
    ensures e !in s.chain.included
  {
    Envelope(job.record.payment.payer, job.record.refundAmount, Now(s.chain) - REFUND_TX_MIN_TIME_GRACE_SECONDS,
             FreshUntil(s) + REFUND_TX_VALIDITY_SECONDS, s.chain.sequence + 1)
  }

  // ---- one step -------------------------------------------------------------------------

  lemma ReservedAlready(paid: map<string, int>, s: Sys, r: RefundId, now: int)
    requires CanExecute(paid, s, r, now)
    ensures var p := s.records[r].payment.paymentTx;
            ReserveRows(s.rows, r, p, s.records[r].refundAmount, paid[p]) == (s.rows, AlreadyReserved)
  {
    FindIsMembership(s.rows, r);
  }

  lemma FreshRunIsIdle(s: Sys, run: RunId, r: RefundId)
    requires run !in s.runs && (forall x :: x in s.execs ==> x.run != run)
    requires r in s.records && IsListed(s.records[r])
    ensures var (x, later) := (ExecId(run, r), Begun(s, run));
            && x !in s.execs && x in later.execs && later.execs[x] == Listed(Job(r, s.records[r])) && !Busy(later, x)
            && GuardOf(later, run) == None && OthersStay(s, later, x)
  {
  }

  /** The state in which x has cleared its job, in a run just begun. */
  function BegunAt(s: Sys, x: ExecId, ex: Exec): Sys { At(Begun(s, x.run), x, ex) }

  lemma ReachCleared(paid: map<string, int>, s: Sys, mid: Sys, r: RefundId, x: ExecId, now: int) returns (later: Sys)
    requires CanReach(paid, s, mid) && CanExecute(paid, mid, r, now) && x == ExecId(FreshRun(mid), r)
    ensures CanReach(paid, s, later) && later == BegunAt(mid, x, Cleared(Job(r, mid.records[r])))
    ensures x !in mid.execs && OthersStay(mid, later, x) && GuardOf(later, x.run) == None
  {
    var begun := Begun(mid, x.run);
    FreshRunIsIdle(mid, x.run, r);
    ReachStep(paid, s, mid, Begin(x.run), begun);
    later := BegunAt(mid, x, Cleared(Job(r, mid.records[r])));
    ClearStep(paid, begun, r, x, now);
    ReachStep(paid, s, begun, Clear(x), later);
  }

  lemma ClearStep(paid: map<string, int>, s: Sys, r: RefundId, x: ExecId, now: int)
    requires CanExecute(paid, s, r, now) && x in s.execs && !Busy(s, x)
    requires s.execs[x] == Listed(Job(r, s.records[r]))
    ensures Do(paid, s, Clear(x)) == At(s, x, Cleared(Job(r, s.records[r])))
  {
    ReservedAlready(paid, s, r, now);
  }

  function LeasedRecord(rec: RefundRecord, lease: LeaseId, now: int): RefundRecord {
    rec.(state := Leased, lease := Some(Lease(lease, now + LEASE_MS)))
  }

  /** x works on the job under a lease of its own. */
  function LeasedAt(s: Sys, x: ExecId, job: Job, lease: LeaseId, now: int, ex: Exec): Sys
    requires job.refundId in s.records
  {
    At(s, x, ex).(records := s.records[job.refundId := LeasedRecord(s.records[job.refundId], lease, now)],
                  leases := s.leases[lease := job.refundId])
  }

  lemma TakeLeaseStep(paid: map<string, int>, s: Sys, x: ExecId, job: Job, lease: LeaseId, now: int)
    requires x in s.execs && s.execs[x] == Cleared(job) && lease !in s.leases
    requires job.refundId in s.records && Grants(s.records[job.refundId], now)
    ensures Do(paid, s, TakeLease(x, lease, now)) == LeasedAt(s, x, job, lease, now, Holding(job, lease))
  {
  }

  lemma Overwrites(s: Sys, x: ExecId, job: Job, lease: LeaseId, now: int, ex: Exec, next: Exec)
    requires job.refundId in s.records
    ensures At(LeasedAt(s, x, job, lease, now, ex), x, next) == LeasedAt(s, x, job, lease, now, next)
  {
    assert s.execs[x := ex][x := next] == s.execs[x := next];
  }

  lemma SignStep(paid: map<string, int>, s: Sys, x: ExecId, job: Job, lease: LeaseId,
                 from: int, until: int, fetched: int)
    requires x in s.execs && s.execs[x] == Holding(job, lease) && CanSign(s, from, until, fetched)
    ensures Do(paid, s, Sign(x, from, until, fetched))
            == DoSign(s, x, job, lease, EnvelopeOf(s, x, job, from, until, fetched))
  {
  }

  lemma PresentStep(paid: map<string, int>, s: Sys, x: ExecId, job: Job, lease: LeaseId, e: Envelope)
    requires x in s.execs && s.execs[x] == Signed(job, lease, e)
    requires job.refundId in s.records && HasLease(s.records[job.refundId], lease)
    ensures Do(paid, s, Present(x)) == At(s, x, Checked(job, lease, e))
  {
  }

  lemma SendStep(paid: map<string, int>, s: Sys, x: ExecId, job: Job, lease: LeaseId, e: Envelope)
    requires x in s.execs && s.execs[x] == Accepted(job, lease, e)
    ensures Do(paid, s, Send(x, Sequence.Pending, OtherError))
            == At(s, x, Sent(job, lease, e)).(sent := s.sent + {(job.refundId, e)},
                                              runs := s.runs[x.run := Sequence.Recorded(GuardOf(s, x.run), e.sequence)])
  {
  }

  // ---- a job, up to its envelope ---------------------------------------------------------

  lemma ReachHolding(paid: map<string, int>, s: Sys, mid: Sys, x: ExecId, job: Job, lease: LeaseId, now: int)
    requires CanReach(paid, s, mid) && x in mid.execs && mid.execs[x] == Cleared(job) && lease !in mid.leases
    requires job.refundId in mid.records && Grants(mid.records[job.refundId], now)
    ensures CanReach(paid, s, LeasedAt(mid, x, job, lease, now, Holding(job, lease)))
  {
    TakeLeaseStep(paid, mid, x, job, lease, now);
    ReachStep(paid, s, mid, TakeLease(x, lease, now), LeasedAt(mid, x, job, lease, now, Holding(job, lease)));
  }

  lemma ReachSigning(paid: map<string, int>, s: Sys, mid: Sys, x: ExecId, job: Job, lease: LeaseId,
                     from: int, until: int, fetched: int)
    requires CanReach(paid, s, mid) && x in mid.execs && mid.execs[x] == Holding(job, lease)
    requires CanSign(mid, from, until, fetched)
    ensures CanReach(paid, s, DoSign(mid, x, job, lease, EnvelopeOf(mid, x, job, from, until, fetched)))
  {
    SignStep(paid, mid, x, job, lease, from, until, fetched);
    ReachStep(paid, s, mid, Sign(x, from, until, fetched),
              DoSign(mid, x, job, lease, EnvelopeOf(mid, x, job, from, until, fetched)));
  }

  function SignedAt(s: Sys, x: ExecId, job: Job, lease: LeaseId, now: int, e: Envelope): Sys
    requires job.refundId in s.records
  {
    LeasedAt(s, x, job, lease, now, Signed(job, lease, e)).(signed := s.signed + {(job.refundId, e)})
  }

  lemma LeasedCanSign(s: Sys, x: ExecId, job: Job, lease: LeaseId, now: int, from: int, until: int, fetched: int)
    requires job.refundId in s.records && CanSign(s, from, until, fetched)
    ensures var holding := LeasedAt(s, x, job, lease, now, Holding(job, lease));
            var e := EnvelopeOf(s, x, job, from, until, fetched);
            && x in holding.execs && holding.execs[x] == Holding(job, lease) && CanSign(holding, from, until, fetched)
            && EnvelopeOf(holding, x, job, from, until, fetched) == e
            && DoSign(holding, x, job, lease, e) == SignedAt(s, x, job, lease, now, e)
  {
    Overwrites(s, x, job, lease, now, Holding(job, lease),
               Signed(job, lease, EnvelopeOf(s, x, job, from, until, fetched)));
  }

  lemma ReachSigned(paid: map<string, int>, s: Sys, mid: Sys, x: ExecId, job: Job, lease: LeaseId, now: int,
                    from: int, until: int, fetched: int)
    requires CanReach(paid, s, mid) && x in mid.execs && mid.execs[x] == Cleared(job) && lease !in mid.leases
    requires job.refundId in mid.records && Grants(mid.records[job.refundId], now)
    requires CanSign(mid, from, until, fetched)
    ensures CanReach(paid, s, SignedAt(mid, x, job, lease, now, EnvelopeOf(mid, x, job, from, until, fetched)))
  {
    ReachHolding(paid, s, mid, x, job, lease, now);
    LeasedCanSign(mid, x, job, lease, now, from, until, fetched);
    ReachSigning(paid, s, LeasedAt(mid, x, job, lease, now, Holding(job, lease)), x, job, lease, from, until, fetched);
  }

  lemma ReachChecked(paid: map<string, int>, s: Sys, mid: Sys, x: ExecId, job: Job, lease: LeaseId, e: Envelope)
    requires CanReach(paid, s, mid) && x in mid.execs && mid.execs[x] == Signed(job, lease, e)
    requires job.refundId in mid.records && HasLease(mid.records[job.refundId], lease)
    ensures CanReach(paid, s, At(mid, x, Checked(job, lease, e)))
  {
    PresentStep(paid, mid, x, job, lease, e);
    ReachStep(paid, s, mid, Present(x), At(mid, x, Checked(job, lease, e)));
  }

  function Written(rec: RefundRecord, e: Envelope): RefundRecord {
    rec.(state := Submitted, refundTx := Some(HashOf(e)), signedXdr := Some(e))
  }

  /** Its envelope is on the record. */
  function WrittenAt(s: Sys, x: ExecId, job: Job, lease: LeaseId, e: Envelope): Sys
    requires job.refundId in s.records
  {
    At(s, x, Accepted(job, lease, e))
      .(records := s.records[job.refundId := Written(s.records[job.refundId], e)],
        accepted := s.accepted[lease := (job.refundId, e)])
  }

  lemma SubmitStep(paid: map<string, int>, s: Sys, x: ExecId, job: Job, lease: LeaseId, e: Envelope)
    requires x in s.execs && s.execs[x] == Checked(job, lease, e)
    requires job.refundId in s.records && HasLease(s.records[job.refundId], lease)
    requires s.records[job.refundId].state == Leased
    ensures !Hazard(s, Submit(x)) && Do(paid, s, Submit(x)) == WrittenAt(s, x, job, lease, e)
  {
  }

  lemma ReachSubmitted(paid: map<string, int>, s: Sys, mid: Sys, x: ExecId, job: Job, lease: LeaseId, e: Envelope)
    requires CanReach(paid, s, mid) && x in mid.execs && mid.execs[x] == Checked(job, lease, e)
    requires job.refundId in mid.records && HasLease(mid.records[job.refundId], lease)
    requires mid.records[job.refundId].state == Leased
    ensures CanReach(paid, s, WrittenAt(mid, x, job, lease, e))
  {
    SubmitStep(paid, mid, x, job, lease, e);
    ReachStep(paid, s, mid, Submit(x), WrittenAt(mid, x, job, lease, e));
  }

  lemma CheckedIsWritten(s: Sys, x: ExecId, job: Job, lease: LeaseId, e: Envelope)
    requires job.refundId in s.records
    ensures var checked := At(s, x, Checked(job, lease, e));
            && x in checked.execs && checked.execs[x] == Checked(job, lease, e) && checked.records == s.records
            && WrittenAt(checked, x, job, lease, e) == WrittenAt(s, x, job, lease, e)
  {
    assert s.execs[x := Checked(job, lease, e)][x := Accepted(job, lease, e)] == s.execs[x := Accepted(job, lease, e)];
  }

  lemma ReachWritten(paid: map<string, int>, s: Sys, mid: Sys, x: ExecId, job: Job, lease: LeaseId, e: Envelope)
    requires CanReach(paid, s, mid) && x in mid.execs && mid.execs[x] == Signed(job, lease, e)
    requires job.refundId in mid.records && HasLease(mid.records[job.refundId], lease)
    requires mid.records[job.refundId].state == Leased
    ensures CanReach(paid, s, WrittenAt(mid, x, job, lease, e))
  {
    ReachChecked(paid, s, mid, x, job, lease, e);
    CheckedIsWritten(mid, x, job, lease, e);
    ReachSubmitted(paid, s, At(mid, x, Checked(job, lease, e)), x, job, lease, e);
  }

  /** An executor of a new run takes the refund from the list to an envelope of its own
      on the record, signed for the next sequence number. */
  ghost predicate AcceptedNext(mid: Sys, later: Sys, x: ExecId, job: Job, lease: LeaseId, e: Envelope) {
    && later.chain == mid.chain && later.rows == mid.rows && later.sent == mid.sent
    && later.accepted == mid.accepted[lease := (job.refundId, e)]
    && later.signed == mid.signed + {(job.refundId, e)}
    && x in later.execs && later.execs[x] == Accepted(job, lease, e) && OthersStay(mid, later, x)
    && Remembers(later, job.refundId, lease, e) && job.refundId in mid.records
    && later.records == mid.records[job.refundId := later.records[job.refundId]]
    && later.records[job.refundId].payment == mid.records[job.refundId].payment
    && later.records[job.refundId].refundAmount == mid.records[job.refundId].refundAmount
    && later.leases == mid.leases[lease := job.refundId]
  }

  lemma ReachAccepted(paid: map<string, int>, s: Sys, mid: Sys, r: RefundId, now: int)
    returns (later: Sys, x: ExecId, lease: LeaseId, e: Envelope)
    requires CanReach(paid, s, mid) && CanExecute(paid, mid, r, now)
    ensures CanReach(paid, s, later) && e == FreshEnvelope(mid, Job(r, mid.records[r]))
    ensures x == ExecId(FreshRun(mid), r) && lease !in mid.leases
    ensures AcceptedNext(mid, later, x, Job(r, mid.records[r]), lease, e)
  {
    var job := Job(r, mid.records[r]);
    x := ExecId(FreshRun(mid), r);
    lease := Above(mid.leases.Keys);
    e := FreshEnvelope(mid, job);
    var cleared := ReachCleared(paid, s, mid, r, x, now);
    later := WrittenAt(SignedAt(cleared, x, job, lease, now, e), x, job, lease, e);
    ClearedCanGoOn(mid, cleared, x, job, lease, now);
    ReachSigned(paid, s, cleared, x, job, lease, now, Now(mid.chain), FreshUntil(mid), mid.chain.sequence);
    ReachWritten(paid, s, SignedAt(cleared, x, job, lease, now, e), x, job, lease, e);
    WrittenIsNext(mid, cleared, x, job, lease, now, e);
  }

  lemma ClearedCanGoOn(mid: Sys, cleared: Sys, x: ExecId, job: Job, lease: LeaseId, now: int)
    requires job.refundId in mid.records && cleared == BegunAt(mid, x, Cleared(job)) && GuardOf(cleared, x.run) == None
    requires ChainOk(mid.chain) && lease !in mid.leases && Grants(mid.records[job.refundId], now)
    ensures var (from, until, fetched) := (Now(mid.chain), FreshUntil(mid), mid.chain.sequence);
            var e := FreshEnvelope(mid, job);
            var signed := SignedAt(cleared, x, job, lease, now, e);
            && x in cleared.execs && cleared.execs[x] == Cleared(job) && lease !in cleared.leases
            && job.refundId in cleared.records && Grants(cleared.records[job.refundId], now)
            && CanSign(cleared, from, until, fetched) && EnvelopeOf(cleared, x, job, from, until, fetched) == e
            && x in signed.execs && signed.execs[x] == Signed(job, lease, e)
            && job.refundId in signed.records && HasLease(signed.records[job.refundId], lease)
            && signed.records[job.refundId].state == Leased
  {
  }

  lemma WrittenIsNext(mid: Sys, cleared: Sys, x: ExecId, job: Job, lease: LeaseId, now: int, e: Envelope)
    requires job.refundId in mid.records && cleared == BegunAt(mid, x, Cleared(job)) && OthersStay(mid, cleared, x)
    ensures AcceptedNext(mid, WrittenAt(SignedAt(cleared, x, job, lease, now, e), x, job, lease, e), x, job, lease, e)
  {
    var r := job.refundId;
    var leased := LeasedRecord(mid.records[r], lease, now);
    assert mid.records[r := leased][r := Written(leased, e)] == mid.records[r := Written(leased, e)];
  }

  /** It is broadcast, and the node takes it. */
  lemma ReachSent(paid: map<string, int>, s: Sys, mid: Sys, x: ExecId, job: Job, lease: LeaseId, e: Envelope)
    returns (later: Sys)
    requires CanReach(paid, s, mid) && x in mid.execs && mid.execs[x] == Accepted(job, lease, e)
    ensures CanReach(paid, s, later)
    ensures later == At(mid, x, Sent(job, lease, e)).(sent := mid.sent + {(job.refundId, e)},
              runs := mid.runs[x.run := Sequence.Recorded(GuardOf(mid, x.run), e.sequence)])
  {
    later := Do(paid, mid, Send(x, Sequence.Pending, OtherError));
    SendStep(paid, mid, x, job, lease, e);
    ReachStep(paid, s, mid, Send(x, Sequence.Pending, OtherError), later);
  }

  /** A live envelope that was broadcast lands in the next ledger it may, and pays. */
  lemma ReachPaid(paid: map<string, int>, s: Sys, mid: Sys, r: RefundId, e: Envelope, t: int) returns (later: Sys)
    requires CanReach(paid, s, mid) && (r, e) in mid.sent && CanClose(mid.chain, t, e.sequence, map[e := true])
    ensures CanReach(paid, s, later) && later == mid.(chain := Close(mid.chain, t, e.sequence, map[e := true]))
  {
    later := mid.(chain := Close(mid.chain, t, e.sequence, map[e := true]));
    assert (r, e).1 in SentEnvelopes(mid);
    ReachStep(paid, s, mid, CloseLedger(t, e.sequence, map[e := true]), later);
  }

  /** And its executor finds that out, and confirms. */
  lemma ReachConfirmed(paid: map<string, int>, s: Sys, mid: Sys, y: ExecId, job: Job, lease: LeaseId, f: Envelope)
    returns (later: Sys)
    requires CanReach(paid, s, mid) && y in mid.execs
    requires mid.execs[y] == Sent(job, lease, f) || mid.execs[y] == Accepted(job, lease, f)
    requires Remembers(mid, job.refundId, lease, f) && Succeeded(mid.chain, f)
    ensures CanReach(paid, s, later) && later == mid.(execs := mid.execs - {y}, records := later.records)
    ensures job.refundId in later.records && later.records[job.refundId].state == RefundState.Confirmed
    ensures later.records[job.refundId].signedXdr == Some(f)
  {
    var proven := At(mid, y, Proven(job, lease, HashOf(f)));
    ProveStep(paid, mid, y, job, lease, f);
    ReachStep(paid, s, mid, Prove(y), proven);
    later := Do(paid, proven, Confirm(y, 0));
    ConfirmStep(paid, proven, y, job, lease, f);
    ReachStep(paid, s, proven, Confirm(y, 0), later);
  }

  lemma ProveStep(paid: map<string, int>, s: Sys, y: ExecId, job: Job, lease: LeaseId, f: Envelope)
    requires y in s.execs && (s.execs[y] == Sent(job, lease, f) || s.execs[y] == Accepted(job, lease, f))
    requires Remembers(s, job.refundId, lease, f) && Succeeded(s.chain, f)
    ensures Do(paid, s, Prove(y)) == At(s, y, Proven(job, lease, HashOf(f)))
  {
  }

  lemma ConfirmStep(paid: map<string, int>, s: Sys, y: ExecId, job: Job, lease: LeaseId, f: Envelope)
    requires y in s.execs && s.execs[y] == Proven(job, lease, HashOf(f)) && Remembers(s, job.refundId, lease, f)
    ensures var later := Do(paid, s, Confirm(y, 0));
            && later == s.(execs := s.execs - {y}, records := later.records) && job.refundId in later.records
            && later.records[job.refundId].state == RefundState.Confirmed
            && later.records[job.refundId].signedXdr == Some(f)
  {
  }
}
