/** When a late /complete write can be unsafe: exactly when the envelope was signed two or
    more ahead of the chain, which takes an envelope of the same run, for another refund,
    that was taken and has not landed. */
module RefundLateWrites {
  import opened Wrappers
  import opened RefundRecord
  import opened RefundChain
  import opened RefundProtocol
  import opened RefundSafety
  import opened RefundSteps
  import opened RefundSigned
  import opened RefundTheorems
  import opened RefundRuns
  import Sequence = RefundSequence

  /** No envelope was signed for two refunds. */
  ghost predicate Unshared(s: Sys) {
    forall p, q :: p in s.signed && q in s.signed && p.1 == q.1 ==> p.0 == q.0
  }

  /** The record carries x's lease, and two more ledgers may close before the envelope is
      dead, each taking a sequence number. */
  predicate MayComeLate(s: Sys, job: Job, lease: LeaseId, e: Envelope) {
    && job.refundId in s.records && HasLease(s.records[job.refundId], lease)
    && e.sequence > s.chain.sequence + 1 && e.maxTime > s.chain.latest + 1
  }

  ghost predicate ComesLate(paid: map<string, int>, s: Sys, x: ExecId, job: Job, lease: LeaseId, e: Envelope) {
    exists later: Sys ::
      && CanReach(paid, s, later) && Unshared(later)
      && x in later.execs && later.execs[x] == Checked(job, lease, e) && Hazard(later, Submit(x))
  }

  // ---- what is paid for a refund was sent for it ---------------------------------------

  lemma PaidWasSent(paid: map<string, int>, s: Sys, r: RefundId, f: Envelope)
    requires Inv(paid, s) && SignedOk(s) && Unshared(s) && (r, f) in s.signed && f in s.chain.included
    ensures (r, f) in s.sent
  {
    assert f in SentEnvelopes(s);
    var p :| p in s.sent && p.1 == f;
    assert p in s.signed && p.0 == r;
  }

  /** A leased refund has not been paid for. */
  lemma LeasedIsUnpaid(paid: map<string, int>, s: Sys, r: RefundId, f: Envelope)
    requires Inv(paid, s) && r in s.records && s.records[r].state == Leased && (r, f) in s.sent
    ensures !Succeeded(s.chain, f)
  {
    assert SentOk(s, r, f) && RecordOk(paid, s, r);
  }

  // ---- a lease that is lost ----------------------------------------------------------------

  /** The lease is off the record, and nobody got past the check with it. */
  ghost predicate LeaseLost(s: Sys, r: RefundId, lease: LeaseId) {
    && lease in s.leases && s.leases[lease] == r && r in s.records && !HasLease(s.records[r], lease)
    && forall y :: y in s.execs && s.execs[y].Checked? ==> s.execs[y].lease != lease
  }

  lemma RecordChangeKeepsLost(s: Sys, later: Sys, x: ExecId, r: RefundId, lease: LeaseId)
    requires LeaseLost(s, r, lease) && r in later.records
    requires lease in later.leases && later.leases[lease] == r
    requires later.records[r] == s.records[r] || !HasLease(later.records[r], lease)
    requires forall y :: y in later.execs && (y !in s.execs || later.execs[y] != s.execs[y]) ==>
               !later.execs[y].Checked?
    ensures LeaseLost(later, r, lease)
  {
  }

  lemma TakeLeaseKeepsLost(s: Sys, x: ExecId, job: Job, l: LeaseId, now: int, r: RefundId, lease: LeaseId)
    requires LeaseLost(s, r, lease) && l !in s.leases
    ensures LeaseLost(DoTakeLease(s, x, job, l, now), r, lease)
  {
    RecordChangeKeepsLost(s, DoTakeLease(s, x, job, l, now), x, r, lease);
  }

  lemma PresentKeepsLost(paid: map<string, int>, s: Sys, x: ExecId, job: Job, l: LeaseId, e: Envelope,
                         r: RefundId, lease: LeaseId)
    requires LeaseLost(s, r, lease) && ExecOk(paid, s, Signed(job, l, e))
    ensures LeaseLost(DoPresent(s, x, job, l, e), r, lease)
  {
  }

  /** Rewrites of a record under a lease leave that lease on it, or none. */
  lemma CompletionsKeepLost(s: Sys, x: ExecId, job: Job, l: LeaseId, e: Envelope, r: RefundId, lease: LeaseId)
    requires LeaseLost(s, r, lease)
    ensures LeaseLost(DoSubmit(s, x, job, l, e), r, lease) && LeaseLost(DoPark(s, x, job, l, e), r, lease)
  {
    RecordChangeKeepsLost(s, DoSubmit(s, x, job, l, e), x, r, lease);
    RecordChangeKeepsLost(s, DoPark(s, x, job, l, e), x, r, lease);
  }

  lemma ConfirmKeepsLost(s: Sys, x: ExecId, job: Job, l: LeaseId, tx: TxHash, ledger: int, r: RefundId, lease: LeaseId)
    requires LeaseLost(s, r, lease)
    ensures LeaseLost(DoConfirm(s, x, job, l, tx, ledger), r, lease)
  {
    RecordChangeKeepsLost(s, DoConfirm(s, x, job, l, tx, ledger), x, r, lease);
  }

  lemma RequeueKeepsLost(s: Sys, x: ExecId, job: Job, l: LeaseId, tx: TxHash, r: RefundId, lease: LeaseId)
    requires LeaseLost(s, r, lease)
    ensures LeaseLost(DoRequeue(s, x, job, l, tx), r, lease)
  {
    RecordChangeKeepsLost(s, DoRequeue(s, x, job, l, tx), x, r, lease);
  }

  lemma OutsideStepKeepsLost(paid: map<string, int>, s: Sys, a: Action, r: RefundId, lease: LeaseId)
    requires LeaseLost(s, r, lease) && (a.Enqueue? || a.Unpark? || a.CloseLedger? || a.Begin?)
    ensures LeaseLost(Do(paid, s, a), r, lease)
  {
  }

  lemma QuietStepKeepsLost(paid: map<string, int>, s: Sys, x: ExecId, ex: Exec, a: Action, r: RefundId, lease: LeaseId)
    requires LeaseLost(s, r, lease) && x in s.execs && s.execs[x] == ex
    requires a.Sign? || a.Prove? || a.Condemn? || a.Stop?
    ensures LeaseLost(DoExec(paid, s, x, ex, a), r, lease)
  {
  }

  lemma ClearKeepsLost(paid: map<string, int>, s: Sys, x: ExecId, job: Job, r: RefundId, lease: LeaseId)
    requires LeaseLost(s, r, lease)
    ensures LeaseLost(DoClear(paid, s, x, job), r, lease)
  {
    ClearMoves(paid, s, x, job);
  }

  lemma SendKeepsLost(s: Sys, x: ExecId, job: Job, l: LeaseId, e: Envelope,
                      reply: Sequence.SendStatus, code: SendError, r: RefundId, lease: LeaseId)
    requires LeaseLost(s, r, lease)
    ensures LeaseLost(DoSend(s, x, job, l, e, reply, code), r, lease)
  {
  }

  lemma EarlyStepKeepsLost(paid: map<string, int>, s: Sys, x: ExecId, ex: Exec, a: Action, r: RefundId, lease: LeaseId)
    requires Inv(paid, s) && LeaseLost(s, r, lease) && x in s.execs && s.execs[x] == ex
    requires a.Clear? || a.TakeLease? || a.Present? || a.Send?
    ensures LeaseLost(DoExec(paid, s, x, ex, a), r, lease)
  {
    ExecFacts(paid, s, x);
    if DoExec(paid, s, x, ex, a) != s {
      if a.Clear? {
        ClearKeepsLost(paid, s, x, ex.job, r, lease);
      } else if a.TakeLease? {
        TakeLeaseKeepsLost(s, x, ex.job, a.lease, a.now, r, lease);
      } else if a.Present? {
        PresentKeepsLost(paid, s, x, ex.job, ex.lease, ex.env, r, lease);
      } else {
        SendKeepsLost(s, x, ex.job, ex.lease, ex.env, a.reply, a.code, r, lease);
      }
    }
  }

  lemma WriteKeepsLost(paid: map<string, int>, s: Sys, x: ExecId, ex: Exec, a: Action, r: RefundId, lease: LeaseId)
    requires LeaseLost(s, r, lease) && (a.Submit? || a.Park? || a.Confirm? || a.Requeue?)
    ensures LeaseLost(DoExec(paid, s, x, ex, a), r, lease)
  {
    if DoExec(paid, s, x, ex, a) != s {
      if a.Submit? || a.Park? {
        CompletionsKeepLost(s, x, ex.job, ex.lease, ex.env, r, lease);
      } else if a.Confirm? {
        ConfirmKeepsLost(s, x, ex.job, ex.lease, ex.tx, a.ledger, r, lease);
      } else {
        RequeueKeepsLost(s, x, ex.job, ex.lease, ex.tx, r, lease);
      }
    }
  }

  lemma StepKeepsLost(paid: map<string, int>, s: Sys, a: Action, r: RefundId, lease: LeaseId)
    requires Inv(paid, s) && LeaseLost(s, r, lease)
    ensures LeaseLost(Do(paid, s, a), r, lease)
  {
    if a.Enqueue? || a.Unpark? || a.CloseLedger? || a.Begin? {
      OutsideStepKeepsLost(paid, s, a, r, lease);
    } else if a.x in s.execs {
      if a.Clear? || a.TakeLease? || a.Present? || a.Send? {
        EarlyStepKeepsLost(paid, s, a.x, s.execs[a.x], a, r, lease);
      } else if a.Submit? || a.Park? || a.Confirm? || a.Requeue? {
        WriteKeepsLost(paid, s, a.x, s.execs[a.x], a, r, lease);
      } else {
        QuietStepKeepsLost(paid, s, a.x, s.execs[a.x], a, r, lease);
      }
    }
  }

  lemma {:induction false} LostStaysLost(paid: map<string, int>, s: Sys, acts: seq<Action>, r: RefundId, lease: LeaseId)
    requires Inv(paid, s) && LeaseLost(s, r, lease) && HazardFree(paid, s, acts)
    ensures LeaseLost(Run(paid, s, acts), r, lease)
  {
    if acts != [] {
      LostStaysLost(paid, s, acts[..|acts| - 1], r, lease);
      HazardFreeRunsKeepInv(paid, s, acts[..|acts| - 1]);
      StepKeepsLost(paid, Run(paid, s, acts[..|acts| - 1]), acts[|acts| - 1], r, lease);
    }
  }

  // ---- what a payment takes ------------------------------------------------------------------

  /** Since c, every payment of r has taken a ledger and a sequence number. */
  ghost predicate PaidAfter(s: Sys, r: RefundId, c: Chain) {
    && s.chain.sequence >= c.sequence && s.chain.latest >= c.latest
    && forall f :: (r, f) in s.sent && Succeeded(s.chain, f) ==>
         s.chain.sequence > c.sequence && s.chain.latest > c.latest
  }

  lemma CloseKeepsPaidAfter(s: Sys, t: int, sequence: int, batch: map<Envelope, bool>, r: RefundId, c: Chain)
    requires PaidAfter(s, r, c) && CanClose(s.chain, t, sequence, batch)
    ensures PaidAfter(s.(chain := Close(s.chain, t, sequence, batch)), r, c)
  {
    forall f | (r, f) in s.sent && Succeeded(Close(s.chain, t, sequence, batch), f)
      ensures sequence > c.sequence && t > c.latest
    {
      assert f in batch || Succeeded(s.chain, f);
    }
  }

  lemma SendKeepsPaidAfter(paid: map<string, int>, s: Sys, x: ExecId, job: Job, lease: LeaseId, e: Envelope,
                           reply: Sequence.SendStatus, code: SendError, r: RefundId, c: Chain)
    requires Inv(paid, s) && SignedOk(s) && Unshared(s) && PaidAfter(s, r, c)
    requires x in s.execs && s.execs[x] == Accepted(job, lease, e)
    ensures PaidAfter(DoSend(s, x, job, lease, e, reply, code), r, c)
  {
    assert ExecSigned(s, s.execs[x]);
    SendHandsOver(s, x, job, lease, e, reply, code);
    if Succeeded(s.chain, e) {
      PaidWasSent(paid, s, job.refundId, e);
    }
    MoreSentKeepsPaidAfter(s, DoSend(s, x, job, lease, e, reply, code), job.refundId, e, r, c);
  }

  lemma MoreSentKeepsPaidAfter(s: Sys, later: Sys, q: RefundId, e: Envelope, r: RefundId, c: Chain)
    requires PaidAfter(s, r, c) && later.chain == s.chain && later.sent == s.sent + {(q, e)}
    requires Succeeded(s.chain, e) ==> (q, e) in s.sent
    ensures PaidAfter(later, r, c)
  {
  }

  /** Any other step leaves the chain, and what was sent, as they are. */
  lemma OthersLeaveChain(paid: map<string, int>, s: Sys, a: Action)
    requires !a.CloseLedger? && !a.Send?
    ensures Do(paid, s, a).chain == s.chain && Do(paid, s, a).sent == s.sent
  {
    if !a.Enqueue? && !a.Unpark? && !a.Begin? && a.x in s.execs {
      ExecLeavesChain(paid, s, a.x, s.execs[a.x], a);
    }
  }

  lemma ExecLeavesChain(paid: map<string, int>, s: Sys, x: ExecId, ex: Exec, a: Action)
    requires !a.Send?
    ensures DoExec(paid, s, x, ex, a).chain == s.chain && DoExec(paid, s, x, ex, a).sent == s.sent
  {
    if a.Clear? {
      if ex.Listed? { ClearMoves(paid, s, x, ex.job); }
    } else if a.TakeLease? || a.Sign? || a.Present? || a.Submit? {
      EarlyExecLeavesChain(paid, s, x, ex, a);
    } else {
      LateExecLeavesChain(paid, s, x, ex, a);
    }
  }

  lemma EarlyExecLeavesChain(paid: map<string, int>, s: Sys, x: ExecId, ex: Exec, a: Action)
    requires a.TakeLease? || a.Sign? || a.Present? || a.Submit?
    ensures DoExec(paid, s, x, ex, a).chain == s.chain && DoExec(paid, s, x, ex, a).sent == s.sent
  {
  }

  lemma LateExecLeavesChain(paid: map<string, int>, s: Sys, x: ExecId, ex: Exec, a: Action)
    requires !a.Clear? && !a.TakeLease? && !a.Sign? && !a.Present? && !a.Submit? && !a.Send?
    ensures DoExec(paid, s, x, ex, a).chain == s.chain && DoExec(paid, s, x, ex, a).sent == s.sent
  {
  }

  lemma StepKeepsPaidAfter(paid: map<string, int>, s: Sys, a: Action, r: RefundId, c: Chain)
    requires Inv(paid, s) && SignedOk(s) && Unshared(s) && PaidAfter(s, r, c)
    ensures PaidAfter(Do(paid, s, a), r, c)
  {
    if a.CloseLedger? {
      if a.batch.Keys <= SentEnvelopes(s) && CanClose(s.chain, a.t, a.sequence, a.batch) {
        CloseKeepsPaidAfter(s, a.t, a.sequence, a.batch, r, c);
      }
    } else if a.Send? {
      if a.x in s.execs && s.execs[a.x].Accepted? {
        var ex := s.execs[a.x];
        SendKeepsPaidAfter(paid, s, a.x, ex.job, ex.lease, ex.env, a.reply, a.code, r, c);
      }
    } else {
      OthersLeaveChain(paid, s, a);
    }
  }

  lemma UnsharedBefore(paid: map<string, int>, s: Sys, a: Action)
    requires SignedOk(s) && Unshared(Do(paid, s, a))
    ensures Unshared(s)
  {
    StepKeepsSigned(paid, s, a);
  }

  lemma {:induction false} RunKeepsPaidAfter(paid: map<string, int>, s: Sys, acts: seq<Action>, r: RefundId, c: Chain)
    requires Inv(paid, s) && SignedOk(s) && PaidAfter(s, r, c) && HazardFree(paid, s, acts)
    requires Unshared(Run(paid, s, acts))
    ensures PaidAfter(Run(paid, s, acts), r, c)
  {
    if acts != [] {
      var mid := Run(paid, s, acts[..|acts| - 1]);
      RunKeepsSigned(paid, s, acts[..|acts| - 1]);
      UnsharedBefore(paid, mid, acts[|acts| - 1]);
      RunKeepsPaidAfter(paid, s, acts[..|acts| - 1], r, c);
      HazardFreeRunsKeepInv(paid, s, acts[..|acts| - 1]);
      StepKeepsPaidAfter(paid, mid, acts[|acts| - 1], r, c);
    }
  }

  // ---- only an envelope far enough ahead comes late --------------------------------------------

  lemma PaidIsStored(paid: map<string, int>, s: Sys, r: RefundId, e: Envelope)
    requires Inv(paid, s) && (r, e) in s.sent && Succeeded(s.chain, e)
    ensures Stored(s, r, e)
  {
    assert SentOk(s, r, e);
  }

  /** A late write is met only after a payment. */
  lemma HazardFollowsPayment(paid: map<string, int>, s: Sys, x: ExecId, c: Chain)
    requires Inv(paid, s) && SignedOk(s) && Unshared(s) && Hazard(s, Submit(x))
    requires PaidAfter(s, s.execs[x].job.refundId, c)
    ensures s.execs[x].env.sequence > c.sequence + 1 && s.execs[x].env.maxTime > c.latest + 1
  {
    var r, e := s.execs[x].job.refundId, s.execs[x].env;
    var f := s.records[r].signedXdr.value;
    assert RecordOk(paid, s, r) && RecordSigned(s, r) && ExecSigned(s, s.execs[x]) && Bounded((r, e).1);
    PaidWasSent(paid, s, r, f);
    if Succeeded(s.chain, e) {
      PaidWasSent(paid, s, r, e);
      PaidIsStored(paid, s, r, e);
      assert false;
    }
  }

  lemma LateRunIsAhead(paid: map<string, int>, s: Sys, acts: seq<Action>, x: ExecId, job: Job, lease: LeaseId,
                       e: Envelope)
    requires Inv(paid, s) && SignedOk(s) && Unspent(s, lease, job.refundId) && HazardFree(paid, s, acts)
    requires job.refundId in s.records && HasLease(s.records[job.refundId], lease)
    requires var later := Run(paid, s, acts);
             Unshared(later) && x in later.execs && later.execs[x] == Checked(job, lease, e) && Hazard(later, Submit(x))
    ensures e.sequence > s.chain.sequence + 1 && e.maxTime > s.chain.latest + 1
  {
    HazardFreeRunsKeepInv(paid, s, acts);
    RunKeepsSigned(paid, s, acts);
    NothingPaidYet(paid, s, job.refundId, lease);
    RunKeepsPaidAfter(paid, s, acts, job.refundId, s.chain);
    HazardFollowsPayment(paid, Run(paid, s, acts), x, s.chain);
  }

  lemma LostIsNotChecked(paid: map<string, int>, s: Sys, acts: seq<Action>, x: ExecId, job: Job, lease: LeaseId,
                         e: Envelope)
    requires Inv(paid, s) && HazardFree(paid, s, acts) && LeaseLost(s, job.refundId, lease)
    ensures var later := Run(paid, s, acts); x in later.execs ==> later.execs[x] != Checked(job, lease, e)
  {
    LostStaysLost(paid, s, acts, job.refundId, lease);
  }

  lemma RunIsAhead(paid: map<string, int>, s: Sys, acts: seq<Action>, x: ExecId, job: Job, lease: LeaseId, e: Envelope)
    requires Inv(paid, s) && SignedOk(s) && x in s.execs && s.execs[x] == Signed(job, lease, e)
    requires HazardFree(paid, s, acts)
    requires var later := Run(paid, s, acts);
             Unshared(later) && x in later.execs && later.execs[x] == Checked(job, lease, e) && Hazard(later, Submit(x))
    ensures MayComeLate(s, job, lease, e)
  {
    ExecFacts(paid, s, x);
    if HasLease(s.records[job.refundId], lease) {
      LateRunIsAhead(paid, s, acts, x, job, lease, e);
    } else {
      LostIsNotChecked(paid, s, acts, x, job, lease, e);
    }
  }

  lemma LateOnlyIfAhead(paid: map<string, int>, s: Sys, x: ExecId, job: Job, lease: LeaseId, e: Envelope)
    requires Inv(paid, s) && SignedOk(s) && x in s.execs && s.execs[x] == Signed(job, lease, e)
    requires ComesLate(paid, s, x, job, lease, e)
    ensures MayComeLate(s, job, lease, e)
  {
    var later: Sys :| CanReach(paid, s, later) && Unshared(later)
      && x in later.execs && later.execs[x] == Checked(job, lease, e) && Hazard(later, Submit(x));
    var acts :| HazardFree(paid, s, acts) && Run(paid, s, acts) == later;
    RunIsAhead(paid, s, acts, x, job, lease, e);
  }

  lemma NothingPaidYet(paid: map<string, int>, s: Sys, r: RefundId, lease: LeaseId)
    requires Inv(paid, s) && r in s.records && HasLease(s.records[r], lease) && Unspent(s, lease, r)
    ensures s.records[r].state == Leased && PaidAfter(s, r, s.chain)
  {
    assert RecordOk(paid, s, r);
    forall f | (r, f) in s.sent
      ensures !Succeeded(s.chain, f)
    {
      LeasedIsUnpaid(paid, s, r, f);
    }
  }

  // ---- and each such does ---------------------------------------------------------------------

  /** Every envelope signed is out of the way of a new one, and of the chain's. */
  lemma AheadIsLive(paid: map<string, int>, s: Sys, r: RefundId, e: Envelope)
    requires Inv(paid, s) && SignedOk(s) && (r, e) in s.signed
    requires e.sequence > s.chain.sequence + 1 && e.maxTime > s.chain.latest + 1
    ensures e !in s.chain.included && Bounded(e)
  {
    assert Bounded((r, e).1);
  }

  lemma LeasedCanBeTakenOver(paid: map<string, int>, s: Sys, x: ExecId, job: Job, lease: LeaseId, e: Envelope)
    requires Inv(paid, s) && x in s.execs && s.execs[x] == Signed(job, lease, e)
    requires job.refundId in s.records && HasLease(s.records[job.refundId], lease)
    ensures CanExecute(paid, At(s, x, Checked(job, lease, e)), job.refundId, s.records[job.refundId].lease.value.until)
  {
    ExecFacts(paid, s, x);
  }

  lemma FreshCanLand(s: Sys, job: Job)
    requires ChainOk(s.chain)
    ensures var f := FreshEnvelope(s, job);
            f.sequence == s.chain.sequence + 1
            && CanClose(s.chain, s.chain.latest + 1, s.chain.sequence + 1, map[f := true])
    ensures Succeeded(Close(s.chain, s.chain.latest + 1, s.chain.sequence + 1, map[FreshEnvelope(s, job) := true]),
                      FreshEnvelope(s, job))
  {
  }

  /** Another run takes the refund over, pays and confirms it; x is still where it was. */
  lemma ReachOvertaken(paid: map<string, int>, s: Sys, mid: Sys, x: ExecId, r: RefundId, now: int) returns (later: Sys)
    requires CanReach(paid, s, mid) && CanExecute(paid, mid, r, now) && x in mid.execs
    ensures CanReach(paid, s, later) && x in later.execs && later.execs[x] == mid.execs[x]
    ensures var f := FreshEnvelope(mid, Job(r, mid.records[r]));
            && r in later.records && later.records[r].state == RefundState.Confirmed
            && later.records[r].signedXdr == Some(f) && later.signed == mid.signed + {(r, f)}
            && later.chain == Close(mid.chain, mid.chain.latest + 1, mid.chain.sequence + 1, map[f := true])
  {
    var accepted, y, lease, f := ReachAccepted(paid, s, mid, r, now);
    later := AcceptedIsConfirmed(paid, s, mid, accepted, y, Job(r, mid.records[r]), lease);
  }

  /** y's new envelope is on the record, under its lease, and the rest is as it was. */
  ghost predicate Underway(mid: Sys, later: Sys, y: ExecId, ex: Exec, job: Job, lease: LeaseId, f: Envelope) {
    && y in later.execs && later.execs[y] == ex && later.signed == mid.signed + {(job.refundId, f)}
    && (forall x :: x in mid.execs ==> x in later.execs && later.execs[x] == mid.execs[x])
    && Remembers(later, job.refundId, lease, f)
  }

  /** y has handed its envelope over. */
  function HandedOver(s: Sys, y: ExecId, job: Job, lease: LeaseId, f: Envelope): Sys {
    At(s, y, Sent(job, lease, f)).(sent := s.sent + {(job.refundId, f)},
                                   runs := s.runs[y.run := Sequence.Recorded(GuardOf(s, y.run), f.sequence)])
  }

  function NextLedger(s: Sys, f: Envelope): Sys {
    s.(chain := Close(s.chain, s.chain.latest + 1, s.chain.sequence + 1, map[f := true]))
  }

  lemma HandedOverIsUnderway(mid: Sys, accepted: Sys, y: ExecId, job: Job, lease: LeaseId, f: Envelope)
    requires y !in mid.execs && AcceptedNext(mid, accepted, y, job, lease, f)
    ensures var sent := HandedOver(accepted, y, job, lease, f);
            && sent.chain == mid.chain && (job.refundId, f) in sent.sent
            && Underway(mid, NextLedger(sent, f), y, Sent(job, lease, f), job, lease, f)
  {
  }

  lemma AcceptedIsPaid(paid: map<string, int>, s: Sys, mid: Sys, accepted: Sys, y: ExecId, job: Job, lease: LeaseId)
    returns (later: Sys)
    requires ChainOk(mid.chain) && CanReach(paid, s, accepted) && y !in mid.execs
    requires AcceptedNext(mid, accepted, y, job, lease, FreshEnvelope(mid, job))
    ensures var f := FreshEnvelope(mid, job);
            && CanReach(paid, s, later) && Underway(mid, later, y, Sent(job, lease, f), job, lease, f)
            && later.chain == Close(mid.chain, mid.chain.latest + 1, mid.chain.sequence + 1, map[f := true])
  {
    var f := FreshEnvelope(mid, job);
    FreshCanLand(mid, job);
    HandedOverIsUnderway(mid, accepted, y, job, lease, f);
    var sent := ReachSent(paid, s, accepted, y, job, lease, f);
    later := ReachPaid(paid, s, HandedOver(accepted, y, job, lease, f), job.refundId, f, mid.chain.latest + 1);
  }

  lemma AcceptedIsConfirmed(paid: map<string, int>, s: Sys, mid: Sys, accepted: Sys, y: ExecId, job: Job,
                            lease: LeaseId)
    returns (later: Sys)
    requires ChainOk(mid.chain) && CanReach(paid, s, accepted) && y !in mid.execs
    requires AcceptedNext(mid, accepted, y, job, lease, FreshEnvelope(mid, job))
    ensures CanReach(paid, s, later)
    ensures forall x :: x in mid.execs ==> x in later.execs && later.execs[x] == mid.execs[x]
    ensures var f := FreshEnvelope(mid, job);
            && job.refundId in later.records && later.records[job.refundId].state == RefundState.Confirmed
            && later.records[job.refundId].signedXdr == Some(f) && later.signed == mid.signed + {(job.refundId, f)}
            && later.chain == Close(mid.chain, mid.chain.latest + 1, mid.chain.sequence + 1, map[f := true])
  {
    var f := FreshEnvelope(mid, job);
    var settled := AcceptedIsPaid(paid, s, mid, accepted, y, job, lease);
    FreshCanLand(mid, job);
    later := ReachConfirmed(paid, s, settled, y, job, lease, f);
  }

  lemma AheadComesLate(paid: map<string, int>, s: Sys, x: ExecId, job: Job, lease: LeaseId, e: Envelope)
    requires Inv(paid, s) && SignedOk(s) && Unshared(s) && x in s.execs && s.execs[x] == Signed(job, lease, e)
    requires MayComeLate(s, job, lease, e)
    ensures ComesLate(paid, s, x, job, lease, e)
  {
    var r, mid := job.refundId, At(s, x, Checked(job, lease, e));
    assert ExecSigned(s, s.execs[x]);
    AheadIsLive(paid, s, r, e);
    LeasedCanBeTakenOver(paid, s, x, job, lease, e);
    ReachItself(paid, s);
    ReachChecked(paid, s, s, x, job, lease, e);
    var later := ReachOvertaken(paid, s, mid, x, r, s.records[r].lease.value.until);
    OvertakenIsHazard(mid, later, x, r, e);
  }

  lemma OvertakenIsHazard(mid: Sys, later: Sys, x: ExecId, r: RefundId, e: Envelope)
    requires x in later.execs && later.execs[x].Checked? && later.execs[x].env == e
    requires later.execs[x].job.refundId == r && r in mid.records && ChainOk(mid.chain)
    requires Unshared(mid) && (r, e) in mid.signed && e !in mid.chain.included && Bounded(e)
    requires e.sequence > mid.chain.sequence + 1 && e.maxTime > mid.chain.latest + 1
    requires var f := FreshEnvelope(mid, Job(r, mid.records[r]));
             && r in later.records && later.records[r].state == RefundState.Confirmed
             && later.records[r].signedXdr == Some(f) && later.signed == mid.signed + {(r, f)}
             && later.chain == Close(mid.chain, mid.chain.latest + 1, mid.chain.sequence + 1, map[f := true])
    ensures Hazard(later, Submit(x)) && Unshared(later)
  {
  }

  /** From the moment an envelope is signed: there is a run, free of hazards and of shared
      envelopes, in which its write comes late and is unsafe, exactly when the record
      still carries the lease, its sequence is two or more ahead of the chain's, and two
      more ledgers may close within its bounds. */
  lemma ComesLateExactlyWhenAhead(paid: map<string, int>, init: Sys, acts: seq<Action>, s: Sys, x: ExecId)
    requires Reached(paid, init, acts, s) && Unshared(s) && x in s.execs && s.execs[x].Signed?
    ensures var ex := s.execs[x];
            ComesLate(paid, s, x, ex.job, ex.lease, ex.env) <==> MayComeLate(s, ex.job, ex.lease, ex.env)
  {
    var ex := s.execs[x];
    ReachedKeepsInv(paid, init, acts, s);
    InitIsSigned(init);
    RunKeepsSigned(paid, init, acts);
    if MayComeLate(s, ex.job, ex.lease, ex.env) {
      AheadComesLate(paid, s, x, ex.job, ex.lease, ex.env);
    }
    if ComesLate(paid, s, x, ex.job, ex.lease, ex.env) {
      LateOnlyIfAhead(paid, s, x, ex.job, ex.lease, ex.env);
    }
  }
}
