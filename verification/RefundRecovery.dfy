/** What becomes of a submitted refund that nobody helps: it settles, or is taken back,
    unless its envelope landed and failed. */
module RefundRecovery {
  import opened Wrappers
  import opened RefundRecord
  import opened RefundChain
  import opened RefundCoordinator
  import opened RefundProtocol
  import opened RefundSafety
  import opened RefundSigned
  import opened RefundTheorems
  import opened RefundRuns
  import Sequence = RefundSequence

  /** The operator does not step in for this refund. */
  predicate NoUnpark(acts: seq<Action>, r: RefundId) {
    forall k :: 0 <= k < |acts| ==> acts[k] != Unpark(r)
  }

  ghost predicate ReachesUnaided(paid: map<string, int>, s: Sys, later: Sys, r: RefundId) {
    exists acts :: HazardFree(paid, s, acts) && NoUnpark(acts, r) && Run(paid, s, acts) == later
  }

  /** It can be paid for and confirmed, or taken back to pending. */
  ghost predicate CanSettle(paid: map<string, int>, s: Sys, r: RefundId) {
    exists later: Sys :: ReachesUnaided(paid, s, later, r) && r in later.records
                         && later.records[r].state in {Pending, RefundState.Confirmed}
  }

  lemma UnaidedItself(paid: map<string, int>, s: Sys, r: RefundId)
    ensures ReachesUnaided(paid, s, s, r)
  {
    var none: seq<Action> := [];
    assert HazardFree(paid, s, none) && NoUnpark(none, r) && Run(paid, s, none) == s;
  }

  lemma UnaidedStep(paid: map<string, int>, s: Sys, mid: Sys, a: Action, later: Sys, r: RefundId)
    requires ReachesUnaided(paid, s, mid, r) && !Hazard(mid, a) && a != Unpark(r) && later == Do(paid, mid, a)
    ensures ReachesUnaided(paid, s, later, r)
  {
    var acts :| HazardFree(paid, s, acts) && NoUnpark(acts, r) && Run(paid, s, acts) == mid;
    OneMoreAction(paid, s, acts, a);
    assert NoUnpark(acts + [a], r);
  }

  // ---- an envelope that failed ---------------------------------------------------------

  predicate Stuck(s: Sys, r: RefundId, e: Envelope) {
    && r in s.records && s.records[r].state in {Submitted, ManualReview} && s.records[r].signedXdr == Some(e)
    && FailedOnChain(s.chain, e)
  }

  lemma LeaseLeavesStuck(s: Sys, x: ExecId, job: Job, lease: LeaseId, now: int, r: RefundId, e: Envelope)
    requires Stuck(s, r, e)
    ensures Stuck(DoTakeLease(s, x, job, lease, now), r, e)
  {
  }

  lemma SubmitLeavesStuck(s: Sys, x: ExecId, job: Job, lease: LeaseId, env: Envelope, r: RefundId, e: Envelope)
    requires Stuck(s, r, e)
    ensures Stuck(DoSubmit(s, x, job, lease, env), r, e)
  {
  }

  lemma ParkLeavesStuck(s: Sys, x: ExecId, job: Job, lease: LeaseId, env: Envelope, r: RefundId, e: Envelope)
    requires Stuck(s, r, e)
    ensures Stuck(DoPark(s, x, job, lease, env), r, e)
  {
  }

  /** Whoever holds a proof of success holds it of another envelope. */
  lemma ConfirmLeavesStuck(paid: map<string, int>, s: Sys, x: ExecId, job: Job, lease: LeaseId, tx: TxHash, ledger: int,
                           r: RefundId, e: Envelope)
    requires Inv(paid, s) && x in s.execs && s.execs[x] == Proven(job, lease, tx) && Stuck(s, r, e)
    ensures Stuck(DoConfirm(s, x, job, lease, tx, ledger), r, e)
  {
    ExecFacts(paid, s, x);
    assert RecordOk(paid, s, r);
  }

  /** And whoever was told that an envelope is dead was told of one that never landed. */
  lemma RequeueLeavesStuck(paid: map<string, int>, s: Sys, x: ExecId, job: Job, lease: LeaseId, tx: TxHash,
                           r: RefundId, e: Envelope)
    requires Inv(paid, s) && x in s.execs && s.execs[x] == Condemned(job, lease, tx) && Stuck(s, r, e)
    ensures Stuck(DoRequeue(s, x, job, lease, tx), r, e)
  {
    ExecFacts(paid, s, x);
    assert RecordOk(paid, s, r);
  }

  lemma UnparkLeavesStuck(s: Sys, q: RefundId, r: RefundId, e: Envelope)
    requires Stuck(s, r, e) && q != r
    ensures Stuck(DoUnpark(s, q), r, e)
  {
  }

  lemma CloseLeavesStuck(s: Sys, t: int, sequence: int, batch: map<Envelope, bool>, r: RefundId, e: Envelope)
    requires Stuck(s, r, e) && CanClose(s.chain, t, sequence, batch)
    ensures Stuck(s.(chain := Close(s.chain, t, sequence, batch)), r, e)
  {
  }

  predicate Quiet(s: Sys, later: Sys) { later.records == s.records && later.chain == s.chain }

  lemma ClearIsQuiet(paid: map<string, int>, s: Sys, x: ExecId, job: Job)
    ensures Quiet(s, DoClear(paid, s, x, job))
  {
  }

  lemma SendIsQuiet(s: Sys, x: ExecId, job: Job, lease: LeaseId, e: Envelope,
                    reply: Sequence.SendStatus, code: SendError)
    ensures Quiet(s, DoSend(s, x, job, lease, e, reply, code))
  {
  }

  lemma AskIsQuiet(s: Sys, x: ExecId, job: Job, lease: LeaseId, e: Envelope, oldest: int, latestSeen: int)
    ensures Quiet(s, DoPresent(s, x, job, lease, e)) && Quiet(s, DoProve(s, x, job, lease))
    ensures Quiet(s, DoCondemn(s, x, job, lease, oldest, latestSeen))
  {
  }

  /** Steps that touch neither records nor chain. */
  lemma QuietStep(paid: map<string, int>, s: Sys, x: ExecId, ex: Exec, a: Action)
    requires a.Clear? || a.Sign? || a.Present? || a.Send? || a.Prove? || a.Condemn? || a.Stop?
    ensures Quiet(s, DoExec(paid, s, x, ex, a))
  {
    if DoExec(paid, s, x, ex, a) != s {
      if a.Clear? {
        ClearIsQuiet(paid, s, x, ex.job);
      } else if a.Send? {
        SendIsQuiet(s, x, ex.job, ex.lease, ex.env, a.reply, a.code);
      } else if a.Present? {
        AskIsQuiet(s, x, ex.job, ex.lease, ex.env, 0, 0);
      } else if a.Prove? {
        AskIsQuiet(s, x, ex.job, ex.lease, ex.env, 0, 0);
      } else if a.Condemn? {
        AskIsQuiet(s, x, ex.job, ex.lease, ex.env, a.oldest, a.latestSeen);
      }
    }
  }

  lemma ExecStepLeavesStuck(paid: map<string, int>, s: Sys, x: ExecId, ex: Exec, a: Action, r: RefundId, e: Envelope)
    requires Inv(paid, s) && x in s.execs && s.execs[x] == ex && Stuck(s, r, e)
    requires !a.Enqueue? && !a.Unpark? && !a.CloseLedger? && !a.Begin? && a.x == x
    ensures Stuck(DoExec(paid, s, x, ex, a), r, e)
  {
    if DoExec(paid, s, x, ex, a) == s {
    } else if a.TakeLease? {
      LeaseLeavesStuck(s, x, ex.job, a.lease, a.now, r, e);
    } else if a.Submit? {
      SubmitLeavesStuck(s, x, ex.job, ex.lease, ex.env, r, e);
    } else if a.Park? {
      ParkLeavesStuck(s, x, ex.job, ex.lease, ex.env, r, e);
    } else if a.Confirm? {
      ConfirmLeavesStuck(paid, s, x, ex.job, ex.lease, ex.tx, a.ledger, r, e);
    } else if a.Requeue? {
      RequeueLeavesStuck(paid, s, x, ex.job, ex.lease, ex.tx, r, e);
    } else {
      QuietStep(paid, s, x, ex, a);
    }
  }

  lemma OutsideStepLeavesStuck(paid: map<string, int>, s: Sys, a: Action, r: RefundId, e: Envelope)
    requires Stuck(s, r, e) && a != Unpark(r) && (a.Enqueue? || a.Begin? || a.Unpark? || a.CloseLedger?)
    ensures Stuck(Do(paid, s, a), r, e)
  {
    if a.Unpark? {
      UnparkLeavesStuck(s, a.refundId, r, e);
    } else if a.CloseLedger? {
      if a.batch.Keys <= SentEnvelopes(s) && CanClose(s.chain, a.t, a.sequence, a.batch) {
        CloseLeavesStuck(s, a.t, a.sequence, a.batch, r, e);
      }
    }
  }

  lemma StepLeavesStuck(paid: map<string, int>, s: Sys, a: Action, r: RefundId, e: Envelope)
    requires Inv(paid, s) && Stuck(s, r, e) && a != Unpark(r)
    ensures Stuck(Do(paid, s, a), r, e)
  {
    if a.Enqueue? || a.Begin? || a.Unpark? || a.CloseLedger? {
      OutsideStepLeavesStuck(paid, s, a, r, e);
    } else if a.x in s.execs {
      ExecStepLeavesStuck(paid, s, a.x, s.execs[a.x], a, r, e);
    }
  }

  /** No run frees it without the operator: it stays submitted, or is parked. */
  lemma {:induction false} FailedStaysStuck(paid: map<string, int>, s: Sys, acts: seq<Action>, r: RefundId, e: Envelope)
    requires Inv(paid, s) && Stuck(s, r, e) && HazardFree(paid, s, acts) && NoUnpark(acts, r)
    ensures Stuck(Run(paid, s, acts), r, e)
  {
    if acts != [] {
      FailedStaysStuck(paid, s, acts[..|acts| - 1], r, e);
      HazardFreeRunsKeepInv(paid, s, acts[..|acts| - 1]);
      StepLeavesStuck(paid, Run(paid, s, acts[..|acts| - 1]), acts[|acts| - 1], r, e);
    }
  }

  // ---- any other -------------------------------------------------------------------------

  /** An executor of a new run has picked the refund up again. */
  function PickedUp(s: Sys, x: ExecId): Sys
    requires x.refund in s.records && Complete(s.records[x.refund])
  {
    var rec := s.records[x.refund];
    BegunAt(s, x, Accepted(Job(x.refund, rec), rec.lease.value.id, rec.signedXdr.value))
  }

  lemma PickUp(paid: map<string, int>, s: Sys, mid: Sys, x: ExecId, r: RefundId)
    requires ReachesUnaided(paid, s, mid, r) && x == ExecId(FreshRun(mid), r)
    requires r in mid.records && RecordOk(paid, mid, r) && mid.records[r].state == Submitted && FundedBy(mid.rows, paid)
    ensures ReachesUnaided(paid, s, PickedUp(mid, x), r)
  {
    var begun := Begun(mid, x.run);
    FreshRunIsIdle(mid, x.run, r);
    UnaidedStep(paid, s, mid, Begin(x.run), begun, r);
    ClearSubmitted(paid, begun, x, r);
    UnaidedStep(paid, s, begun, Clear(x), PickedUp(mid, x), r);
  }

  lemma ClearSubmitted(paid: map<string, int>, s: Sys, x: ExecId, r: RefundId)
    requires r in s.records && RecordOk(paid, s, r) && s.records[r].state == Submitted && FundedBy(s.rows, paid)
    requires x in s.execs && s.execs[x] == Listed(Job(r, s.records[r])) && !Busy(s, x)
    ensures Do(paid, s, Clear(x))
            == At(s, x, Accepted(Job(r, s.records[r]), s.records[r].lease.value.id, s.records[r].signedXdr.value))
  {
    FindIsMembership(s.rows, r);
  }

  predicate IsPickedUp(s: Sys, x: ExecId, job: Job, lease: LeaseId, e: Envelope) {
    && x in s.execs && s.execs[x] == Accepted(job, lease, e) && Remembers(s, job.refundId, lease, e)
  }

  lemma PickedUpRemembers(paid: map<string, int>, s: Sys, x: ExecId)
    requires x.refund in s.records && RecordOk(paid, s, x.refund) && s.records[x.refund].state == Submitted
    ensures var rec := s.records[x.refund];
            IsPickedUp(PickedUp(s, x), x, Job(x.refund, rec), rec.lease.value.id, rec.signedXdr.value)
  {
  }

  lemma PaidIsConfirmed(paid: map<string, int>, s: Sys, mid: Sys, x: ExecId, job: Job, lease: LeaseId, e: Envelope)
    requires ReachesUnaided(paid, s, mid, job.refundId) && IsPickedUp(mid, x, job, lease, e) && Succeeded(mid.chain, e)
    ensures CanSettle(paid, s, job.refundId)
  {
    var proven := At(mid, x, Proven(job, lease, HashOf(e)));
    ProveStep(paid, mid, x, job, lease, e);
    UnaidedStep(paid, s, mid, Prove(x), proven, job.refundId);
    ConfirmStep(paid, proven, x, job, lease, e);
    UnaidedStep(paid, s, proven, Confirm(x, 0), Do(paid, proven, Confirm(x, 0)), job.refundId);
  }

  lemma ExpiredIsRequeued(paid: map<string, int>, s: Sys, mid: Sys, x: ExecId, job: Job, lease: LeaseId, e: Envelope,
                          oldest: int)
    returns (later: Sys)
    requires ReachesUnaided(paid, s, mid, job.refundId) && IsPickedUp(mid, x, job, lease, e) && Bounded(e)
    requires e !in mid.chain.included && 0 < oldest <= e.minTime && e.maxTime < mid.chain.latest
    ensures ReachesUnaided(paid, s, later, job.refundId) && later.sent == mid.sent && later.chain == mid.chain
    ensures later.records == mid.records[job.refundId := Stripped(mid.records[job.refundId])]
  {
    var condemned := At(mid, x, Condemned(job, lease, HashOf(e)));
    CondemnStep(paid, mid, x, job, lease, e, oldest);
    UnaidedStep(paid, s, mid, Condemn(x, oldest, mid.chain.latest), condemned, job.refundId);
    later := Do(paid, condemned, Requeue(x));
    RequeueStep(paid, condemned, x, job, lease, e);
    UnaidedStep(paid, s, condemned, Requeue(x), later, job.refundId);
  }

  lemma CondemnStep(paid: map<string, int>, s: Sys, x: ExecId, job: Job, lease: LeaseId, e: Envelope, oldest: int)
    requires IsPickedUp(s, x, job, lease, e) && Bounded(e)
    requires e !in s.chain.included && 0 < oldest <= e.minTime && e.maxTime < s.chain.latest
    ensures Do(paid, s, Condemn(x, oldest, s.chain.latest)) == At(s, x, Condemned(job, lease, HashOf(e)))
  {
  }

  lemma RequeueStep(paid: map<string, int>, s: Sys, x: ExecId, job: Job, lease: LeaseId, e: Envelope)
    requires x in s.execs && s.execs[x] == Condemned(job, lease, HashOf(e)) && Remembers(s, job.refundId, lease, e)
    ensures var later := Do(paid, s, Requeue(x));
            && later.records == s.records[job.refundId := Stripped(s.records[job.refundId])]
            && later.sent == s.sent && later.chain == s.chain
  {
  }

  /** A ledger closes after the envelope's time. */
  lemma TimePasses(paid: map<string, int>, s: Sys, e: Envelope, r: RefundId) returns (later: Sys)
    requires e !in s.chain.included
    ensures ReachesUnaided(paid, s, later, r) && later == s.(chain := later.chain)
    ensures e !in later.chain.included && e.maxTime < later.chain.latest
  {
    UnaidedItself(paid, s, r);
    if e.maxTime < s.chain.latest {
      later := s;
    } else {
      var none: map<Envelope, bool> := map[];
      later := s.(chain := Close(s.chain, e.maxTime + 1, s.chain.sequence, none));
      UnaidedStep(paid, s, s, CloseLedger(e.maxTime + 1, s.chain.sequence, none), later, r);
    }
  }

  // ---- main results ------------------------------------------------------------------------

  /** A submitted refund whose envelope never landed is not stuck: once a ledger has
      closed past its upper bound, and the node asked still has the ledgers from its
      lower bound on, an executor takes the record back to pending, and nothing else
      changes. */
  lemma ExpiredRefundCanBeRequeued(paid: map<string, int>, init: Sys, acts: seq<Action>, s: Sys, r: RefundId,
                                   oldest: int)
    returns (later: Sys)
    requires Reached(paid, init, acts, s)
    requires r in s.records && s.records[r].state == Submitted && s.records[r].signedXdr.Some?
    requires var e := s.records[r].signedXdr.value;
             e !in s.chain.included && 0 < oldest <= e.minTime && e.maxTime < s.chain.latest
    ensures ReachesUnaided(paid, s, later, r) && later.records == s.records[r := Stripped(s.records[r])]
    ensures later.sent == s.sent && later.chain == s.chain
  {
    var e, x := s.records[r].signedXdr.value, ExecId(FreshRun(s), r);
    ReachedKeepsInv(paid, init, acts, s);
    ReachedIsSigned(paid, init, acts, s);
    assert RecordOk(paid, s, r) && RecordSigned(s, r) && Bounded((r, e).1);
    UnaidedItself(paid, s, r);
    PickUp(paid, s, s, x, r);
    PickedUpRemembers(paid, s, x);
    var job, lease := Job(r, s.records[r]), s.records[r].lease.value.id;
    later := ExpiredIsRequeued(paid, s, PickedUp(s, x), x, job, lease, e, oldest);
  }

  lemma ReachedIsSigned(paid: map<string, int>, init: Sys, acts: seq<Action>, s: Sys)
    requires Reached(paid, init, acts, s)
    ensures SignedOk(s)
  {
    InitIsSigned(init);
    RunKeepsSigned(paid, init, acts);
  }

  /** Left to itself a submitted refund can always still be settled or taken back, but for
      one case: its envelope landed and failed. Then nothing but an operator's unpark
      of a refund that was parked on top of it ever frees it. */
  lemma SubmittedSettlesExactlyUnlessFailed(paid: map<string, int>, init: Sys, acts: seq<Action>, s: Sys, r: RefundId)
    requires Reached(paid, init, acts, s)
    requires r in s.records && s.records[r].state == Submitted && s.records[r].signedXdr.Some?
    ensures CanSettle(paid, s, r) <==> !FailedOnChain(s.chain, s.records[r].signedXdr.value)
  {
    var e := s.records[r].signedXdr.value;
    ReachedKeepsInv(paid, init, acts, s);
    ReachedIsSigned(paid, init, acts, s);
    assert RecordOk(paid, s, r) && RecordSigned(s, r) && Bounded((r, e).1);
    if FailedOnChain(s.chain, e) {
      forall later: Sys | ReachesUnaided(paid, s, later, r)
        ensures Stuck(later, r, e)
      {
        var more :| HazardFree(paid, s, more) && NoUnpark(more, r) && Run(paid, s, more) == later;
        FailedStaysStuck(paid, s, more, r, e);
      }
    } else if Succeeded(s.chain, e) {
      PaidCanSettle(paid, s, r, e);
    } else {
      UnlandedCanSettle(paid, s, r, e);
    }
  }

  lemma PaidCanSettle(paid: map<string, int>, s: Sys, r: RefundId, e: Envelope)
    requires Inv(paid, s) && r in s.records && s.records[r].state == Submitted && s.records[r].signedXdr == Some(e)
    requires Succeeded(s.chain, e)
    ensures CanSettle(paid, s, r)
  {
    var x := ExecId(FreshRun(s), r);
    assert RecordOk(paid, s, r);
    UnaidedItself(paid, s, r);
    PickUp(paid, s, s, x, r);
    PickedUpRemembers(paid, s, x);
    PaidIsConfirmed(paid, s, PickedUp(s, x), x, Job(r, s.records[r]), s.records[r].lease.value.id, e);
  }

  lemma UnlandedCanSettle(paid: map<string, int>, s: Sys, r: RefundId, e: Envelope)
    requires Inv(paid, s) && r in s.records && s.records[r].state == Submitted && s.records[r].signedXdr == Some(e)
    requires e !in s.chain.included && Bounded(e)
    ensures CanSettle(paid, s, r)
  {
    assert RecordOk(paid, s, r);
    var mid := TimePasses(paid, s, e, r);
    var x := ExecId(FreshRun(mid), r);
    assert RecordOk(paid, mid, r);
    PickUp(paid, s, mid, x, r);
    PickedUpRemembers(paid, mid, x);
    var later := ExpiredIsRequeued(paid, s, PickedUp(mid, x), x, Job(r, s.records[r]), s.records[r].lease.value.id, e,
                                   e.minTime);
  }
}
