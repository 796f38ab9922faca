/** What is known of every envelope, on every run, with or without hazards: it was signed
    for its refund, within bounds. */
module RefundSigned {
  import opened RefundRecord
  import opened RefundChain
  import opened RefundProtocol
  import Sequence = RefundSequence

  predicate Bounded(e: Envelope) { 0 < e.minTime < e.maxTime }

  predicate HasEnv(ex: Exec) {
    ex.Signed? || ex.Checked? || ex.Accepted? || ex.Sent? || ex.Refused?
  }

  predicate ExecSigned(s: Sys, ex: Exec) {
    && (HasEnv(ex) ==> (ex.job.refundId, ex.env) in s.signed)
    && (ex.Listed? ==> JobSigned(s, ex.job))
  }

  predicate JobSigned(s: Sys, job: Job) {
    job.record.signedXdr.Some? ==> (job.refundId, job.record.signedXdr.value) in s.signed
  }

  predicate RecordSigned(s: Sys, r: RefundId)
    requires r in s.records
  {
    s.records[r].signedXdr.Some? ==> (r, s.records[r].signedXdr.value) in s.signed
  }

  ghost predicate SignedOk(s: Sys) {
    && s.sent <= s.signed
    && (forall l :: l in s.accepted ==> s.accepted[l] in s.signed)
    && (forall x :: x in s.execs ==> ExecSigned(s, s.execs[x]))
    && (forall r :: r in s.records ==> RecordSigned(s, r))
    && (forall q :: q in s.signed ==> Bounded(q.1))
  }

  /** What any step does to records, executors and tables, as far as envelopes go. */
  ghost predicate OnlySigned(s: Sys, later: Sys) {
    && s.signed <= later.signed && later.sent <= later.signed
    && (forall l :: l in later.accepted ==> later.accepted[l] in later.signed)
    && (forall x :: x in later.execs && (x !in s.execs || later.execs[x] != s.execs[x]) ==>
          ExecSigned(later, later.execs[x]))
    && (forall r :: r in later.records && (r !in s.records || later.records[r] != s.records[r]) ==>
          RecordSigned(later, r))
    && (forall q :: q in later.signed && q !in s.signed ==> Bounded(q.1))
  }

  lemma OnlySignedKeepsOk(s: Sys, later: Sys)
    requires SignedOk(s) && OnlySigned(s, later)
    ensures SignedOk(later)
  {
    forall x | x in later.execs
      ensures ExecSigned(later, later.execs[x])
    {
      assert x in s.execs && later.execs[x] == s.execs[x] ==> ExecSigned(s, s.execs[x]);
    }
    forall r | r in later.records
      ensures RecordSigned(later, r)
    {
      assert r in s.records ==> RecordSigned(s, r);
    }
  }

  lemma UnparkSigned(s: Sys, r: RefundId)
    requires SignedOk(s)
    ensures OnlySigned(s, DoUnpark(s, r))
  {
  }

  lemma BeginSigned(s: Sys, run: RunId)
    requires SignedOk(s)
    ensures OnlySigned(s, Begun(s, run))
  {
    forall x | x in Begun(s, run).execs && (x !in s.execs || Begun(s, run).execs[x] != s.execs[x])
      ensures ExecSigned(Begun(s, run), Begun(s, run).execs[x])
    {
      assert RecordSigned(s, x.refund);
    }
  }

  lemma EnqueueSigned(s: Sys, r: RefundId, proof: PaymentProof)
    requires SignedOk(s) && r !in s.records
    ensures OnlySigned(s, Store(s, r, NewRecord(proof)))
  {
  }

  lemma ChainMovesSigned(s: Sys, c: Chain)
    requires SignedOk(s)
    ensures OnlySigned(s, s.(chain := c))
  {
  }

  lemma OutsideStepSigned(paid: map<string, int>, s: Sys, a: Action)
    requires SignedOk(s) && (a.Enqueue? || a.Unpark? || a.CloseLedger? || a.Begin?)
    ensures OnlySigned(s, Do(paid, s, a))
  {
    if Do(paid, s, a) == s {
      SameIsSigned(s);
    } else if a.Unpark? {
      UnparkSigned(s, a.refundId);
    } else if a.Begin? {
      BeginSigned(s, a.run);
    } else if a.Enqueue? {
      EnqueueSigned(s, a.refundId, a.proof);
    } else {
      ChainMovesSigned(s, Do(paid, s, a).chain);
    }
  }

  /** x moves on, or stops, with no envelope but its own. */
  predicate MovesSigned(s: Sys, later: Sys, x: ExecId) {
    && later.records == s.records && later.accepted == s.accepted
    && s.signed <= later.signed && later.sent <= later.signed
    && (later.execs == s.execs - {x}
        || (x in later.execs && later.execs == s.execs[x := later.execs[x]] && ExecSigned(later, later.execs[x])))
    && (forall q :: q in later.signed && q !in s.signed ==> Bounded(q.1))
  }

  lemma MoveIsSigned(s: Sys, later: Sys, x: ExecId)
    requires SignedOk(s) && MovesSigned(s, later, x)
    ensures OnlySigned(s, later)
  {
  }

  /** A cleared job goes on with what the list said of it. */
  lemma ClearMoves(paid: map<string, int>, s: Sys, x: ExecId, job: Job)
    ensures var later := DoClear(paid, s, x, job);
            && later == s.(rows := later.rows, execs := later.execs)
            && (later.execs == s.execs - {x} || later.execs == s.execs[x := Cleared(job)]
                || (Complete(job.record) && later.execs == s.execs[x := Accepted(job, job.record.lease.value.id,
                                                                                 job.record.signedXdr.value)]))
  {
    ClearOnlyMoves(paid, s, x, job);
  }

  lemma ClearOnlyMoves(paid: map<string, int>, s: Sys, x: ExecId, job: Job)
    ensures var later := DoClear(paid, s, x, job); later == s.(rows := later.rows, execs := later.execs)
  {
  }

  lemma ClearSigned(paid: map<string, int>, s: Sys, x: ExecId, job: Job)
    requires SignedOk(s) && x in s.execs && s.execs[x] == Listed(job)
    ensures MovesSigned(s, DoClear(paid, s, x, job), x)
  {
    assert ExecSigned(s, s.execs[x]);
    ClearMoves(paid, s, x, job);
  }

  lemma SignIsSigned(s: Sys, x: ExecId, job: Job, lease: LeaseId, e: Envelope)
    requires SignedOk(s) && Bounded(e)
    ensures MovesSigned(s, DoSign(s, x, job, lease, e), x)
  {
  }

  lemma PresentSigned(s: Sys, x: ExecId, job: Job, lease: LeaseId, e: Envelope)
    requires SignedOk(s) && x in s.execs && s.execs[x] == Signed(job, lease, e)
    ensures MovesSigned(s, DoPresent(s, x, job, lease, e), x)
  {
    assert ExecSigned(s, s.execs[x]);
  }

  lemma SendSigned(s: Sys, x: ExecId, job: Job, lease: LeaseId, e: Envelope,
                   reply: Sequence.SendStatus, code: SendError)
    requires SignedOk(s) && x in s.execs && s.execs[x] == Accepted(job, lease, e)
    ensures MovesSigned(s, DoSend(s, x, job, lease, e, reply, code), x)
  {
    assert ExecSigned(s, s.execs[x]);
  }

  lemma AskSigned(s: Sys, x: ExecId, job: Job, lease: LeaseId, oldest: int, latestSeen: int)
    requires SignedOk(s)
    ensures MovesSigned(s, DoProve(s, x, job, lease), x)
    ensures MovesSigned(s, DoCondemn(s, x, job, lease, oldest, latestSeen), x)
    ensures MovesSigned(s, Stopped(s, x), x)
  {
    CondemnSigned(s, x, job, lease, oldest, latestSeen);
  }

  lemma CondemnSigned(s: Sys, x: ExecId, job: Job, lease: LeaseId, oldest: int, latestSeen: int)
    requires SignedOk(s)
    ensures MovesSigned(s, DoCondemn(s, x, job, lease, oldest, latestSeen), x)
  {
  }

  lemma LeaseSigned(s: Sys, x: ExecId, job: Job, lease: LeaseId, now: int)
    requires SignedOk(s)
    ensures OnlySigned(s, DoTakeLease(s, x, job, lease, now))
  {
    assert job.refundId in s.records ==> RecordSigned(s, job.refundId);
  }

  lemma SubmitSigned(s: Sys, x: ExecId, job: Job, lease: LeaseId, e: Envelope)
    requires SignedOk(s) && x in s.execs && s.execs[x] == Checked(job, lease, e)
    ensures OnlySigned(s, DoSubmit(s, x, job, lease, e))
  {
    assert ExecSigned(s, s.execs[x]);
  }

  lemma ParkSigned(s: Sys, x: ExecId, job: Job, lease: LeaseId, e: Envelope)
    requires SignedOk(s)
    ensures OnlySigned(s, DoPark(s, x, job, lease, e))
  {
    assert job.refundId in s.records ==> RecordSigned(s, job.refundId);
  }

  lemma ConfirmSigned(s: Sys, x: ExecId, job: Job, lease: LeaseId, tx: TxHash, ledger: int)
    requires SignedOk(s)
    ensures OnlySigned(s, DoConfirm(s, x, job, lease, tx, ledger))
  {
    assert job.refundId in s.records ==> RecordSigned(s, job.refundId);
  }

  lemma RequeueSigned(s: Sys, x: ExecId, job: Job, lease: LeaseId, tx: TxHash)
    requires SignedOk(s)
    ensures OnlySigned(s, DoRequeue(s, x, job, lease, tx))
  {
  }

  lemma ExecStepSigned(paid: map<string, int>, s: Sys, x: ExecId, ex: Exec, a: Action)
    requires SignedOk(s) && x in s.execs && s.execs[x] == ex
    requires !a.Enqueue? && !a.Unpark? && !a.CloseLedger? && !a.Begin? && a.x == x
    ensures OnlySigned(s, DoExec(paid, s, x, ex, a))
  {
    var later := DoExec(paid, s, x, ex, a);
    if later == s {
      SameIsSigned(s);
    } else if ex.Listed? || ex.Cleared? || ex.Holding? || ex.Signed? || a.Stop? {
      EarlyStepSigned(paid, s, x, ex, a);
    } else {
      LateStepSigned(paid, s, x, ex, a);
    }
  }

  lemma EarlyStepSigned(paid: map<string, int>, s: Sys, x: ExecId, ex: Exec, a: Action)
    requires SignedOk(s) && x in s.execs && s.execs[x] == ex && DoExec(paid, s, x, ex, a) != s
    requires ex.Listed? || ex.Cleared? || ex.Holding? || ex.Signed? || a.Stop?
    ensures OnlySigned(s, DoExec(paid, s, x, ex, a))
  {
    var later := DoExec(paid, s, x, ex, a);
    if a.Clear? {
      ClearSigned(paid, s, x, ex.job);
      MoveIsSigned(s, later, x);
    } else if a.TakeLease? {
      LeaseSigned(s, x, ex.job, a.lease, a.now);
    } else if a.Sign? {
      SignIsSigned(s, x, ex.job, ex.lease, EnvelopeOf(s, x, ex.job, a.from, a.until, a.fetched));
      MoveIsSigned(s, later, x);
    } else if a.Present? {
      PresentSigned(s, x, ex.job, ex.lease, ex.env);
      MoveIsSigned(s, later, x);
    } else {
      AskSigned(s, x, ex.job, 0, 0, 0);
      MoveIsSigned(s, later, x);
    }
  }

  lemma LateStepSigned(paid: map<string, int>, s: Sys, x: ExecId, ex: Exec, a: Action)
    requires SignedOk(s) && x in s.execs && s.execs[x] == ex && DoExec(paid, s, x, ex, a) != s
    requires !(ex.Listed? || ex.Cleared? || ex.Holding? || ex.Signed? || a.Stop?)
    ensures OnlySigned(s, DoExec(paid, s, x, ex, a))
  {
    var later := DoExec(paid, s, x, ex, a);
    if a.Submit? {
      SubmitSigned(s, x, ex.job, ex.lease, ex.env);
    } else if a.Send? {
      SendSigned(s, x, ex.job, ex.lease, ex.env, a.reply, a.code);
      MoveIsSigned(s, later, x);
    } else if a.Park? {
      ParkSigned(s, x, ex.job, ex.lease, ex.env);
    } else if a.Confirm? {
      ConfirmSigned(s, x, ex.job, ex.lease, ex.tx, a.ledger);
    } else if a.Requeue? {
      RequeueSigned(s, x, ex.job, ex.lease, ex.tx);
    } else {
      AskSigned(s, x, ex.job, ex.lease, if a.Condemn? then a.oldest else 0, if a.Condemn? then a.latestSeen else 0);
      MoveIsSigned(s, later, x);
    }
  }

  lemma StepKeepsSigned(paid: map<string, int>, s: Sys, a: Action)
    requires SignedOk(s)
    ensures SignedOk(Do(paid, s, a)) && s.signed <= Do(paid, s, a).signed
  {
    if a.Enqueue? || a.Unpark? || a.CloseLedger? || a.Begin? {
      OutsideStepSigned(paid, s, a);
    } else if a.x in s.execs {
      ExecStepSigned(paid, s, a.x, s.execs[a.x], a);
    } else {
      SameIsSigned(s);
    }
    OnlySignedKeepsOk(s, Do(paid, s, a));
  }

  lemma SameIsSigned(s: Sys)
    requires SignedOk(s)
    ensures OnlySigned(s, s)
  {
  }

  lemma {:induction false} RunKeepsSigned(paid: map<string, int>, s: Sys, acts: seq<Action>)
    requires SignedOk(s)
    ensures SignedOk(Run(paid, s, acts)) && s.signed <= Run(paid, s, acts).signed
  {
    if acts != [] {
      RunKeepsSigned(paid, s, acts[..|acts| - 1]);
      StepKeepsSigned(paid, Run(paid, s, acts[..|acts| - 1]), acts[|acts| - 1]);
    }
  }

  lemma InitIsSigned(s: Sys)
    requires Init(s)
    ensures SignedOk(s)
  {
  }
}
