/** What a run's sequence guard has to do with late writes. */
module RefundGuards {
  import opened Wrappers
  import opened RefundRecord
  import opened RefundProtocol
  import opened RefundSafety
  import opened RefundSteps
  import opened RefundSigned
  import opened RefundTheorems
  import opened RefundRuns
  import opened RefundLateWrites
  import Sequence = RefundSequence

  /** The run has seen a sequence taken that the chain has not come to. */
  predicate GuardAhead(s: Sys, run: RunId) {
    GuardOf(s, run).Some? && GuardOf(s, run).value > s.chain.sequence
  }

  /** A signature made by such a run. */
  predicate SignsAhead(s: Sys, a: Action) {
    a.Sign? && a.x in s.execs && s.execs[a.x].Holding? && GuardAhead(s, a.x.run)
  }

  ghost predicate NeverAhead(paid: map<string, int>, s: Sys, acts: seq<Action>) {
    acts == [] ||
    (&& NeverAhead(paid, s, acts[..|acts| - 1])
     && !SignsAhead(Run(paid, s, acts[..|acts| - 1]), acts[|acts| - 1]))
  }

  // ---- where an envelope in hand comes from --------------------------------------------

  predicate InHand(ex: Exec) { ex.Signed? || ex.Checked? }

  predicate HadInHand(s: Sys, x: ExecId, ex: Exec) {
    && x in s.execs && InHand(s.execs[x]) && InHand(ex)
    && s.execs[x].job == ex.job && s.execs[x].lease == ex.lease && s.execs[x].env == ex.env
  }

  /** Others are where they were, or new on the list. */
  predicate OnlyMoves(s: Sys, later: Sys, x: ExecId) {
    forall y :: y in later.execs && y != x ==> y in s.execs && later.execs[y] == s.execs[y]
  }

  lemma EarlyOnlyMoves(paid: map<string, int>, s: Sys, x: ExecId, ex: Exec, a: Action)
    requires x in s.execs && (a.Clear? || a.TakeLease? || a.Sign? || a.Present? || a.Submit?)
    ensures OnlyMoves(s, DoExec(paid, s, x, ex, a), x)
  {
    if a.Clear? && ex.Listed? { ClearMoves(paid, s, x, ex.job); }
  }

  lemma LateOnlyMoves(paid: map<string, int>, s: Sys, x: ExecId, ex: Exec, a: Action)
    requires x in s.execs && !a.Clear? && !a.TakeLease? && !a.Sign? && !a.Present? && !a.Submit?
    ensures OnlyMoves(s, DoExec(paid, s, x, ex, a), x)
  {
    if DoExec(paid, s, x, ex, a) != s {
      if a.Send? {
        SendHandsOver(s, x, ex.job, ex.lease, ex.env, a.reply, a.code);
      } else if a.Park? || a.Confirm? || a.Requeue? {
        WriterOnlyMoves(paid, s, x, ex, a);
      }
    }
  }

  lemma WriterOnlyMoves(paid: map<string, int>, s: Sys, x: ExecId, ex: Exec, a: Action)
    requires x in s.execs && (a.Park? || a.Confirm? || a.Requeue?)
    ensures OnlyMoves(s, DoExec(paid, s, x, ex, a), x)
  {
  }

  lemma OwnMove(paid: map<string, int>, s: Sys, x: ExecId, ex: Exec, a: Action)
    requires x in s.execs && s.execs[x] == ex && !a.Sign? && !a.Present?
    requires !a.Clear? && !a.Send?
    ensures var later := DoExec(paid, s, x, ex, a);
            x in later.execs && InHand(later.execs[x]) ==> later.execs[x] == ex
  {
  }

  lemma OwnPlainMove(paid: map<string, int>, s: Sys, x: ExecId, ex: Exec, a: Action)
    requires x in s.execs && s.execs[x] == ex && (a.Clear? || a.Send?)
    ensures var later := DoExec(paid, s, x, ex, a);
            x in later.execs && InHand(later.execs[x]) ==> later.execs[x] == ex
  {
    if a.Clear? && ex.Listed? { ClearMoves(paid, s, x, ex.job); }
  }

  lemma SignPresentMove(paid: map<string, int>, s: Sys, x: ExecId, ex: Exec, a: Action)
    requires x in s.execs && s.execs[x] == ex && (a.Sign? || a.Present?)
    requires a.Sign? ==> a.x == x && !SignsAhead(s, a)
    ensures var later := DoExec(paid, s, x, ex, a);
            x in later.execs && InHand(later.execs[x]) ==>
              HadInHand(s, x, later.execs[x])
              || (later.execs[x].Signed? && later.execs[x].env.sequence <= later.chain.sequence + 1)
  {
  }

  lemma StepInHand(paid: map<string, int>, s: Sys, a: Action, x: ExecId)
    requires !SignsAhead(s, a)
    ensures var later := Do(paid, s, a);
            x in later.execs && InHand(later.execs[x]) ==>
              HadInHand(s, x, later.execs[x])
              || (later.execs[x].Signed? && later.execs[x].env.sequence <= later.chain.sequence + 1)
  {
    if !a.Enqueue? && !a.Unpark? && !a.CloseLedger? && !a.Begin? && a.x in s.execs {
      var ex := s.execs[a.x];
      if a.x != x {
        if a.Clear? || a.TakeLease? || a.Sign? || a.Present? || a.Submit? {
          EarlyOnlyMoves(paid, s, a.x, ex, a);
        } else {
          LateOnlyMoves(paid, s, a.x, ex, a);
        }
      } else if a.Sign? || a.Present? {
        SignPresentMove(paid, s, x, ex, a);
      } else if a.Clear? || a.Send? {
        OwnPlainMove(paid, s, x, ex, a);
      } else {
        OwnMove(paid, s, x, ex, a);
      }
    }
  }

  /** The moment x signed what it has in hand. */
  ghost predicate SignedAtMoment(paid: map<string, int>, init: Sys, s: Sys, x: ExecId, ex: Exec, p: Sys) {
    && CanReach(paid, init, p) && CanReach(paid, p, s) && InHand(ex)
    && x in p.execs && p.execs[x] == Signed(ex.job, ex.lease, ex.env)
  }

  lemma {:induction false} SignedEarlier(paid: map<string, int>, init: Sys, acts: seq<Action>, x: ExecId)
    returns (p: Sys)
    requires HazardFree(paid, init, acts) && NeverAhead(paid, init, acts)
    requires init.execs == map[]
    requires var s := Run(paid, init, acts); x in s.execs && InHand(s.execs[x])
    ensures SignedAtMoment(paid, init, Run(paid, init, acts), x, Run(paid, init, acts).execs[x], p)
    ensures Run(paid, init, acts).execs[x].env.sequence <= p.chain.sequence + 1
  {
    if acts == [] {
      p := init;
    } else {
      var before, a := acts[..|acts| - 1], acts[|acts| - 1];
      var mid, s := Run(paid, init, before), Run(paid, init, acts);
      StepInHand(paid, mid, a, x);
      if HadInHand(mid, x, s.execs[x]) {
        p := SignedEarlier(paid, init, before, x);
        ReachStep(paid, p, mid, a, s);
      } else {
        p := s;
        ReachItself(paid, s);
        assert CanReach(paid, init, s);
      }
    }
  }

  /** In a run of the system in which nobody signs while its own guard is ahead of the
      chain, and no envelope is signed for two refunds, no late write is ever unsafe. */
  lemma LateWriteNeedsGuardAhead(paid: map<string, int>, init: Sys, acts: seq<Action>, s: Sys, x: ExecId)
    requires Reached(paid, init, acts, s) && Unshared(s) && NeverAhead(paid, init, acts)
    ensures !Hazard(s, Submit(x))
  {
    if Hazard(s, Submit(x)) {
      var ex := s.execs[x];
      var p := SignedEarlier(paid, init, acts, x);
      LateIsAheadAt(paid, init, s, x, ex, p);
      assert false;
    }
  }

  lemma LateIsAheadAt(paid: map<string, int>, init: Sys, s: Sys, x: ExecId, ex: Exec, p: Sys)
    requires Init(init) && SignedAtMoment(paid, init, s, x, ex, p)
    requires Unshared(s) && Hazard(s, Submit(x)) && s.execs[x] == ex
    ensures ex.env.sequence > p.chain.sequence + 1
  {
    var acts :| HazardFree(paid, init, acts) && Run(paid, init, acts) == p;
    assert Reached(paid, init, acts, p);
    ReachedKeepsInv(paid, init, acts, p);
    InitIsSigned(init);
    RunKeepsSigned(paid, init, acts);
    assert ComesLate(paid, p, x, ex.job, ex.lease, ex.env);
    LateOnlyIfAhead(paid, p, x, ex.job, ex.lease, ex.env);
  }

  // ---- where a guard that is ahead comes from -------------------------------------------------

  /** The job has been handed over, one way or another, or is over. */
  predicate Over(s: Sys, x: ExecId) {
    x in s.execs ==> s.execs[x].Sent? || s.execs[x].Refused? || s.execs[x].Proven?
  }

  /** What the run's guard recorded is the sequence of an envelope it handed over. */
  ghost predicate RecordedBy(s: Sys, run: RunId, r: RefundId, g: Envelope) {
    (r, g) in s.sent && GuardOf(s, run) == Some(g.sequence) && Over(s, ExecId(run, r))
  }

  ghost predicate GuardsOk(s: Sys) {
    && (forall x :: x in s.execs ==> x.run in s.runs && s.execs[x].job.refundId == x.refund)
    && (forall run :: GuardOf(s, run).Some? ==> exists r, g :: RecordedBy(s, run, r, g))
  }

  /** A step of x that leaves the guards alone: it keeps its job, and once over goes on to
      its proof at most. */
  predicate LeavesGuards(s: Sys, later: Sys, x: ExecId)
    requires x in s.execs
  {
    && OnlyMoves(s, later, x) && s.sent <= later.sent && later.runs == s.runs
    && (x in later.execs ==> later.execs[x].job.refundId == s.execs[x].job.refundId)
    && (x in later.execs && Over(s, x) ==> later.execs[x] == s.execs[x] || later.execs[x].Proven?)
  }

  lemma KeepsRecorded(s: Sys, later: Sys, run: RunId, r: RefundId, g: Envelope)
    requires RecordedBy(s, run, r, g) && s.sent <= later.sent && GuardOf(later, run) == GuardOf(s, run)
    requires var x := ExecId(run, r);
             (x in later.execs ==> x in s.execs && (later.execs[x] == s.execs[x] || later.execs[x].Proven?))
    ensures RecordedBy(later, run, r, g)
  {
  }

  lemma StepKeepsGuards(s: Sys, later: Sys, x: ExecId)
    requires GuardsOk(s) && x in s.execs && LeavesGuards(s, later, x)
    ensures GuardsOk(later)
  {
    forall run | GuardOf(later, run).Some?
      ensures exists r, g :: RecordedBy(later, run, r, g)
    {
      assert GuardOf(s, run) == GuardOf(later, run);
      var r, g :| RecordedBy(s, run, r, g);
      KeepsRecorded(s, later, run, r, g);
    }
  }

  lemma SendKeepsGuards(s: Sys, x: ExecId, job: Job, lease: LeaseId, e: Envelope,
                        reply: Sequence.SendStatus, code: SendError)
    requires GuardsOk(s) && x in s.execs && s.execs[x] == Accepted(job, lease, e)
    ensures GuardsOk(DoSend(s, x, job, lease, e, reply, code))
  {
    var later := DoSend(s, x, job, lease, e, reply, code);
    assert job.refundId == x.refund && x.run in s.runs;
    SendHandsOver(s, x, job, lease, e, reply, code);
    forall run | GuardOf(later, run).Some?
      ensures exists r, g :: RecordedBy(later, run, r, g)
    {
      if GuardOf(later, run) == GuardOf(s, run) {
        var r, g :| RecordedBy(s, run, r, g);
        KeepsRecorded(s, later, run, r, g);
      } else {
        assert RecordedBy(later, run, x.refund, e);
      }
    }
  }

  lemma BeginKeepsGuards(s: Sys, run: RunId)
    requires GuardsOk(s) && run !in s.runs
    ensures GuardsOk(Begun(s, run))
  {
    var later := Begun(s, run);
    forall q | GuardOf(later, q).Some?
      ensures exists r, g :: RecordedBy(later, q, r, g)
    {
      assert q != run && GuardOf(later, q) == GuardOf(s, q);
      var r, g :| RecordedBy(s, q, r, g);
      KeepsRecorded(s, later, q, r, g);
    }
  }

  lemma SameExecsKeepGuards(s: Sys, later: Sys)
    requires GuardsOk(s) && later.execs == s.execs && later.runs == s.runs && later.sent == s.sent
    ensures GuardsOk(later)
  {
    forall run | GuardOf(later, run).Some?
      ensures exists r, g :: RecordedBy(later, run, r, g)
    {
      assert GuardOf(s, run) == GuardOf(later, run);
      var r, g :| RecordedBy(s, run, r, g);
      KeepsRecorded(s, later, run, r, g);
    }
  }

  lemma EarlyLeavesGuards(paid: map<string, int>, s: Sys, x: ExecId, ex: Exec, a: Action)
    requires x in s.execs && s.execs[x] == ex && (a.Clear? || a.TakeLease? || a.Sign? || a.Present? || a.Submit?)
    ensures LeavesGuards(s, DoExec(paid, s, x, ex, a), x)
  {
    EarlyOnlyMoves(paid, s, x, ex, a);
    if a.Clear? && ex.Listed? { ClearMoves(paid, s, x, ex.job); }
  }

  lemma AskLeavesGuards(paid: map<string, int>, s: Sys, x: ExecId, ex: Exec, a: Action)
    requires x in s.execs && s.execs[x] == ex && (a.Prove? || a.Condemn? || a.Stop?)
    ensures LeavesGuards(s, DoExec(paid, s, x, ex, a), x)
  {
    LateOnlyMoves(paid, s, x, ex, a);
    if a.Condemn? && ex.Accepted? {
      CondemnLeavesRuns(s, x, ex.job, ex.lease, a.oldest, a.latestSeen);
    }
  }

  lemma CondemnLeavesRuns(s: Sys, x: ExecId, job: Job, lease: LeaseId, oldest: int, latestSeen: int)
    requires x in s.execs && s.execs[x].job == job
    ensures var later := DoCondemn(s, x, job, lease, oldest, latestSeen);
            later.sent == s.sent && later.runs == s.runs && (x in later.execs ==> later.execs[x].job == job)
  {
  }

  lemma WriteLeavesGuards(paid: map<string, int>, s: Sys, x: ExecId, ex: Exec, a: Action)
    requires x in s.execs && s.execs[x] == ex && (a.Park? || a.Confirm? || a.Requeue?)
    ensures LeavesGuards(s, DoExec(paid, s, x, ex, a), x)
  {
    WriterOnlyMoves(paid, s, x, ex, a);
  }

  lemma ExecKeepsGuards(paid: map<string, int>, s: Sys, x: ExecId, ex: Exec, a: Action)
    requires GuardsOk(s) && x in s.execs && s.execs[x] == ex
    requires !a.Enqueue? && !a.Unpark? && !a.CloseLedger? && !a.Begin? && a.x == x
    ensures GuardsOk(DoExec(paid, s, x, ex, a))
  {
    if a.Send? {
      if ex.Accepted? { SendKeepsGuards(s, x, ex.job, ex.lease, ex.env, a.reply, a.code); }
    } else {
      if a.Clear? || a.TakeLease? || a.Sign? || a.Present? || a.Submit? {
        EarlyLeavesGuards(paid, s, x, ex, a);
      } else if a.Prove? || a.Condemn? || a.Stop? {
        AskLeavesGuards(paid, s, x, ex, a);
      } else {
        WriteLeavesGuards(paid, s, x, ex, a);
      }
      StepKeepsGuards(s, DoExec(paid, s, x, ex, a), x);
    }
  }

  lemma AnyStepKeepsGuards(paid: map<string, int>, s: Sys, a: Action)
    requires GuardsOk(s)
    ensures GuardsOk(Do(paid, s, a))
  {
    if a.Begin? {
      if a.run !in s.runs { BeginKeepsGuards(s, a.run); }
    } else if a.Enqueue? || a.Unpark? || a.CloseLedger? {
      SameExecsKeepGuards(s, Do(paid, s, a));
    } else if a.x in s.execs {
      ExecKeepsGuards(paid, s, a.x, s.execs[a.x], a);
    }
  }

  lemma {:induction false} RunKeepsGuards(paid: map<string, int>, s: Sys, acts: seq<Action>)
    requires GuardsOk(s)
    ensures GuardsOk(Run(paid, s, acts))
  {
    if acts != [] {
      RunKeepsGuards(paid, s, acts[..|acts| - 1]);
      AnyStepKeepsGuards(paid, Run(paid, s, acts[..|acts| - 1]), acts[|acts| - 1]);
    }
  }

  /** When a run is ahead as it comes to sign for a refund, it has handed over an envelope
      for another refund before, which was taken and has not landed. */
  lemma AheadMeansAnotherIsOut(paid: map<string, int>, init: Sys, acts: seq<Action>, s: Sys, x: ExecId)
    returns (r: RefundId, g: Envelope)
    requires Reached(paid, init, acts, s) && x in s.execs && s.execs[x].Holding? && GuardAhead(s, x.run)
    ensures r != s.execs[x].job.refundId && (r, g) in s.sent
    ensures GuardOf(s, x.run) == Some(g.sequence) && g !in s.chain.included
  {
    ReachedKeepsInv(paid, init, acts, s);
    assert GuardsOk(init);
    RunKeepsGuards(paid, init, acts);
    r, g :| RecordedBy(s, x.run, r, g);
    assert r != x.refund;
  }

  // ---- one refund alone ---------------------------------------------------------------------

  /** Envelopes are signed for refunds there are. */
  ghost predicate SignedKnown(s: Sys) { forall q :: q in s.signed ==> q.0 in s.records }

  predicate OnlyGrows(s: Sys, later: Sys, r: RefundId) {
    && (forall q :: q in s.records ==> q in later.records)
    && (forall q :: q in later.signed && q !in s.signed ==> q.0 == r)
  }

  lemma EarlyOnlyGrows(paid: map<string, int>, s: Sys, x: ExecId, ex: Exec, a: Action)
    requires a.Clear? || a.TakeLease? || a.Sign? || a.Present? || a.Submit?
    ensures OnlyGrows(s, DoExec(paid, s, x, ex, a), ex.job.refundId)
  {
    if a.Clear? && ex.Listed? { ClearMoves(paid, s, x, ex.job); }
  }

  lemma LateOnlyGrows(paid: map<string, int>, s: Sys, x: ExecId, ex: Exec, a: Action)
    requires !a.Clear? && !a.TakeLease? && !a.Sign? && !a.Present? && !a.Submit?
    ensures OnlyGrows(s, DoExec(paid, s, x, ex, a), ex.job.refundId)
  {
    if a.Send? && ex.Accepted? { SendHandsOver(s, x, ex.job, ex.lease, ex.env, a.reply, a.code); }
  }

  lemma ExecOnlyGrows(paid: map<string, int>, s: Sys, x: ExecId, ex: Exec, a: Action)
    ensures OnlyGrows(s, DoExec(paid, s, x, ex, a), ex.job.refundId)
  {
    if a.Clear? || a.TakeLease? || a.Sign? || a.Present? || a.Submit? {
      EarlyOnlyGrows(paid, s, x, ex, a);
    } else {
      LateOnlyGrows(paid, s, x, ex, a);
    }
  }

  lemma OutsideSignsNothing(paid: map<string, int>, s: Sys, a: Action)
    requires a.Enqueue? || a.Unpark? || a.CloseLedger? || a.Begin?
    ensures Do(paid, s, a).signed == s.signed && s.records.Keys <= Do(paid, s, a).records.Keys
  {
  }

  lemma RecordsStay(paid: map<string, int>, s: Sys, a: Action)
    ensures s.records.Keys <= Do(paid, s, a).records.Keys
  {
    if a.Enqueue? || a.Unpark? || a.CloseLedger? || a.Begin? {
      OutsideSignsNothing(paid, s, a);
    } else if a.x in s.execs {
      ExecOnlyGrows(paid, s, a.x, s.execs[a.x], a);
    }
  }

  lemma StepKeepsKnown(paid: map<string, int>, s: Sys, a: Action)
    requires Inv(paid, s) && SignedKnown(s)
    ensures SignedKnown(Do(paid, s, a)) && s.records.Keys <= Do(paid, s, a).records.Keys
  {
    if a.Enqueue? || a.Unpark? || a.CloseLedger? || a.Begin? {
      OutsideSignsNothing(paid, s, a);
    } else if a.x in s.execs {
      ExecFacts(paid, s, a.x);
      ExecOnlyGrows(paid, s, a.x, s.execs[a.x], a);
    }
  }

  lemma {:induction false} OneRefundIsNeverAhead(paid: map<string, int>, init: Sys, acts: seq<Action>, r: RefundId)
    requires Init(init) && HazardFree(paid, init, acts) && Run(paid, init, acts).records.Keys <= {r}
    ensures NeverAhead(paid, init, acts) && SignedKnown(Run(paid, init, acts))
    ensures init.records.Keys <= Run(paid, init, acts).records.Keys
  {
    if acts != [] {
      var before, a := acts[..|acts| - 1], acts[|acts| - 1];
      var s := Run(paid, init, before);
      assert Reached(paid, init, before, s);
      ReachedKeepsInv(paid, init, before, s);
      RecordsStay(paid, s, a);
      OneRefundIsNeverAhead(paid, init, before, r);
      StepKeepsKnown(paid, s, a);
      AloneIsNotAhead(paid, init, before, s, a, r);
    }
  }

  lemma SentIsKnown(paid: map<string, int>, s: Sys, q: RefundId, g: Envelope)
    requires Inv(paid, s) && (q, g) in s.sent
    ensures q in s.records
  {
    assert SentOk(s, q, g);
  }

  lemma AloneIsNotAhead(paid: map<string, int>, init: Sys, acts: seq<Action>, s: Sys, a: Action, r: RefundId)
    requires Reached(paid, init, acts, s) && Inv(paid, s) && s.records.Keys <= {r}
    ensures !SignsAhead(s, a)
  {
    if SignsAhead(s, a) {
      ExecFacts(paid, s, a.x);
      var q, g := AheadMeansAnotherIsOut(paid, init, acts, s, a.x);
      SentIsKnown(paid, s, q, g);
      assert false;
    }
  }

  /** So a store that holds one refund never comes to an unsafe late write. */
  lemma OneRefundNeverComesLate(paid: map<string, int>, init: Sys, acts: seq<Action>, s: Sys, r: RefundId, x: ExecId)
    requires Reached(paid, init, acts, s) && s.records.Keys <= {r}
    ensures !Hazard(s, Submit(x))
  {
    OneRefundIsNeverAhead(paid, init, acts, r);
    forall p, q | p in s.signed && q in s.signed
      ensures p.0 == q.0
    {
      assert p.0 in {r} && q.0 in {r};
    }
    LateWriteNeedsGuardAhead(paid, init, acts, s, x);
  }
}
