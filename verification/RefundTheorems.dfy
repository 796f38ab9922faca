/** What the refund protocol guarantees over whole runs, and exactly when. */
module RefundTheorems {
  import opened RefundRecord
  import opened RefundChain
  import opened RefundProtocol
  import opened RefundRuns
  import opened RefundSafety
  import opened RefundSteps

  lemma {:induction false} HazardFreeRunsKeepInv(paid: map<string, int>, s: Sys, acts: seq<Action>)
    requires Inv(paid, s) && HazardFree(paid, s, acts)
    ensures Inv(paid, Run(paid, s, acts))
  {
    if acts != [] {
      HazardFreeRunsKeepInv(paid, s, acts[..|acts| - 1]);
      StepKeepsInv(paid, Run(paid, s, acts[..|acts| - 1]), acts[|acts| - 1]);
    }
  }

  /** `s` is reached from a store of fresh records without stepping on a hazard. */
  ghost predicate Reached(paid: map<string, int>, init: Sys, acts: seq<Action>, s: Sys) {
    Init(init) && HazardFree(paid, init, acts) && s == Run(paid, init, acts)
  }

  lemma ReachedKeepsInv(paid: map<string, int>, init: Sys, acts: seq<Action>, s: Sys)
    requires Reached(paid, init, acts, s)
    ensures Inv(paid, s)
  {
    assert Inv(paid, init) by {
      assert forall r :: r in init.records ==> RecordOk(paid, init, r);
    }
    HazardFreeRunsKeepInv(paid, init, acts);
  }

  lemma InvMeansAtMostOnePayout(paid: map<string, int>, s: Sys)
    requires Inv(paid, s)
    ensures AtMostOnePayout(s)
  {
    forall l, m | l in s.accepted && m in s.accepted && s.accepted[l].0 == s.accepted[m].0
                  && Succeeded(s.chain, s.accepted[l].1) && Succeeded(s.chain, s.accepted[m].1)
      ensures s.accepted[l].1 == s.accepted[m].1
    {
      assert SentOk(s, s.accepted[l].0, s.accepted[l].1) && SentOk(s, s.accepted[m].0, s.accepted[m].1);
    }
  }

  /** Whatever the executors do, however often they crash, lose leases, requeue or
      race each other, and whatever the clocks say: a refund is paid at most once. */
  lemma RefundPaidAtMostOnce(paid: map<string, int>, init: Sys, acts: seq<Action>, s: Sys)
    requires Reached(paid, init, acts, s)
    ensures AtMostOnePayout(s)
  {
    ReachedKeepsInv(paid, init, acts, s);
    InvMeansAtMostOnePayout(paid, s);
  }

  /** A record says confirmed only when the envelope it names has succeeded on chain, paying
      the original payer the recorded amount, which is covered by the original payment
      and below the ceiling that holds a refund for review; and a record holds no
      envelope before it is submitted, and lease, hash and envelope together from
      then on. */
  lemma RecordsTellTheTruth(paid: map<string, int>, init: Sys, acts: seq<Action>, s: Sys, r: RefundId)
    requires Reached(paid, init, acts, s) && r in s.records
    ensures var rec := s.records[r];
            && (rec.state == Pending ==> Fresh(rec))
            && (rec.state == Leased ==> rec.lease.Some? && rec.refundTx.None? && rec.signedXdr.None?)
            && (rec.state in {Submitted, RefundState.Confirmed, ManualReview} ==>
                  Complete(rec) && Pays(rec, rec.signedXdr.value) && Payable(paid, Job(r, rec)))
            && (rec.state == RefundState.Confirmed ==> Succeeded(s.chain, rec.signedXdr.value))
  {
    ReachedKeepsInv(paid, init, acts, s);
    assert RecordOk(paid, s, r);
  }

  // ---- the two hazards are exactly the unsafe steps ---------------------------------

  /** From s on, as long as no further hazard is met, refunds are paid at most once. */
  ghost predicate SafeFrom(paid: map<string, int>, s: Sys) {
    forall later :: CanReach(paid, s, later) ==> AtMostOnePayout(later)
  }

  // ---- steps that are always open ----------------------------------------------------

  /** Nothing accepted or paid is taken back. */
  ghost predicate Follows(s: Sys, later: Sys) {
    && (forall l :: l in s.accepted ==> l in later.accepted && later.accepted[l] == s.accepted[l])
    && (forall e :: Succeeded(s.chain, e) ==> Succeeded(later.chain, e))
  }

  /** An envelope that was broadcast and is not dead can still pay. */
  lemma PaySent(paid: map<string, int>, s: Sys, mid: Sys, r: RefundId, e: Envelope) returns (later: Sys)
    requires CanReach(paid, s, mid) && (r, e) in mid.sent && !Dead(mid.chain, e) && ChainOk(mid.chain)
    ensures CanReach(paid, s, later) && Follows(mid, later) && Succeeded(later.chain, e)
    ensures later == mid.(chain := later.chain) && ChainOk(later.chain)
  {
    if e in mid.chain.included {
      later := mid;
    } else {
      var t := LedgerFor(mid.chain, e, true);
      later := ReachPaid(paid, s, mid, r, e, t);
      CloseKeepsChainOk(mid.chain, t, e.sequence, map[e := true]);
    }
  }

  lemma PayAccepted(paid: map<string, int>, s: Sys, mid: Sys, x: ExecId, job: Job, lease: LeaseId, e: Envelope)
    returns (later: Sys)
    requires CanReach(paid, s, mid) && ChainOk(mid.chain) && !Dead(mid.chain, e)
    requires x in mid.execs && mid.execs[x] == Accepted(job, lease, e)
    ensures CanReach(paid, s, later) && Follows(mid, later) && Succeeded(later.chain, e)
  {
    var sent := ReachSent(paid, s, mid, x, job, lease, e);
    later := PaySent(paid, s, sent, job.refundId, e);
  }

  lemma PayAgain(paid: map<string, int>, s: Sys, mid: Sys, r: RefundId)
    returns (later: Sys, lease: LeaseId, e: Envelope)
    requires CanReach(paid, s, mid) && CanExecute(paid, mid, r, 0) && forall l :: l in mid.accepted ==> l in mid.leases
    ensures CanReach(paid, s, later) && Follows(mid, later)
    ensures lease in later.accepted && later.accepted[lease] == (r, e)
    ensures Succeeded(later.chain, e) && e !in mid.chain.included
  {
    var accepted, x;
    accepted, x, lease, e := ReachAccepted(paid, s, mid, r, 0);
    later := PayAccepted(paid, s, accepted, x, Job(r, mid.records[r]), lease, e);
  }

  // ---- the hazards lose the guarantee --------------------------------------------------

  lemma UnparkFacts(paid: map<string, int>, s: Sys, r: RefundId)
    requires Inv(paid, s) && Hazard(s, Unpark(r))
    ensures var e := s.records[r].signedXdr.value;
            var s0 := DoUnpark(s, r);
            && s.records[r].lease.Some?
            && s.records[r].lease.value.id in s0.accepted && s0.accepted[s.records[r].lease.value.id] == (r, e)
            && (r, e) in s0.sent && !Dead(s0.chain, e) && CanExecute(paid, s0, r, 0)
            && (forall m :: m in s0.accepted ==> m in s0.leases)
  {
  }

  lemma PaysTwice(paid: map<string, int>, s: Sys, r: RefundId, l: LeaseId, e: Envelope)
    requires l in s.accepted && s.accepted[l] == (r, e) && (r, e) in s.sent && !Dead(s.chain, e)
    requires CanExecute(paid, s, r, 0) && forall m :: m in s.accepted ==> m in s.leases
    ensures !SafeFrom(paid, s)
  {
    ReachItself(paid, s);
    var once := PaySent(paid, s, s, r, e);
    var twice, lease, f := PayAgain(paid, s, once, r);
    assert twice.accepted[l] == (r, e) && twice.accepted[lease] == (r, f) && e != f;
    assert !AtMostOnePayout(twice);
  }

  lemma UnparkOfLiveEnvelopeIsUnsafe(paid: map<string, int>, s: Sys, r: RefundId)
    requires Inv(paid, s) && Hazard(s, Unpark(r))
    ensures !SafeFrom(paid, DoUnpark(s, r))
  {
    UnparkFacts(paid, s, r);
    PaysTwice(paid, DoUnpark(s, r), r, s.records[r].lease.value.id, s.records[r].signedXdr.value);
  }

  lemma LateSubmitFacts(paid: map<string, int>, s: Sys, x: ExecId)
    requires Inv(paid, s) && Hazard(s, Submit(x))
    ensures var (job, lease, e) := (s.execs[x].job, s.execs[x].lease, s.execs[x].env);
            var rec := s.records[job.refundId];
            var s0 := DoSubmit(s, x, job, lease, e);
            && rec.lease.Some? && rec.signedXdr.Some? && Succeeded(s0.chain, rec.signedXdr.value)
            && rec.lease.value.id in s0.accepted
            && s0.accepted[rec.lease.value.id] == (job.refundId, rec.signedXdr.value)
            && lease in s0.accepted && s0.accepted[lease] == (job.refundId, e)
            && x in s0.execs && s0.execs[x] == Accepted(job, lease, e)
            && !Dead(s0.chain, e) && ChainOk(s0.chain)
  {
    assert ExecOk(paid, s, s.execs[x]) && RecordOk(paid, s, s.execs[x].job.refundId);
  }

  lemma LateSubmitOfLiveEnvelopeIsUnsafe(paid: map<string, int>, s: Sys, x: ExecId)
    requires Inv(paid, s) && Hazard(s, Submit(x))
    ensures !SafeFrom(paid, Do(paid, s, Submit(x)))
  {
    LateSubmitFacts(paid, s, x);
    var job, lease, e := s.execs[x].job, s.execs[x].lease, s.execs[x].env;
    var rec := s.records[job.refundId];
    var s0 := DoSubmit(s, x, job, lease, e);
    ReachItself(paid, s0);
    var later := PayAccepted(paid, s0, s0, x, job, lease, e);
    assert later.accepted[rec.lease.value.id].1 != later.accepted[lease].1;
    assert !AtMostOnePayout(later);
  }

  /** The guarantee survives a step exactly when the step is not one of the two
      hazards. In particular an unpark is safe exactly when the parked envelope is
      dead, which the operator can ask the chain before making it. */
  lemma StepIsSafeExactlyWithoutHazard(paid: map<string, int>, init: Sys, acts: seq<Action>, s: Sys, a: Action)
    requires Reached(paid, init, acts, s)
    ensures SafeFrom(paid, Do(paid, s, a)) <==> !Hazard(s, a)
  {
    ReachedKeepsInv(paid, init, acts, s);
    if Hazard(s, a) {
      match a
      case Unpark(r) => UnparkOfLiveEnvelopeIsUnsafe(paid, s, r);
      case Submit(x) => LateSubmitOfLiveEnvelopeIsUnsafe(paid, s, x);
    } else {
      StepKeepsInv(paid, s, a);
      forall later | CanReach(paid, Do(paid, s, a), later)
        ensures AtMostOnePayout(later)
      {
        var more :| HazardFree(paid, Do(paid, s, a), more) && Run(paid, Do(paid, s, a), more) == later;
        HazardFreeRunsKeepInv(paid, Do(paid, s, a), more);
        InvMeansAtMostOnePayout(paid, later);
      }
    }
  }
}
