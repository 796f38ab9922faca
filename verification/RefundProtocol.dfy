/** The refund protocol as one transition system: any number of executors, the
    router's records, the reservation table and the chain, each action one atomic
    step. An executor is one job of one run of the signer; a run lists its jobs at
    once and then works on one at a time, with one sequence guard for all of them. A
    job given up is a `Stop`, and so is a request whose response is lost; a crash is a
    run that takes no further step. Clocks appear only as numbers in the actions. */
module RefundProtocol {
  import opened Wrappers
  import opened RefundRecord
  import opened RefundChain
  import opened RefundCoordinator
  import Sequence = RefundSequence

  type RunId = nat

  datatype ExecId = ExecId(run: RunId, refund: RefundId)

  /** What an executor works on: the record as listed to it. */
  datatype Job = Job(refundId: RefundId, record: RefundRecord)

  datatype Exec =
    | Listed(job: Job)
    | Cleared(job: Job)                                  // checked against the chain and reserved
    | Holding(job: Job, lease: LeaseId)
    | Signed(job: Job, lease: LeaseId, env: Envelope)
    | Checked(job: Job, lease: LeaseId, env: Envelope)   // /complete found the lease on the record, not yet written
    | Accepted(job: Job, lease: LeaseId, env: Envelope)  // told that the record is updated: it may broadcast
    | Sent(job: Job, lease: LeaseId, env: Envelope)
    | Refused(job: Job, lease: LeaseId, env: Envelope)   // for a reason that does not heal: to be parked
    | Proven(job: Job, lease: LeaseId, tx: TxHash)       // /confirm found it on chain, not yet written
    | Condemned(job: Job, lease: LeaseId, tx: TxHash)    // /requeue found it dead, not yet written

  datatype Sys = Sys(
    records: map<RefundId, RefundRecord>,
    rows: seq<Row>,
    runs: map<RunId, Option<int>>,                  // each run's guard: the last sequence taken from it
    execs: map<ExecId, Exec>,
    leases: map<LeaseId, RefundId>,                 // every lease id ever drawn, and what for
    accepted: map<LeaseId, (RefundId, Envelope)>,   // the envelope accepted under a lease
    signed: set<(RefundId, Envelope)>,              // everything ever signed
    sent: set<(RefundId, Envelope)>,                // everything ever handed to a node
    chain: Chain)

  datatype SendError = TxBadSeq | TxTooLate | TxInsufficientFee | OtherError

  /** Left to the recovery of expired envelopes; any other refusal parks the refund. */
  predicate IsRetryable(code: SendError) { !code.OtherError? }

  datatype Action =
    | Enqueue(refundId: RefundId, proof: PaymentProof)
    | Begin(run: RunId)
    | Clear(x: ExecId)
    | TakeLease(x: ExecId, lease: LeaseId, now: int)
    | Sign(x: ExecId, from: int, until: int, fetched: int)
    | Present(x: ExecId)
    | Submit(x: ExecId)
    | Send(x: ExecId, reply: Sequence.SendStatus, code: SendError)
    | Park(x: ExecId)
    | Prove(x: ExecId)
    | Confirm(x: ExecId, ledger: int)
    | Condemn(x: ExecId, oldest: int, latestSeen: int)
    | Requeue(x: ExecId)
    | Stop(x: ExecId)
    | Unpark(refundId: RefundId)
    | CloseLedger(t: int, sequence: int, batch: map<Envelope, bool>)

  const HARD_AUTO_REFUND_MAX := 1_000_000_000
  const REFUND_TX_MIN_TIME_GRACE_SECONDS := 60
  const REFUND_TX_VALIDITY_SECONDS := 600

  ghost predicate Init(s: Sys) {
    && (forall r :: r in s.records ==> Fresh(s.records[r]))
    && s.rows == [] && s.runs == map[] && s.execs == map[] && s.leases == map[]
    && s.accepted == map[] && s.signed == {} && s.sent == {}
    && s.chain.included == map[] && s.chain.latest >= 0
  }

  predicate Fresh(rec: RefundRecord) {
    rec.state == Pending && rec.lease.None? && rec.refundTx.None? && rec.signedXdr.None?
  }

  function Current(s: Sys, r: RefundId): Option<RefundRecord> {
    if r in s.records then Some(s.records[r]) else None
  }

  function At(s: Sys, x: ExecId, ex: Exec): Sys {
    s.(execs := s.execs[x := ex])
  }

  function Stopped(s: Sys, x: ExecId): Sys {
    s.(execs := s.execs - {x})
  }

  function Store(s: Sys, r: RefundId, rec: RefundRecord): Sys {
    s.(records := s.records[r := rec])
  }

  /** The checks made before any money is committed to a job: positive amount, a
      payment the chain confirms for exactly the stated amount, below the ceiling
      that holds a refund for review, and a reservation. */
  predicate Payable(paid: map<string, int>, job: Job) {
    && job.record.refundAmount > 0
    && job.record.payment.paymentTx in paid
    && paid[job.record.payment.paymentTx] == job.record.payment.amountAtomic > 0
    && job.record.refundAmount <= job.record.payment.amountAtomic
    && job.record.refundAmount < HARD_AUTO_REFUND_MAX
  }

  predicate Complete(rec: RefundRecord) {
    rec.lease.Some? && rec.refundTx.Some? && rec.signedXdr.Some? && rec.refundTx == Some(HashOf(rec.signedXdr.value))
  }

  function DoClear(paid: map<string, int>, s: Sys, x: ExecId, job: Job): Sys {
    if !Payable(paid, job) then Stopped(s, x)
    else
      var (rows, res) := ReserveRows(s.rows, job.refundId, job.record.payment.paymentTx, job.record.refundAmount,
                                     paid[job.record.payment.paymentTx]);
      var s' := s.(rows := rows);
      if res != Reserved && res != AlreadyReserved then Stopped(s', x)
      else if job.record.state != Submitted then At(s', x, Cleared(job))
      else if Complete(job.record) && job.record.signedXdr.value.payee == job.record.payment.payer
              && job.record.signedXdr.value.amount == job.record.refundAmount
      then At(s', x, Accepted(job, job.record.lease.value.id, job.record.signedXdr.value))
      else Stopped(s', x)
  }

  // ---- a run ---------------------------------------------------------------------

  predicate IsListed(rec: RefundRecord) { rec.state in {Pending, Leased, Submitted} }

  function Listing(s: Sys, run: RunId): map<ExecId, Exec> {
    map r | r in s.records && IsListed(s.records[r]) :: ExecId(run, r) := Listed(Job(r, s.records[r]))
  }

  /** A run begins with an empty guard, and every open refund on its list. */
  function Begun(s: Sys, run: RunId): Sys {
    s.(runs := s.runs[run := None], execs := s.execs + Listing(s, run))
  }

  /** The run is at work on another job. */
  predicate Busy(s: Sys, x: ExecId) {
    exists y :: y in s.execs && y != x && y.run == x.run && !s.execs[y].Listed?
  }

  function GuardOf(s: Sys, run: RunId): Option<int> {
    if run in s.runs then s.runs[run] else None
  }

  // ---- a job -----------------------------------------------------------------------

  function DoTakeLease(s: Sys, x: ExecId, job: Job, lease: LeaseId, now: int): Sys {
    var change := LeaseChange(Current(s, job.refundId), lease, now);
    if change.Set? then
      At(Store(s, job.refundId, change.value).(leases := s.leases[lease := job.refundId]), x, Holding(job, lease))
    else Stopped(s, x)
  }

  /** The envelope signed for a job: bounds around the two clock readings, and the
      sequence after the one the run builds on. */
  function EnvelopeOf(s: Sys, x: ExecId, job: Job, from: int, until: int, fetched: int): Envelope {
    Envelope(job.record.payment.payer, job.record.refundAmount,
             from - REFUND_TX_MIN_TIME_GRACE_SECONDS, until + REFUND_TX_VALIDITY_SECONDS,
             Sequence.Advanced(GuardOf(s, x.run), fetched) + 1)
  }

  /** The clock is past the grace after its epoch, and does not run backwards; an account
      read is never ahead of the chain. */
  predicate CanSign(s: Sys, from: int, until: int, fetched: int) {
    REFUND_TX_MIN_TIME_GRACE_SECONDS < from <= until && fetched <= s.chain.sequence
  }

  function DoSign(s: Sys, x: ExecId, job: Job, lease: LeaseId, env: Envelope): Sys {
    At(s, x, Signed(job, lease, env)).(signed := s.signed + {(job.refundId, env)})
  }

  /** The first half of /complete: the record must carry the caller's lease. */
  function DoPresent(s: Sys, x: ExecId, job: Job, lease: LeaseId, env: Envelope): Sys {
    var current := Current(s, job.refundId);
    if current.Some? && HasLease(current.value, lease) then At(s, x, Checked(job, lease, env)) else Stopped(s, x)
  }

  /** The second half. The executor goes on to broadcast whenever a record comes
      back, which for a record confirmed in the meantime it does, unchanged. */
  function DoSubmit(s: Sys, x: ExecId, job: Job, lease: LeaseId, env: Envelope): Sys {
    var change := CompleteChange(Current(s, job.refundId), lease, Completion(Submitted, HashOf(env), Some(env), None));
    if change.Delete? || change.result.None? then Stopped(s, x)
    else
      At(Store(s, job.refundId, change.result.value).(accepted := s.accepted[lease := (job.refundId, env)]),
         x, Accepted(job, lease, env))
  }

  /** Whatever the node answers, the envelope may be on the network. */
  function DoSend(s: Sys, x: ExecId, job: Job, lease: LeaseId, env: Envelope,
                  reply: Sequence.SendStatus, code: SendError): Sys {
    var s' := s.(sent := s.sent + {(job.refundId, env)});
    if reply.Error? then (if IsRetryable(code) then Stopped(s', x) else At(s', x, Refused(job, lease, env)))
    else if Sequence.ConsumesSequence(reply) then
      At(s', x, Sent(job, lease, env))
        .(runs := s.runs[x.run := Sequence.Recorded(GuardOf(s, x.run), env.sequence)])
    else At(s', x, Sent(job, lease, env))
  }

  function DoPark(s: Sys, x: ExecId, job: Job, lease: LeaseId, env: Envelope): Sys {
    var change := CompleteChange(Current(s, job.refundId), lease, Completion(ManualReview, HashOf(env), None, None));
    Stopped(if change.Set? then Store(s, job.refundId, change.value) else s, x)
  }

  /** The first half of /confirm: read the record, and find its envelope on chain. */
  function DoProve(s: Sys, x: ExecId, job: Job, lease: LeaseId): Sys {
    var current := Current(s, job.refundId);
    if current.Some? && HasLease(current.value, lease) && current.value.signedXdr.Some? && current.value.refundTx.Some?
       && Succeeded(s.chain, current.value.signedXdr.value)
    then At(s, x, Proven(job, lease, HashOf(current.value.signedXdr.value)))
    else Stopped(s, x)
  }

  function DoConfirm(s: Sys, x: ExecId, job: Job, lease: LeaseId, tx: TxHash, ledger: int): Sys {
    var done := Completion(RefundState.Confirmed, tx, None, Some(ledger));
    var change := CompleteChange(Current(s, job.refundId), lease, done);
    Stopped(if change.Set? then Store(s, job.refundId, change.value) else s, x)
  }

  /** The first half of /requeue-malformed: read the record, ask the RPC, and
      refuse unless its answer proves the stored envelope dead. */
  function DoCondemn(s: Sys, x: ExecId, job: Job, lease: LeaseId, oldest: int, latestSeen: int): Sys {
    var current := Current(s, job.refundId);
    if current.Some? && current.value.state == Submitted && HasLease(current.value, lease)
       && current.value.signedXdr.Some? && current.value.refundTx == Some(HashOf(current.value.signedXdr.value))
       && TruthfulNotFound(s.chain, current.value.signedXdr.value, oldest, latestSeen)
       && IsProvablyDeadEnvelope(current.value.signedXdr.value, latestSeen, oldest)
    then At(s, x, Condemned(job, lease, current.value.refundTx.value))
    else Stopped(s, x)
  }

  function DoRequeue(s: Sys, x: ExecId, job: Job, lease: LeaseId, tx: TxHash): Sys {
    var change := RequeueChange(Current(s, job.refundId), lease, tx);
    if change.Set? then At(Store(s, job.refundId, change.value), x, Cleared(Job(job.refundId, Stripped(job.record))))
    else Stopped(s, x)
  }

  /** The operator's unpark: no look at the chain. */
  function DoUnpark(s: Sys, r: RefundId): Sys {
    var change := UnparkChange(Current(s, r));
    if change.Set? then Store(s, r, change.value) else s
  }

  function SentEnvelopes(s: Sys): set<Envelope> {
    set p | p in s.sent :: p.1
  }

  /** One action. `paid` says what the chain confirms for each original payment.
      An action that is not possible changes nothing. */
  function Do(paid: map<string, int>, s: Sys, a: Action): Sys {
    match a
    case Enqueue(r, proof) =>
      var change := EnqueueChange(Current(s, r), proof);
      if proof.amountAtomic > 0 && change.Set? then Store(s, r, change.value) else s
    case Unpark(r) => DoUnpark(s, r)
    case CloseLedger(t, sequence, batch) =>
      if batch.Keys <= SentEnvelopes(s) && CanClose(s.chain, t, sequence, batch)
      then s.(chain := Close(s.chain, t, sequence, batch)) else s
    case Begin(run) => if run !in s.runs then Begun(s, run) else s
    case _ =>
      if a.x in s.execs then DoExec(paid, s, a.x, s.execs[a.x], a) else s
  }

  /** A step of one executor; one it is not ready for changes nothing. */
  function DoExec(paid: map<string, int>, s: Sys, x: ExecId, ex: Exec, a: Action): Sys {
    match a
    case Clear(_) => if ex.Listed? && !Busy(s, x) then DoClear(paid, s, x, ex.job) else s
    case TakeLease(_, lease, now) =>
      if ex.Cleared? && lease !in s.leases then DoTakeLease(s, x, ex.job, lease, now) else s
    case Sign(_, from, until, fetched) =>
      if ex.Holding? && CanSign(s, from, until, fetched)
      then DoSign(s, x, ex.job, ex.lease, EnvelopeOf(s, x, ex.job, from, until, fetched)) else s
    case Present(_) => if ex.Signed? then DoPresent(s, x, ex.job, ex.lease, ex.env) else s
    case Submit(_) => if ex.Checked? then DoSubmit(s, x, ex.job, ex.lease, ex.env) else s
    case Send(_, reply, code) => if ex.Accepted? then DoSend(s, x, ex.job, ex.lease, ex.env, reply, code) else s
    case Park(_) => if ex.Refused? then DoPark(s, x, ex.job, ex.lease, ex.env) else s
    case Prove(_) => if ex.Accepted? || ex.Sent? then DoProve(s, x, ex.job, ex.lease) else s
    case Confirm(_, ledger) => if ex.Proven? then DoConfirm(s, x, ex.job, ex.lease, ex.tx, ledger) else s
    case Condemn(_, oldest, latestSeen) =>
      if ex.Accepted? then DoCondemn(s, x, ex.job, ex.lease, oldest, latestSeen) else s
    case Requeue(_) => if ex.Condemned? then DoRequeue(s, x, ex.job, ex.lease, ex.tx) else s
    case Stop(_) => Stopped(s, x)
    case _ => s
  }

  function Run(paid: map<string, int>, s: Sys, acts: seq<Action>): Sys {
    if acts == [] then s else Do(paid, Run(paid, s, acts[..|acts| - 1]), acts[|acts| - 1])
  }

  // ---- what is claimed ---------------------------------------------------------

  /** Of the envelopes ever accepted for a refund, the only ones its executors may
      broadcast, at most one has paid. */
  ghost predicate AtMostOnePayout(s: Sys) {
    forall l, m :: l in s.accepted && m in s.accepted && s.accepted[l].0 == s.accepted[m].0
                   && Succeeded(s.chain, s.accepted[l].1) && Succeeded(s.chain, s.accepted[m].1)
                   ==> s.accepted[l].1 == s.accepted[m].1
  }

  /** The two steps the records alone do not make safe: an unpark that forgets an
      envelope that has paid or can still, and a late /complete write
      that finds the refund already confirmed by another envelope while its own
      can still be paid. */
  predicate Hazard(s: Sys, a: Action) {
    match a
    case Unpark(r) =>
      && r in s.records && s.records[r].state == ManualReview && s.records[r].signedXdr.Some?
      && !Dead(s.chain, s.records[r].signedXdr.value)
    case Submit(x) =>
      && x in s.execs && s.execs[x].Checked? && s.execs[x].job.refundId in s.records
      && s.records[s.execs[x].job.refundId].state == RefundState.Confirmed
      && s.records[s.execs[x].job.refundId].signedXdr != Some(s.execs[x].env)
      && !Dead(s.chain, s.execs[x].env)
    case _ => false
  }

  ghost predicate HazardFree(paid: map<string, int>, s: Sys, acts: seq<Action>) {
    acts == [] ||
    (HazardFree(paid, s, acts[..|acts| - 1]) && !Hazard(Run(paid, s, acts[..|acts| - 1]), acts[|acts| - 1]))
  }
}
