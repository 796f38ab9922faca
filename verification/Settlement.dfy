/** One bounded settlement: an attempt running in the background, one possible retry,
    a deadline that abandons it, and the network it sends to. Each action is one
    uninterrupted stretch of code, or one step of the chain. The attempts are the
    work of a library; all that is taken from it is that it signs through the traced
    signer, sends and polls what it signed, and succeeds only on a poll that says so. */
module Settlement {
  import opened Wrappers

  /** A signed envelope, and the nonce of the payer's authorisation inside it; its hash,
      taken to be injective, is not told apart from it. */
  datatype Envelope = Envelope(id: nat, nonce: nat)

  datatype Reason = UnexpectedVerifyError | UnexpectedSettleError | SubmissionFailed | OtherReason

  datatype AttemptResult = Succeeded(tx: Envelope) | AttemptFailed(reason: Reason)

  /** What the tracing keeps of the settlement. */
  datatype Trace = Trace(hashes: seq<Envelope>, accepted: bool, failedOnChain: bool, abandoned: bool, retried: bool)

  datatype Phase =
    | Starting                                      // the next attempt is about to be made
    | Working(known: seq<Envelope>)                 // in an attempt, with these envelopes signed
    | Signing(known: seq<Envelope>)                 // past the signer's check, signing
    | Storing(known: seq<Envelope>, env: Envelope)  // signed, and the hash being stored
    | Sending(known: seq<Envelope>, env: Envelope)  // past the sender's check, call under way
    | Returned(result: AttemptResult)
    | Pausing                                       // before the retry
    | Finished(result: AttemptResult)

  datatype Outcome = Settled(tx: Envelope) | Failed | Unknown

  datatype Answer = Answer(outcome: Outcome, attemptedTxs: seq<Envelope>)

  datatype Sys = Sys(
    trace: Trace, phase: Phase, attempts: nat, answer: Option<Answer>,
    sent: set<Envelope>,             // handed to the RPC: the network may have it
    applied: map<Envelope, bool>,    // on chain, and whether it succeeded
    used: set<nat>)                  // the nonces the host has consumed

  datatype SendStatus = Pending | Refused | Threw

  datatype PollStatus = Success | FailedStatus | NotFound

  datatype Action =
    | Begin
    | CheckAndSign
    | Sign(env: Envelope, named: bool)              // and whether the call names the network
    | Stored
    | CheckAndSend(env: Envelope)
    | Told(status: SendStatus)
    | Poll(env: Envelope, found: PollStatus)
    | Fail(reason: Reason)
    | Decide(remaining: int)
    | PauseOver
    | Return
    | Deadline
    | Apply(env: Envelope, success: bool)

  const SETTLE_RETRY_MIN_REMAINING_MS := 10_000

  predicate Init(s: Sys) {
    && s.trace == Trace([], false, false, false, false) && s.phase == Starting && s.attempts == 0
    && s.answer.None? && s.sent == {} && s.applied == map[] && s.used == {}
  }

  predicate RetryableReason(r: Reason) {
    r == UnexpectedVerifyError || r == UnexpectedSettleError || r == SubmissionFailed
  }

  /** How an attempt left things: its result, whether an envelope had been accepted by
      then, and the time left to the deadline. */
  datatype Report = Report(result: AttemptResult, accepted: bool, remaining: int)

  predicate Retryable(r: Report) {
    && r.result.AttemptFailed? && !r.accepted
    && RetryableReason(r.result.reason) && r.remaining >= SETTLE_RETRY_MIN_REMAINING_MS
  }

  predicate InAttempt(p: Phase) {
    p.Working? || p.Signing? || p.Storing? || p.Sending?
  }

  /** The signer records a hash only for a call that names the network. */
  function DoSign(s: Sys, known: seq<Envelope>, env: Envelope, named: bool): Sys {
    if named
    then s.(phase := Storing(known, env), trace := s.trace.(hashes := s.trace.hashes + [env]))
    else s.(phase := Working(known + [env]))
  }

  function DoTold(s: Sys, known: seq<Envelope>, status: SendStatus): Sys {
    s.(phase := Working(known), trace := s.trace.(accepted := s.trace.accepted || status == Pending))
  }

  /** The chain answers truthfully. */
  predicate TruthfulPoll(s: Sys, env: Envelope, status: PollStatus) {
    match status
    case Success => env in s.applied && s.applied[env]
    case FailedStatus => env in s.applied && !s.applied[env]
    case NotFound => true
  }

  function DoPoll(s: Sys, env: Envelope, status: PollStatus): Sys {
    match status
    case Success => s.(phase := Returned(Succeeded(env)))
    case FailedStatus => s.(phase := Returned(AttemptFailed(OtherReason)), trace := s.trace.(failedOnChain := true))
    case NotFound => s
  }

  function OutcomeOf(t: Trace, result: Option<AttemptResult>): Outcome {
    if result.Some? && result.value.Succeeded? then Settled(result.value.tx)
    else if result.Some? && (|t.hashes| == 0 || (t.failedOnChain && |t.hashes| == 1)) then Failed
    else Unknown
  }

  /** The answer, and the list of hashes, are made up in one uninterrupted stretch,
      in which an attempt still running is abandoned. */
  function DoAnswer(s: Sys, result: Option<AttemptResult>): Sys {
    var t := s.trace.(abandoned := s.trace.abandoned || result.None?);
    s.(trace := t, answer := Some(Answer(OutcomeOf(t, result), t.hashes)))
  }

  /** An envelope lands once, and succeeds only on a nonce nobody has used. */
  predicate CanApply(s: Sys, env: Envelope, success: bool) {
    env in s.sent && env !in s.applied && (success ==> env.nonce !in s.used)
  }

  /** The host consumes the nonce of an envelope that succeeds. */
  function DoApply(s: Sys, env: Envelope, success: bool): Sys {
    s.(applied := s.applied[env := success], used := if success then s.used + {env.nonce} else s.used)
  }

  function DoDecide(s: Sys, result: AttemptResult, remaining: int): Sys {
    if !s.trace.retried && Retryable(Report(result, s.trace.accepted, remaining))
    then s.(phase := Pausing, trace := s.trace.(retried := true))
    else s.(phase := Finished(result))
  }

  /** One action; one that is not possible changes nothing. */
  function Do(s: Sys, a: Action): Sys {
    match a
    case Begin => if s.phase.Starting? then s.(phase := Working([]), attempts := s.attempts + 1) else s
    case CheckAndSign =>
      if !s.phase.Working? then s
      else if s.trace.abandoned then s.(phase := Returned(AttemptFailed(OtherReason)))
      else s.(phase := Signing(s.phase.known))
    case Sign(env, named) => if s.phase.Signing? then DoSign(s, s.phase.known, env, named) else s
    case Stored => if s.phase.Storing? then s.(phase := Working(s.phase.known + [s.phase.env])) else s
    case CheckAndSend(env) =>
      if !(s.phase.Working? && env in s.phase.known) then s
      else if s.trace.abandoned then s.(phase := Returned(AttemptFailed(OtherReason)))
      else s.(phase := Sending(s.phase.known, env), sent := s.sent + {env})
    case Told(status) => if s.phase.Sending? then DoTold(s, s.phase.known, status) else s
    case Poll(env, status) =>
      if s.phase.Working? && env in s.phase.known && TruthfulPoll(s, env, status) then DoPoll(s, env, status) else s
    case Fail(reason) => if InAttempt(s.phase) then s.(phase := Returned(AttemptFailed(reason))) else s
    case Decide(remaining) => if s.phase.Returned? then DoDecide(s, s.phase.result, remaining) else s
    case PauseOver => if s.phase.Pausing? then s.(phase := Starting) else s
    case Return => if s.answer.None? && s.phase.Finished? then DoAnswer(s, Some(s.phase.result)) else s
    case Deadline => if s.answer.None? then DoAnswer(s, None) else s
    case Apply(env, success) => if CanApply(s, env, success) then DoApply(s, env, success) else s
  }

  function Run(s: Sys, actions: seq<Action>): Sys
    decreases |actions|
  {
    if actions == [] then s else Run(Do(s, actions[0]), actions[1..])
  }

  /** A signature the tracing misses, of an envelope not listed yet, that can still be
      sent. */
  predicate Untraced(s: Sys, a: Action) {
    a.Sign? && !a.named && s.phase.Signing? && !s.trace.abandoned && a.env !in s.trace.hashes
  }

  predicate Traced(s: Sys, actions: seq<Action>)
    decreases |actions|
  {
    actions == [] || (!Untraced(s, actions[0]) && Traced(Do(s, actions[0]), actions[1..]))
  }

  // ---- what must hold ----------------------------------------------------------------

  /** The answer is true: what is settled has landed, what is failed never did and
      can no longer, and whatever reached the network is listed. */
  predicate AnswerIsTrue(s: Sys) {
    s.answer.Some? ==>
      (&& (forall e :: e in s.sent ==> e in s.answer.value.attemptedTxs)
       && (s.answer.value.outcome.Settled? ==>
             s.answer.value.outcome.tx in s.applied && s.applied[s.answer.value.outcome.tx])
       && (s.answer.value.outcome.Failed? ==> forall e :: e in s.sent ==> e in s.applied && !s.applied[e]))
  }

  // ---- the invariant ---------------------------------------------------------------------

  predicate Known(s: Sys, known: seq<Envelope>) {
    forall k :: 0 <= k < |known| ==> known[k] in s.trace.hashes
  }

  /** While sending is allowed, whatever the attempt could send is listed. */
  predicate PhaseOk(s: Sys) {
    match s.phase
    case Working(known) => s.trace.abandoned || Known(s, known)
    case Signing(known) => s.trace.abandoned || Known(s, known)
    case Storing(known, env) => s.trace.abandoned || (Known(s, known) && env in s.trace.hashes)
    case Sending(known, env) => s.trace.abandoned || (Known(s, known) && env in s.trace.hashes)
    case Returned(r) => ResultOk(s, r)
    case Finished(r) => ResultOk(s, r)
    case _ => true
  }

  predicate ResultOk(s: Sys, r: AttemptResult) {
    r.Succeeded? ==> r.tx in s.applied && s.applied[r.tx]
  }

  predicate Rejected(s: Sys) {
    exists e :: e in s.trace.hashes && e in s.applied && !s.applied[e]
  }

  predicate AttemptsOk(s: Sys) {
    && s.attempts <= (if s.trace.retried then 2 else 1)
    && ((s.phase.Starting? || s.phase.Pausing?) ==>
          !s.trace.accepted && s.attempts <= (if s.trace.retried then 1 else 0))
  }

  /** Once the answer is given either nothing runs any more or all that runs is
      barred from sending. */
  predicate AnswerOk(s: Sys) {
    && AnswerIsTrue(s)
    && (s.answer.Some? ==> s.phase.Finished? || s.trace.abandoned)
    && (s.answer.Some? && !s.answer.value.outcome.Unknown? ==> s.phase.Finished?)
  }

  predicate Inv(s: Sys) {
    && (forall e :: e in s.applied ==> e in s.sent)
    && (forall e :: e in s.sent ==> e in s.trace.hashes)
    && PhaseOk(s) && AttemptsOk(s) && AnswerOk(s)
    && (s.trace.failedOnChain ==> Rejected(s))
  }

  lemma AnswerKeepsInv(s: Sys, result: Option<AttemptResult>)
    requires Inv(s) && s.answer.None?
    requires result.Some? ==> s.phase == Finished(result.value)
    ensures Inv(DoAnswer(s, result))
  {
  }

  lemma ApplyKeepsInv(s: Sys, env: Envelope, success: bool)
    requires Inv(s) && CanApply(s, env, success)
    ensures Inv(DoApply(s, env, success))
  {
  }

  lemma SignKeepsInv(s: Sys, known: seq<Envelope>, env: Envelope, named: bool)
    requires Inv(s) && s.phase == Signing(known) && !Untraced(s, Sign(env, named))
    ensures Inv(DoSign(s, known, env, named))
  {
  }

  lemma PollKeepsInv(s: Sys, known: seq<Envelope>, env: Envelope, status: PollStatus)
    requires Inv(s) && s.phase == Working(known) && env in known && TruthfulPoll(s, env, status)
    ensures Inv(DoPoll(s, env, status))
  {
  }

  /** A step of the background work that signs, polls and answers nothing. */
  predicate IsWork(s: Sys, s': Sys) {
    && s' == s.(phase := s'.phase, attempts := s'.attempts, sent := s'.sent, trace := s'.trace)
    && s'.trace == s.trace.(accepted := s'.trace.accepted, retried := s'.trace.retried)
    && PhaseOk(s') && AttemptsOk(s')
    && (s'.sent == s.sent || (!s.trace.abandoned && s'.phase.Sending? && s'.sent == s.sent + {s'.phase.env}))
    && (s.phase.Finished? ==> s' == s)
  }

  lemma WorkKeepsInv(s: Sys, s': Sys)
    requires Inv(s) && IsWork(s, s')
    ensures Inv(s')
  {
  }

  lemma StepIsWork(s: Sys, a: Action)
    requires PhaseOk(s) && AttemptsOk(s)
    requires !a.Sign? && !a.Poll? && !a.Return? && !a.Deadline? && !a.Apply?
    ensures IsWork(s, Do(s, a))
  {
  }

  lemma DoKeepsInv(s: Sys, a: Action)
    requires Inv(s) && !Untraced(s, a)
    ensures Inv(Do(s, a))
  {
    match a
    case Sign(env, named) => if s.phase.Signing? { SignKeepsInv(s, s.phase.known, env, named); }
    case Poll(env, status) =>
      if s.phase.Working? && env in s.phase.known && TruthfulPoll(s, env, status) {
        PollKeepsInv(s, s.phase.known, env, status);
      }
    case Return => if s.answer.None? && s.phase.Finished? { AnswerKeepsInv(s, Some(s.phase.result)); }
    case Deadline => if s.answer.None? { AnswerKeepsInv(s, None); }
    case Apply(env, success) => if CanApply(s, env, success) { ApplyKeepsInv(s, env, success); }
    case _ => StepIsWork(s, a); WorkKeepsInv(s, Do(s, a));
  }

  lemma {:induction false} RunKeepsInv(s: Sys, actions: seq<Action>)
    requires Inv(s) && Traced(s, actions)
    ensures Inv(Run(s, actions))
    decreases |actions|
  {
    if actions != [] {
      DoKeepsInv(s, actions[0]);
      RunKeepsInv(Do(s, actions[0]), actions[1..]);
    }
  }
}
