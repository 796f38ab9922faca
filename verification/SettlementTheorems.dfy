/** What a bounded settlement guarantees, whatever the schedule. */
module SettlementTheorems {
  import opened Wrappers
  import opened Settlement

  lemma RunOne(s: Sys, actions: seq<Action>)
    requires actions != []
    ensures Run(s, actions) == Run(Do(s, actions[0]), actions[1..])
  {
  }

  lemma {:induction false} RunSplits(s: Sys, before: seq<Action>, after: seq<Action>)
    ensures Run(s, before + after) == Run(Run(s, before), after)
    decreases |before|
  {
    if before == [] {
      assert before + after == after;
    } else {
      assert (before + after)[1..] == before[1..] + after;
      RunSplits(Do(s, before[0]), before[1..], after);
    }
  }

  // ---- the answer ----------------------------------------------------------------------

  /** Whenever it is given, and however long the background work and the chain go on
      after it: the answer `failed` means that nothing signed for this settlement has
      landed or will, `settled` names an envelope that has, and every envelope that
      reached the RPC, before the answer or after, is listed in it. */
  lemma AnswerStaysTrue(s: Sys, before: seq<Action>, after: seq<Action>)
    requires Init(s) && Traced(s, before) && Run(s, before).answer.Some?
    ensures var (told, later) := (Run(s, before), Run(Run(s, before), after));
            && later.answer == told.answer
            && (forall e :: e in later.sent ==> e in told.answer.value.attemptedTxs)
            && (told.answer.value.outcome.Failed? ==>
                  later.sent == told.sent && (forall e :: e in later.applied ==> !later.applied[e]))
            && (told.answer.value.outcome.Settled? ==>
                  told.answer.value.outcome.tx in later.applied && later.applied[told.answer.value.outcome.tx])
  {
    var told := Run(s, before);
    RunKeepsInv(s, before);
    AnsweredIsTraced(told, after);
    RunKeepsInv(told, after);
    AnswerIsKept(told, after);
    if told.answer.value.outcome.Failed? {
      FinishedSendsNothing(told, after);
    }
  }

  /** Once the answer is given nothing more can be signed that is not listed and can
      still be sent. */
  lemma {:induction false} AnsweredIsTraced(s: Sys, actions: seq<Action>)
    requires s.phase.Finished? || s.trace.abandoned
    ensures Traced(s, actions)
    decreases |actions|
  {
    if actions != [] {
      AnsweredIsTraced(Do(s, actions[0]), actions[1..]);
    }
  }

  lemma {:induction false} AnswerIsKept(s: Sys, actions: seq<Action>)
    requires s.answer.Some?
    ensures var s' := Run(s, actions);
            && s'.answer == s.answer
            && (forall e :: e in s.applied ==> e in s'.applied && s'.applied[e] == s.applied[e])
    decreases |actions|
  {
    if actions != [] {
      AnswerIsKept(Do(s, actions[0]), actions[1..]);
    }
  }

  lemma {:induction false} FinishedSendsNothing(s: Sys, actions: seq<Action>)
    requires s.phase.Finished?
    ensures Run(s, actions).sent == s.sent
    decreases |actions|
  {
    if actions != [] {
      FinishedSendsNothing(Do(s, actions[0]), actions[1..]);
    }
  }

  /** Certainty is reported as such: when the one envelope signed is found rejected on
      chain before the deadline, the answer is `failed`, not `unknown`. */
  lemma RejectionIsReported(s: Sys, before: seq<Action>, e: Envelope, remaining: int)
    requires Init(s)
    requires var t := Run(s, before);
             && t.phase.Working? && e in t.phase.known && t.trace.hashes == [e] && t.answer.None?
             && e in t.applied && !t.applied[e]
    ensures Run(Run(s, before), [Poll(e, FailedStatus), Decide(remaining), Return]).answer == Some(Answer(Failed, [e]))
  {
    var t := Run(s, before);
    var actions := [Poll(e, FailedStatus), Decide(remaining), Return];
    var t1 := Do(t, actions[0]);
    var t2 := Do(t1, actions[1]);
    RunOne(t, actions);
    RunOne(t1, actions[1..]);
    RunOne(t2, actions[2..]);
    assert Run(Do(t2, Return), actions[3..]) == Do(t2, Return);
  }

  // ---- what the answer rests on ----------------------------------------------------------

  /** The answer is true, now and after whatever follows, short of another untraced
      signature. */
  ghost predicate TrueFrom(s: Sys) {
    forall more :: Traced(s, more) ==> AnswerIsTrue(Run(s, more))
  }

  /** The answers stay true after a step exactly when it is not a signing call that
      leaves out the network, before the deadline, for an envelope not listed yet. */
  lemma StepIsTrueExactlyUnlessUntraced(s: Sys, before: seq<Action>, a: Action)
    requires Init(s) && Traced(s, before)
    ensures TrueFrom(Do(Run(s, before), a)) <==> !Untraced(Run(s, before), a)
  {
    var t := Run(s, before);
    RunKeepsInv(s, before);
    if Untraced(t, a) {
      UntracedIsMissed(t, t.phase.known, a.env);
    } else {
      DoKeepsInv(t, a);
      forall more | Traced(Do(t, a), more)
        ensures AnswerIsTrue(Run(Do(t, a), more))
      {
        RunKeepsInv(Do(t, a), more);
      }
    }
  }

  /** It is sent, and at the deadline the list does not hold it. */
  lemma UntracedIsMissed(t: Sys, known: seq<Envelope>, e: Envelope)
    requires Inv(t) && t.phase == Signing(known) && !t.trace.abandoned && e !in t.trace.hashes
    ensures !TrueFrom(Do(t, Sign(e, false)))
  {
    var t1 := t.(phase := Working(known + [e]));
    var t2 := t1.(phase := Sending(known + [e], e), sent := t.sent + {e});
    var more := [CheckAndSend(e), Deadline];
    assert Do(t, Sign(e, false)) == t1 && Do(t1, more[0]) == t2;
    RunOne(t1, more);
    RunOne(t2, more[1..]);
    assert Traced(t2, more[1..]);
    assert !AnswerIsTrue(Run(t1, more));
  }

  /** One attempt, up to the moment its envelope has reached the RPC. */
  function AttemptTo(e: Envelope, named: bool): seq<Action> {
    [Begin, CheckAndSign, Sign(e, named), Stored, CheckAndSend(e)]
  }

  function AttemptSent(s: Sys, e: Envelope, named: bool): Sys {
    s.(phase := Sending([e], e), attempts := s.attempts + 1, sent := s.sent + {e},
       trace := if named then s.trace.(hashes := s.trace.hashes + [e]) else s.trace)
  }

  lemma AttemptSends(s: Sys, e: Envelope, named: bool)
    requires s.phase.Starting? && !s.trace.abandoned
    ensures Run(s, AttemptTo(e, named)) == AttemptSent(s, e, named)
    ensures Run(s, AttemptTo(e, named)[..2]) == s.(phase := Signing([]), attempts := s.attempts + 1)
  {
    var actions := AttemptTo(e, named);
    var s2 := s.(phase := Signing([]), attempts := s.attempts + 1);
    RunTwo(s, actions[..2], s2);
    SignerSends(s2, e, named);
    RunSplits(s, actions[..2], actions[2..]);
    assert actions == actions[..2] + actions[2..];
  }

  lemma SignerSends(s: Sys, e: Envelope, named: bool)
    requires s.phase == Signing([]) && !s.trace.abandoned && s.attempts > 0
    ensures Run(s, AttemptTo(e, named)[2..]) == AttemptSent(s.(attempts := s.attempts - 1), e, named)
  {
    var rest := AttemptTo(e, named)[2..];
    var s1 := DoSign(s, [], e, named);
    var s2 := s1.(phase := Working([e]));
    RunTwo(s, rest[..2], s2);
    RunOne(s2, rest[2..]);
    RunSplits(s, rest[..2], rest[2..]);
    assert rest == rest[..2] + rest[2..];
  }

  /** Signed untraced, sent, the reply lost, and landing after the answer. */
  function UntracedRun(e: Envelope): seq<Action> { AttemptTo(e, false) + UntracedEnd(e) }

  function UntracedEnd(e: Envelope): seq<Action> { [Fail(OtherReason), Decide(0), Return, Apply(e, true)] }

  /** From the start, for every envelope: the answer is `failed`, and the payer is charged. */
  lemma UntracedEnvelopeLands(s: Sys, e: Envelope)
    requires Init(s)
    ensures Untraced(Run(s, UntracedRun(e)[..2]), Sign(e, false))
    ensures var end := Run(s, UntracedRun(e));
            end.answer == Some(Answer(Failed, [])) && e in end.applied && end.applied[e]
  {
    AttemptSends(s, e, false);
    RunSplits(s, AttemptTo(e, false), UntracedEnd(e));
    assert UntracedRun(e)[..2] == AttemptTo(e, false)[..2];
    LostReplyLands(AttemptSent(s, e, false), e);
  }

  lemma LostReplyLands(s: Sys, e: Envelope)
    requires s.phase.Sending? && s.trace == Trace([], false, false, false, false) && s.answer.None?
    requires e in s.sent && s.applied == map[] && s.used == {}
    ensures var end := Run(s, UntracedEnd(e));
            end.answer == Some(Answer(Failed, [])) && e in end.applied && end.applied[e]
  {
    var actions := UntracedEnd(e);
    var s2 := s.(phase := Finished(AttemptFailed(OtherReason)));
    RunTwo(s, actions[..2], s2);
    RunTwo(s2, actions[2..], DoApply(DoAnswer(s2, Some(s2.phase.result)), e, true));
    RunSplits(s, actions[..2], actions[2..]);
    assert actions == actions[..2] + actions[2..];
  }

  lemma RunTwo(s: Sys, actions: seq<Action>, s': Sys)
    requires |actions| == 2 && s' == Do(Do(s, actions[0]), actions[1])
    ensures Run(s, actions) == s'
  {
    RunOne(s, actions);
    RunOne(Do(s, actions[0]), actions[1..]);
  }

  // ---- one charge --------------------------------------------------------------------------

  predicate OneSuccess(s: Sys) {
    forall d, e :: d in s.applied && e in s.applied && s.applied[d] && s.applied[e] ==> d == e
  }

  /** All that is signed carries one of these nonces. */
  predicate Carries(actions: seq<Action>, nonces: set<nat>) {
    forall a :: a in actions && a.Sign? ==> a.env.nonce in nonces
  }

  /** What landed was sent, and each success spent a nonce of its own. */
  predicate Spent(s: Sys) {
    && (forall e :: e in s.applied ==> e in s.sent)
    && (forall e :: e in s.applied && s.applied[e] ==> e.nonce in s.used)
    && (forall d, e :: d in s.applied && e in s.applied && s.applied[d] && s.applied[e] && d.nonce == e.nonce ==>
          d == e)
  }

  lemma {:induction false} SuccessesSpendNonces(s: Sys, actions: seq<Action>)
    requires Spent(s)
    ensures Spent(Run(s, actions))
    decreases |actions|
  {
    if actions != [] {
      SuccessesSpendNonces(Do(s, actions[0]), actions[1..]);
    }
  }

  predicate AllCarry(known: seq<Envelope>, nonces: set<nat>) {
    forall k :: 0 <= k < |known| ==> known[k].nonce in nonces
  }

  predicate PhaseCarries(p: Phase, nonces: set<nat>) {
    match p
    case Working(known) => AllCarry(known, nonces)
    case Signing(known) => AllCarry(known, nonces)
    case Storing(known, env) => AllCarry(known, nonces) && env.nonce in nonces
    case Sending(known, env) => AllCarry(known, nonces)
    case _ => true
  }

  predicate SentCarry(s: Sys, nonces: set<nat>) {
    PhaseCarries(s.phase, nonces) && forall e :: e in s.sent ==> e.nonce in nonces
  }

  lemma {:induction false} OnlyCarriedIsSent(s: Sys, actions: seq<Action>, nonces: set<nat>)
    requires SentCarry(s, nonces) && Carries(actions, nonces)
    ensures SentCarry(Run(s, actions), nonces)
    decreases |actions|
  {
    if actions != [] {
      StepSendsCarried(s, actions[0], nonces);
      OnlyCarriedIsSent(Do(s, actions[0]), actions[1..], nonces);
    }
  }

  lemma StepSendsCarried(s: Sys, a: Action, nonces: set<nat>)
    requires SentCarry(s, nonces) && (a.Sign? ==> a.env.nonce in nonces)
    ensures SentCarry(Do(s, a), nonces)
  {
  }

  ghost predicate ChargesOnce(nonces: set<nat>) {
    forall s: Sys, actions: seq<Action> :: Init(s) && Carries(actions, nonces) ==> OneSuccess(Run(s, actions))
  }

  /** Whatever is signed, traced or not, in however many attempts: the payer is charged
      at most once exactly when every envelope carries the same nonce. */
  lemma ChargesOnceExactlyWithOneNonce(nonces: set<nat>)
    ensures ChargesOnce(nonces) <==> forall m, n :: m in nonces && n in nonces ==> m == n
  {
    if m, n :| m in nonces && n in nonces && m != n {
      var s := Sys(Trace([], false, false, false, false), Starting, 0, None, {}, map[], {});
      ReauthorisedRetryChargesTwice(s, Envelope(0, m), Envelope(1, n));
      assert Carries(ReauthorisedRun(Envelope(0, m), Envelope(1, n)), nonces);
    } else {
      forall s: Sys, actions: seq<Action> | Init(s) && Carries(actions, nonces)
        ensures OneSuccess(Run(s, actions))
      {
        SuccessesSpendNonces(s, actions);
        OnlyCarriedIsSent(s, actions, nonces);
      }
    }
  }

  /** The envelope an answer calls settled is the one charge there will be. */
  lemma SettledIsTheOnlyCharge(s: Sys, before: seq<Action>, after: seq<Action>, nonce: nat)
    requires Init(s) && Traced(s, before) && Carries(before, {nonce})
    requires Run(s, before).answer.Some? && Run(s, before).answer.value.outcome.Settled?
    ensures var (told, later) := (Run(s, before), Run(Run(s, before), after));
            forall e :: e in later.applied ==> (later.applied[e] <==> e == told.answer.value.outcome.tx)
  {
    var told := Run(s, before);
    AnswerStaysTrue(s, before, after);
    RunKeepsInv(s, before);
    OnlyCarriedIsSent(s, before, {nonce});
    FinishedSendsNothing(told, after);
    SuccessesSpendNonces(s, before);
    SuccessesSpendNonces(told, after);
  }

  /** The first attempt's envelope is sent and its reply lost; the retry signs another. */
  function ReauthorisedRun(d: Envelope, e: Envelope): seq<Action> {
    AttemptTo(d, true) + RetryOf() + AttemptTo(e, true) + BothLand(d, e)
  }

  function RetryOf(): seq<Action> { [Fail(SubmissionFailed), Decide(SETTLE_RETRY_MIN_REMAINING_MS), PauseOver] }

  function BothLand(d: Envelope, e: Envelope): seq<Action> { [Apply(d, true), Apply(e, true)] }

  lemma ReauthorisedRetryChargesTwice(s: Sys, d: Envelope, e: Envelope)
    requires Init(s) && d.nonce != e.nonce
    ensures var end := Run(s, ReauthorisedRun(d, e));
            d in end.applied && e in end.applied && end.applied[d] && end.applied[e]
  {
    var s1 := AttemptSent(s, d, true);
    var s2 := s1.(phase := Starting, trace := s1.trace.(retried := true));
    var s3 := AttemptSent(s2, e, true);
    AttemptSends(s, d, true);
    RetryBegins(s1);
    AttemptSends(s2, e, true);
    RunTwo(s3, BothLand(d, e), DoApply(DoApply(s3, d, true), e, true));
    RunSplits(s, AttemptTo(d, true), RetryOf());
    RunSplits(s, AttemptTo(d, true) + RetryOf(), AttemptTo(e, true));
    RunSplits(s, AttemptTo(d, true) + RetryOf() + AttemptTo(e, true), BothLand(d, e));
  }

  lemma RetryBegins(s: Sys)
    requires s.phase.Sending? && !s.trace.accepted && !s.trace.retried
    ensures Run(s, RetryOf()) == s.(phase := Starting, trace := s.trace.(retried := true))
  {
    var s1 := s.(phase := Returned(AttemptFailed(SubmissionFailed)));
    RunOne(s, RetryOf());
    RunTwo(s1, RetryOf()[1..], s.(phase := Starting, trace := s.trace.(retried := true)));
  }

  // ---- attempts ------------------------------------------------------------------------------

  lemma {:induction false} AttemptsStayOk(s: Sys, actions: seq<Action>)
    requires AttemptsOk(s)
    ensures AttemptsOk(Run(s, actions))
    decreases |actions|
  {
    if actions != [] {
      AttemptsStayOk(Do(s, actions[0]), actions[1..]);
    }
  }

  /** There are at most two attempts. */
  lemma AtMostTwoAttempts(s: Sys, actions: seq<Action>)
    requires Init(s)
    ensures Run(s, actions).attempts <= 2
  {
    AttemptsStayOk(s, actions);
  }

  /** No attempt begins after the RPC has answered that it accepted an envelope. */
  lemma AcceptedEndsAttempts(s: Sys, before: seq<Action>, after: seq<Action>)
    requires Init(s) && Run(s, before).phase.Sending?
    ensures Run(Do(Run(s, before), Told(Pending)), after).attempts == Run(s, before).attempts
  {
    AttemptsStayOk(s, before);
    NoMoreAttempts(Do(Run(s, before), Told(Pending)), after);
  }

  lemma {:induction false} NoMoreAttempts(s: Sys, actions: seq<Action>)
    requires s.trace.accepted && AttemptsOk(s)
    ensures Run(s, actions).attempts == s.attempts
    decreases |actions|
  {
    if actions != [] {
      OneStepNoMoreAttempts(s, actions[0]);
      NoMoreAttempts(Do(s, actions[0]), actions[1..]);
    }
  }

  lemma OneStepNoMoreAttempts(s: Sys, a: Action)
    requires s.trace.accepted && AttemptsOk(s)
    ensures var s' := Do(s, a); s'.attempts == s.attempts && s'.trace.accepted && AttemptsOk(s')
  {
  }

  /** How each attempt of a run had left things when the loop looked. */
  function ReportsOf(s: Sys, actions: seq<Action>): seq<Report>
    decreases |actions|
  {
    if actions == [] then []
    else
      (if actions[0].Decide? && s.phase.Returned?
       then [Report(s.phase.result, s.trace.accepted, actions[0].remaining)] else [])
      + ReportsOf(Do(s, actions[0]), actions[1..])
  }

  /** What a loop over these reports comes to. */
  predicate LoopOutcome(reports: nat -> Report, result: AttemptResult, made: nat) {
    && (made == 1 || made == 2)
    && (made == 2 <==> Retryable(reports(0)))
    && result == reports(made - 1).result
  }

  /** What is left of the loop from here. */
  predicate Remaining(s: Sys, rest: seq<Report>, end: Sys) {
    if s.phase.Finished? then
      rest == [] && end.attempts == s.attempts && end.phase == s.phase
    else
      && (|rest| == 1 || (|rest| == 2 && !s.trace.retried))
      && (|rest| == 2 <==> !s.trace.retried && Retryable(rest[0]))
      && end.phase == Finished(rest[|rest| - 1].result)
      && end.attempts + (if s.phase.Starting? || s.phase.Pausing? then 0 else 1) == s.attempts + |rest|
  }

  lemma {:induction false} RunFollowsRest(s: Sys, actions: seq<Action>)
    requires s.phase.Pausing? ==> s.trace.retried
    requires Run(s, actions).phase.Finished?
    ensures Remaining(s, ReportsOf(s, actions), Run(s, actions))
    decreases |actions|
  {
    if actions != [] {
      RunFollowsRest(Do(s, actions[0]), actions[1..]);
      StepFollowsRest(s, actions[0], ReportsOf(Do(s, actions[0]), actions[1..]), Run(s, actions));
    }
  }

  lemma StepFollowsRest(s: Sys, a: Action, rest: seq<Report>, end: Sys)
    requires (s.phase.Pausing? ==> s.trace.retried) && Remaining(Do(s, a), rest, end)
    ensures Remaining(s, (if a.Decide? && s.phase.Returned?
                          then [Report(s.phase.result, s.trace.accepted, a.remaining)] else []) + rest, end)
  {
    if !(a.Decide? && s.phase.Returned?) {
      assert [] + rest == rest;
    }
  }

  /** A finished run is the loop over what its attempts reported. */
  lemma RunFollowsLoop(s: Sys, actions: seq<Action>, reports: nat -> Report)
    requires Init(s) && Run(s, actions).phase.Finished?
    requires forall k :: 0 <= k < |ReportsOf(s, actions)| ==> reports(k) == ReportsOf(s, actions)[k]
    ensures LoopOutcome(reports, Run(s, actions).phase.result, Run(s, actions).attempts)
    ensures |ReportsOf(s, actions)| == Run(s, actions).attempts
  {
    RunFollowsRest(s, actions);
  }

  /** The loop as written. */
  method RunAttempts(reports: nat -> Report) returns (result: AttemptResult, made: nat)
    ensures LoopOutcome(reports, result, made)
  {
    var retried := false;
    made := 0;
    while true
      invariant made == (if retried then 1 else 0)
      invariant retried ==> Retryable(reports(0))
      decreases !retried
    {
      var report := reports(made);
      result := report.result;
      made := made + 1;
      var retryable := result.AttemptFailed? && !report.accepted && !retried
                       && RetryableReason(result.reason) && report.remaining >= SETTLE_RETRY_MIN_REMAINING_MS;
      if !retryable {
        return;
      }
      retried := true;
    }
  }
}
