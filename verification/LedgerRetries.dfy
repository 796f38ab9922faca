/** Retrying a request that was already accepted changes nothing that matters later. */
module LedgerRetries {
  import opened Wrappers
  import opened Ledger
  import opened LedgerConservation

  // ---- equality up to sessions ------------------------------------------------------

  /** A repeated open may renew a lapsed session, and only that. */
  predicate SameIntent(i: Intent, j: Intent) { i.(session := None) == j.(session := None) }

  predicate Same(s: State, t: State) {
    && t == s.(intents := t.intents) && s.intents.Keys == t.intents.Keys
    && forall i :: i in s.intents ==> SameIntent(s.intents[i], t.intents[i])
  }

  predicate SameReply(a: Reply, b: Reply) {
    if a.OnOpen? && a.openReply.Opened? then
      && b.OnOpen? && b.openReply.Opened? && SameIntent(a.openReply.intent, b.openReply.intent)
      && a.openReply.balance == b.openReply.balance && a.openReply.replayed == b.openReply.replayed
    else a == b
  }

  predicate SameReplies(a: seq<Reply>, b: seq<Reply>) {
    |a| == |b| && forall k :: 0 <= k < |a| ==> SameReply(a[k], b[k])
  }

  // ---- what counts as a retry ---------------------------------------------------------

  /** The request asks for what `first` asked for: the session, the charge, the price
      and the clock it carries may differ. */
  predicate Repeats(first: Op, again: Op) {
    match first
    case DoReserve(id, _, _, _) => again.DoReserve? && again.callId == id
    case DoDispatch(id) => again.DoDispatch? && again.callId == id
    case DoSettle(id, _) => again.DoSettle? && again.callId == id
    case DoOpen(q, caps) => again.DoOpen? && again.open.id == q.id && again.open.payment == q.payment
    case _ => false
  }

  predicate Accepted(r: Reply) {
    match r
    case OnReserve(x) => x.Reserved? || x.Duplicate?
    case OnDispatch(x) => x.Marked?
    case OnSettle(x) => x.Settled? || x.AlreadySettled?
    case OnOpen(x) => x.Opened?
    case _ => false
  }

  predicate AlreadyDone(s: State, op: Op) {
    match op
    case DoReserve(id, _, _, _) => id in s.calls
    case DoDispatch(id) => id in s.calls && (s.calls[id].status != Held || s.calls[id].dispatched)
    case DoSettle(id, _) => id in s.calls && s.calls[id].status != Held
    case DoOpen(q, caps) =>
      q.id in s.intents && s.intents[q.id].status == Consumed && s.intents[q.id].payment == Some(q.payment)
    case _ => false
  }

  lemma AcceptedIsDone(s: State, first: Op, again: Op)
    requires Repeats(first, again) && Accepted(Do(s, first).1)
    ensures AlreadyDone(Do(s, first).0, again)
  {
    match first
    case DoOpen(q, caps) => OpenedIsConsumed(s, q, caps);
    case DoReserve(id, account, maxPrice, now) => ReservedIsKnown(s, id, account, maxPrice, now);
    case DoDispatch(id) => MarkedStays(s, id);
    case DoSettle(id, action) => SettledIsNotHeld(s, id, action);
  }

  lemma ReservedIsKnown(s: State, id: string, account: string, maxPrice: int, now: int)
    requires Reserve(s, id, account, maxPrice, now).1.Reserved? || Reserve(s, id, account, maxPrice, now).1.Duplicate?
    ensures id in Reserve(s, id, account, maxPrice, now).0.calls
  {
  }

  lemma MarkedStays(s: State, id: string)
    requires Dispatch(s, id).1.Marked?
    ensures AlreadyDone(Dispatch(s, id).0, DoDispatch(id))
  {
  }

  lemma SettledIsNotHeld(s: State, id: string, action: SettleAction)
    requires id in s.calls
    ensures id in Settle(s, id, action).0.calls && Settle(s, id, action).0.calls[id].status != Held
  {
  }

  lemma OpenedIsConsumed(s: State, q: OpenRequest, caps: Caps)
    requires OpenIntent(s, q, caps).1.Opened?
    ensures AlreadyDone(OpenIntent(s, q, caps).0, DoOpen(q, caps))
  {
  }

  // ---- done stays done --------------------------------------------------------------------

  /** Nothing ever changes the record of a settled call, nor takes back a mark. */
  predicate CallsOnlyAdvance(before: map<string, Call>, after: map<string, Call>) {
    forall c :: c in before ==>
      && c in after
      && (before[c].status != Held ==> after[c] == before[c])
      && (before[c].dispatched ==> after[c].dispatched)
  }

  predicate ConsumedStays(before: map<string, Intent>, after: map<string, Intent>) {
    forall i :: i in before && before[i].status == Consumed ==> i in after && SameIntent(before[i], after[i])
  }

  lemma OpenAdvances(s: State, q: OpenRequest, caps: Caps)
    ensures OpenIntent(s, q, caps).0.calls == s.calls
    ensures ConsumedStays(s.intents, OpenIntent(s, q, caps).0.intents)
  {
    OpenTouchesNoCall(s, q, caps);
    if q.id in s.intents {
      OpenRewritesOneIntent(s, q, s.intents[q.id], caps);
    }
  }

  lemma OpenRewritesOneIntent(s: State, q: OpenRequest, i: Intent, caps: Caps)
    requires q.id in s.intents && i == s.intents[q.id]
    ensures var after := OpenIntent(s, q, caps).0.intents;
            q.id in after && after == s.intents[q.id := after[q.id]]
            && (i.status == Consumed ==> SameIntent(i, after[q.id]))
  {
    if i.status == Consumed {
      assert Replay(s, q, i).0.intents == s.intents[q.id := Replay(s, q, i).1.intent];
    } else if i.status != OverCap {
      TerminalChanges(s, q, i);
    }
  }

  lemma ReserveAdvances(s: State, id: string, account: string, maxPrice: int, now: int)
    ensures CallsOnlyAdvance(s.calls, Reserve(s, id, account, maxPrice, now).0.calls)
    ensures Reserve(s, id, account, maxPrice, now).0.intents == s.intents
  {
  }

  lemma SettleAdvances(s: State, id: string, action: SettleAction)
    ensures CallsOnlyAdvance(s.calls, Settle(s, id, action).0.calls) && Settle(s, id, action).0.intents == s.intents
  {
  }

  lemma CreateAdvances(s: State, q: IntentRequest, caps: Caps)
    requires q.id !in s.intents
    ensures CreateIntent(s, q, caps).0.calls == s.calls
    ensures ConsumedStays(s.intents, CreateIntent(s, q, caps).0.intents)
  {
    CreateEffect(s, q, caps);
  }

  lemma DispatchAdvances(s: State, id: string)
    ensures CallsOnlyAdvance(s.calls, Dispatch(s, id).0.calls) && Dispatch(s, id).0.intents == s.intents
  {
    if id in s.calls && s.calls[id].status == Held && !s.calls[id].dispatched {
      assert Dispatch(s, id).0.calls == s.calls[id := s.calls[id].(dispatched := true)];
    } else {
      assert Dispatch(s, id).0 == s;
    }
  }

  lemma AlarmAdvances(s: State, now: int)
    ensures CallsOnlyAdvance(s.calls, Alarm(s, now).calls) && Alarm(s, now).intents == s.intents
  {
  }

  lemma ArmAdvances(s: State, id: string)
    ensures Do(s, DoArm(id)).0.calls == s.calls && Do(s, DoArm(id)).0.intents == s.intents
  {
  }

  lemma ReapingAdvances(s: State, seen: set<string>, now: int)
    ensures CallsOnlyAdvance(s.calls, ReapedSoFar(s, seen, now).calls) && ReapedSoFar(s, seen, now).intents == s.intents
  {
  }

  lemma OneStepAdvances(s: State, op: Op)
    requires op.DoCreate? ==> op.create.id !in s.intents
    ensures CallsOnlyAdvance(s.calls, Do(s, op).0.calls)
    ensures ConsumedStays(s.intents, Do(s, op).0.intents)
  {
    match op
    case DoCreate(q, caps) => CreateAdvances(s, q, caps);
    case DoOpen(q, caps) => OpenAdvances(s, q, caps);
    case DoReserve(id, account, maxPrice, now) => ReserveAdvances(s, id, account, maxPrice, now);
    case DoDispatch(id) => DispatchAdvances(s, id);
    case DoSettle(id, action) => SettleAdvances(s, id, action);
    case DoArm(id) => ArmAdvances(s, id);
    case DoAlarm(now) => AlarmAdvances(s, now);
    case DoReapPart(seen, now) => ReapingAdvances(s, seen * s.calls.Keys, now);
  }

  lemma {:induction false} RunAdvances(s: State, ops: seq<Op>)
    requires FreshIds(s, ops)
    ensures CallsOnlyAdvance(s.calls, Run(s, ops).calls)
    ensures ConsumedStays(s.intents, Run(s, ops).intents)
    decreases |ops|
  {
    if ops != [] {
      OneStepAdvances(s, ops[0]);
      RunAdvances(Do(s, ops[0]).0, ops[1..]);
    }
  }

  // ---- a repeat is a stutter ------------------------------------------------------------------

  lemma RepeatIsStutter(s: State, op: Op)
    requires AlreadyDone(s, op)
    ensures Same(s, Do(s, op).0)
    ensures !op.DoOpen? ==> Do(s, op).0 == s
  {
    if op.DoOpen? {
      assert OpenIntent(s, op.open, op.caps) == Replay(s, op.open, s.intents[op.open.id]);
    }
  }

  lemma CreateRespects(s: State, t: State, q: IntentRequest, caps: Caps)
    requires Same(s, t)
    ensures Same(CreateIntent(s, q, caps).0, CreateIntent(t, q, caps).0)
    ensures CreateIntent(s, q, caps).1 == CreateIntent(t, q, caps).1
  {
  }

  lemma RewriteRespects(s: State, t: State, id: string, i: Intent, j: Intent)
    requires Same(s, t) && SameIntent(i, j)
    ensures Same(s.(intents := s.intents[id := i]), t.(intents := t.intents[id := j]))
  {
  }

  lemma OpenRespects(s: State, t: State, q: OpenRequest, caps: Caps)
    requires Same(s, t)
    ensures Same(OpenIntent(s, q, caps).0, OpenIntent(t, q, caps).0)
    ensures SameReply(OnOpen(OpenIntent(s, q, caps).1), OnOpen(OpenIntent(t, q, caps).1))
  {
    if q.id in s.intents {
      var i, j := s.intents[q.id], t.intents[q.id];
      assert SameIntent(i, j);
      if i.status == Consumed && i.payment == Some(q.payment) {
        RewriteRespects(s, t, q.id, Replay(s, q, i).1.intent, Replay(t, q, j).1.intent);
      } else if i.status == Consumed || i.status == OverCap || q.payment in s.consumed {
      } else if q.confirmedAt > i.expiresAt {
        TooLateRespects(s, t, q, i, j);
      } else if ExceedsCaps(s, q, i, caps) {
        RefuseRespects(s, t, q, i, j);
      } else {
        CreditRespects(s, t, q, i, j);
      }
    }
  }

  lemma TooLateRespects(s: State, t: State, q: OpenRequest, i: Intent, j: Intent)
    requires Same(s, t) && SameIntent(i, j)
    ensures Same(TooLate(s, q, i).0, TooLate(t, q, j).0)
  {
  }

  lemma RefuseRespects(s: State, t: State, q: OpenRequest, i: Intent, j: Intent)
    requires Same(s, t) && SameIntent(i, j)
    ensures Same(Refuse(s, q, i).0, Refuse(t, q, j).0)
  {
  }

  lemma ClaimRespects(s: State, t: State, q: OpenRequest, updated: Intent)
    requires Same(s, t)
    ensures Same(Claim(s, q, updated), Claim(t, q, updated))
  {
  }

  lemma AddCreditRespects(s: State, t: State, account: string, day: (string, int), amount: int)
    requires Same(s, t)
    ensures Same(AddCredit(s, account, day, amount), AddCredit(t, account, day, amount))
  {
  }

  lemma CreditRespects(s: State, t: State, q: OpenRequest, i: Intent, j: Intent)
    requires Same(s, t) && SameIntent(i, j)
    ensures Same(Credit(s, q, i).0, Credit(t, q, j).0) && Credit(s, q, i).1 == Credit(t, q, j).1
  {
    var updated := Credit(s, q, i).1.intent;
    assert updated == Credit(t, q, j).1.intent;
    ClaimRespects(s, t, q, updated);
    AddCreditRespects(Claim(s, q, updated), Claim(t, q, updated), i.account, (i.account, Day(q.confirmedAt)), i.amount);
  }

  lemma ReserveRespects(s: State, t: State, id: string, account: string, maxPrice: int, now: int)
    requires Same(s, t)
    ensures Same(Reserve(s, id, account, maxPrice, now).0, Reserve(t, id, account, maxPrice, now).0)
    ensures Reserve(s, id, account, maxPrice, now).1 == Reserve(t, id, account, maxPrice, now).1
  {
  }

  lemma SettleRespects(s: State, t: State, id: string, action: SettleAction)
    requires Same(s, t)
    ensures Same(Settle(s, id, action).0, Settle(t, id, action).0) && Settle(s, id, action).1 == Settle(t, id, action).1
  {
  }

  lemma DispatchRespects(s: State, t: State, id: string)
    requires Same(s, t)
    ensures Same(Dispatch(s, id).0, Dispatch(t, id).0) && Dispatch(s, id).1 == Dispatch(t, id).1
  {
  }

  lemma CallRespects(s: State, t: State, op: Op)
    requires Same(s, t) && (op.DoReserve? || op.DoDispatch? || op.DoSettle?)
    ensures Same(Do(s, op).0, Do(t, op).0) && Do(s, op).1 == Do(t, op).1
  {
    match op
    case DoReserve(id, account, maxPrice, now) => ReserveRespects(s, t, id, account, maxPrice, now);
    case DoDispatch(id) => DispatchRespects(s, t, id);
    case DoSettle(id, action) => SettleRespects(s, t, id, action);
  }

  lemma DoRespects(s: State, t: State, op: Op)
    requires Same(s, t)
    ensures Same(Do(s, op).0, Do(t, op).0)
    ensures SameReply(Do(s, op).1, Do(t, op).1)
  {
    if op.DoCreate? {
      CreateRespects(s, t, op.create, op.caps);
    } else if op.DoOpen? {
      OpenRespects(s, t, op.open, op.caps);
    } else if op.DoArm? || op.DoAlarm? || op.DoReapPart? {
      ReaperRespects(s, t, op);
    } else {
      CallRespects(s, t, op);
    }
  }

  lemma ReaperRespects(s: State, t: State, op: Op)
    requires Same(s, t) && (op.DoArm? || op.DoAlarm? || op.DoReapPart?)
    ensures Same(Do(s, op).0, Do(t, op).0)
  {
  }

  lemma {:induction false} RunRespects(s: State, t: State, ops: seq<Op>)
    requires Same(s, t)
    ensures Same(Run(s, ops), Run(t, ops))
    ensures SameReplies(Replies(s, ops), Replies(t, ops))
    decreases |ops|
  {
    if ops != [] {
      DoRespects(s, t, ops[0]);
      RunRespects(Do(s, ops[0]).0, Do(t, ops[0]).0, ops[1..]);
    }
  }

  lemma {:induction false} RunConcat(s: State, a: seq<Op>, b: seq<Op>)
    ensures Run(s, a + b) == Run(Run(s, a), b)
    ensures Replies(s, a + b) == Replies(s, a) + Replies(Run(s, a), b)
    decreases |a|
  {
    if a == [] {
      assert a + b == b;
    } else {
      assert (a + b)[0] == a[0] && (a + b)[1..] == a[1..] + b;
      RunConcat(Do(s, a[0]).0, a[1..], b);
    }
  }

  // ---- main results ------------------------------------------------------------------------------

  /** Once a request was accepted, its repeat can be put anywhere later in the run:
      every later reply, balance, call, intent, tally and counter, and the armed
      alarm, are those of the run without it, but for the session a repeated open may
      have renewed. */
  lemma RetryIsStutter(s: State, first: Op, middle: seq<Op>, again: Op, rest: seq<Op>)
    requires FreshIds(s, [first] + middle)
    requires Repeats(first, again) && Accepted(Do(s, first).1)
    ensures Same(Run(s, [first] + middle + rest), Run(s, [first] + middle + ([again] + rest)))
    ensures var before := Run(s, [first] + middle);
            && Replies(s, [first] + middle + rest)
               == Replies(s, [first] + middle) + Replies(before, rest)
            && Replies(s, [first] + middle + ([again] + rest))
               == Replies(s, [first] + middle) + ([Do(before, again).1] + Replies(Do(before, again).0, rest))
            && SameReplies(Replies(before, rest), Replies(Do(before, again).0, rest))
  {
    var before := Run(s, [first] + middle);
    RetryIsDone(s, first, middle, again);
    RunConcat(s, [first] + middle, rest);
    RunConcat(s, [first] + middle, [again] + rest);
    RepeatThenRest(before, again, rest);
  }

  lemma RepeatThenRest(s: State, again: Op, rest: seq<Op>)
    requires AlreadyDone(s, again)
    ensures Same(Run(s, rest), Run(s, [again] + rest))
    ensures Replies(s, [again] + rest) == [Do(s, again).1] + Replies(Do(s, again).0, rest)
    ensures SameReplies(Replies(s, rest), Replies(Do(s, again).0, rest))
  {
    RepeatIsStutter(s, again);
    RunRespects(s, Do(s, again).0, rest);
    assert ([again] + rest)[1..] == rest;
  }

  lemma RetryIsDone(s: State, first: Op, middle: seq<Op>, again: Op)
    requires FreshIds(s, [first] + middle)
    requires Repeats(first, again) && Accepted(Do(s, first).1)
    ensures AlreadyDone(Run(s, [first] + middle), again)
  {
    var after := Do(s, first).0;
    assert ([first] + middle)[1..] == middle;
    AcceptedIsDone(s, first, again);
    RunAdvances(after, middle);
  }

  /** A repeated settle of either kind answers with the very record the first one
      made: a call is charged at most once, and its outcome is final. */
  lemma RepeatedSettleReportsFirst(s: State, id: string, a: SettleAction, b: SettleAction, middle: seq<Op>)
    requires FreshIds(Settle(s, id, a).0, middle) && Settle(s, id, a).1.Settled?
    ensures Settle(Run(Settle(s, id, a).0, middle), id, b).1.AlreadySettled?
    ensures Settle(Run(Settle(s, id, a).0, middle), id, b).1.call == Settle(s, id, a).1.call
  {
    RunAdvances(Settle(s, id, a).0, middle);
  }

  /** A repeated open never mints a second session while the first is alive, nor hands
      back one that is not: with the session on record alive nothing changes at all, and
      with a live one offered the caller leaves with a live one. */
  lemma RepeatedOpenGivesLiveSession(s: State, q: OpenRequest, caps: Caps)
    requires AlreadyDone(s, DoOpen(q, caps)) && s.intents[q.id].session.Some?
    ensures var (s', r) := OpenIntent(s, q, caps);
            var recorded := s.intents[q.id].session.value;
            && r.Opened? && r.replayed && r.intent.session.Some?
            && (recorded.exp * 1000 > q.now ==> s' == s && r.intent.session.value == recorded)
            && (q.session.exp * 1000 > q.now ==> r.intent.session.value.exp * 1000 > q.now)
  {
  }

  /** What gets credited: a payment nobody claimed, confirmed within the intent's window
      however late it is claimed, and within the caps. An intent already marked expired
      is no exception. */
  lemma CreditedExactlyWhen(s: State, q: OpenRequest, caps: Caps)
    ensures var r := OpenIntent(s, q, caps).1;
            (r.Opened? && !r.replayed)
            <==> q.id in s.intents && s.intents[q.id].status in {Open, Expired} && q.payment !in s.consumed
                 && q.confirmedAt <= s.intents[q.id].expiresAt && !ExceedsCaps(s, q, s.intents[q.id], caps)
  {
  }
}
