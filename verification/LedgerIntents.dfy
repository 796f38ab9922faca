/** What bounds the intents of an account: the hourly rate, unique memos, and the
    counter of open ones, with exactly where it starts to count too few. */
module LedgerIntents {
  import opened Wrappers
  import opened Sums
  import opened Ledger
  import opened LedgerConservation

  function OpenOne(i: Intent, account: string): int { if i.status == Open && i.account == account then 1 else 0 }

  function OpenMarks(intents: map<string, Intent>, account: string): map<string, int> {
    map i | i in intents :: OpenOne(intents[i], account)
  }

  /** How many intents of the account are open, by a full scan. */
  ghost function OpenCount(s: State, account: string): int { SumMap(OpenMarks(s.intents, account)) }

  ghost predicate SlotsAtMostOpen(s: State) {
    forall a: string :: 0 <= Get(s.openSlots, a) <= OpenCount(s, a)
  }

  ghost predicate SlotsExact(s: State) {
    forall a: string :: Get(s.openSlots, a) == OpenCount(s, a)
  }

  lemma OneIntentCounts(s: State, s': State, id: string, i: Intent, a: string)
    requires s'.intents == s.intents[id := i]
    ensures OpenCount(s', a)
            == OpenCount(s, a) + OpenOne(i, a) - if id in s.intents then OpenOne(s.intents[id], a) else 0
  {
    assert OpenMarks(s'.intents, a) == OpenMarks(s.intents, a)[id := OpenOne(i, a)];
    SumUpdate(OpenMarks(s.intents, a), id, OpenOne(i, a));
  }

  lemma {:induction false} MarksNotNegative(m: map<string, int>)
    requires forall k :: k in m ==> m[k] >= 0
    ensures SumMap(m) >= 0
    ensures forall k :: k in m ==> SumMap(m) >= m[k]
    decreases |m|
  {
    forall k | k in m
      ensures SumMap(m) >= m[k] >= 0
    {
      SumRemove(m, k);
      MarksNotNegative(m - {k});
    }
    if m != map[] {
      var k :| k in m;
      assert SumMap(m) >= m[k];
    }
  }

  lemma CountNotNegative(s: State, a: string)
    ensures OpenCount(s, a) >= 0
    ensures forall i :: i in s.intents && OpenOne(s.intents[i], a) == 1 ==> OpenCount(s, a) >= 1
  {
    var m := OpenMarks(s.intents, a);
    MarksNotNegative(m);
    forall i | i in s.intents && OpenOne(s.intents[i], a) == 1
      ensures OpenCount(s, a) >= 1
    {
      assert m[i] == 1;
    }
  }

  /** An open that claims, refuses or expires an intent takes it off the open ones if
      it was one, and gives a slot back in any case. */
  predicate GivesSlotBack(s: State, q: OpenRequest) {
    && q.id in s.intents && s.intents[q.id].status in {Open, Expired} && q.payment !in s.consumed
  }

  lemma OpenGivesBack(s: State, q: OpenRequest, caps: Caps)
    requires GivesSlotBack(s, q)
    ensures var (s', i) := (OpenIntent(s, q, caps).0, s.intents[q.id]);
            && s'.openSlots == SlotReleased(s, i.account) && q.id in s'.intents
            && s'.intents == s.intents[q.id := s'.intents[q.id]] && s'.intents[q.id].status != Open
  {
    TerminalChanges(s, q, s.intents[q.id]);
  }

  lemma OtherOpensKeepSlots(s: State, q: OpenRequest, caps: Caps, a: string)
    requires !GivesSlotBack(s, q)
    ensures OpenIntent(s, q, caps).0.openSlots == s.openSlots
    ensures OpenCount(OpenIntent(s, q, caps).0, a) == OpenCount(s, a)
  {
    if q.id in s.intents && s.intents[q.id].status == Consumed && s.intents[q.id].payment == Some(q.payment) {
      var (s', r) := Replay(s, q, s.intents[q.id]);
      OneIntentCounts(s, s', q.id, r.intent, a);
    } else {
      assert OpenIntent(s, q, caps).0 == s;
    }
  }

  lemma OpenOnCount(s: State, q: OpenRequest, caps: Caps, a: string)
    requires GivesSlotBack(s, q)
    ensures var (s', i) := (OpenIntent(s, q, caps).0, s.intents[q.id]);
            && OpenCount(s', a) == OpenCount(s, a) - OpenOne(i, a)
            && Get(s'.openSlots, a) == if i.account == a && Get(s.openSlots, a) > 0 then Get(s.openSlots, a) - 1
                                       else if i.account == a then 0 else Get(s.openSlots, a)
  {
    var s' := OpenIntent(s, q, caps).0;
    OpenGivesBack(s, q, caps);
    OneIntentCounts(s, s', q.id, s'.intents[q.id], a);
  }

  lemma CreateOnCount(s: State, q: IntentRequest, caps: Caps, a: string)
    requires q.id !in s.intents
    ensures var (s', r) := CreateIntent(s, q, caps);
            var more := if r.Created? && q.account == a then 1 else 0;
            Get(s'.openSlots, a) == Get(s.openSlots, a) + more && OpenCount(s', a) == OpenCount(s, a) + more
  {
    var (s', r) := CreateIntent(s, q, caps);
    if r.Created? {
      OneIntentCounts(s, s', q.id, r.intent, a);
    } else {
      assert s' == s;
    }
  }

  /** The other requests touch neither intents nor slots. */
  lemma OthersKeepSlots(s: State, op: Op)
    requires !op.DoCreate? && !op.DoOpen?
    ensures Do(s, op).0.openSlots == s.openSlots && Do(s, op).0.intents == s.intents
  {
    match op
    case DoReserve(id, account, maxPrice, now) => ReserveKeepsSlots(s, id, account, maxPrice, now);
    case DoDispatch(id) => DispatchKeepsSlots(s, id);
    case DoSettle(id, action) => SettleKeepsSlots(s, id, action);
    case DoArm(id) =>
    case DoAlarm(now) =>
    case DoReapPart(seen, now) =>
  }

  lemma ReserveKeepsSlots(s: State, id: string, account: string, maxPrice: int, now: int)
    ensures var s' := Reserve(s, id, account, maxPrice, now).0; s'.openSlots == s.openSlots && s'.intents == s.intents
  {
  }

  lemma DispatchKeepsSlots(s: State, id: string)
    ensures Dispatch(s, id).0.openSlots == s.openSlots && Dispatch(s, id).0.intents == s.intents
  {
    if id in s.calls && s.calls[id].status == Held && !s.calls[id].dispatched {
      assert Dispatch(s, id).0 == s.(calls := s.calls[id := s.calls[id].(dispatched := true)]);
    } else {
      assert Dispatch(s, id).0 == s;
    }
  }

  lemma SettleKeepsSlots(s: State, id: string, action: SettleAction)
    ensures Settle(s, id, action).0.openSlots == s.openSlots && Settle(s, id, action).0.intents == s.intents
  {
  }

  lemma StepKeepsSlots(s: State, op: Op)
    requires SlotsAtMostOpen(s) && (op.DoCreate? ==> op.create.id !in s.intents)
    ensures SlotsAtMostOpen(Do(s, op).0)
  {
    var s' := Do(s, op).0;
    forall a: string
      ensures 0 <= Get(s'.openSlots, a) <= OpenCount(s', a)
    {
      StepKeepsSlotsOf(s, op, a);
    }
  }

  lemma StepKeepsSlotsOf(s: State, op: Op, a: string)
    requires 0 <= Get(s.openSlots, a) <= OpenCount(s, a) && (op.DoCreate? ==> op.create.id !in s.intents)
    ensures 0 <= Get(Do(s, op).0.openSlots, a) <= OpenCount(Do(s, op).0, a)
  {
    match op
    case DoCreate(q, caps) => CreateOnCount(s, q, caps, a);
    case DoOpen(q, caps) => OpenKeepsSlotsOf(s, q, caps, a);
    case _ => OthersKeepSlots(s, op);
  }

  lemma OpenKeepsSlotsOf(s: State, q: OpenRequest, caps: Caps, a: string)
    requires 0 <= Get(s.openSlots, a) <= OpenCount(s, a)
    ensures 0 <= Get(OpenIntent(s, q, caps).0.openSlots, a) <= OpenCount(OpenIntent(s, q, caps).0, a)
  {
    if GivesSlotBack(s, q) {
      OpenOnCount(s, q, caps, a);
      CountNotNegative(s, a);
    } else {
      OtherOpensKeepSlots(s, q, caps, a);
    }
  }

  /** Over every run the counter is at most the number of open intents. */
  lemma {:induction false} SlotsNeverExceedOpen(s: State, ops: seq<Op>)
    requires SlotsAtMostOpen(s) && FreshIds(s, ops)
    ensures SlotsAtMostOpen(Run(s, ops))
    decreases |ops|
  {
    if ops != [] {
      StepKeepsSlots(s, ops[0]);
      SlotsNeverExceedOpen(Do(s, ops[0]).0, ops[1..]);
    }
  }

  /** An exact counter stays exact through an open except in one case: a payment not
      yet claimed is presented again for an intent already marked expired. */
  lemma OpenKeepsCountExactUnlessExpired(s: State, q: OpenRequest, caps: Caps)
    requires SlotsExact(s)
    ensures SlotsExact(OpenIntent(s, q, caps).0) <==>
            !(GivesSlotBack(s, q) && s.intents[q.id].status == Expired && Get(s.openSlots, s.intents[q.id].account) > 0)
  {
    var s' := OpenIntent(s, q, caps).0;
    if GivesSlotBack(s, q) {
      var i := s.intents[q.id];
      assert Get(s.openSlots, i.account) == OpenCount(s, i.account);
      forall a: string
        ensures a != i.account ==> Get(s'.openSlots, a) == OpenCount(s', a)
      {
        OpenOnCount(s, q, caps, a);
      }
      OpenOnCount(s, q, caps, i.account);
      CountNotNegative(s, i.account);
    } else {
      forall a: string
        ensures Get(s'.openSlots, a) == OpenCount(s', a)
      {
        OtherOpensKeepSlots(s, q, caps, a);
      }
    }
  }

  /** So the ceiling on an account's open intents is not one: with the counter exact
      and at the ceiling, re-claiming one expired intent lets another be created. */
  lemma CeilingIsPassed(s: State, q: OpenRequest, more: IntentRequest, caps: Caps)
    requires SlotsExact(s) && GivesSlotBack(s, q) && s.intents[q.id].status == Expired
    requires q.confirmedAt > s.intents[q.id].expiresAt
    requires caps.maxOpenIntents > 0 && OpenCount(s, more.account) == caps.maxOpenIntents
    requires more.account == s.intents[q.id].account && more.id !in s.intents
    requires var c := CreateIntent(s.(openSlots := map[]), more, caps).1; c.Created?
    ensures CreateIntent(s, more, caps).1 == TooManyOpen
    ensures OpenIntent(s, q, caps).1 == ConfirmedTooLate
    ensures OpenCount(CreateIntent(OpenIntent(s, q, caps).0, more, caps).0, more.account) == caps.maxOpenIntents + 1
  {
    assert Get(s.openSlots, more.account) == caps.maxOpenIntents;
    LateClaimOnlyReleases(s, q, caps);
    OpenOnCount(s, q, caps, more.account);
    CreatedWithSlot(s, OpenIntent(s, q, caps).0, more, caps);
    CreateOnCount(OpenIntent(s, q, caps).0, more, caps, more.account);
  }

  lemma CreateKeepsCountExact(s: State, q: IntentRequest, caps: Caps)
    requires SlotsExact(s) && q.id !in s.intents
    ensures SlotsExact(CreateIntent(s, q, caps).0)
  {
    forall a: string
      ensures Get(CreateIntent(s, q, caps).0.openSlots, a) == OpenCount(CreateIntent(s, q, caps).0, a)
    {
      CreateOnCount(s, q, caps, a);
    }
  }

  /** A request the caps allow as such, whatever is stored. */
  predicate Affordable(q: IntentRequest, caps: Caps) {
    0 < q.amount <= caps.perAccountDay && q.amount <= caps.global && caps.intentsPerHour >= 3
  }

  /** Two intents and a third, all of one account, in a ledger that allows one open
      intent; the first of them paid too late. */
  predicate LatePayer(a: IntentRequest, late: OpenRequest, b: IntentRequest, c: IntentRequest, caps: Caps) {
    && caps.maxOpenIntents == 1 && Affordable(a, caps) && Affordable(b, caps) && Affordable(c, caps)
    && a.account == b.account == c.account && late.id == a.id && late.confirmedAt > a.expiresAt
    && a.id != b.id && b.id != c.id && a.id != c.id && a.memo != b.memo && b.memo != c.memo && a.memo != c.memo
  }

  predicate CreditFree(s: State, mints: int) {
    && s.deposits == map[] && s.outstanding == 0 && s.consumed == map[]
    && forall k :: k in s.minted ==> s.minted[k] <= mints
  }

  lemma CreatedWhenFree(s: State, q: IntentRequest, caps: Caps, mints: int)
    requires CreditFree(s, mints) && 0 <= mints < 3 && Affordable(q, caps) && q.memo !in s.memos
    requires Get(s.openSlots, q.account) < caps.maxOpenIntents
    ensures var (s', r) := CreateIntent(s, q, caps);
            && r == Created(Intent(q.account, q.amount, q.memo, q.destination, q.expiresAt, Open, None, None))
            && CreditFree(s', mints + 1)
            && s'.memos == s.memos[q.memo := q.id] && s'.intents == s.intents[q.id := r.intent]
  {
  }

  /** A run from the empty ledger that ends with two open intents where one is
      allowed: one claim of the late payment makes room for b, a second one for c. */
  lemma CeilingIsReached(start: State, a: IntentRequest, late: OpenRequest, b: IntentRequest, c: IntentRequest,
                         caps: Caps)
    requires Empty(start) && LatePayer(a, late, b, c, caps)
    ensures var s := Run(start, [DoCreate(a, caps), DoOpen(late, caps), DoCreate(b, caps)]);
            && SlotsExact(s) && CreateIntent(s, c, caps).1 == TooManyOpen
            && OpenIntent(s, late, caps).1 == ConfirmedTooLate
            && OpenCount(CreateIntent(OpenIntent(s, late, caps).0, c, caps).0, c.account) == caps.maxOpenIntents + 1
  {
    var s2 := AfterLateClaim(start, a, late, caps);
    var s3 := CreateIntent(s2, b, caps).0;
    CreatedWhenFree(s2, b, caps, 1);
    CreateKeepsCountExact(s2, b, caps);
    CreateOnCount(s2, b, caps, c.account);
    CreatedWhenFree(s3.(openSlots := map[]), c, caps, 2);
    CeilingIsPassed(s3, late, c, caps);
    RunOfThree(start, a, late, b, caps);
  }

  ghost function AfterLateClaim(start: State, a: IntentRequest, late: OpenRequest, caps: Caps): (s: State)
    requires Empty(start) && caps.maxOpenIntents == 1 && Affordable(a, caps)
    requires late.id == a.id && late.confirmedAt > a.expiresAt
    ensures s == OpenIntent(CreateIntent(start, a, caps).0, late, caps).0
    ensures SlotsExact(s) && CreditFree(s, 1) && s.memos == map[a.memo := a.id]
    ensures s.intents.Keys == {a.id} && s.intents[a.id].status == Expired
    ensures s.intents[a.id].account == a.account && s.intents[a.id].expiresAt == a.expiresAt
    ensures OpenCount(s, a.account) == 0 && Get(s.openSlots, a.account) == 0
  {
    var s1 := CreateIntent(start, a, caps).0;
    NothingOpenAtFirst(start);
    CreatedWhenFree(start, a, caps, 0);
    CreateKeepsCountExact(start, a, caps);
    CreateOnCount(start, a, caps, a.account);
    LateClaimExpires(s1, late, caps);
    OpenKeepsCountExactUnlessExpired(s1, late, caps);
    OpenOnCount(s1, late, caps, a.account);
    OpenIntent(s1, late, caps).0
  }

  lemma NothingOpenAtFirst(start: State)
    requires Empty(start)
    ensures SlotsExact(start) && forall a: string :: OpenCount(start, a) == 0
  {
    forall a: string
      ensures OpenCount(start, a) == 0
    {
      assert OpenMarks(start.intents, a) == map[];
    }
  }

  lemma LateClaimExpires(s: State, q: OpenRequest, caps: Caps)
    requires GivesSlotBack(s, q) && q.confirmedAt > s.intents[q.id].expiresAt
    ensures var s' := OpenIntent(s, q, caps).0;
            && s' == s.(intents := s'.intents, openSlots := s'.openSlots)
            && s'.intents == s.intents[q.id := s.intents[q.id].(status := Expired)]
  {
    assert OpenIntent(s, q, caps) == TooLate(s, q, s.intents[q.id]);
  }

  lemma RunOfThree(s: State, a: IntentRequest, late: OpenRequest, b: IntentRequest, caps: Caps)
    ensures Run(s, [DoCreate(a, caps), DoOpen(late, caps), DoCreate(b, caps)])
            == CreateIntent(OpenIntent(CreateIntent(s, a, caps).0, late, caps).0, b, caps).0
  {
    var s1 := CreateIntent(s, a, caps).0;
    RunOne(s, DoCreate(a, caps), [DoOpen(late, caps), DoCreate(b, caps)]);
    RunOne(s1, DoOpen(late, caps), [DoCreate(b, caps)]);
    RunOne(OpenIntent(s1, late, caps).0, DoCreate(b, caps), []);
    assert [DoCreate(b, caps)] + [] == [DoCreate(b, caps)];
    assert [DoOpen(late, caps)] + [DoCreate(b, caps)] == [DoOpen(late, caps), DoCreate(b, caps)];
    assert [DoCreate(a, caps)] + [DoOpen(late, caps), DoCreate(b, caps)]
        == [DoCreate(a, caps), DoOpen(late, caps), DoCreate(b, caps)];
  }

  lemma RunOne(s: State, op: Op, rest: seq<Op>)
    ensures Run(s, [op] + rest) == Run(Do(s, op).0, rest)
  {
    assert ([op] + rest)[1..] == rest;
  }

  lemma LateClaimOnlyReleases(s: State, q: OpenRequest, caps: Caps)
    requires GivesSlotBack(s, q) && q.confirmedAt > s.intents[q.id].expiresAt
    ensures var s' := OpenIntent(s, q, caps).0;
            && s' == s.(intents := s'.intents, openSlots := s'.openSlots) && s'.intents.Keys == s.intents.Keys
            && OpenIntent(s, q, caps).1 == ConfirmedTooLate
  {
    assert OpenIntent(s, q, caps) == TooLate(s, q, s.intents[q.id]);
  }

  lemma CreatedWithSlot(s: State, s': State, q: IntentRequest, caps: Caps)
    requires s' == s.(intents := s'.intents, openSlots := s'.openSlots)
    requires CreateIntent(s.(openSlots := map[]), q, caps).1.Created?
    ensures CreateIntent(s', q, caps).1.Created? <==> Get(s'.openSlots, q.account) < caps.maxOpenIntents
  {
  }

  // ---- the hourly rate and the memos --------------------------------------------------

  function CreatedIn(op: Op, r: Reply, account: string, hour: int): int {
    if op.DoCreate? && r.OnCreate? && r.createReply.Created?
       && op.create.account == account && Hour(op.create.now) == hour
    then 1 else 0
  }

  /** How many intents a run creates for the account in that hour. */
  ghost function CreatedDuring(s: State, ops: seq<Op>, account: string, hour: int): int
    decreases |ops|
  {
    if ops == [] then 0
    else CreatedIn(ops[0], Do(s, ops[0]).1, account, hour)
         + CreatedDuring(Do(s, ops[0]).0, ops[1..], account, hour)
  }

  /** Each intent has its memo to itself. */
  predicate MemosMatch(s: State) {
    forall i :: i in s.intents ==> s.intents[i].memo in s.memos && s.memos[s.intents[i].memo] == i
  }

  lemma CreateIsTallied(s: State, q: IntentRequest, caps: Caps, account: string, hour: int)
    ensures var (s', r) := CreateIntent(s, q, caps);
            && Get(s'.minted, (account, hour))
               == Get(s.minted, (account, hour)) + CreatedIn(DoCreate(q, caps), OnCreate(r), account, hour)
            && (CreatedIn(DoCreate(q, caps), OnCreate(r), account, hour) == 1 ==>
                  Get(s'.minted, (account, hour)) <= caps.intentsPerHour)
  {
  }

  lemma CreateKeepsMemos(s: State, q: IntentRequest, caps: Caps)
    requires MemosMatch(s) && q.id !in s.intents
    ensures MemosMatch(CreateIntent(s, q, caps).0)
  {
  }

  lemma OpenKeepsMemos(s: State, q: OpenRequest, caps: Caps)
    requires MemosMatch(s)
    ensures MemosMatch(OpenIntent(s, q, caps).0)
  {
    if q.id in s.intents {
      BranchesKeepMemo(s, q, s.intents[q.id]);
    }
  }

  predicate OnlyIntentRewritten(s: State, s': State, id: string)
    requires id in s.intents
  {
    && s'.memos == s.memos && s'.minted == s.minted && id in s'.intents
    && s'.intents == s.intents[id := s'.intents[id]] && s'.intents[id].memo == s.intents[id].memo
  }

  lemma BranchesKeepMemo(s: State, q: OpenRequest, i: Intent)
    requires q.id in s.intents && i == s.intents[q.id]
    ensures OnlyIntentRewritten(s, Replay(s, q, i).0, q.id) && OnlyIntentRewritten(s, TooLate(s, q, i).0, q.id)
    ensures OnlyIntentRewritten(s, Refuse(s, q, i).0, q.id) && OnlyIntentRewritten(s, Credit(s, q, i).0, q.id)
  {
  }

  lemma OthersKeepMemos(s: State, op: Op)
    requires !op.DoCreate? && !op.DoOpen?
    ensures Do(s, op).0.minted == s.minted && Do(s, op).0.memos == s.memos && Do(s, op).0.intents == s.intents
  {
    match op
    case DoReserve(id, account, maxPrice, now) =>
      var s' := Reserve(s, id, account, maxPrice, now).0;
      assert s' == s.(balances := s'.balances, calls := s'.calls);
    case DoDispatch(id) => assert Dispatch(s, id).0 == s.(calls := Dispatch(s, id).0.calls);
    case DoSettle(id, action) => SettleKeepsMemos(s, id, action);
    case DoArm(id) =>
    case DoAlarm(now) =>
    case DoReapPart(seen, now) =>
  }

  lemma SettleKeepsMemos(s: State, id: string, action: SettleAction)
    ensures var s' := Settle(s, id, action).0; s'.minted == s.minted && s'.memos == s.memos && s'.intents == s.intents
  {
  }

  lemma StepKeepsMemos(s: State, op: Op)
    requires MemosMatch(s) && (op.DoCreate? ==> op.create.id !in s.intents)
    ensures MemosMatch(Do(s, op).0)
  {
    match op
    case DoCreate(q, caps) => CreateKeepsMemos(s, q, caps);
    case DoOpen(q, caps) => OpenKeepsMemos(s, q, caps);
    case _ => OthersKeepMemos(s, op);
  }

  lemma {:induction false} RunKeepsMemos(s: State, ops: seq<Op>)
    requires MemosMatch(s) && FreshIds(s, ops)
    ensures MemosMatch(Run(s, ops))
    decreases |ops|
  {
    if ops != [] {
      StepKeepsMemos(s, ops[0]);
      RunKeepsMemos(Do(s, ops[0]).0, ops[1..]);
    }
  }

  /** No two intents share a memo, so no payment on chain can be meant for two. */
  lemma MemoNamesOneIntent(start: State, ops: seq<Op>, i: string, j: string)
    requires Empty(start) && FreshIds(start, ops)
    requires var s := Run(start, ops); i in s.intents && j in s.intents && s.intents[i].memo == s.intents[j].memo
    ensures i == j
  {
    RunKeepsMemos(start, ops);
  }

  lemma OpenKeepsTally(s: State, q: OpenRequest, caps: Caps)
    ensures OpenIntent(s, q, caps).0.minted == s.minted
  {
    if q.id in s.intents {
      BranchesKeepMemo(s, q, s.intents[q.id]);
    }
  }

  lemma StepIsTallied(s: State, op: Op, account: string, hour: int)
    ensures var (s', r) := Do(s, op);
            && Get(s'.minted, (account, hour)) == Get(s.minted, (account, hour)) + CreatedIn(op, r, account, hour)
            && (CreatedIn(op, r, account, hour) == 1 ==>
                  op.DoCreate? && Get(s'.minted, (account, hour)) <= op.caps.intentsPerHour)
  {
    match op
    case DoCreate(q, caps) => CreateIsTallied(s, q, caps, account, hour);
    case DoOpen(q, caps) => OpenKeepsTally(s, q, caps);
    case _ => OthersKeepMemos(s, op);
  }

  /** No run creates more intents for an account in an hour than the caps passed allow. */
  lemma {:induction false} HourlyRateHolds(s: State, ops: seq<Op>, caps: Caps, account: string, hour: int)
    requires Under(ops, caps)
    ensures CreatedDuring(s, ops, account, hour) >= 0
    ensures CreatedDuring(s, ops, account, hour) > 0 ==>
              Get(s.minted, (account, hour)) + CreatedDuring(s, ops, account, hour) <= caps.intentsPerHour
    decreases |ops|
  {
    if ops != [] {
      StepIsTallied(s, ops[0], account, hour);
      HourlyRateHolds(Do(s, ops[0]).0, ops[1..], caps, account, hour);
    }
  }
}
