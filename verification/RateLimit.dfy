/** Fixed-window counters bumped through the compare-and-set loop. */
module RateLimit {
  import opened Wrappers
  import opened AtomicStore
  import opened CasClients
  import opened StoreChange

  const MAX_CAS_RETRIES: nat := 25

  /** The stored counter and the window (a UTC day, or a bucket number) it counts. */
  datatype Counter = Counter(n: int, window: int)

  datatype LimitResult = LimitResult(ok: bool, used: int)

  function Used(stored: Option<Counter>, window: int): int {
    if stored.Some? && stored.value.window == window then stored.value.n else 0
  }

  function CheckAndBump(limit: int, window: int, stored: Option<Counter>): Change<Counter, LimitResult> {
    var used := Used(stored, window);
    if used >= limit then Noop(LimitResult(false, used))
    else Set(Counter(used + 1, window), LimitResult(true, used + 1))
  }

  /** All callers of one key share a limit; each captured its own window when it
      was called. */
  function LimiterConfig(limit: int, windowOf: nat -> int): Config<Counter, LimitResult> {
    Config((c, v) => CheckAndBump(limit, windowOf(c), v), c => false, MAX_CAS_RETRIES)
  }

  type LimiterSys = Sys<Counter, LimitResult>

  predicate OnlyLimiters(acts: seq<Action<Counter>>) {
    forall a :: a in acts ==> !a.ExternalWrite? && !a.Seed?
  }

  // ---- counting over the commit log -------------------------------------------

  predicate LogOfClients(log: seq<Entry<Counter>>) {
    forall i :: 0 <= i < |log| ==> log[i].ByClient?
  }

  function Commits(log: seq<Entry<Counter>>, windowOf: nat -> int, w: int, k: nat): (n: nat)
    requires k <= |log| && LogOfClients(log)
    ensures n <= k
  {
    if k == 0 then 0
    else Commits(log, windowOf, w, k - 1) + if windowOf(log[k - 1].id) == w then 1 else 0
  }

  /** How many separate stretches of consecutive commits belong to window w. */
  function Stretches(log: seq<Entry<Counter>>, windowOf: nat -> int, w: int, k: nat): nat
    requires k <= |log| && LogOfClients(log)
  {
    if k == 0 then 0
    else Stretches(log, windowOf, w, k - 1)
         + if windowOf(log[k - 1].id) == w && (k == 1 || windowOf(log[k - 2].id) != w) then 1 else 0
  }

  /** The calls answered `ok` for window w. */
  function OkCalls(s: LimiterSys, windowOf: nat -> int, w: int): set<nat> {
    set c | c in s.clients && s.clients[c].Done? && s.clients[c].result.ok && windowOf(c) == w
  }

  // ---- the log of a limiter run -------------------------------------------------

  lemma {:induction false} LimiterLogIsClients(limit: int, windowOf: nat -> int, acts: seq<Action<Counter>>)
    requires OnlyLimiters(acts)
    ensures LogOfClients(Run(LimiterConfig(limit, windowOf), acts).log)
  {
    if acts != [] {
      LimiterLogIsClients(limit, windowOf, acts[..|acts| - 1]);
    }
  }

  /** The counter after k commits belongs to the window of the last of them, has
      never passed the limit, and bounds the commits of each window so far. */
  ghost predicate CountedSoFar(limit: int, windowOf: nat -> int, log: seq<Entry<Counter>>, w: int, k: nat)
    requires k <= |log| && LogOfClients(log)
  {
    && (k > 0 ==>
          && ValueAt(log, k).Some?
          && ValueAt(log, k).value.window == windowOf(log[k - 1].id)
          && 1 <= ValueAt(log, k).value.n <= limit)
    && (if k > 0 && windowOf(log[k - 1].id) == w
        then Stretches(log, windowOf, w, k) >= 1
             && Commits(log, windowOf, w, k) <= limit * (Stretches(log, windowOf, w, k) - 1) + ValueAt(log, k).value.n
        else Commits(log, windowOf, w, k) <= limit * Stretches(log, windowOf, w, k))
  }

  lemma {:induction false} CountsHold(limit: int, windowOf: nat -> int, s: LimiterSys, w: int, k: nat)
    requires Inv(LimiterConfig(limit, windowOf), s) && LogOfClients(s.log) && k <= |s.log|
    ensures CountedSoFar(limit, windowOf, s.log, w, k)
  {
    if k > 0 {
      CountsHold(limit, windowOf, s, w, k - 1);
      assert EntryOk(LimiterConfig(limit, windowOf), s, k - 1);
      var m := Stretches(s.log, windowOf, w, k - 1);
      assert limit * (m + 1 - 1) == limit * m;
      assert m >= 1 ==> limit * (m - 1) + limit == limit * m;
    }
  }

  /** Each `ok` answer is one commit, and each commit one `ok` answer. */
  ghost predicate OkMatchesLog(s: LimiterSys)
    requires LogOfClients(s.log)
  {
    && (forall i :: 0 <= i < |s.log| ==> CommitIsOk(s, i))
    && (forall c :: c in s.clients && s.clients[c].Done? && s.clients[c].result.ok ==>
          s.clients[c].at < |s.log| && s.log[s.clients[c].at].id == c)
  }

  ghost predicate CommitIsOk(s: LimiterSys, i: nat)
    requires i < |s.log| && s.log[i].ByClient?
  {
    var c := s.log[i].id;
    c in s.clients && s.clients[c].Done? && s.clients[c].result.ok && s.clients[c].at == i
  }

  lemma InvGivesOkMatch(limit: int, windowOf: nat -> int, s: LimiterSys)
    requires Inv(LimiterConfig(limit, windowOf), s) && LogOfClients(s.log)
    ensures OkMatchesLog(s)
  {
    var cfg := LimiterConfig(limit, windowOf);
    forall i | 0 <= i < |s.log|
      ensures CommitIsOk(s, i)
    {
      assert EntryOk(cfg, s, i);
      assert ClientOk(cfg, s, s.log[i].id);
    }
    forall c | c in s.clients && s.clients[c].Done? && s.clients[c].result.ok
      ensures s.clients[c].at < |s.log| && s.log[s.clients[c].at].id == c
    {
      assert ClientOk(cfg, s, c);
    }
  }

  function OkCallsBefore(s: LimiterSys, windowOf: nat -> int, w: int, k: nat): set<nat> {
    set c | c in OkCalls(s, windowOf, w) && s.clients[c].at < k
  }

  lemma {:induction false} OkCallsAreCommits(s: LimiterSys, windowOf: nat -> int, w: int, k: nat)
    requires LogOfClients(s.log) && OkMatchesLog(s) && k <= |s.log|
    ensures |OkCallsBefore(s, windowOf, w, k)| == Commits(s.log, windowOf, w, k)
  {
    var ids := OkCallsBefore(s, windowOf, w, k);
    if k == 0 {
      assert ids == {};
    } else {
      OkCallsAreCommits(s, windowOf, w, k - 1);
      OneMoreOk(s, windowOf, w, k);
    }
  }

  lemma OneMoreOk(s: LimiterSys, windowOf: nat -> int, w: int, k: nat)
    requires LogOfClients(s.log) && OkMatchesLog(s) && 0 < k <= |s.log|
    ensures |OkCallsBefore(s, windowOf, w, k)|
            == |OkCallsBefore(s, windowOf, w, k - 1)| + if windowOf(s.log[k - 1].id) == w then 1 else 0
  {
    var before, ids := OkCallsBefore(s, windowOf, w, k - 1), OkCallsBefore(s, windowOf, w, k);
    var c := s.log[k - 1].id;
    assert CommitIsOk(s, k - 1);
    assert forall d :: d in ids && d !in before ==> d == c;
    if windowOf(c) == w {
      assert ids == before + {c} && c !in before;
    } else {
      assert ids == before;
    }
  }

  lemma OkCountIsCommits(s: LimiterSys, windowOf: nat -> int, w: int)
    requires LogOfClients(s.log) && OkMatchesLog(s)
    ensures |OkCalls(s, windowOf, w)| == Commits(s.log, windowOf, w, |s.log|)
  {
    OkCallsAreCommits(s, windowOf, w, |s.log|);
    assert OkCallsBefore(s, windowOf, w, |s.log|) == OkCalls(s, windowOf, w);
  }

  lemma {:induction false} LimitersNeverReseed(cfg: Config<Counter, LimitResult>, acts: seq<Action<Counter>>)
    requires OnlyLimiters(acts)
    ensures NoReseed(cfg, acts)
  {
    if acts != [] {
      LimitersNeverReseed(cfg, acts[..|acts| - 1]);
    }
  }

  lemma LimiterFacts(limit: int, windowOf: nat -> int, acts: seq<Action<Counter>>, w: int)
    requires OnlyLimiters(acts)
    ensures var s := Run(LimiterConfig(limit, windowOf), acts);
            LogOfClients(s.log) && OkMatchesLog(s) && CountedSoFar(limit, windowOf, s.log, w, |s.log|)
  {
    var cfg := LimiterConfig(limit, windowOf);
    var s := Run(cfg, acts);
    LimitersNeverReseed(cfg, acts);
    InvHolds(cfg, acts);
    LimiterLogIsClients(limit, windowOf, acts);
    InvGivesOkMatch(limit, windowOf, s);
    CountsHold(limit, windowOf, s, w, |s.log|);
  }

  // ---- main results -------------------------------------------------------------

  /** For every interleaving whatever: the calls admitted for a window never exceed
      the limit once per stretch of commits of that window. A window that comes
      back after another one has been written starts again from zero. */
  lemma AdmittedPerStretch(limit: int, windowOf: nat -> int, acts: seq<Action<Counter>>, w: int)
    requires OnlyLimiters(acts)
    ensures var s := Run(LimiterConfig(limit, windowOf), acts);
            && LogOfClients(s.log)
            && |OkCalls(s, windowOf, w)| <= limit * Stretches(s.log, windowOf, w, |s.log|)
  {
    var s := Run(LimiterConfig(limit, windowOf), acts);
    LimiterFacts(limit, windowOf, acts, w);
    OkCountIsCommits(s, windowOf, w);
    CountBound(limit, windowOf, s.log, w);
  }

  lemma CountBound(limit: int, windowOf: nat -> int, log: seq<Entry<Counter>>, w: int)
    requires LogOfClients(log) && CountedSoFar(limit, windowOf, log, w, |log|)
    ensures Commits(log, windowOf, w, |log|) <= limit * Stretches(log, windowOf, w, |log|)
  {
  }

  predicate WindowsInOrder(log: seq<Entry<Counter>>, windowOf: nat -> int)
    requires LogOfClients(log)
  {
    forall i, j :: 0 <= i < j < |log| ==> windowOf(log[i].id) <= windowOf(log[j].id)
  }

  lemma {:induction false} OneStretchInOrder(log: seq<Entry<Counter>>, windowOf: nat -> int, w: int, k: nat)
    requires LogOfClients(log) && WindowsInOrder(log, windowOf) && k <= |log|
    ensures Stretches(log, windowOf, w, k) <= 1
    ensures (forall i :: 0 <= i < k ==> windowOf(log[i].id) != w) ==> Stretches(log, windowOf, w, k) == 0
  {
    if k > 0 {
      OneStretchInOrder(log, windowOf, w, k - 1);
      if windowOf(log[k - 1].id) == w && (k == 1 || windowOf(log[k - 2].id) != w) {
        forall i | 0 <= i < k - 1
          ensures windowOf(log[i].id) != w
        {
          assert windowOf(log[i].id) <= windowOf(log[k - 2].id) <= windowOf(log[k - 1].id);
        }
      }
    }
  }

  /** As long as windows are committed in order, at most `limit` calls are admitted
      for any one window, however many callers race and in whatever order. */
  lemma LimitHoldsWhenWindowsInOrder(limit: nat, windowOf: nat -> int, acts: seq<Action<Counter>>, w: int)
    requires OnlyLimiters(acts)
    requires LogOfClients(Run(LimiterConfig(limit, windowOf), acts).log)
    requires WindowsInOrder(Run(LimiterConfig(limit, windowOf), acts).log, windowOf)
    ensures |OkCalls(Run(LimiterConfig(limit, windowOf), acts), windowOf, w)| <= limit
  {
    var s := Run(LimiterConfig(limit, windowOf), acts);
    AdmittedPerStretch(limit, windowOf, acts, w);
    OneStretchInOrder(s.log, windowOf, w, |s.log|);
    var m := Stretches(s.log, windowOf, w, |s.log|);
    assert m == 0 || m == 1;
  }

  /** A refused call leaves the counter as it is. */
  lemma RefusedCallConsumesNothing(limit: int, windowOf: nat -> int, acts: seq<Action<Counter>>, c: nat)
    requires NoReseed(LimiterConfig(limit, windowOf), acts)
    requires var s := Run(LimiterConfig(limit, windowOf), acts);
             c in s.clients && s.clients[c].Done? && !s.clients[c].result.ok
    ensures var s := Run(LimiterConfig(limit, windowOf), acts);
            forall i :: 0 <= i < |s.log| && s.log[i].ByClient? ==> s.log[i].id != c
  {
    InvHolds(LimiterConfig(limit, windowOf), acts);
    assert ClientOk(LimiterConfig(limit, windowOf), Run(LimiterConfig(limit, windowOf), acts), c);
  }

  /** A call with nobody in between: invoked, read and committed or refused. */
  function Alone(cfg: Config<Counter, LimitResult>, s: LimiterSys, c: nat): LimiterSys {
    Do(cfg, Do(cfg, Do(cfg, s, Invoke(c)), Read(c)), Step(c))
  }

  lemma RunAlone(cfg: Config<Counter, LimitResult>, before: seq<Action<Counter>>, c: nat)
    ensures Run(cfg, before + [Invoke(c), Read(c), Step(c)]) == Alone(cfg, Run(cfg, before), c)
    ensures OnlyLimiters(before) ==> OnlyLimiters(before + [Invoke(c), Read(c), Step(c)])
  {
    var a1 := before + [Invoke(c)];
    var a2 := a1 + [Read(c)];
    var a3 := a2 + [Step(c)];
    assert before + [Invoke(c), Read(c), Step(c)] == a3;
    assert a3[..|a3| - 1] == a2 && a2[..|a2| - 1] == a1 && a1[..|a1| - 1] == before;
    assert Run(cfg, a1) == Do(cfg, Run(cfg, before), Invoke(c));
    assert Run(cfg, a2) == Do(cfg, Run(cfg, a1), Read(c));
  }

  // ---- how far the order matters ---------------------------------------------------

  /** Callers come in rounds: `limit` of window 0, then one of window 1. */
  function Place(limit: nat, c: nat): (p: nat)
    ensures p <= limit
  {
    if c == 0 || Place(limit, c - 1) == limit then 0 else Place(limit, c - 1) + 1
  }

  function Rounds(limit: nat, n: nat): nat {
    if n == 0 then 0 else Rounds(limit, n - 1) + if Place(limit, n - 1) == limit then 1 else 0
  }

  function RoundWindow(limit: nat): nat -> int {
    (c: nat) => if Place(limit, c) == limit then 1 else 0
  }

  /** The first n callers, one after another. */
  function AloneUpTo(limit: nat, n: nat): LimiterSys {
    if n == 0 then Init() else Alone(LimiterConfig(limit, RoundWindow(limit)), AloneUpTo(limit, n - 1), n - 1)
  }

  function StoredAfter(limit: nat, n: nat): Option<Counter> {
    if n == 0 then None
    else if Place(limit, n) == 0 then Some(Counter(1, 1))
    else Some(Counter(Place(limit, n), 0))
  }

  /** Every one of them is admitted. */
  ghost predicate AllAdmitted(limit: nat, n: nat, s: LimiterSys) {
    && s.cell == Cell(StoredAfter(limit, n), n) && |s.log| == n
    && (forall c: nat :: c in s.clients <==> c < n)
    && (forall i :: 0 <= i < n ==> s.log[i].ByClient? && s.log[i].id == i)
  }

  lemma OneMoreAdmitted(limit: nat, n: nat, s: LimiterSys)
    requires limit >= 1 && AllAdmitted(limit, n, s)
    ensures AllAdmitted(limit, n + 1, Alone(LimiterConfig(limit, RoundWindow(limit)), s, n))
  {
  }

  lemma {:induction false} EveryoneIsAdmitted(limit: nat, n: nat)
    requires limit >= 1
    ensures AllAdmitted(limit, n, AloneUpTo(limit, n))
  {
    if n > 0 {
      EveryoneIsAdmitted(limit, n - 1);
      OneMoreAdmitted(limit, n - 1, AloneUpTo(limit, n - 1));
    }
  }

  lemma {:induction false} RoundCounts(limit: nat, log: seq<Entry<Counter>>, k: nat)
    requires k <= |log| && forall i :: 0 <= i < |log| ==> log[i].ByClient? && log[i].id == i
    requires limit >= 1
    ensures Commits(log, RoundWindow(limit), 0, k) == limit * Rounds(limit, k) + Place(limit, k)
    ensures Stretches(log, RoundWindow(limit), 0, k) == Rounds(limit, k) + if Place(limit, k) > 0 then 1 else 0
  {
    if k > 0 {
      RoundCounts(limit, log, k - 1);
      assert limit * (Rounds(limit, k - 1) + 1) == limit * Rounds(limit, k - 1) + limit;
    }
  }

  lemma {:induction false} RoundOn(limit: nat, n: nat, k: nat)
    requires Place(limit, n) == 0 && k <= limit
    ensures Place(limit, n + k) == k && Rounds(limit, n + k) == Rounds(limit, n)
    decreases k
  {
    if k > 0 {
      RoundOn(limit, n, k - 1);
    }
  }

  lemma {:induction false} RoundEnd(limit: nat, m: nat) returns (n: nat)
    ensures Place(limit, n) == 0 && Rounds(limit, n) == m
    decreases m
  {
    if m == 0 {
      n := 0;
    } else {
      n := RoundEnd(limit, m - 1);
      RoundOn(limit, n, limit);
      n := n + limit + 1;
    }
  }

  lemma {:induction false} RunUpTo(limit: nat, n: nat) returns (acts: seq<Action<Counter>>)
    ensures OnlyLimiters(acts) && Run(LimiterConfig(limit, RoundWindow(limit)), acts) == AloneUpTo(limit, n)
  {
    acts := [];
    for c := 0 to n
      invariant OnlyLimiters(acts) && Run(LimiterConfig(limit, RoundWindow(limit)), acts) == AloneUpTo(limit, c)
    {
      RunAlone(LimiterConfig(limit, RoundWindow(limit)), acts, c);
      acts := acts + [Invoke(c), Read(c), Step(c)];
    }
  }

  /** A run with m stretches of window 0 that admits the limit in every one. */
  ghost predicate AdmitsLimitEachTime(limit: nat, m: nat, acts: seq<Action<Counter>>) {
    OnlyLimiters(acts)
    && var s := Run(LimiterConfig(limit, RoundWindow(limit)), acts);
       && LogOfClients(s.log) && Stretches(s.log, RoundWindow(limit), 0, |s.log|) == m
       && |OkCalls(s, RoundWindow(limit), 0)| == limit * m
  }

  /** The bound per stretch is the exact one: whatever the limit and the number of
      times a window comes back, some run admits the limit every single time. So the
      limit holds for a window just as long as its commits make one stretch. */
  lemma BoundIsReached(limit: nat, m: nat)
    requires limit >= 1
    ensures exists acts :: AdmitsLimitEachTime(limit, m, acts)
  {
    var n := RoundEnd(limit, m);
    var acts := RunUpTo(limit, n);
    var s := AloneUpTo(limit, n);
    EveryoneIsAdmitted(limit, n);
    LimiterFacts(limit, RoundWindow(limit), acts, 0);
    OkCountIsCommits(s, RoundWindow(limit), 0);
    RoundCounts(limit, s.log, n);
    assert AdmitsLimitEachTime(limit, m, acts);
  }
}
