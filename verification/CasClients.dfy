/** Optimistic read-compute-commit loops, run by any number of clients at once
    against one key of the store. */
module CasClients {
  import opened Wrappers
  import opened AtomicStore
  import opened StoreChange

  /** `update` with a function that ignores the value is `put`; one that leaves
      an absent value alone is `delete`. Those two re-read after a conflict. */
  datatype Config<!V, !R> = Config(fn: (nat, Option<V>) -> Change<V, R>, rereads: nat -> bool, maxAttempts: nat)

  datatype Client<+V, +R> =
    | NeedsRead(attempt: nat, invokedAt: nat)
    | Ready(value: Option<V>, version: nat, attempt: nat, invokedAt: nat)
    | Done(result: R, wrote: bool, at: nat, invokedAt: nat, returnedAt: nat)
    | Exhausted(invokedAt: nat, gaveUpAt: nat)

  /** One committed write, in commit order. External writes are those of callers that are
      not among the clients here, seen only as the write they commit: a gate, a seed, or a
      put, update or delete by other code. */
  datatype Entry<+V> = ByClient(id: nat, after: Option<V>) | External(after: Option<V>)

  datatype Sys<V, R> = Sys(cell: Cell<V>, clients: map<nat, Client<V, R>>, log: seq<Entry<V>>)

  datatype Action<+V> = Invoke(id: nat) | Read(id: nat) | Step(id: nat) | ExternalWrite(w: Write<V>) | Seed(value: V)

  function Init<V, R>(): Sys<V, R> { Sys(Cell(None, 0), map[], []) }

  /** One atomic step; an action that is not enabled changes nothing. */
  function Do<V, R>(cfg: Config<V, R>, s: Sys<V, R>, a: Action<V>): Sys<V, R> {
    match a
    case Invoke(c) =>
      if c in s.clients then s else s.(clients := s.clients[c := NeedsRead(0, |s.log|)])
    case Read(c) =>
      if c in s.clients && s.clients[c].NeedsRead? then
        var cl := s.clients[c];
        s.(clients := s.clients[c := Ready(s.cell.value, s.cell.version, cl.attempt, cl.invokedAt)])
      else s
    case Step(c) =>
      if c in s.clients && s.clients[c].Ready? then Attempt(cfg, s, c) else s
    case ExternalWrite(w) =>
      Sys(Cell(Written(w), s.cell.version + 1), s.clients, s.log + [External(Written(w))])
    case Seed(v) =>
      if s.cell.value.None? then Sys(SeedCell(s.cell, v).0, s.clients, s.log + [External(Some(v))]) else s
  }

  /** One pass through the loop body: run the function on the value last seen
      and, unless it asks for nothing, try to commit at the version last seen. */
  function Attempt<V, R>(cfg: Config<V, R>, s: Sys<V, R>, c: nat): Sys<V, R>
    requires c in s.clients && s.clients[c].Ready?
  {
    var cl := s.clients[c];
    var change := cfg.fn(c, cl.value);
    if change.Noop? then
      s.(clients := s.clients[c := Done(change.result, false, cl.version, cl.invokedAt, |s.log|)])
    else
      var (cell, resp) := CommitCell(s.cell, cl.version, AsWrite(change));
      match resp
      case Committed =>
        Sys(cell,
            s.clients[c := Done(change.result, true, cl.version, cl.invokedAt, |s.log| + 1)],
            s.log + [ByClient(c, cell.value)])
      case Conflict(value, version) =>
        var next :=
          if cl.attempt + 1 >= cfg.maxAttempts then Exhausted(cl.invokedAt, |s.log|)
          else if cfg.rereads(c) then NeedsRead(cl.attempt + 1, cl.invokedAt)
          else Ready(value, version, cl.attempt + 1, cl.invokedAt);
        s.(clients := s.clients[c := next])
  }

  function Run<V, R>(cfg: Config<V, R>, acts: seq<Action<V>>): Sys<V, R> {
    if acts == [] then Init() else Do(cfg, Run(cfg, acts[..|acts| - 1]), acts[|acts| - 1])
  }

  /** A seed that finds the key deleted, and starts its versions again. */
  predicate Reseeds<V, R>(s: Sys<V, R>, a: Action<V>) {
    a.Seed? && s.cell.value.None? && s.cell.version > 0
  }

  predicate NoReseed<V, R>(cfg: Config<V, R>, acts: seq<Action<V>>) {
    acts == [] || (NoReseed(cfg, acts[..|acts| - 1]) && !Reseeds(Run(cfg, acts[..|acts| - 1]), acts[|acts| - 1]))
  }

  // ---- the sequential meaning ------------------------------------------------

  /** The value after the first k commits. */
  function ValueAt<V>(log: seq<Entry<V>>, k: nat): Option<V>
    requires k <= |log|
  {
    if k == 0 then None else log[k - 1].after
  }

  /** The reference semantics: the committed functions applied one after another,
      each to the value its predecessor left. The stored results are not consulted. */
  function Fold<V, R>(cfg: Config<V, R>, log: seq<Entry<V>>, k: nat): Option<V>
    requires k <= |log|
  {
    if k == 0 then None
    else match log[k - 1]
      case External(after) => after
      case ByClient(c, _) =>
        var before := Fold(cfg, log, k - 1);
        Updated(before, cfg.fn(c, before))
  }

  // ---- the invariant ---------------------------------------------------------

  ghost predicate EntryOk<V, R>(cfg: Config<V, R>, s: Sys<V, R>, i: nat)
    requires i < |s.log|
  {
    s.log[i].ByClient? ==>
      var c := s.log[i].id;
      && c in s.clients && s.clients[c].Done? && s.clients[c].wrote && s.clients[c].at == i
      && !cfg.fn(c, ValueAt(s.log, i)).Noop?
      && s.log[i].after == Written(AsWrite(cfg.fn(c, ValueAt(s.log, i))))
  }

  ghost predicate Unlogged<V>(log: seq<Entry<V>>, c: nat) {
    forall i :: 0 <= i < |log| && log[i].ByClient? ==> log[i].id != c
  }

  /** What is known of each client. For a finished one this is linearizability:
      its function ran on the value some version between its call and its return
      really had, and the result it reports is that run's result. */
  ghost predicate ClientOk<V, R>(cfg: Config<V, R>, s: Sys<V, R>, c: nat)
    requires c in s.clients
  {
    match s.clients[c]
    case NeedsRead(attempt, invokedAt) =>
      invokedAt + attempt <= |s.log| && attempt < cfg.maxAttempts && Unlogged(s.log, c)
    case Ready(value, version, attempt, invokedAt) =>
      && invokedAt + attempt <= version <= |s.log| && value == ValueAt(s.log, version)
      && attempt < cfg.maxAttempts && Unlogged(s.log, c)
    case Done(result, wrote, at, invokedAt, returnedAt) =>
      && invokedAt <= at <= returnedAt <= |s.log|
      && cfg.fn(c, ValueAt(s.log, at)).result == result
      && wrote == !cfg.fn(c, ValueAt(s.log, at)).Noop?
      && (if wrote then at < returnedAt && s.log[at].ByClient? && s.log[at].id == c else Unlogged(s.log, c))
    case Exhausted(invokedAt, gaveUpAt) =>
      invokedAt + cfg.maxAttempts <= gaveUpAt <= |s.log| && Unlogged(s.log, c)
  }

  ghost predicate Inv<V, R>(cfg: Config<V, R>, s: Sys<V, R>) {
    && s.cell == Cell(ValueAt(s.log, |s.log|), |s.log|)
    && (forall i :: 0 <= i < |s.log| ==> EntryOk(cfg, s, i))
    && (forall c :: c in s.clients ==> ClientOk(cfg, s, c))
  }

  /** An attempt extends the log by at most its own entry, on the value it was shown. */
  ghost predicate Attempted<V, R>(cfg: Config<V, R>, s: Sys<V, R>, s': Sys<V, R>, c: nat) {
    && c in s'.clients && s'.clients == s.clients[c := s'.clients[c]]
    && (s'.log == s.log
        || (s'.log == s.log + [ByClient(c, s'.cell.value)] && s'.clients[c].Done? && s'.clients[c].wrote
            && s'.clients[c].at == |s.log| && !cfg.fn(c, s.cell.value).Noop?
            && s'.cell.value == Written(AsWrite(cfg.fn(c, s.cell.value)))))
    && s'.cell == Cell(ValueAt(s'.log, |s'.log|), |s'.log|)
    && ClientOk(cfg, s', c)
  }

  lemma AttemptEffect<V, R>(cfg: Config<V, R>, s: Sys<V, R>, c: nat)
    requires Inv(cfg, s) && c in s.clients && s.clients[c].Ready?
    ensures Attempted(cfg, s, Attempt(cfg, s, c), c)
  {
  }

  lemma AttemptKeepsInv<V, R>(cfg: Config<V, R>, s: Sys<V, R>, c: nat)
    requires Inv(cfg, s) && c in s.clients && s.clients[c].Ready?
    ensures Inv(cfg, Attempt(cfg, s, c))
  {
    AttemptEffect(cfg, s, c);
    AttemptedKeepsInv(cfg, s, Attempt(cfg, s, c), c);
  }

  lemma AttemptedKeepsInv<V, R>(cfg: Config<V, R>, s: Sys<V, R>, s': Sys<V, R>, c: nat)
    requires Inv(cfg, s) && c in s.clients && s.clients[c].Ready? && Attempted(cfg, s, s', c)
    ensures Inv(cfg, s')
  {
    assert forall k: nat :: k <= |s.log| ==> ValueAt(s'.log, k) == ValueAt(s.log, k);
    forall d | d in s'.clients && d != c
      ensures ClientOk(cfg, s', d)
    {
      assert ClientOk(cfg, s, d);
    }
    forall i | 0 <= i < |s'.log|
      ensures EntryOk(cfg, s', i)
    {
      if i < |s.log| {
        assert EntryOk(cfg, s, i);
      }
    }
  }

  lemma ExternalKeepsInv<V, R>(cfg: Config<V, R>, s: Sys<V, R>, after: Option<V>)
    requires Inv(cfg, s)
    ensures Inv(cfg, Sys(Cell(after, s.cell.version + 1), s.clients, s.log + [External(after)]))
  {
    var s' := Sys(Cell(after, s.cell.version + 1), s.clients, s.log + [External(after)]);
    assert forall k: nat :: k <= |s.log| ==> ValueAt(s'.log, k) == ValueAt(s.log, k);
    forall d | d in s'.clients
      ensures ClientOk(cfg, s', d)
    {
      assert ClientOk(cfg, s, d);
    }
    forall i | 0 <= i < |s'.log|
      ensures EntryOk(cfg, s', i)
    {
      if i < |s.log| {
        assert EntryOk(cfg, s, i);
      }
    }
  }

  lemma OneClientKeepsInv<V, R>(cfg: Config<V, R>, s: Sys<V, R>, c: nat, cl: Client<V, R>)
    requires Inv(cfg, s) && (c in s.clients ==> !s.clients[c].Done?)
    requires ClientOk(cfg, s.(clients := s.clients[c := cl]), c)
    ensures Inv(cfg, s.(clients := s.clients[c := cl]))
  {
    var s' := s.(clients := s.clients[c := cl]);
    forall d | d in s'.clients && d != c
      ensures ClientOk(cfg, s', d)
    {
      assert ClientOk(cfg, s, d);
    }
    forall i | 0 <= i < |s'.log|
      ensures EntryOk(cfg, s', i)
    {
      assert EntryOk(cfg, s, i);
    }
  }

  lemma DoKeepsInv<V, R>(cfg: Config<V, R>, s: Sys<V, R>, a: Action<V>)
    requires Inv(cfg, s) && cfg.maxAttempts > 0 && !Reseeds(s, a)
    ensures Inv(cfg, Do(cfg, s, a))
  {
    match a
    case Invoke(c) =>
      if c !in s.clients {
        forall i | 0 <= i < |s.log| && s.log[i].ByClient?
          ensures s.log[i].id != c
        {
          assert EntryOk(cfg, s, i);
        }
        OneClientKeepsInv(cfg, s, c, NeedsRead(0, |s.log|));
      }
    case Read(c) =>
      if c in s.clients && s.clients[c].NeedsRead? {
        var cl := s.clients[c];
        assert ClientOk(cfg, s, c);
        OneClientKeepsInv(cfg, s, c, Ready(s.cell.value, s.cell.version, cl.attempt, cl.invokedAt));
      }
    case Step(c) =>
      if c in s.clients && s.clients[c].Ready? {
        AttemptKeepsInv(cfg, s, c);
      }
    case ExternalWrite(w) =>
      ExternalKeepsInv(cfg, s, Written(w));
    case Seed(v) =>
      if s.cell.value.None? {
        ExternalKeepsInv(cfg, s, Some(v));
      }
  }

  lemma {:induction false} InvHolds<V, R>(cfg: Config<V, R>, acts: seq<Action<V>>)
    requires cfg.maxAttempts > 0 && NoReseed(cfg, acts)
    ensures Inv(cfg, Run(cfg, acts))
  {
    if acts != [] {
      InvHolds(cfg, acts[..|acts| - 1]);
      DoKeepsInv(cfg, Run(cfg, acts[..|acts| - 1]), acts[|acts| - 1]);
    }
  }

  // ---- main results ------------------------------------------------------------

  lemma {:induction false} FoldIsValue<V, R>(cfg: Config<V, R>, s: Sys<V, R>, k: nat)
    requires Inv(cfg, s) && k <= |s.log|
    ensures Fold(cfg, s.log, k) == ValueAt(s.log, k)
  {
    if k > 0 {
      FoldIsValue(cfg, s, k - 1);
      assert EntryOk(cfg, s, k - 1);
    }
  }

  ghost predicate Refines<V, R>(cfg: Config<V, R>, s: Sys<V, R>) {
    s.cell == Cell(Fold(cfg, s.log, |s.log|), |s.log|)
  }

  /** Every interleaving is a sequential run: the stored value is the fold of the
      committed functions in commit order, and the version is their number. */
  lemma RunRefinesSequentialUpdates<V, R>(cfg: Config<V, R>, acts: seq<Action<V>>)
    requires cfg.maxAttempts > 0 && NoReseed(cfg, acts)
    ensures Refines(cfg, Run(cfg, acts))
  {
    InvHolds(cfg, acts);
    var s := Run(cfg, acts);
    FoldIsValue(cfg, s, |s.log|);
  }

  /** A finished call took effect at one instant between its call and its return:
      its result is its function's result on the value that version had, and it
      wrote exactly then, and only then, if its function asked for a write. */
  lemma FinishedCallTookEffectOnce<V, R>(cfg: Config<V, R>, acts: seq<Action<V>>, c: nat)
    requires cfg.maxAttempts > 0 && NoReseed(cfg, acts)
    requires c in Run(cfg, acts).clients && Run(cfg, acts).clients[c].Done?
    ensures var s := Run(cfg, acts);
            var d := s.clients[c];
            && d.invokedAt <= d.at <= d.returnedAt <= |s.log|
            && cfg.fn(c, Fold(cfg, s.log, d.at)).result == d.result
            && d.wrote == !cfg.fn(c, Fold(cfg, s.log, d.at)).Noop?
            && (forall i :: 0 <= i < |s.log| ==>
                  ((s.log[i].ByClient? && s.log[i].id == c) <==> (d.wrote && i == d.at)))
  {
    InvHolds(cfg, acts);
    var s := Run(cfg, acts);
    assert ClientOk(cfg, s, c);
    FoldIsValue(cfg, s, s.clients[c].at);
    forall i | 0 <= i < |s.log|
      ensures (s.log[i].ByClient? && s.log[i].id == c) <==> (s.clients[c].wrote && i == s.clients[c].at)
    {
      assert EntryOk(cfg, s, i);
    }
  }

  /** A call that gives up wrote nothing, and at least as many commits as it had
      attempts, all of them other callers', landed between its call and its failure. */
  lemma ExhaustedCallWasOvertaken<V, R>(cfg: Config<V, R>, acts: seq<Action<V>>, c: nat)
    requires cfg.maxAttempts > 0 && NoReseed(cfg, acts)
    requires c in Run(cfg, acts).clients && Run(cfg, acts).clients[c].Exhausted?
    ensures var s := Run(cfg, acts);
            var x := s.clients[c];
            && x.gaveUpAt - x.invokedAt >= cfg.maxAttempts && x.gaveUpAt <= |s.log|
            && (forall i :: 0 <= i < |s.log| && s.log[i].ByClient? ==> s.log[i].id != c)
  {
    InvHolds(cfg, acts);
    assert ClientOk(cfg, Run(cfg, acts), c);
  }

  /** A version never names two values: what any client holds for a version is
      what every other client holds for it. */
  lemma VersionNamesOneValue<V, R>(cfg: Config<V, R>, acts: seq<Action<V>>, c: nat, d: nat)
    requires cfg.maxAttempts > 0 && NoReseed(cfg, acts)
    requires var s := Run(cfg, acts);
             c in s.clients && d in s.clients && s.clients[c].Ready? && s.clients[d].Ready?
    ensures var s := Run(cfg, acts);
            && (s.clients[c].version == s.clients[d].version ==> s.clients[c].value == s.clients[d].value)
            && (s.clients[c].version == s.cell.version ==> s.clients[c].value == s.cell.value)
  {
    InvHolds(cfg, acts);
    assert ClientOk(cfg, Run(cfg, acts), c) && ClientOk(cfg, Run(cfg, acts), d);
  }

  // ---- what a seed can break ------------------------------------------------

  /** The refinement survives a step exactly when the step is no seed of a deleted key. */
  lemma StepRefinesExactlyWithoutReseed<V, R>(cfg: Config<V, R>, acts: seq<Action<V>>, a: Action<V>)
    requires cfg.maxAttempts > 0 && NoReseed(cfg, acts)
    ensures Refines(cfg, Do(cfg, Run(cfg, acts), a)) <==> !Reseeds(Run(cfg, acts), a)
  {
    var s := Run(cfg, acts);
    InvHolds(cfg, acts);
    if !Reseeds(s, a) {
      DoKeepsInv(cfg, s, a);
      FoldIsValue(cfg, Do(cfg, s, a), |Do(cfg, s, a).log|);
    }
  }

  function RunFrom<V, R>(cfg: Config<V, R>, s: Sys<V, R>, acts: seq<Action<V>>): Sys<V, R> {
    if acts == [] then s else Do(cfg, RunFrom(cfg, s, acts[..|acts| - 1]), acts[|acts| - 1])
  }

  predicate NoReseedFrom<V, R>(cfg: Config<V, R>, s: Sys<V, R>, acts: seq<Action<V>>) {
    acts == [] || (NoReseedFrom(cfg, s, acts[..|acts| - 1])
                   && !Reseeds(RunFrom(cfg, s, acts[..|acts| - 1]), acts[|acts| - 1]))
  }

  /** Whoever holds the same version holds the same value. */
  ghost predicate VersionsAgree<V, R>(s: Sys<V, R>) {
    && (forall c, d | c in s.clients && d in s.clients && s.clients[c].Ready? && s.clients[d].Ready? ::
          s.clients[c].version == s.clients[d].version ==> s.clients[c].value == s.clients[d].value)
    && (forall c | c in s.clients && s.clients[c].Ready? ::
          s.clients[c].version == s.cell.version ==> s.clients[c].value == s.cell.value)
  }

  /** Versions agree whatever happens from here, short of another seed of a deleted key. */
  ghost predicate AgreeFrom<V(!new), R>(cfg: Config<V, R>, s: Sys<V, R>) {
    forall more :: NoReseedFrom(cfg, s, more) ==> VersionsAgree(RunFrom(cfg, s, more))
  }

  /** A client holds a version from before that the seed makes ambiguous: any but the
      absent one, and the first if it had the seeded value. */
  ghost predicate StaleReader<V, R>(s: Sys<V, R>, v: V) {
    exists c :: c in s.clients && s.clients[c].Ready? && IsStale(s.clients[c], v)
  }

  ghost predicate IsStale<V, R>(cl: Client<V, R>, v: V)
    requires cl.Ready?
  {
    cl.version >= 1 && (cl.version > 1 || cl.value != Some(v))
  }

  /** Versions count from log position `base` on. */
  ghost predicate Epoch<V, R>(s: Sys<V, R>, base: nat) {
    && base <= |s.log| && (base < |s.log| || base == 0)
    && s.cell == Cell(ValueAt(s.log, |s.log|), |s.log| - base)
    && (forall c | c in s.clients && s.clients[c].Ready? :: HoldsOf(s.clients[c], s.log, base))
  }

  ghost predicate HoldsOf<V, R>(cl: Client<V, R>, log: seq<Entry<V>>, base: nat)
    requires cl.Ready?
  {
    && base + cl.version <= |log|
    && cl.value == if cl.version == 0 then None else ValueAt(log, base + cl.version)
  }

  lemma StepKeepsEpoch<V, R>(cfg: Config<V, R>, s: Sys<V, R>, a: Action<V>, base: nat)
    requires Epoch(s, base) && !Reseeds(s, a)
    ensures Epoch(Do(cfg, s, a), base)
  {
    var s' := Do(cfg, s, a);
    assert forall k: nat :: k <= |s.log| ==> ValueAt(s'.log, k) == ValueAt(s.log, k);
    forall c | c in s'.clients && s'.clients[c].Ready?
      ensures HoldsOf(s'.clients[c], s'.log, base)
    {
      if c in s.clients && s'.clients[c] == s.clients[c] {
        assert HoldsOf(s.clients[c], s.log, base);
      }
    }
  }

  lemma {:induction false} EpochAgrees<V, R>(cfg: Config<V, R>, s: Sys<V, R>, more: seq<Action<V>>, base: nat)
    requires Epoch(s, base) && NoReseedFrom(cfg, s, more)
    ensures Epoch(RunFrom(cfg, s, more), base) && VersionsAgree(RunFrom(cfg, s, more))
  {
    if more != [] {
      EpochAgrees(cfg, s, more[..|more| - 1], base);
      StepKeepsEpoch(cfg, RunFrom(cfg, s, more[..|more| - 1]), more[|more| - 1], base);
    }
    var t := RunFrom(cfg, s, more);
    forall c | c in t.clients && t.clients[c].Ready?
      ensures HoldsOf(t.clients[c], t.log, base)
    {
    }
  }

  lemma InvIsFirstEpoch<V, R>(cfg: Config<V, R>, s: Sys<V, R>)
    requires Inv(cfg, s)
    ensures Epoch(s, 0)
  {
    forall c | c in s.clients && s.clients[c].Ready?
      ensures HoldsOf(s.clients[c], s.log, 0)
    {
      assert ClientOk(cfg, s, c);
    }
  }

  lemma HarmlessReseedStartsEpoch<V, R>(cfg: Config<V, R>, s: Sys<V, R>, v: V)
    requires Epoch(s, 0) && Reseeds(s, Seed(v)) && !StaleReader(s, v)
    ensures Epoch(Do(cfg, s, Seed(v)), |s.log|)
  {
    var s' := Do(cfg, s, Seed(v));
    forall c | c in s'.clients && s'.clients[c].Ready?
      ensures HoldsOf(s'.clients[c], s'.log, |s.log|)
    {
      assert HoldsOf(s.clients[c], s.log, 0) && !IsStale(s.clients[c], v);
    }
  }

  function Repeat<V>(w: Write<V>, n: nat): seq<Action<V>> { seq(n, _ => ExternalWrite(w)) }

  lemma {:induction false} WritesRaiseVersion<V, R>(cfg: Config<V, R>, s: Sys<V, R>, w: Write<V>, n: nat)
    ensures NoReseedFrom(cfg, s, Repeat(w, n))
    ensures var t := RunFrom(cfg, s, Repeat(w, n));
            t.clients == s.clients && t.cell.version == s.cell.version + n && (n > 0 ==> t.cell.value == Written(w))
    decreases n
  {
    if n > 0 {
      assert Repeat(w, n)[..n - 1] == Repeat(w, n - 1);
      WritesRaiseVersion(cfg, s, w, n - 1);
    }
  }

  /** The stale client's version comes round again, with another value. */
  lemma StaleVersionReturns<V(!new), R>(cfg: Config<V, R>, s: Sys<V, R>, v: V, c: nat)
    requires c in s.clients && s.clients[c].Ready? && IsStale(s.clients[c], v) && Reseeds(s, Seed(v))
    ensures !AgreeFrom(cfg, Do(cfg, s, Seed(v)))
  {
    var cl, seeded := s.clients[c], Do(cfg, s, Seed(v));
    var more := Repeat(if cl.value.None? then Put(v) else Remove, cl.version - 1);
    WritesRaiseVersion(cfg, seeded, if cl.value.None? then Put(v) else Remove, cl.version - 1);
    assert RunFrom(cfg, seeded, more).clients[c] == cl;
    assert !VersionsAgree(RunFrom(cfg, seeded, more));
  }

  /** Versions go on naming one value each after a step exactly when the step is not a
      seed of a deleted key at a moment when some client still holds one of its
      versions. */
  lemma VersionsAgreeExactly<V(!new), R>(cfg: Config<V, R>, acts: seq<Action<V>>, a: Action<V>)
    requires cfg.maxAttempts > 0 && NoReseed(cfg, acts)
    ensures var s := Run(cfg, acts);
            AgreeFrom(cfg, Do(cfg, s, a)) <==> !(Reseeds(s, a) && StaleReader(s, a.value))
  {
    var s := Run(cfg, acts);
    InvHolds(cfg, acts);
    InvIsFirstEpoch(cfg, s);
    if Reseeds(s, a) && StaleReader(s, a.value) {
      var c :| c in s.clients && s.clients[c].Ready? && IsStale(s.clients[c], a.value);
      StaleVersionReturns(cfg, s, a.value, c);
    } else {
      var base := if Reseeds(s, a) then |s.log| else 0;
      if Reseeds(s, a) {
        HarmlessReseedStartsEpoch(cfg, s, a.value);
      } else {
        StepKeepsEpoch(cfg, s, a, 0);
      }
      forall more | NoReseedFrom(cfg, Do(cfg, s, a), more)
        ensures VersionsAgree(RunFrom(cfg, Do(cfg, s, a), more))
      {
        EpochAgrees(cfg, Do(cfg, s, a), more, base);
      }
    }
  }

  lemma OneMore<V, R>(cfg: Config<V, R>, acts: seq<Action<V>>, a: Action<V>)
    requires NoReseed(cfg, acts) && !Reseeds(Run(cfg, acts), a)
    ensures Run(cfg, acts + [a]) == Do(cfg, Run(cfg, acts), a) && NoReseed(cfg, acts + [a])
  {
    assert (acts + [a])[..|acts|] == acts;
  }

  /** Such a moment comes: a client reads (x, 1), and the key is deleted before it
      commits. */
  lemma StaleReaderIsReached<V(!new), R>(cfg: Config<V, R>, x: V, y: V)
    requires x != y && cfg.maxAttempts > 0
    ensures var acts := [ExternalWrite(Put(x)), Invoke(0), Read(0), ExternalWrite(Remove)];
            && NoReseed(cfg, acts) && Reseeds(Run(cfg, acts), Seed(y)) && StaleReader(Run(cfg, acts), y)
  {
    var a0: seq<Action<V>> := [];
    var a1 := a0 + [ExternalWrite(Put(x))];
    var a2 := a1 + [Invoke(0)];
    var a3 := a2 + [Read(0)];
    OneMore(cfg, a0, ExternalWrite(Put(x)));
    OneMore(cfg, a1, Invoke(0));
    OneMore(cfg, a2, Read(0));
    OneMore(cfg, a3, ExternalWrite(Remove));
    var cl: Client<V, R> := Ready(Some(x), 1, 0, 1);
    assert Run(cfg, a3) == Sys(Cell(Some(x), 1), map[0 := cl], [External(Some(x))]);
    var s := Run(cfg, a3 + [ExternalWrite(Remove)]);
    assert s.clients[0] == cl && IsStale(s.clients[0], y);
    assert a3 + [ExternalWrite(Remove)] == [ExternalWrite(Put(x)), Invoke(0), Read(0), ExternalWrite(Remove)];
  }

  // ---- the loop itself --------------------------------------------------------

  const MAX_UPDATE_RETRIES: nat := 5

  datatype UpdateOutcome<+R> = Returned(result: R) | RetriesExhausted

  type Interference = nat -> seq<Write<StoredValue>>

  /** The cell after the first k rounds of other clients' writes. */
  function AfterRounds(c: StoreCell, others: Interference, k: nat): (r: StoreCell) {
    if k == 0 then c else AfterWrites(AfterRounds(c, others, k - 1), others(k - 1))
  }

  method ApplyOthers(store: AtomicStoreDO, key: string, ws: seq<Write<StoredValue>>)
    modifies store
    ensures store.CellAt(key) == AfterWrites(old(store.CellAt(key)), ws)
    ensures forall k :: k != key ==> store.CellAt(k) == old(store.CellAt(k))
  {
    var i := 0;
    while i < |ws|
      invariant 0 <= i <= |ws|
      invariant AfterWrites(store.CellAt(key), ws[i..]) == AfterWrites(old(store.CellAt(key)), ws)
      invariant forall k :: k != key ==> store.CellAt(k) == old(store.CellAt(k))
    {
      var _, version := store.HandleRead(key);
      var _ := store.HandleCommit(key, version, ws[i]);
      assert ws[i..][1..] == ws[i + 1..];
      i := i + 1;
    }
    assert ws[|ws|..] == [];
  }

  /** The update loop on the live object. Other clients' writes land before each
      commit, as `others` says. On success the function ran on the value the key
      had at that very moment; otherwise the loop left no trace of its own. */
  method Update<R>(store: AtomicStoreDO, key: string, fn: Option<StoredValue> -> Change<StoredValue, R>,
                   others: Interference)
    returns (out: UpdateOutcome<R>, ghost rounds: nat, ghost seen: nat)
    modifies store
    ensures seen <= rounds <= MAX_UPDATE_RETRIES
    ensures forall k :: k != key ==> store.CellAt(k) == old(store.CellAt(k))
    ensures out.Returned? ==>
              var change := fn(AfterRounds(old(store.CellAt(key)), others, seen).value);
              var now := AfterRounds(old(store.CellAt(key)), others, rounds);
              && out.result == change.result
              && (change.Noop? ==> store.CellAt(key) == now)
              && (!change.Noop? ==> change == fn(now.value)
                                    && store.CellAt(key) == Cell(Written(AsWrite(change)), now.version + 1))
    ensures out.RetriesExhausted? ==>
              && rounds == MAX_UPDATE_RETRIES
              && store.CellAt(key) == AfterRounds(old(store.CellAt(key)), others, rounds)
              && store.CellAt(key).version >= old(store.CellAt(key)).version + MAX_UPDATE_RETRIES
  {
    ghost var start := store.CellAt(key);
    var value: Option<StoredValue>, version: nat := store.HandleRead(key);
    var attempt := 0;
    rounds, seen := 0, 0;
    while attempt < MAX_UPDATE_RETRIES
      invariant 0 <= attempt <= MAX_UPDATE_RETRIES
      invariant seen == rounds == attempt
      invariant store.CellAt(key) == AfterRounds(start, others, rounds) == Cell(value, version)
      invariant version >= start.version + attempt
      invariant forall k :: k != key ==> store.CellAt(k) == old(store.CellAt(k))
    {
      var change := fn(value);
      if change.Noop? {
        return Returned(change.result), rounds, seen;
      }
      ApplyOthers(store, key, others(attempt));
      rounds := rounds + 1;
      var resp := store.HandleCommit(key, version, AsWrite(change));
      if resp.Committed? {
        return Returned(change.result), rounds, seen;
      }
      value, version := resp.value, resp.version;
      seen := rounds;
      attempt := attempt + 1;
    }
    out := RetriesExhausted;
  }
}
