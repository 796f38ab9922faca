/** The network, as far as a refund can tell: ledgers that close at increasing
    times and include signed envelopes, and the proof that one never will be. */
module RefundChain {
  import opened RefundRecord

  /** When an envelope landed, and whether its transfer went through. */
  datatype Landing = Landing(at: int, succeeded: bool)

  /** `included` says which envelopes have landed; `sequence` is the router account's
      last consumed sequence number. */
  datatype Chain = Chain(latest: int, sequence: int, included: map<Envelope, Landing>)

  /** The payer has the money. */
  predicate Succeeded(c: Chain, e: Envelope) { e in c.included && c.included[e].succeeded }

  /** It took its sequence number, and moved nothing. */
  predicate FailedOnChain(c: Chain, e: Envelope) { e in c.included && !c.included[e].succeeded }

  predicate InBounds(e: Envelope, t: int) {
    e.minTime <= t && (e.maxTime != 0 ==> t <= e.maxTime)
  }

  predicate ChainOk(c: Chain) {
    && c.latest >= 0
    && forall e :: e in c.included ==>
         InBounds(e, c.included[e].at) && c.included[e].at <= c.latest && e.sequence <= c.sequence
  }

  /** Whether a ledger closing at t may hold this batch: each envelope new, within
      its bounds, and each consuming its own sequence number, whether it succeeds or
      fails. Other transactions of the account use up the remaining numbers up to
      `sequence`. */
  predicate CanClose(c: Chain, t: int, sequence: int, batch: map<Envelope, bool>) {
    && t > c.latest && sequence >= c.sequence
    && (forall e :: e in batch ==> e !in c.included && InBounds(e, t) && c.sequence < e.sequence <= sequence)
    && (forall e, f :: e in batch && f in batch && e.sequence == f.sequence ==> e == f)
  }

  function Close(c: Chain, t: int, sequence: int, batch: map<Envelope, bool>): Chain {
    Chain(t, sequence, c.included + map e | e in batch :: Landing(t, batch[e]))
  }

  /** Not on chain, and no later ledger can include it. */
  predicate Expired(c: Chain, e: Envelope) {
    && e !in c.included
    && ((e.maxTime != 0 && (e.maxTime <= c.latest || e.maxTime < e.minTime)) || e.sequence <= c.sequence)
  }

  /** It pays nobody, and never will. */
  predicate Dead(c: Chain, e: Envelope) { FailedOnChain(c, e) || Expired(c, e) }

  lemma DeadStaysDead(c: Chain, t: int, sequence: int, batch: map<Envelope, bool>, e: Envelope)
    requires CanClose(c, t, sequence, batch)
    ensures Dead(c, e) ==> Dead(Close(c, t, sequence, batch), e)
    ensures Expired(c, e) ==> Expired(Close(c, t, sequence, batch), e)
    ensures Succeeded(c, e) ==> Succeeded(Close(c, t, sequence, batch), e)
  {
  }

  lemma CloseKeepsChainOk(c: Chain, t: int, sequence: int, batch: map<Envelope, bool>)
    requires ChainOk(c) && CanClose(c, t, sequence, batch)
    ensures ChainOk(Close(c, t, sequence, batch))
    ensures Close(c, t, sequence, batch).included.Keys == c.included.Keys + batch.Keys
  {
  }

  lemma LedgerFor(c: Chain, e: Envelope, succeeds: bool) returns (t: int)
    requires e !in c.included && !Dead(c, e)
    ensures CanClose(c, t, e.sequence, map[e := succeeds])
  {
    t := if c.latest + 1 > e.minTime then c.latest + 1 else e.minTime;
  }

  /** Death is exactly the impossibility of being paid: an envelope that has not landed
      and is not dead can be put into the very next ledger. */
  lemma DeadMeansNoNextInclusion(c: Chain, e: Envelope)
    requires !Succeeded(c, e)
    ensures Dead(c, e) <==> !exists t, sequence :: CanClose(c, t, sequence, map[e := true])
  {
    if !Dead(c, e) {
      var t := LedgerFor(c, e, true);
    }
  }

  // ---- the RPC's answers ---------------------------------------------------------

  /** A truthful NOT_FOUND: the node's history spans the ledgers that closed
      between `oldest` and `latestSeen`, and the envelope is in none of them. */
  predicate TruthfulNotFound(c: Chain, e: Envelope, oldest: int, latestSeen: int) {
    latestSeen <= c.latest && (e in c.included ==> !(oldest <= c.included[e].at <= latestSeen))
  }

  predicate IsProvablyDeadEnvelope(e: Envelope, latestCloseTime: int, oldestCloseTime: int) {
    if e.maxTime <= 0 || e.minTime <= 0 then false
    else if latestCloseTime <= 0 || oldestCloseTime <= 0 then false
    else if e.maxTime >= latestCloseTime then false
    else oldestCloseTime <= e.minTime
  }

  /** The check is sound whatever any local clock says, however far behind the
      node is and however much history it has pruned. */
  lemma ProvablyDeadIsDead(c: Chain, e: Envelope, oldest: int, latestSeen: int)
    requires ChainOk(c) && TruthfulNotFound(c, e, oldest, latestSeen)
    requires IsProvablyDeadEnvelope(e, latestSeen, oldest)
    ensures Expired(c, e)
  {
  }

  /** Each of its two comparisons is needed: without the history bound, or with a
      time bound that has not passed on a closed ledger, there is a chain on which
      the same truthful answer is given and the envelope is, or can still be, paid. */
  lemma EachDeathConditionIsNeeded(e: Envelope, oldest: int, latestSeen: int)
    requires 0 < e.minTime <= e.maxTime && 0 < oldest && 0 < latestSeen
    requires oldest > e.minTime || e.maxTime > latestSeen
    ensures exists c :: ChainOk(c) && TruthfulNotFound(c, e, oldest, latestSeen) && !Dead(c, e)
  {
    if oldest > e.minTime {
      var top := if latestSeen > e.minTime then latestSeen else e.minTime;
      var c := Chain(top, e.sequence, map[e := Landing(e.minTime, true)]);
      assert ChainOk(c) && TruthfulNotFound(c, e, oldest, latestSeen) && !Dead(c, e);
    } else {
      var c := Chain(latestSeen, e.sequence - 1, map[]);
      assert ChainOk(c) && TruthfulNotFound(c, e, oldest, latestSeen) && !Dead(c, e);
    }
  }
}
