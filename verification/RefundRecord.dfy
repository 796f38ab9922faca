/** The durable refund record and the five functions that rewrite it. Each is
    handed to the store's `update`, so each runs atomically on the current record. */
module RefundRecord {
  import opened Wrappers
  import opened StoreChange

  type RefundId = string
  type LeaseId = nat

  datatype RefundState = Pending | Leased | Submitted | Confirmed | ManualReview

  /** A signed transfer, as far as the network's inclusion rule can see. A bound
      of 0 means the envelope carries none. */
  datatype Envelope = Envelope(payee: string, amount: int, minTime: int, maxTime: int, sequence: int)

  /** A transaction hash. Hashing is taken to be injective. */
  datatype TxHash = HashOf(envelope: Envelope)

  datatype Lease = Lease(id: LeaseId, until: int)

  datatype PaymentProof = PaymentProof(paymentTx: string, payer: string, amountAtomic: int)

  datatype RefundRecord = RefundRecord(
    state: RefundState,
    payment: PaymentProof,
    refundAmount: int,
    lease: Option<Lease>,
    refundTx: Option<TxHash>,
    signedXdr: Option<Envelope>,
    confirmedLedger: Option<int>,
    discarded: seq<Option<TxHash>>)  // one audit event per unpark

  const LEASE_MS := 60_000

  function NewRecord(proof: PaymentProof): RefundRecord {
    RefundRecord(Pending, proof, proof.amountAtomic, None, None, None, None, [])
  }

  function EnqueueChange(current: Option<RefundRecord>, proof: PaymentProof): Change<RefundRecord, RefundRecord> {
    match current
    case Some(existing) => Noop(existing)
    case None => Set(NewRecord(proof), NewRecord(proof))
  }

  function LeaseChange(current: Option<RefundRecord>, leaseId: LeaseId, now: int)
    : Change<RefundRecord, Option<RefundRecord>>
  {
    match current
    case None => Noop(None)
    case Some(rec) =>
      var active := rec.state == Leased && rec.lease.Some? && rec.lease.value.until > now;
      if rec.state != Pending && active then Noop(None)
      else if rec.state != Pending && rec.state != Leased then Noop(None)
      else
        var leased := rec.(state := Leased, lease := Some(Lease(leaseId, now + LEASE_MS)));
        Set(leased, Some(leased))
  }

  datatype Completion = Completion(
    state: RefundState, refundTx: TxHash, signedXdr: Option<Envelope>, confirmedLedger: Option<int>)

  function OrElse<T>(a: Option<T>, b: Option<T>): Option<T> {
    if a.Some? then a else b
  }

  function HasLease(rec: RefundRecord, leaseId: LeaseId): bool {
    rec.lease.Some? && rec.lease.value.id == leaseId
  }

  function CompleteChange(current: Option<RefundRecord>, leaseId: LeaseId, upd: Completion)
    : Change<RefundRecord, Option<RefundRecord>>
  {
    match current
    case None => Noop(None)
    case Some(rec) =>
      if rec.state == Confirmed then Noop(Some(rec))
      else if !HasLease(rec, leaseId) then Noop(None)
      else if rec.state == Submitted && upd.state != Confirmed then
        var identical := rec.refundTx == Some(upd.refundTx)
                         && (upd.signedXdr.None? || rec.signedXdr == upd.signedXdr);
        if upd.state == Submitted then Noop(if identical then Some(rec) else None)
        else if !identical then Noop(None)
        else
          var reviewed := rec.(state := ManualReview);
          Set(reviewed, Some(reviewed))
      else if upd.state == Confirmed && rec.state != Submitted then Noop(None)
      else if upd.state == Submitted && (upd.signedXdr.None? || rec.state != Leased) then Noop(None)
      else
        var next := rec.(state := upd.state,
                         refundTx := Some(upd.refundTx),
                         signedXdr := OrElse(upd.signedXdr, rec.signedXdr),
                         confirmedLedger := OrElse(upd.confirmedLedger, rec.confirmedLedger));
        Set(next, Some(next))
  }

  datatype UnparkOutcome = Unparked(changed: bool, record: RefundRecord) | NotFound | InvalidState(state: RefundState)

  function Stripped(rec: RefundRecord): RefundRecord {
    rec.(state := Pending, lease := None, refundTx := None, signedXdr := None)
  }

  function UnparkChange(current: Option<RefundRecord>): Change<RefundRecord, UnparkOutcome> {
    match current
    case None => Noop(NotFound)
    case Some(rec) =>
      if rec.state == Pending then Noop(Unparked(false, rec))
      else if rec.state != ManualReview then Noop(InvalidState(rec.state))
      else
        var unparked := Stripped(rec).(discarded := rec.discarded + [rec.refundTx]);
        Set(unparked, Unparked(true, unparked))
  }

  function RequeueChange(current: Option<RefundRecord>, leaseId: LeaseId, expectedTx: TxHash)
    : Change<RefundRecord, Option<RefundRecord>>
  {
    match current
    case None => Noop(None)
    case Some(rec) =>
      if rec.state != Submitted || !HasLease(rec, leaseId) then Noop(None)
      else if rec.refundTx != Some(expectedTx) || rec.signedXdr.None? then Noop(None)
      else Set(Stripped(rec), Some(Stripped(rec)))
  }

  // ---- what the five functions share -------------------------------------------

  datatype Rewrite =
    | Enqueuing(proof: PaymentProof)
    | Leasing(leaseId: LeaseId, now: int)
    | Completing(leaseId: LeaseId, upd: Completion)
    | Unparking
    | Requeuing(leaseId: LeaseId, expectedTx: TxHash)

  function After(before: Option<RefundRecord>, w: Rewrite): Option<RefundRecord> {
    match w
    case Enqueuing(proof) => Updated(before, EnqueueChange(before, proof))
    case Leasing(id, now) => Updated(before, LeaseChange(before, id, now))
    case Completing(id, upd) => Updated(before, CompleteChange(before, id, upd))
    case Unparking => Updated(before, UnparkChange(before))
    case Requeuing(id, tx) => Updated(before, RequeueChange(before, id, tx))
  }

  function AfterAll(before: Option<RefundRecord>, ws: seq<Rewrite>): Option<RefundRecord>
    decreases |ws|
  {
    if ws == [] then before else AfterAll(After(before, ws[0]), ws[1..])
  }

  /** No sequence of calls, by anyone, with any arguments, moves a confirmed
      record, deletes a record, or changes whose money it returns or how much. */
  lemma {:induction false} RewritesKeepIdentity(rec: RefundRecord, ws: seq<Rewrite>)
    ensures var later := AfterAll(Some(rec), ws);
            && later.Some?
            && later.value.payment == rec.payment && later.value.refundAmount == rec.refundAmount
            && (rec.state == Confirmed ==> later.value == rec)
    decreases |ws|
  {
    if ws != [] {
      RewritesKeepIdentity(After(Some(rec), ws[0]).value, ws[1..]);
    }
  }

  /** A lease is granted exactly on a pending record, or on a leased one whose
      lease has run out; and a granted lease keeps everyone else out for a minute. */
  lemma LeaseIsExclusive(rec: RefundRecord, id: LeaseId, now: int)
    ensures LeaseChange(Some(rec), id, now).Set? <==>
            rec.state == Pending || (rec.state == Leased && (rec.lease.None? || rec.lease.value.until <= now))
    ensures LeaseChange(Some(rec), id, now).Set? ==>
              var held := LeaseChange(Some(rec), id, now).value;
              forall other, later :: later < now + LEASE_MS ==> LeaseChange(Some(held), other, later) == Noop(None)
  {
  }

  /** A submitted envelope is replaced by nothing but a requeue that names both
      its lease and its hash; every other call leaves lease and envelope in place. */
  lemma SubmittedEnvelopeIsFixed(rec: RefundRecord, w: Rewrite)
    requires rec.state == Submitted && rec.lease.Some? && rec.signedXdr.Some? && rec.refundTx.Some?
    ensures var later := After(Some(rec), w).value;
            (later.lease, later.signedXdr) != (rec.lease, rec.signedXdr) ==>
              || (w.Requeuing? && HasLease(rec, w.leaseId) && rec.refundTx == Some(w.expectedTx)
                  && later == Stripped(rec))
              || (w.Completing? && w.upd.state == Confirmed && HasLease(rec, w.leaseId) && later.state == Confirmed)
  {
  }
}
