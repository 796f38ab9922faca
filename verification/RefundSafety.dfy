/** Why a refund is paid at most once: the inductive invariant of the protocol. */
module RefundSafety {
  import opened Wrappers
  import opened RefundRecord
  import opened RefundChain
  import opened RefundCoordinator
  import opened RefundProtocol

  // ---- the invariant -------------------------------------------------------------

  predicate Stored(s: Sys, r: RefundId, e: Envelope) {
    r in s.records && s.records[r].signedXdr == Some(e)
  }

  /** The heart of it: an envelope that may be out there is either the one the
      record remembers, or can never be paid. */
  predicate StoredOrDead(s: Sys, r: RefundId, e: Envelope) {
    Stored(s, r, e) || Dead(s.chain, e)
  }

  predicate HasReservation(s: Sys, r: RefundId) {
    && r in s.records && Find(s.rows, r).Some?
    && Find(s.rows, r).value.paymentTx == s.records[r].payment.paymentTx
    && Find(s.rows, r).value.amount == s.records[r].refundAmount
  }

  predicate RecordOk(paid: map<string, int>, s: Sys, r: RefundId)
    requires r in s.records
  {
    var rec := s.records[r];
    match rec.state
    case Pending => Fresh(rec)
    case Leased =>
      && rec.lease.Some? && rec.refundTx.None? && rec.signedXdr.None?
      && rec.lease.value.id in s.leases && s.leases[rec.lease.value.id] == r && rec.lease.value.id !in s.accepted
    case _ =>
      && Complete(rec)
      && rec.lease.value.id in s.accepted && s.accepted[rec.lease.value.id] == (r, rec.signedXdr.value)
      && Pays(rec, rec.signedXdr.value) && HasReservation(s, r) && Payable(paid, Job(r, rec))
      && (rec.state == ManualReview ==> (r, rec.signedXdr.value) in s.sent)
      && (rec.state == RefundState.Confirmed ==> Succeeded(s.chain, rec.signedXdr.value))
  }

  predicate Pays(rec: RefundRecord, e: Envelope) {
    e.payee == rec.payment.payer && e.amount == rec.refundAmount
  }

  predicate JobOk(s: Sys, job: Job) {
    && job.refundId in s.records
    && job.record.payment == s.records[job.refundId].payment
    && job.record.refundAmount == s.records[job.refundId].refundAmount
  }

  predicate Unspent(s: Sys, lease: LeaseId, r: RefundId) {
    lease in s.leases && s.leases[lease] == r && lease !in s.accepted
  }

  predicate Spent(s: Sys, lease: LeaseId, r: RefundId, e: Envelope) {
    lease in s.accepted && s.accepted[lease] == (r, e) && lease in s.leases
  }

  predicate ExecOk(paid: map<string, int>, s: Sys, ex: Exec) {
    && JobOk(s, ex.job)
    && (!ex.Listed? ==> HasReservation(s, ex.job.refundId) && Payable(paid, ex.job))
    && match ex
       case Listed(job) =>
         job.record.state == Submitted ==>
           && Complete(job.record)
           && Spent(s, job.record.lease.value.id, job.refundId, job.record.signedXdr.value)
           && Pays(job.record, job.record.signedXdr.value)
           && StoredOrDead(s, job.refundId, job.record.signedXdr.value)
       case Cleared(job) => true
       case Holding(job, lease) => Unspent(s, lease, job.refundId)
       case Signed(job, lease, e) => Unspent(s, lease, job.refundId) && Pays(job.record, e)
       case Checked(job, lease, e) => Unspent(s, lease, job.refundId) && Pays(job.record, e)
       case Accepted(job, lease, e) =>
         Spent(s, lease, job.refundId, e) && Pays(job.record, e) && StoredOrDead(s, job.refundId, e)
       case Sent(job, lease, e) =>
         && Spent(s, lease, job.refundId, e) && Pays(job.record, e) && StoredOrDead(s, job.refundId, e)
         && (job.refundId, e) in s.sent
       case Refused(job, lease, e) =>
         && Spent(s, lease, job.refundId, e) && Pays(job.record, e) && StoredOrDead(s, job.refundId, e)
         && (job.refundId, e) in s.sent
       case Proven(job, lease, tx) =>
         Spent(s, lease, job.refundId, tx.envelope) && Succeeded(s.chain, tx.envelope)
       case Condemned(job, lease, tx) =>
         Spent(s, lease, job.refundId, tx.envelope) && Expired(s.chain, tx.envelope)
  }

  predicate HoldsUnspent(ex: Exec) {
    ex.Holding? || ex.Signed? || ex.Checked?
  }

  predicate SentOk(s: Sys, r: RefundId, e: Envelope) {
    r in s.records && StoredOrDead(s, r, e) && HasReservation(s, r) && Pays(s.records[r], e)
  }

  ghost predicate Inv(paid: map<string, int>, s: Sys) {
    && (forall r :: r in s.records ==> RecordOk(paid, s, r))
    && (forall x :: x in s.execs ==> ExecOk(paid, s, s.execs[x]))
    && (forall x, y | x in s.execs && y in s.execs && HoldsUnspent(s.execs[x]) && HoldsUnspent(s.execs[y]) ::
          s.execs[x].lease == s.execs[y].lease ==> x == y)
    && (forall r, e :: (r, e) in s.sent ==> SentOk(s, r, e))
    && (forall l :: l in s.accepted ==> l in s.leases && SentOk(s, s.accepted[l].0, s.accepted[l].1))
    && TableOk(s.rows) && FundedBy(s.rows, paid)
    && (forall i :: 0 <= i < |s.rows| ==> HasReservation(s, s.rows[i].refundId))
    && ChainOk(s.chain)
    && (forall e :: e in s.chain.included ==> e in SentEnvelopes(s))
  }

  // ---- what every step leaves in place -------------------------------------------

  /** `later` extends `s`: nothing identifying is rewritten, no lease, acceptance,
      broadcast or reservation is forgotten, and dead or remembered envelopes stay so. */
  ghost predicate Extends(s: Sys, later: Sys) {
    && (forall r :: r in s.records ==>
          && r in later.records && later.records[r].payment == s.records[r].payment
          && later.records[r].refundAmount == s.records[r].refundAmount)
    && (forall r :: r in s.records && Find(s.rows, r).Some? ==> Find(later.rows, r) == Find(s.rows, r))
    && (forall l :: l in s.leases ==> l in later.leases && later.leases[l] == s.leases[l])
    && (forall l :: l in s.accepted ==> l in later.accepted && later.accepted[l] == s.accepted[l])
    && s.sent <= later.sent
    && s.signed <= later.signed
    && (forall e :: Succeeded(s.chain, e) ==> Succeeded(later.chain, e))
    && (forall e :: Dead(s.chain, e) ==> Dead(later.chain, e))
    && (forall e :: Expired(s.chain, e) ==> Expired(later.chain, e))
    && (forall r, e :: StoredOrDead(s, r, e) ==> StoredOrDead(later, r, e))
  }

  lemma ExecStaysOk(paid: map<string, int>, s: Sys, later: Sys, ex: Exec)
    requires ExecOk(paid, s, ex) && Extends(s, later)
    requires HoldsUnspent(ex) ==> ex.lease !in later.accepted
    ensures ExecOk(paid, later, ex)
  {
  }

  lemma RecordStaysOk(paid: map<string, int>, s: Sys, later: Sys, r: RefundId)
    requires r in s.records && RecordOk(paid, s, r) && Extends(s, later) && later.records[r] == s.records[r]
    requires s.records[r].state == Leased ==> s.records[r].lease.value.id !in later.accepted
    ensures RecordOk(paid, later, r)
  {
  }

  /** No executor other than x still has an unspent lease l. */
  ghost predicate NobodyElseHolds(s: Sys, x: ExecId, l: LeaseId) {
    forall y :: y in s.execs && y != x && HoldsUnspent(s.execs[y]) ==> s.execs[y].lease != l
  }

  ghost function Above(ids: set<nat>): (l: nat)
    ensures forall i :: i in ids ==> i < l
  {
    if ids == {} then 0
    else
      var i :| i in ids;
      var rest := Above(ids - {i});
      assert forall j :: j in ids ==> j == i || j in ids - {i};
      if i < rest then rest else i + 1
  }

  /** A run not begun, with no job of its own. */
  ghost function FreshRun(s: Sys): (run: RunId)
    ensures run !in s.runs && forall x :: x in s.execs ==> x.run != run
  {
    var ids := s.runs.Keys + set x | x in s.execs :: x.run;
    assert forall x :: x in s.execs ==> x.run in ids;
    Above(ids)
  }

  ghost function UnheldLease(paid: map<string, int>, s: Sys, x: ExecId): (l: LeaseId)
    requires Inv(paid, s)
    ensures NobodyElseHolds(s, x, l) && l !in s.leases && l !in s.accepted
  {
    NewLeaseIsUnheld(paid, s, x, Above(s.leases.Keys));
    Above(s.leases.Keys)
  }

  lemma NewLeaseIsUnheld(paid: map<string, int>, s: Sys, x: ExecId, l: LeaseId)
    requires Inv(paid, s) && l !in s.leases
    ensures NobodyElseHolds(s, x, l) && l !in s.accepted
  {
  }

  /** What Inv says of one executor, its record and its lease. */
  lemma ExecFacts(paid: map<string, int>, s: Sys, x: ExecId)
    requires Inv(paid, s) && x in s.execs
    ensures ExecOk(paid, s, s.execs[x])
    ensures s.execs[x].job.refundId in s.records && RecordOk(paid, s, s.execs[x].job.refundId)
    ensures HoldsUnspent(s.execs[x]) ==> NobodyElseHolds(s, x, s.execs[x].lease)
  {
  }

  /** What a step has to show that touches at most executor x, record r and lease l. */
  ghost predicate GoodMove(paid: map<string, int>, s: Sys, later: Sys, x: ExecId, r: RefundId, l: LeaseId) {
    && Extends(s, later)
    && (forall y :: y in later.execs && y != x ==> y in s.execs && later.execs[y] == s.execs[y])
    && (forall q :: q in later.records && q != r ==> q in s.records && later.records[q] == s.records[q])
    && later.rows == s.rows && later.chain == s.chain
    && (forall m :: m in later.accepted && m !in s.accepted ==>
          m == l && l in s.leases && s.leases[l] == r && SentOk(later, later.accepted[l].0, later.accepted[l].1))
    && (r in later.records ==> RecordOk(paid, later, r))
    && (x in later.execs ==>
          ExecOk(paid, later, later.execs[x]) && (HoldsUnspent(later.execs[x]) ==> later.execs[x].lease == l))
    && (forall q, e :: (q, e) in later.sent && (q, e) !in s.sent ==> SentOk(later, q, e))
  }

  lemma OtherExecStaysOk(paid: map<string, int>, s: Sys, later: Sys, x: ExecId, l: LeaseId, y: ExecId)
    requires Extends(s, later) && NobodyElseHolds(s, x, l) && y in s.execs && y != x && ExecOk(paid, s, s.execs[y])
    requires forall m :: m in later.accepted && m !in s.accepted ==> m == l
    ensures ExecOk(paid, later, s.execs[y])
  {
  }

  lemma ExecsStayOk(paid: map<string, int>, s: Sys, later: Sys, x: ExecId, r: RefundId, l: LeaseId)
    requires forall y :: y in s.execs ==> ExecOk(paid, s, s.execs[y])
    requires GoodMove(paid, s, later, x, r, l) && NobodyElseHolds(s, x, l)
    ensures forall y :: y in later.execs ==> ExecOk(paid, later, later.execs[y])
  {
    forall y | y in later.execs && y != x
      ensures ExecOk(paid, later, later.execs[y])
    {
      OtherExecStaysOk(paid, s, later, x, l, y);
    }
  }

  lemma RecordsStayOk(paid: map<string, int>, s: Sys, later: Sys, x: ExecId, r: RefundId, l: LeaseId)
    requires Inv(paid, s) && GoodMove(paid, s, later, x, r, l)
    ensures forall q :: q in later.records ==> RecordOk(paid, later, q)
  {
  }

  lemma TablesStayOk(paid: map<string, int>, s: Sys, later: Sys)
    requires Inv(paid, s) && Extends(s, later) && later.rows == s.rows
    ensures forall q, e :: (q, e) in s.sent ==> SentOk(later, q, e)
    ensures forall m :: m in s.accepted ==>
              m in later.accepted && SentOk(later, later.accepted[m].0, later.accepted[m].1)
    ensures forall i :: 0 <= i < |later.rows| ==> HasReservation(later, later.rows[i].refundId)
    ensures SentEnvelopes(s) <= SentEnvelopes(later)
  {
  }

  lemma MoveKeepsInv(paid: map<string, int>, s: Sys, later: Sys, x: ExecId, r: RefundId, l: LeaseId)
    requires Inv(paid, s) && GoodMove(paid, s, later, x, r, l) && NobodyElseHolds(s, x, l)
    ensures Inv(paid, later)
  {
    ExecsStayOk(paid, s, later, x, r, l);
    RecordsStayOk(paid, s, later, x, r, l);
    TablesStayOk(paid, s, later);
  }

  /** When one record is rewritten, all that has to be seen is that the envelope
      it remembered is remembered still, or dead. */
  lemma RewriteExtends(s: Sys, later: Sys, r: RefundId)
    requires r in later.records && later.records == s.records[r := later.records[r]]
    requires r in s.records ==>
               && later.records[r].payment == s.records[r].payment
               && later.records[r].refundAmount == s.records[r].refundAmount
               && (s.records[r].signedXdr.Some? ==> StoredOrDead(later, r, s.records[r].signedXdr.value))
    requires later.rows == s.rows && later.chain == s.chain && later.sent == s.sent && later.signed == s.signed
    requires forall l :: l in s.leases ==> l in later.leases && later.leases[l] == s.leases[l]
    requires forall l :: l in s.accepted ==> l in later.accepted && later.accepted[l] == s.accepted[l]
    ensures Extends(s, later)
  {
  }

  /** An executor moves, or stops, and nothing else happens. */
  lemma ExecMoveIsGood(paid: map<string, int>, s: Sys, later: Sys, x: ExecId, r: RefundId, l: LeaseId)
    requires later == s.(execs := later.execs, signed := later.signed) && s.signed <= later.signed
    requires forall y :: y in later.execs && y != x ==> y in s.execs && later.execs[y] == s.execs[y]
    requires r in s.records && RecordOk(paid, s, r)
    requires x in later.execs ==>
               ExecOk(paid, s, later.execs[x]) && (HoldsUnspent(later.execs[x]) ==> later.execs[x].lease == l)
    ensures GoodMove(paid, s, later, x, r, l)
  {
  }

  lemma ExecMoveKeepsInv(paid: map<string, int>, s: Sys, x: ExecId, ex: Exec)
    requires Inv(paid, s) && ExecOk(paid, s, ex)
    requires HoldsUnspent(ex) ==> NobodyElseHolds(s, x, ex.lease)
    ensures Inv(paid, At(s, x, ex))
  {
    var l := if HoldsUnspent(ex) then ex.lease else UnheldLease(paid, s, x);
    ExecMoveIsGood(paid, s, At(s, x, ex), x, ex.job.refundId, l);
    MoveKeepsInv(paid, s, At(s, x, ex), x, ex.job.refundId, l);
  }

  lemma StopKeepsInv(paid: map<string, int>, s: Sys, x: ExecId)
    requires Inv(paid, s) && x in s.execs
    ensures Inv(paid, Stopped(s, x))
  {
    var l := UnheldLease(paid, s, x);
    assert ExecOk(paid, s, s.execs[x]);
    ExecMoveIsGood(paid, s, Stopped(s, x), x, s.execs[x].job.refundId, l);
    MoveKeepsInv(paid, s, Stopped(s, x), x, s.execs[x].job.refundId, l);
  }
}
