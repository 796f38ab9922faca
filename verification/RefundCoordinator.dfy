/** The executor's reservation table: one row per refund, the rows of one payment
    never adding up to more than was paid. */
module RefundCoordinator {
  import opened Wrappers

  datatype Row = Row(refundId: string, paymentTx: string, amount: int, paid: int, confirmed: bool)

  datatype Reservation = Reserved | AlreadyReserved | ProofChanged | ExceedsPayment

  function SumFor(rows: seq<Row>, paymentTx: string): int {
    if rows == [] then 0
    else SumFor(rows[..|rows| - 1], paymentTx)
         + if rows[|rows| - 1].paymentTx == paymentTx then rows[|rows| - 1].amount else 0
  }

  function Find(rows: seq<Row>, refundId: string): Option<Row> {
    if rows == [] then None
    else if rows[|rows| - 1].refundId == refundId then Some(rows[|rows| - 1])
    else Find(rows[..|rows| - 1], refundId)
  }

  predicate WithinPaid(reserved: int, amount: int, paid: int) {
    !(reserved < 0 || amount <= 0 || paid <= 0 || reserved + amount > paid)
  }

  /** One row a refund, positive amounts, and for each payment a total no larger
      than what any of its rows was told had been paid. */
  ghost predicate TableOk(rows: seq<Row>) {
    && (forall i, j :: 0 <= i < |rows| && 0 <= j < |rows| && rows[i].refundId == rows[j].refundId ==> i == j)
    && (forall i :: 0 <= i < |rows| ==> rows[i].amount > 0)
  }

  ghost predicate FundedBy(rows: seq<Row>, paid: map<string, int>) {
    forall i :: 0 <= i < |rows| ==>
      && rows[i].paymentTx in paid && rows[i].paid == paid[rows[i].paymentTx]
      && SumFor(rows, rows[i].paymentTx) <= paid[rows[i].paymentTx]
  }

  lemma SumOfOneMore(rows: seq<Row>, row: Row, paymentTx: string)
    ensures SumFor(rows + [row], paymentTx)
            == SumFor(rows, paymentTx) + if row.paymentTx == paymentTx then row.amount else 0
  {
  }

  lemma {:induction false} FindIsMembership(rows: seq<Row>, refundId: string)
    ensures match Find(rows, refundId)
            case Some(row) => row in rows && row.refundId == refundId
            case None => forall i :: 0 <= i < |rows| ==> rows[i].refundId != refundId
  {
    if rows != [] {
      FindIsMembership(rows[..|rows| - 1], refundId);
    }
  }

  lemma {:induction false} FindIsComplete(rows: seq<Row>, i: nat)
    requires TableOk(rows) && i < |rows|
    ensures Find(rows, rows[i].refundId) == Some(rows[i])
  {
    FindIsMembership(rows, rows[i].refundId);
  }

  lemma FindInOneMore(rows: seq<Row>, row: Row, refundId: string)
    ensures Find(rows + [row], refundId) == if row.refundId == refundId then Some(row) else Find(rows, refundId)
  {
  }

  /** Reserving as a change of the table. */
  function ReserveRows(rows: seq<Row>, refundId: string, paymentTx: string, amount: int, paid: int)
    : (seq<Row>, Reservation)
  {
    match Find(rows, refundId)
    case Some(row) =>
      (rows, if row.paymentTx != paymentTx || row.amount != amount || row.paid != paid
             then ProofChanged else AlreadyReserved)
    case None =>
      if !WithinPaid(SumFor(rows, paymentTx), amount, paid) then (rows, ExceedsPayment)
      else (rows + [Row(refundId, paymentTx, amount, paid, false)], Reserved)
  }

  /** Whatever is asked, in whatever order: as long as `paid` is what the chain says
      was paid, no payment's reservations ever exceed it, and an accepted request
      is on the table under exactly the terms asked for. */
  lemma ReserveKeepsTable(rows: seq<Row>, refundId: string, paymentTx: string, amount: int, paidFor: map<string, int>)
    requires TableOk(rows) && FundedBy(rows, paidFor) && paymentTx in paidFor
    ensures var (rows', r) := ReserveRows(rows, refundId, paymentTx, amount, paidFor[paymentTx]);
            && TableOk(rows') && FundedBy(rows', paidFor) && rows <= rows'
            && ((r == Reserved || r == AlreadyReserved) ==>
                  Find(rows', refundId).Some?
                  && var row := Find(rows', refundId).value;
                     row.paymentTx == paymentTx && row.amount == amount && row.refundId == refundId)
  {
    var paid := paidFor[paymentTx];
    var row := Row(refundId, paymentTx, amount, paid, false);
    var rows' := ReserveRows(rows, refundId, paymentTx, amount, paid).0;
    FindIsMembership(rows, refundId);
    if rows' != rows {
      assert rows' == rows + [row];
      FindInOneMore(rows, row, refundId);
      forall i | 0 <= i < |rows'|
        ensures SumFor(rows', rows'[i].paymentTx) <= paidFor[rows'[i].paymentTx]
      {
        SumOfOneMore(rows, row, rows'[i].paymentTx);
      }
    }
  }

  lemma {:induction false} SumIsNotNegative(rows: seq<Row>, paymentTx: string)
    requires forall i :: 0 <= i < |rows| ==> rows[i].amount > 0
    ensures SumFor(rows, paymentTx) >= 0
  {
    if rows != [] {
      SumIsNotNegative(rows[..|rows| - 1], paymentTx);
    }
  }

  /** A refund not yet on the table is reserved exactly when a positive amount of the
      payment is left for it. */
  lemma ReservesExactlyWhatFits(rows: seq<Row>, refundId: string, paymentTx: string, amount: int, paid: int)
    requires TableOk(rows) && Find(rows, refundId).None?
    ensures ReserveRows(rows, refundId, paymentTx, amount, paid).1 == Reserved
            <==> 0 < amount <= paid - SumFor(rows, paymentTx)
  {
    SumIsNotNegative(rows, paymentTx);
  }

  class RefundSignerCoordinator {
    var rows: seq<Row>

    constructor ()
      ensures rows == []
    {
      rows := [];
    }

    method Reserve(refundId: string, paymentTx: string, amount: int, paidAtomic: int) returns (r: Reservation)
      modifies this
      ensures (rows, r) == ReserveRows(old(rows), refundId, paymentTx, amount, paidAtomic)
    {
      var i := |rows|;
      assert rows[..i] == rows;
      while i > 0
        invariant 0 <= i <= |rows|
        invariant Find(rows, refundId) == Find(rows[..i], refundId)
      {
        assert rows[..i][..i - 1] == rows[..i - 1];
        if rows[i - 1].refundId == refundId {
          var existing := rows[i - 1];
          if existing.paymentTx != paymentTx || existing.amount != amount || existing.paid != paidAtomic {
            return ProofChanged;
          }
          return AlreadyReserved;
        }
        i := i - 1;
      }
      var reserved := 0;
      while i < |rows|
        invariant 0 <= i <= |rows|
        invariant reserved == SumFor(rows[..i], paymentTx)
      {
        assert rows[..i + 1][..i] == rows[..i];
        if rows[i].paymentTx == paymentTx {
          reserved := reserved + rows[i].amount;
        }
        i := i + 1;
      }
      assert rows[..|rows|] == rows;
      if !WithinPaid(reserved, amount, paidAtomic) {
        return ExceedsPayment;
      }
      rows := rows + [Row(refundId, paymentTx, amount, paidAtomic, false)];
      r := Reserved;
    }

    /** Confirming a row changes nothing a later reservation looks at. */
    method MarkConfirmed(refundId: string)
      modifies this
      ensures |rows| == |old(rows)|
      ensures forall i :: 0 <= i < |rows| ==>
                rows[i] == if old(rows)[i].refundId == refundId then old(rows)[i].(confirmed := true) else old(rows)[i]
      ensures forall p :: SumFor(rows, p) == SumFor(old(rows), p)
    {
      var i := 0;
      while i < |rows|
        invariant 0 <= i <= |rows| == |old(rows)|
        invariant forall j :: 0 <= j < |rows| ==>
                    rows[j] == if j < i && old(rows)[j].refundId == refundId then old(rows)[j].(confirmed := true)
                               else old(rows)[j]
      {
        if rows[i].refundId == refundId {
          rows := rows[i := rows[i].(confirmed := true)];
        }
        i := i + 1;
      }
      forall p: string
        ensures SumFor(rows, p) == SumFor(old(rows), p)
      {
        SumIgnoresConfirmation(old(rows), rows, p);
      }
    }
  }

  lemma {:induction false} SumIgnoresConfirmation(a: seq<Row>, b: seq<Row>, paymentTx: string)
    requires |a| == |b|
    requires forall i :: 0 <= i < |a| ==> a[i].(confirmed := false) == b[i].(confirmed := false)
    ensures SumFor(a, paymentTx) == SumFor(b, paymentTx)
  {
    if a != [] {
      SumIgnoresConfirmation(a[..|a| - 1], b[..|b| - 1], paymentTx);
      var x, y := a[|a| - 1].(confirmed := false), b[|b| - 1].(confirmed := false);
      assert x == y;
      assert x.paymentTx == a[|a| - 1].paymentTx && x.amount == a[|a| - 1].amount;
    }
  }
}
