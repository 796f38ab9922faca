/** Undoing the charge of a call that must not stand: the accepted watermark is put
    back, and the challenge the call had used is removed. */
module ChannelRollback {
  import opened Wrappers
  import opened StoreChange
  import opened Channel

  /** The channel's watermark, and whether the failed call's challenge is stored. */
  datatype Accepted = Accepted(watermark: Option<Watermark>, challenge: bool)

  /** The first of two writes. A crash may leave it at that. */
  function RolledBack(s: Accepted, accepted: nat, previous: nat): Accepted {
    s.(watermark := Updated(s.watermark, RollbackChange(s.watermark, accepted, previous)))
  }

  function Rollback(s: Accepted, accepted: nat, previous: nat): (Accepted, bool) {
    if RollbackChange(s.watermark, accepted, previous).result
    then (RolledBack(s, accepted, previous).(challenge := false), true)
    else (s, AmountOf(s.watermark) == previous && !s.challenge)
  }

  /** A watermark some later voucher moved, or one being settled, is left alone; any
      other goes back to exactly what it was before the call. */
  lemma RollbackUndoesOwnCharge(s: Accepted, accepted: nat, previous: nat)
    ensures var (after, ok) := Rollback(s, accepted, previous);
            if s.watermark.Some? && s.watermark.value.amount == accepted && !s.watermark.value.settling
            then ok && AmountOf(after.watermark) == previous && !after.challenge
            else after == s
  {
  }

  /** Repeating a rollback that completed succeeds again and changes nothing. */
  lemma RollbackIsIdempotent(s: Accepted, accepted: nat, previous: nat)
    requires Rollback(s, accepted, previous).1 && accepted != previous
    ensures Rollback(Rollback(s, accepted, previous).0, accepted, previous)
            == (Rollback(s, accepted, previous).0, true)
  {
  }

  /** A retry of a rollback cut short by a crash after its first write reports success
      exactly when that write had changed nothing or the challenge was gone already. */
  lemma CutShortRollbackIsNotRecovered(s: Accepted, accepted: nat, previous: nat)
    requires RollbackChange(s.watermark, accepted, previous).result
    ensures Rollback(RolledBack(s, accepted, previous), accepted, previous).1
            <==> !s.challenge || (accepted == previous && previous != 0)
  {
  }
}
