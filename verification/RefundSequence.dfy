/** Sequence numbers over one run of the refund signer, whose reads of the account may
    lag behind what the network has already taken. */
module RefundSequence {
  import opened Wrappers

  datatype SendStatus = Pending | Duplicate | TryAgainLater | Error

  /** Whether the network took the sequence number. */
  predicate ConsumesSequence(status: SendStatus) { status == Pending || status == Duplicate }

  /** One job's use of the account: a fresh envelope built on the sequence read, or a
      stored one sent again. */
  datatype Turn = SignAndSend(fetched: int, status: SendStatus) | Resend(stored: int, status: SendStatus)

  predicate Taken(turn: Turn) { ConsumesSequence(turn.status) }

  /** What a run builds on, given the account as read and the last sequence the network
      took from this run. */
  function Advanced(last: Option<int>, fetched: int): int {
    if last.Some? && fetched < last.value then last.value else fetched
  }

  function Recorded(last: Option<int>, sequence: int): Option<int> {
    if last.None? || sequence > last.value then Some(sequence) else last
  }

  class RefundSequenceGuard {
    var lastAccepted: Option<int>

    constructor ()
      ensures lastAccepted.None?
    {
      lastAccepted := None;
    }

    /** A sequence no older than the last one the network took. */
    method Advance(fetched: int) returns (sequence: int)
      ensures sequence >= fetched && (lastAccepted.Some? ==> sequence >= lastAccepted.value)
      ensures sequence == fetched || lastAccepted == Some(sequence)
      ensures sequence == Advanced(lastAccepted, fetched)
    {
      if lastAccepted.Some? && fetched < lastAccepted.value {
        return lastAccepted.value;
      }
      sequence := fetched;
    }

    /** The record only moves forward, and never behind what was just taken. */
    method RecordAccepted(sequence: int)
      modifies this
      ensures lastAccepted.Some? && lastAccepted.value >= sequence
      ensures old(lastAccepted).Some? ==> lastAccepted.value >= old(lastAccepted).value
      ensures lastAccepted == Some(sequence) || lastAccepted == old(lastAccepted)
      ensures lastAccepted == Recorded(old(lastAccepted), sequence)
    {
      if lastAccepted.None? || sequence > lastAccepted.value {
        lastAccepted := Some(sequence);
      }
    }
  }

  /** The run, job after job. Every envelope signed comes after all those the network
      has taken in this run, so none is built on a sequence already spent; and it comes
      directly after the sequence read or one taken, so a rejected one leaves no gap. */
  method RunTurns(turns: seq<Turn>) returns (used: seq<int>)
    ensures |used| == |turns|
    ensures forall k :: 0 <= k < |turns| && turns[k].Resend? ==> used[k] == turns[k].stored
    ensures forall j, k :: 0 <= j < k < |turns| && Taken(turns[j]) && turns[k].SignAndSend? ==> used[k] > used[j]
    ensures forall k :: 0 <= k < |turns| && turns[k].SignAndSend? ==>
              used[k] > turns[k].fetched
              && (used[k] == turns[k].fetched + 1
                  || exists j :: 0 <= j < k && Taken(turns[j]) && used[k] == used[j] + 1)
  {
    var guard := new RefundSequenceGuard();
    used := [];
    for i := 0 to |turns|
      invariant |used| == i
      invariant forall k :: 0 <= k < i && turns[k].Resend? ==> used[k] == turns[k].stored
      invariant forall j, k :: 0 <= j < k < i && Taken(turns[j]) && turns[k].SignAndSend? ==> used[k] > used[j]
      invariant forall k :: 0 <= k < i && turns[k].SignAndSend? ==>
                  used[k] > turns[k].fetched
                  && (used[k] == turns[k].fetched + 1
                      || exists j :: 0 <= j < k && Taken(turns[j]) && used[k] == used[j] + 1)
      invariant forall k :: 0 <= k < i && Taken(turns[k]) ==>
                  guard.lastAccepted.Some? && used[k] <= guard.lastAccepted.value
      invariant guard.lastAccepted.Some? ==>
                  exists k :: 0 <= k < i && Taken(turns[k]) && used[k] == guard.lastAccepted.value
    {
      var sequence;
      ghost var before := used;
      match turns[i] {
        case SignAndSend(fetched, _) =>
          var base := guard.Advance(fetched);
          sequence := base + 1;
        case Resend(stored, _) =>
          sequence := stored;
      }
      used := used + [sequence];
      assert forall k :: 0 <= k < i ==> used[k] == before[k];
      if Taken(turns[i]) {
        guard.RecordAccepted(sequence);
        assert used[i] == sequence;
      }
    }
  }
}
