/** Finding the deposit among a transaction's operations. */
module DepositScan {
  import opened Wrappers
  import opened Money

  datatype Operation = Operation(
    kind: string, to: string, assetCode: string, assetIssuer: string,
    from: Option<string>, sourceAccount: Option<string>, amount: Option<string>)

  datatype Wanted = Wanted(destination: string, account: string, amountAtomic: int, issuer: string)

  /** The account that pays: the operation's own source where it has one. */
  function PayingAccount(op: Operation): Option<string> {
    if op.sourceAccount.Some? then op.sourceAccount else op.from
  }

  /** A payment of exactly the amount wanted, in the asset wanted, from and to the
      accounts wanted. */
  predicate Pays(op: Operation, w: Wanted) {
    && op.kind == "payment" && op.to == w.destination && op.assetCode == "USDC" && op.assetIssuer == w.issuer
    && PayingAccount(op) == Some(w.account)
    && op.amount.Some? && op.amount.value != ""
    && HorizonAmountToAtomic(op.amount.value) == Some(w.amountAtomic)
  }

  /** The first operation that pays, or none exactly when there is none. */
  predicate IsFirstPayment(records: seq<Operation>, w: Wanted, found: Option<nat>) {
    match found
    case Some(i) => i < |records| && Pays(records[i], w) && forall k :: 0 <= k < i ==> !Pays(records[k], w)
    case None => forall k :: 0 <= k < |records| ==> !Pays(records[k], w)
  }

  method FindPayment(records: seq<Operation>, w: Wanted) returns (found: Option<nat>)
    ensures IsFirstPayment(records, w, found)
  {
    for index := 0 to |records|
      invariant forall k :: 0 <= k < index ==> !Pays(records[k], w)
    {
      var op := records[index];
      if op.kind != "payment" || op.to != w.destination { continue; }
      if op.assetCode != "USDC" || op.assetIssuer != w.issuer { continue; }
      if PayingAccount(op) != Some(w.account) { continue; }
      if op.amount.UnwrapOr("") == "" { continue; }
      if HorizonAmountToAtomic(op.amount.value) != Some(w.amountAtomic) { continue; }
      return Some(index);
    }
    found := None;
  }

  /** An amount written in Horizon's form matches just the integer it was written for. */
  lemma WrittenAmountMatches(op: Operation, w: Wanted, paid: nat)
    requires op.amount == Some(FormatUsdc7(paid))
    requires Pays(op.(amount := Some(FormatUsdc7(w.amountAtomic))), w)
    ensures Pays(op, w) <==> paid == w.amountAtomic
  {
    ParseInvertsFormatUsdc7(paid);
    ParseInvertsFormatUsdc7(w.amountAtomic);
    HorizonAgreesWithParseUsd(FormatUsdc7(paid));
    HorizonAgreesWithParseUsd(FormatUsdc7(w.amountAtomic));
    NotNegativeText(paid);
  }

  lemma NotNegativeText(n: nat)
    ensures !IsNegative(Trim(FormatUsdc7(n)))
    ensures FormatUsdc7(n) != ""
  {
  }
}
