/** The ledger's storage key of a consumed payment, and reading it back when totals are
    reported. */
module ConsumedKey {
  import opened Decimal

  function KeyOf(txHash: string, opIndex: nat): string { "consumed:" + txHash + ":" + Digits(opIndex) }

  function LastIndexOf(s: string, c: char): (k: int)
    ensures -1 <= k < |s|
  {
    if s == [] then -1 else if s[|s| - 1] == c then |s| - 1 else LastIndexOf(s[..|s| - 1], c)
  }

  /** The key without its prefix, cut at the last colon. */
  function ReadKey(key: string): (string, string)
    requires |key| >= |"consumed:"| && LastIndexOf(key[|"consumed:"|..], ':') >= 0
  {
    var rest := key[|"consumed:"|..];
    var sep := LastIndexOf(rest, ':');
    (rest[..sep], rest[sep + 1..])
  }

  lemma {:induction false} LastColon(a: string, b: string)
    requires ':' !in b
    ensures LastIndexOf(a + ":" + b, ':') == |a|
    decreases |b|
  {
    var s := a + ":" + b;
    if b != [] {
      var n := |b| - 1;
      assert s[|s| - 1] == b[n] && b[n] in b;
      assert s[..|s| - 1] == a + ":" + b[..n];
      LastColon(a, b[..n]);
    }
  }

  /** Whatever the hash contains, the report names the payment that was consumed; so two
      payments never share a key. */
  lemma KeyReadsBack(txHash: string, opIndex: nat)
    ensures var key := KeyOf(txHash, opIndex);
            && LastIndexOf(key[|"consumed:"|..], ':') >= 0
            && ReadKey(key).0 == txHash && AllDigits(ReadKey(key).1) && ValueOf(ReadKey(key).1) == opIndex
  {
    var key, index := KeyOf(txHash, opIndex), Digits(opIndex);
    var rest := txHash + ":" + index;
    ValueOfDigits(opIndex);
    assert ':' !in index;
    assert key == "consumed:" + rest;
    assert key[|"consumed:"|..] == rest;
    LastColon(txHash, index);
    assert rest[..|txHash|] == txHash && rest[|txHash| + 1..] == index;
  }
}
