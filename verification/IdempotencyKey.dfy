/** The key material of paid requests: fields with their byte length in front, joined,
    and hashed. A string here is the UTF-8 form, one char for one byte. */
module IdempotencyKey {
  import opened Wrappers
  import opened Decimal

  function LengthPrefixed(value: string): string { Digits(|value|) + ":" + value }

  function Material(fields: seq<string>): string {
    if fields == [] then "" else LengthPrefixed(fields[0]) + Material(fields[1..])
  }

  /** Reads one field off the front: the digits up to the first colon say how long. */
  function ReadField(s: string): Option<(string, string)> {
    var (length, rest) := SplitAt(s, ':');
    if rest.None? || length == [] || !AllDigits(length) || ValueOf(length) > |rest.value| then None
    else Some((rest.value[..ValueOf(length)], rest.value[ValueOf(length)..]))
  }

  function ReadFields(s: string): Option<seq<string>>
    decreases |s|
  {
    if s == [] then Some([])
    else match ReadField(s)
      case None => None
      case Some((field, rest)) =>
        if |rest| >= |s| then None
        else match ReadFields(rest)
          case None => None
          case Some(more) => Some([field] + more)
  }

  /** Whatever digits and colons a field holds, it is read back, and what follows it is
      left. */
  lemma FieldReadsBack(value: string, rest: string)
    ensures ReadField(LengthPrefixed(value) + rest) == Some((value, rest))
  {
    var s := LengthPrefixed(value) + rest;
    ValueOfDigits(|value|);
    assert ':' !in Digits(|value|);
    assert s == Digits(|value|) + ":" + (value + rest);
    SplitJoined(Digits(|value|), ':', value + rest);
    assert (value + rest)[..|value|] == value && (value + rest)[|value|..] == rest;
  }

  /** The decoder inverts the encoding of every list of fields. */
  lemma {:induction false} MaterialReadsBack(fields: seq<string>)
    ensures ReadFields(Material(fields)) == Some(fields)
    decreases |fields|
  {
    if fields != [] {
      var rest := Material(fields[1..]);
      FieldReadsBack(fields[0], rest);
      MaterialReadsBack(fields[1..]);
      assert fields == [fields[0]] + fields[1..];
    }
  }

  /** So no field can absorb a delimiter and pass for its neighbour: equal material
      means equal lists, of whatever lengths. */
  lemma MaterialIsInjective(a: seq<string>, b: seq<string>)
    ensures Material(a) == Material(b) <==> a == b
  {
    MaterialReadsBack(a);
    MaterialReadsBack(b);
  }

  /** A plain join is not: two requests that a newline makes one. */
  lemma JoinIsNotInjective()
    ensures exists a, b, c, d: string :: (a, b) != (c, d) && a + "\n" + b == c + "\n" + d
  {
    var a, b, c, d := "openrouter\nX", "Y", "openrouter", "X\nY";
    assert |a| != |c|;
    assert a + "\n" + b == c + "\n" + d;
  }

  // ---- the two keys ---------------------------------------------------------------------

  datatype Request = Request(
    payer: string, routeId: string, method_: string, upstreamPath: string, forwardedSearch: string,
    requestId: string, body: Option<string>)

  /** What SHA-256 is taken to be: no two texts have one digest. */
  ghost predicate IdealHash(sha: string -> string) {
    forall x, y :: sha(x) == sha(y) ==> x == y
  }

  function BuildIdempotencyKey(sha: string -> string, p: Request): string {
    "idempotency:v2:" + sha(Material([p.payer, p.routeId, p.method_, p.upstreamPath, p.forwardedSearch, p.requestId,
                                      sha(p.body.UnwrapOr(""))]))
  }

  /** The x402 key puts the payload's hash where the other has the payer, and has no
      request id. */
  function BuildX402ReplayKey(sha: string -> string, payloadHash: string, p: Request): string {
    "idempotency:x402:" + sha(Material([payloadHash, p.routeId, p.method_, p.upstreamPath, p.forwardedSearch,
                                        sha(p.body.UnwrapOr(""))]))
  }

  /** Two requests share a key exactly when they agree in everything that decides the
      response; a missing body counts as an empty one. */
  lemma KeyIdentifiesRequest(sha: string -> string, p: Request, q: Request)
    requires IdealHash(sha)
    ensures BuildIdempotencyKey(sha, p) == BuildIdempotencyKey(sha, q)
            <==> p.(body := None) == q.(body := None) && p.body.UnwrapOr("") == q.body.UnwrapOr("")
  {
    var a := [p.payer, p.routeId, p.method_, p.upstreamPath, p.forwardedSearch, p.requestId, sha(p.body.UnwrapOr(""))];
    var b := [q.payer, q.routeId, q.method_, q.upstreamPath, q.forwardedSearch, q.requestId, sha(q.body.UnwrapOr(""))];
    MaterialIsInjective(a, b);
    SameTail("idempotency:v2:", sha(Material(a)), sha(Material(b)));
    if a == b {
      assert a[0] == b[0] && a[1] == b[1] && a[2] == b[2] && a[3] == b[3];
      assert a[4] == b[4] && a[5] == b[5] && a[6] == b[6];
    }
  }

  lemma X402KeyIdentifiesRequest(sha: string -> string, h: string, p: Request, k: string, q: Request)
    requires IdealHash(sha)
    ensures BuildX402ReplayKey(sha, h, p) == BuildX402ReplayKey(sha, k, q)
            <==> h == k
                 && p.(payer := "", requestId := "", body := None) == q.(payer := "", requestId := "", body := None)
                 && p.body.UnwrapOr("") == q.body.UnwrapOr("")
  {
    var a := [h, p.routeId, p.method_, p.upstreamPath, p.forwardedSearch, sha(p.body.UnwrapOr(""))];
    var b := [k, q.routeId, q.method_, q.upstreamPath, q.forwardedSearch, sha(q.body.UnwrapOr(""))];
    MaterialIsInjective(a, b);
    SameTail("idempotency:x402:", sha(Material(a)), sha(Material(b)));
    if a == b {
      assert a[0] == b[0] && a[1] == b[1] && a[2] == b[2] && a[3] == b[3] && a[4] == b[4] && a[5] == b[5];
    }
  }

  lemma SameTail(prefix: string, a: string, b: string)
    ensures prefix + a == prefix + b <==> a == b
  {
    assert (prefix + a)[|prefix|..] == a && (prefix + b)[|prefix|..] == b;
  }
}
