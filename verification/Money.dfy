/** Amounts as text: the ledger's seven decimals, Horizon's amounts, and the partner
    pages' six decimals and credits. */
module Money {
  import opened Wrappers
  import opened Decimal

  const USDC_DECIMALS := 7
  const ONE_USDC := 10_000_000

  // ---- trimming, as the runtime does it ----------------------------------------------

  predicate IsSpace(c: char) {
    || '\U{9}' <= c <= '\U{D}' || c == ' ' || c == '\U{A0}' || c == '\U{1680}' || '\U{2000}' <= c <= '\U{200A}'
    || c == '\U{2028}' || c == '\U{2029}' || c == '\U{202F}' || c == '\U{205F}' || c == '\U{3000}' || c == '\U{FEFF}'
  }

  function TrimStart(s: string): string {
    if s != [] && IsSpace(s[0]) then TrimStart(s[1..]) else s
  }

  function TrimEnd(s: string): string {
    if s != [] && IsSpace(s[|s| - 1]) then TrimEnd(s[..|s| - 1]) else s
  }

  function Trim(s: string): string { TrimEnd(TrimStart(s)) }

  predicate AllSpaces(s: string) { forall k :: 0 <= k < |s| ==> IsSpace(s[k]) }

  lemma {:induction false} TrimStartSpaces(spaces: string, s: string)
    requires AllSpaces(spaces)
    ensures TrimStart(spaces + s) == TrimStart(s)
    decreases |spaces|
  {
    if spaces == [] {
      assert spaces + s == s;
    } else {
      assert (spaces + s)[1..] == spaces[1..] + s;
      TrimStartSpaces(spaces[1..], s);
    }
  }

  lemma {:induction false} TrimEndSpaces(s: string, spaces: string)
    requires AllSpaces(spaces)
    ensures TrimEnd(s + spaces) == TrimEnd(s)
    decreases |spaces|
  {
    var n := |spaces| - 1;
    if spaces == [] {
      assert s + spaces == s;
    } else {
      assert (s + spaces)[..|s + spaces| - 1] == s + spaces[..n];
      TrimEndSpaces(s, spaces[..n]);
    }
  }

  lemma {:induction false} TrimSpacesBehind(s: string, after: string)
    requires AllSpaces(after)
    ensures Trim(s + after) == Trim(s)
    decreases |s|
  {
    if s == [] {
      TrimStartSpaces(after, "");
      assert after + "" == after == s + after;
    } else if IsSpace(s[0]) {
      assert (s + after)[1..] == s[1..] + after;
      TrimSpacesBehind(s[1..], after);
    } else {
      TrimEndSpaces(s, after);
    }
  }

  lemma TrimPadded(before: string, s: string, after: string)
    requires AllSpaces(before) && AllSpaces(after)
    ensures Trim(before + s + after) == Trim(s)
  {
    assert before + s + after == before + (s + after);
    TrimStartSpaces(before, s + after);
    TrimSpacesBehind(s, after);
  }

  // ---- the ledger's codec ----------------------------------------------------------------

  predicate IsNegative(s: string) { s != [] && s[0] == '-' }

  function Unsigned(s: string): string { if IsNegative(s) then s[1..] else s }

  /** An optional sign, digits, and possibly a point followed by digits. */
  predicate IsDecimal(s: string) {
    var (whole, frac) := SplitAt(Unsigned(s), '.');
    |whole| >= 1 && AllDigits(whole) && (frac.Some? ==> |frac.value| >= 1 && AllDigits(frac.value))
  }

  function Scaled(whole: string, frac: string): (atomic: int)
    requires AllDigits(whole) && AllDigits(frac) && |frac| <= USDC_DECIMALS
    ensures atomic >= 0
  {
    PadEndScales(frac, USDC_DECIMALS);
    ValueOf(whole) * ONE_USDC + ValueOf(PadEnd(frac, USDC_DECIMALS))
  }

  /** None stands for the range error. */
  function ParseUsd(input: string): Option<int> {
    var s := Trim(input);
    if !IsDecimal(s) then None
    else
      var (whole, frac) := SplitAt(Unsigned(s), '.');
      if |frac.UnwrapOr("")| > USDC_DECIMALS then None
      else
        var atomic := Scaled(whole, frac.UnwrapOr(""));
        Some(if IsNegative(s) then -atomic else atomic)
  }

  function Sign(n: int): string { if n < 0 then "-" else "" }

  function Abs(n: int): nat { if n < 0 then -n else n }

  function Fraction7(n: int): string { PadStart(Digits(Abs(n) % ONE_USDC), USDC_DECIMALS) }

  function FormatUsdc7(n: int): string {
    Sign(n) + Digits(Abs(n) / ONE_USDC) + "." + Fraction7(n)
  }

  function DropTrailingZeros(s: string): string {
    if s != [] && s[|s| - 1] == '0' then DropTrailingZeros(s[..|s| - 1]) else s
  }

  function FormatUsd(n: int): string {
    var (whole, frac) := SplitAt(FormatUsdc7(n), '.');
    var trimmed := DropTrailingZeros(frac.UnwrapOr(""));
    whole + "." + if |trimmed| < 2 then PadEnd(trimmed, 2) else trimmed
  }

  // ---- facts about the parts -----------------------------------------------------------------

  lemma PowSeven()
    ensures Pow10(USDC_DECIMALS) == ONE_USDC
  {
  }

  lemma FractionIsSeven(n: int)
    ensures AllDigits(Fraction7(n)) && |Fraction7(n)| == 7 && ValueOf(Fraction7(n)) == Abs(n) % ONE_USDC
  {
    var d := Digits(Abs(n) % ONE_USDC);
    PowSeven();
    DigitsFit(Abs(n) % ONE_USDC, 7);
    ValueOfDigits(Abs(n) % ONE_USDC);
    PadStartKeepsValue(d, 7);
  }

  lemma DigitsAreNotSpecial(s: string)
    requires AllDigits(s)
    ensures '.' !in s && '-' !in s && forall k :: 0 <= k < |s| ==> !IsSpace(s[k])
  {
  }

  /** What a sign, digits, a point and at most seven digits parse to. */
  lemma ParseOfParts(sign: string, whole: string, frac: string)
    requires sign in {"", "-"} && AllDigits(whole) && AllDigits(frac) && |whole| >= 1 && 1 <= |frac| <= 7
    ensures ParseUsd(sign + whole + "." + frac)
            == Some(if sign == "-" then -Scaled(whole, frac) else Scaled(whole, frac))
  {
    var s := sign + whole + "." + frac;
    DigitsAreNotSpecial(whole);
    DigitsAreNotSpecial(frac);
    assert s[|s| - 1] == frac[|frac| - 1];
    assert s[0] == if sign == "-" then '-' else whole[0];
    assert Trim(s) == s;
    assert Unsigned(s) == whole + "." + frac;
    SplitJoined(whole, '.', frac);
  }

  lemma {:induction false} DroppedZeros(s: string)
    requires AllDigits(s)
    ensures var t := DropTrailingZeros(s);
            |t| <= |s| && AllDigits(t) && s == t + Zeros(|s| - |t|)
    decreases |s|
  {
    if s != [] && s[|s| - 1] == '0' {
      var n := |s| - 1;
      DroppedZeros(s[..n]);
      assert s == s[..n] + [s[n]];
    }
  }

  /** Zeros at the end of a fraction are worth nothing. */
  lemma ScaledPadded(whole: string, frac: string, k: nat)
    requires AllDigits(whole) && AllDigits(frac) && |frac| + k <= 7
    ensures AllDigits(frac + Zeros(k)) && Scaled(whole, frac + Zeros(k)) == Scaled(whole, frac)
  {
    assert frac + Zeros(k) + Zeros(7 - |frac| - k) == frac + Zeros(7 - |frac|);
    assert PadEnd(frac + Zeros(k), 7) == PadEnd(frac, 7);
  }

  /** The fraction shown keeps every digit that counts. */
  lemma ShownFraction(frac: string, whole: string)
    requires AllDigits(frac) && |frac| == 7 && AllDigits(whole)
    ensures var trimmed := DropTrailingZeros(frac);
            var shown := if |trimmed| < 2 then PadEnd(trimmed, 2) else trimmed;
            AllDigits(shown) && 2 <= |shown| <= 7 && Scaled(whole, shown) == Scaled(whole, frac)
  {
    var trimmed := DropTrailingZeros(frac);
    DroppedZeros(frac);
    ScaledPadded(whole, trimmed, 7 - |trimmed|);
    if |trimmed| < 2 {
      ScaledPadded(whole, trimmed, 2 - |trimmed|);
    }
  }

  lemma PartsRecompose(n: int)
    ensures AllDigits(Fraction7(n)) && |Fraction7(n)| == 7
    ensures Scaled(Digits(Abs(n) / ONE_USDC), Fraction7(n)) == Abs(n)
  {
    FractionIsSeven(n);
    ValueOfDigits(Abs(n) / ONE_USDC);
    assert PadEnd(Fraction7(n), 7) == Fraction7(n);
  }

  // ---- lossless both ways ----------------------------------------------------------------------

  /** Every integer survives the fixed form. */
  lemma ParseInvertsFormatUsdc7(n: int)
    ensures ParseUsd(FormatUsdc7(n)) == Some(n)
  {
    PartsRecompose(n);
    ParseOfParts(Sign(n), Digits(Abs(n) / ONE_USDC), Fraction7(n));
  }

  /** And the form for people, though it drops zeros. */
  lemma ParseInvertsFormatUsd(n: int)
    ensures ParseUsd(FormatUsd(n)) == Some(n)
  {
    var whole, frac := Digits(Abs(n) / ONE_USDC), Fraction7(n);
    PartsRecompose(n);
    DigitsAreNotSpecial(whole);
    assert '.' !in Sign(n) + whole;
    SplitJoined(Sign(n) + whole, '.', frac);
    assert FormatUsdc7(n) == (Sign(n) + whole) + ['.'] + frac;
    ShownFraction(frac, whole);
    var trimmed := DropTrailingZeros(frac);
    var shown := if |trimmed| < 2 then PadEnd(trimmed, 2) else trimmed;
    assert FormatUsd(n) == Sign(n) + whole + "." + shown;
    ParseOfParts(Sign(n), whole, shown);
  }

  /** Horizon's own form: no superfluous zeros before the point, seven digits after,
      and no negative zero. */
  predicate IsHorizonForm(sign: string, whole: string, frac: string) {
    && sign in {"", "-"} && Canonical(whole) && AllDigits(frac) && |frac| == 7
    && (sign == "-" ==> ValueOf(whole) > 0 || ValueOf(frac) > 0)
  }

  /** On text in that form, formatting undoes parsing: comparing the strings and
      comparing the integers come to the same. */
  lemma FormatInvertsParse(sign: string, whole: string, frac: string)
    requires IsHorizonForm(sign, whole, frac)
    ensures var s := sign + whole + "." + frac;
            ParseUsd(s).Some? && FormatUsdc7(ParseUsd(s).value) == s
  {
    ParseOfParts(sign, whole, frac);
    assert PadEnd(frac, 7) == frac;
    PowSeven();
    ValueBelow(frac);
    var atomic := Scaled(whole, frac);
    var n := if sign == "-" then -atomic else atomic;
    assert Abs(n) == atomic;
    assert atomic / ONE_USDC == ValueOf(whole) && atomic % ONE_USDC == ValueOf(frac);
    DigitsOfValue(whole);
    FractionIsSeven(n);
    SameLengthSameValue(Fraction7(n), frac);
  }

  /** White space around any text, amount or not, changes nothing. */
  lemma ParseIgnoresPadding(before: string, s: string, after: string)
    requires AllSpaces(before) && AllSpaces(after)
    ensures ParseUsd(before + s + after) == ParseUsd(s)
    ensures HorizonAmountToAtomic(before + s + after) == HorizonAmountToAtomic(s)
  {
    TrimPadded(before, s, after);
  }

  // ---- Horizon ------------------------------------------------------------------------------------

  /** Digits alone, or digits, a point and one to seven digits. */
  function HorizonAmountToAtomic(amount: string): Option<int> {
    var (whole, frac) := SplitAt(Trim(amount), '.');
    if |whole| < 1 || !AllDigits(whole) then None
    else match frac
      case None => Some(ValueOf(whole) * 10_000_000)
      case Some(f) =>
        if 1 <= |f| <= 7 && AllDigits(f) then
          PadEndScales(f, 7);
          Some(ValueOf(whole) * 10_000_000 + ValueOf(PadEnd(f, 7)))
        else None
  }

  /** The second parser is the first one without a sign, on every string. */
  lemma HorizonAgreesWithParseUsd(amount: string)
    ensures HorizonAmountToAtomic(amount) == if IsNegative(Trim(amount)) then None else ParseUsd(amount)
  {
    var s := Trim(amount);
    var (whole, frac) := SplitAt(s, '.');
    if IsNegative(s) {
      assert |whole| >= 1 && whole[0] == '-';
    } else {
      assert Unsigned(s) == s;
      ValueOfZeros(7);
      assert PadEnd("", 7) == Zeros(7);
    }
  }
}
