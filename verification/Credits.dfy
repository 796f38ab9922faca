/** The partner pages' money: six decimals, and credits at 1.05 of face value each. */
module Credits {
  import opened Wrappers
  import opened Decimal
  import opened Money

  const ATOMIC_ONE := 1_000_000
  const CREDIT_ATOMIC := 1_050_000

  function Micros(frac: string): nat
    requires AllDigits(frac) && |frac| <= 6
  {
    PadEndScales(frac, 6);
    ValueOf(PadEnd(frac, 6))
  }

  function ReadParts(whole: string, frac: Option<string>): Option<nat> {
    if !(1 <= |whole| <= 9 && AllDigits(whole)) then None
    else match frac
      case None => Some(ValueOf(whole) * ATOMIC_ONE)
      case Some(f) =>
        if 1 <= |f| <= 6 && AllDigits(f) then Some(ValueOf(whole) * ATOMIC_ONE + Micros(f)) else None
  }

  /** One to nine digits, and possibly a point and one to six more. */
  function UsdToAtomic(text: string): Option<nat> {
    var (whole, frac) := SplitAt(Trim(text), '.');
    ReadParts(whole, frac)
  }

  function AtomicToUsd(n: int): string {
    Sign(n) + Digits(Abs(n) / ATOMIC_ONE) + "." + PadStart(Digits(Abs(n) % ATOMIC_ONE / 10_000), 2)
  }

  function CreditsAffordable(balance: int): nat {
    if balance <= 0 then 0 else balance / CREDIT_ATOMIC
  }

  function CreditsToFaceAtomic(credits: string): Option<nat> {
    match UsdToAtomic(credits)
    case None => None
    case Some(a) => Some(a * 105 / 100)
  }

  /** Two digits, less a zero at the end. */
  function Hundredths(rest: nat): string {
    var two := PadStart(Digits(rest), 2);
    if two[|two| - 1] == '0' then two[..|two| - 1] else two
  }

  function CreditsLabel(whole: nat, rest: nat): string {
    if rest == 0 then Digits(whole) else Digits(whole) + "." + Hundredths(rest)
  }

  /** Of face values, which are never negative. */
  function FaceAtomicToCreditsLabel(face: nat): string {
    var hundredths := face * 100 / CREDIT_ATOMIC;
    CreditsLabel(hundredths / 100, hundredths % 100)
  }

  // ---- the parts ---------------------------------------------------------------------

  lemma TwoDigits(rest: nat)
    requires rest < 100
    ensures var two := PadStart(Digits(rest), 2);
            |two| == 2 && AllDigits(two) && ValueOf(two) == rest
  {
    assert Pow10(2) == 100;
    DigitsFit(rest, 2);
    ValueOfDigits(rest);
    PadStartKeepsValue(Digits(rest), 2);
  }

  lemma PartsOf(whole: string, frac: string)
    requires AllDigits(whole) && AllDigits(frac) && |whole| >= 1 && |frac| >= 1
    ensures SplitAt(Trim(whole + "." + frac), '.') == (whole, Some(frac))
  {
    var s := whole + "." + frac;
    DigitsAreNotSpecial(whole);
    DigitsAreNotSpecial(frac);
    assert s[|s| - 1] == frac[|frac| - 1] && s[0] == whole[0];
    assert Trim(s) == s;
    SplitJoined(whole, '.', frac);
  }

  /** What digits, a point and at most six digits are read as. */
  lemma ReadOfParts(whole: string, frac: string)
    requires AllDigits(whole) && AllDigits(frac) && |whole| >= 1 && 1 <= |frac| <= 6
    ensures UsdToAtomic(whole + "." + frac)
            == if |whole| <= 9 then Some(ValueOf(whole) * ATOMIC_ONE + Micros(frac)) else None
  {
    PartsOf(whole, frac);
    ReadGiven(whole + "." + frac, whole, frac);
  }

  lemma ReadGiven(text: string, whole: string, frac: string)
    requires SplitAt(Trim(text), '.') == (whole, Some(frac))
    requires AllDigits(whole) && AllDigits(frac) && |whole| >= 1 && 1 <= |frac| <= 6
    ensures UsdToAtomic(text) == if |whole| <= 9 then Some(ValueOf(whole) * ATOMIC_ONE + Micros(frac)) else None
  {
  }

  lemma MicrosOfShort(frac: string)
    requires AllDigits(frac) && 1 <= |frac| <= 2
    ensures Micros(frac) == ValueOf(frac) * if |frac| == 1 then 100_000 else 10_000
  {
    PadEndScales(frac, 6);
    PowersUsed();
  }

  lemma ReadOfWhole(whole: string)
    requires AllDigits(whole) && |whole| >= 1
    ensures UsdToAtomic(whole) == if |whole| <= 9 then Some(ValueOf(whole) * ATOMIC_ONE) else None
  {
    DigitsAreNotSpecial(whole);
    assert Trim(whole) == whole;
    SplitWithout(whole, '.');
  }

  lemma PowersUsed()
    ensures Pow10(4) == 10_000 && Pow10(5) == 100_000 && Pow10(9) == 1_000_000_000
  {
  }

  // ---- credits and face value ---------------------------------------------------------------

  /** The zero that is dropped is worth nothing. */
  lemma HundredthsRead(rest: nat)
    requires rest < 100
    ensures var shown := Hundredths(rest);
            1 <= |shown| <= 2 && AllDigits(shown) && Micros(shown) == rest * 10_000
  {
    var two := PadStart(Digits(rest), 2);
    TwoDigits(rest);
    if two[1] == '0' {
      assert ValueOf(two) == 10 * ValueOf(two[..1]);
      MicrosOfShort(two[..1]);
    } else {
      MicrosOfShort(two);
    }
  }

  /** The label reads back as its hundredths of a credit. */
  lemma LabelReads(whole: nat, rest: nat)
    requires rest < 100
    ensures UsdToAtomic(CreditsLabel(whole, rest))
            == if whole < 1_000_000_000 then Some(whole * ATOMIC_ONE + rest * 10_000) else None
  {
    WholeFits(whole);
    if rest == 0 {
      ReadOfWhole(Digits(whole));
    } else {
      HundredthsRead(rest);
      WholeAndFractionRead(whole, Hundredths(rest));
    }
  }

  lemma WholeAndFractionRead(whole: nat, frac: string)
    requires AllDigits(frac) && 1 <= |frac| <= 6
    ensures UsdToAtomic(Digits(whole) + "." + frac)
            == if whole < 1_000_000_000 then Some(whole * ATOMIC_ONE + Micros(frac)) else None
  {
    WholeFits(whole);
    ReadOfParts(Digits(whole), frac);
  }

  lemma WholeFits(whole: nat)
    ensures |Digits(whole)| <= 9 <==> whole < 1_000_000_000
    ensures ValueOf(Digits(whole)) == whole
  {
    PowersUsed();
    DigitsFit(whole, 9);
    ValueOfDigits(whole);
  }

  lemma HundredthsOf(face: nat)
    ensures face * 100 / CREDIT_ATOMIC == face / 10_500 && face / 10_500 / 100 == face / CREDIT_ATOMIC
  {
  }

  lemma FaceOfHundredths(hundredths: nat)
    ensures (hundredths / 100 * ATOMIC_ONE + hundredths % 100 * 10_000) * 105 / 100 == hundredths * 10_500
  {
  }

  /** From a face value to the label shown and back is rounding down to a hundredth of
      a credit: never above the original, less than 10500 units below it, and exact on
      multiples of 10500. The label is refused back just when it is of a thousand
      million credits or more. */
  lemma FaceLabelFace(face: nat)
    ensures CreditsToFaceAtomic(FaceAtomicToCreditsLabel(face))
            == if face / CREDIT_ATOMIC < 1_000_000_000 then Some(face - face % 10_500) else None
  {
    var hundredths := face / 10_500;
    HundredthsOf(face);
    LabelReads(hundredths / 100, hundredths % 100);
    FaceOfHundredths(hundredths);
  }

  /** A whole number of credits costs its face value, and is refused from a thousand
      million on. */
  lemma WholeCreditsCost(k: nat)
    ensures CreditsToFaceAtomic(Digits(k)) == if k < 1_000_000_000 then Some(k * CREDIT_ATOMIC) else None
  {
    WholeFits(k);
    ReadOfWhole(Digits(k));
  }

  /** What the page promises a balance can buy, it can, and not one credit more, as far
      as the number can be entered at all. */
  lemma AffordableIsExact(balance: int)
    ensures var k := CreditsAffordable(balance);
            && (k > 0 ==> k * CREDIT_ATOMIC <= balance) && (k + 1) * CREDIT_ATOMIC > balance
            && CreditsToFaceAtomic(Digits(k)) == (if k < 1_000_000_000 then Some(k * CREDIT_ATOMIC) else None)
            && CreditsToFaceAtomic(Digits(k + 1))
               == (if k + 1 < 1_000_000_000 then Some((k + 1) * CREDIT_ATOMIC) else None)
  {
    WholeCreditsCost(CreditsAffordable(balance));
    WholeCreditsCost(CreditsAffordable(balance) + 1);
  }

  /** Amounts shown are cut to the cent, never rounded up; negative ones and those of
      ten digits or more are not read back. */
  lemma ShownAmountReads(n: int)
    ensures UsdToAtomic(AtomicToUsd(n))
            == if 0 <= n < 1_000_000_000 * ATOMIC_ONE then Some(n - n % 10_000) else None
  {
    var whole, cents := Abs(n) / ATOMIC_ONE, Abs(n) % ATOMIC_ONE / 10_000;
    var two := PadStart(Digits(cents), 2);
    TwoDigits(cents);
    if n < 0 {
      DigitsAreNotSpecial(two);
      var rest := Digits(whole) + "." + two;
      assert rest[|rest| - 1] == two[1];
      SignedIsNotRead(rest);
      assert AtomicToUsd(n) == "-" + rest;
    } else {
      assert AtomicToUsd(n) == Digits(whole) + "." + two;
      WholeAndCentsRead(whole, two);
      CutToCents(n);
    }
  }

  lemma WholeAndCentsRead(whole: nat, two: string)
    requires |two| == 2 && AllDigits(two)
    ensures UsdToAtomic(Digits(whole) + "." + two)
            == if whole < 1_000_000_000 then Some(whole * ATOMIC_ONE + ValueOf(two) * 10_000) else None
  {
    MicrosOfShort(two);
    WholeAndFractionRead(whole, two);
  }

  lemma CutToCents(n: nat)
    ensures n / ATOMIC_ONE * ATOMIC_ONE + n % ATOMIC_ONE / 10_000 * 10_000 == n - n % 10_000
    ensures n / ATOMIC_ONE < 1_000_000_000 <==> n < 1_000_000_000 * ATOMIC_ONE
  {
    var whole, rest := n / ATOMIC_ONE, n % ATOMIC_ONE;
    var cents, below := rest / 10_000, rest % 10_000;
    assert n == 10_000 * (100 * whole + cents) + below;
  }

  lemma SignedIsNotRead(rest: string)
    requires rest != [] && !IsSpace(rest[|rest| - 1])
    ensures UsdToAtomic("-" + rest) == None
  {
    var s := "-" + rest;
    assert Trim(s) == s;
    SplitParts(s, '.');
    var (whole, frac) := SplitAt(s, '.');
    assert |whole| >= 1 ==> whole[0] == '-';
  }
}
