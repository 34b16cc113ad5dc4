/** The part of JavaScript's string-to-number conversion the dashboard depends on: the
    sign of `Number(s)`, which decides comparisons such as `Quantity > 0` and
    `offerPrice <= 0`. Only the sign is modelled, never the magnitude. */
module Numbers {
  import opened Text
  import opened Js

  /** The sign of a number, or NaN, which every comparison rejects. Negative zero is
      `Zero`: it is neither greater than nor less than zero. */
  datatype Sign = Negative | Zero | Positive | NaN

  function Negate(s: Sign): (r: Sign)
    ensures (r == Positive <==> s == Negative) && (r == Negative <==> s == Positive)
    ensures (r == Zero <==> s == Zero) && (r == NaN <==> s == NaN)
  {
    match s
    case Negative => Positive
    case Positive => Negative
    case _ => s
  }

  predicate IsDigit(c: char) {
    '0' <= c <= '9'
  }

  predicate AllDigits(s: string) {
    forall i :: 0 <= i < |s| ==> IsDigit(s[i])
  }

  /** Some character other than `0` and the decimal point: the literal is not zero. */
  predicate NonZeroDigitIn(s: string) {
    exists i :: 0 <= i < |s| && s[i] != '0' && s[i] != '.'
  }

  predicate IsExponentMark(c: char) {
    c == 'e' || c == 'E'
  }

  /** Where the exponent part starts: the first `e` or `E`, else the length. */
  function ExponentStart(s: string): (k: nat)
    ensures k <= |s|
    ensures k < |s| ==> IsExponentMark(s[k])
    ensures forall j :: 0 <= j < k ==> !IsExponentMark(s[j])
  {
    if s == [] || IsExponentMark(s[0]) then 0
    else
      var k := ExponentStart(s[1..]);
      assert forall j :: 1 <= j < k + 1 ==> s[j] == s[1..][j - 1];
      k + 1
  }

  /** `DecimalDigits`, `DecimalDigits .`, `. DecimalDigits` or
      `DecimalDigits . DecimalDigits`. */
  predicate IsMantissa(m: string) {
    || (m != [] && AllDigits(m))
    || (exists k :: 0 <= k < |m| && m[k] == '.' && |m| >= 2 && AllDigits(m[..k]) && AllDigits(m[k + 1..]))
  }

  /** `e` or `E`, an optional sign, and at least one digit. */
  predicate IsExponent(e: string) {
    && |e| >= 2 && IsExponentMark(e[0])
    && var digits := if e[1] == '+' || e[1] == '-' then e[2..] else e[1..];
       digits != [] && AllDigits(digits)
  }

  /** An unsigned decimal literal of the string numeric grammar, exponent included. */
  predicate IsDecimal(s: string) {
    var k := ExponentStart(s);
    IsMantissa(s[..k]) && (k == |s| || IsExponent(s[k..]))
  }

  /** The sign of an unsigned literal: `Infinity`, or a decimal whose mantissa decides
      between zero and positive (an exponent never changes the sign). */
  function UnsignedSign(s: string): Sign {
    if s == "Infinity" then Positive
    else if IsDecimal(s) then (if NonZeroDigitIn(s[..ExponentStart(s)]) then Positive else Zero)
    else NaN
  }

  predicate IsHexDigit(c: char) {
    IsDigit(c) || 'a' <= c <= 'f' || 'A' <= c <= 'F'
  }

  /** `0x`, `0o` or `0b` followed by at least one digit of that radix. */
  predicate IsRadixLiteral(t: string) {
    && |t| >= 3 && t[0] == '0'
    && (|| ((t[1] == 'x' || t[1] == 'X') && forall i :: 2 <= i < |t| ==> IsHexDigit(t[i]))
        || ((t[1] == 'o' || t[1] == 'O') && forall i :: 2 <= i < |t| ==> '0' <= t[i] <= '7')
        || ((t[1] == 'b' || t[1] == 'B') && forall i :: 2 <= i < |t| ==> t[i] == '0' || t[i] == '1'))
  }

  /** The sign of `Number(s)`: surrounding white space is ignored, a blank string is
      zero, a radix literal takes no sign, a decimal literal may take one. */
  function NumberSign(s: string): (r: Sign)
    ensures AllWhitespace(s) ==> r == Zero
  {
    var t := Trim(s);
    if t == [] then Zero
    else if IsRadixLiteral(t) then (if NonZeroDigitIn(t[2..]) then Positive else Zero)
    else if t[0] == '+' then UnsignedSign(t[1..])
    else if t[0] == '-' then Negate(UnsignedSign(t[1..]))
    else UnsignedSign(t)
  }

  /** `v > 0` for a record field: `null` converts to zero and `undefined` to NaN, so
      only a string can pass. */
  predicate GreaterThanZero(v: JsValue) {
    v.Str? && NumberSign(v.s) == Positive
  }

  /** `s <= 0` for a string; NaN fails it. */
  predicate AtMostZero(s: string) {
    NumberSign(s) == Negative || NumberSign(s) == Zero
  }

  lemma {:induction false} DigitsAreTrimmed(s: string)
    requires s != [] && AllDigits(s)
    ensures Trim(s) == s
  {
    assert IsDigit(s[0]) && IsDigit(s[|s| - 1]);
    TrimOfTrimmed(s);
  }

  lemma {:induction false} DigitsAreDecimal(s: string)
    requires s != [] && AllDigits(s)
    ensures UnsignedSign(s) == (if NonZeroDigitIn(s) then Positive else Zero)
  {
    assert IsDigit(s[0]);
    assert s[0] != "Infinity"[0];
    var k := ExponentStart(s);
    assert forall j :: 0 <= j < |s| ==> !IsExponentMark(s[j]);
    assert s[..k] == s;
  }

  /** A string of digits is positive exactly when one of its digits is not zero. */
  lemma {:induction false} DigitsSign(s: string)
    requires s != [] && AllDigits(s)
    ensures NumberSign(s) == (if NonZeroDigitIn(s) then Positive else Zero)
  {
    DigitsAreTrimmed(s);
    assert IsDigit(s[0]);
    assert |s| >= 3 ==> IsDigit(s[1]);
    DigitsAreDecimal(s);
  }

  /** A minus sign in front of digits negates the sign. */
  lemma {:induction false} NegatedDigitsSign(s: string)
    requires s != [] && AllDigits(s)
    ensures NumberSign("-" + s) == Negate(NumberSign(s))
  {
    var t := "-" + s;
    assert t[0] == '-' && t[|t| - 1] == s[|s| - 1] && IsDigit(s[|s| - 1]);
    TrimOfTrimmed(t);
    assert t[1..] == s;
    DigitsSign(s);
    DigitsAreDecimal(s);
  }

  /** Text that starts with a lower-case letter is not a number. */
  lemma {:induction false} LetterIsNaN(s: string)
    requires s != [] && 'a' <= s[0] <= 'z'
    ensures NumberSign(s) == NaN
  {
    var t := Trim(s);
    LeadingKept(s);
    assert t[0] == s[0];
    LetterIsNotDecimal(t);
  }

  lemma {:induction false} LetterIsNotDecimal(t: string)
    requires t != [] && 'a' <= t[0] <= 'z'
    ensures t != "Infinity" && !IsDecimal(t)
  {
    assert t[0] != "Infinity"[0];
    var k := ExponentStart(t);
    var m := t[..k];
    if k > 0 {
      assert m[0] == t[0] && !IsDigit(m[0]) && m[0] != '.';
      forall j | 0 <= j < |m| && m[j] == '.'
        ensures !AllDigits(m[..j])
      {
        assert j > 0 && m[..j][0] == m[0];
      }
    }
  }

  /** Trimming a string that starts with a visible character keeps that character
      first. */
  lemma {:induction false} LeadingKept(s: string)
    requires s != [] && !IsWhitespace(s[0])
    ensures Trim(s) != [] && Trim(s)[0] == s[0]
  {
    assert TrimStart(s) == s;
    assert !AllWhitespace(s);
    TrimEndDrops(s);
  }
}
