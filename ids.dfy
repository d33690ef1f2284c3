/** Venue identifiers and the JavaScript `String(...)` conversion applied to them.
    The discovery service and the saved-store may hand an identifier back either
    as a number or as a string, and the component converts with `String(id)`
    in some places and uses the raw value in others. */
module Ids {

  /** A raw identifier as JavaScript holds it: a (whole) number or a string.
      Two raw identifiers are the same `Set` element only when they are equal
      here, so `Num(42)` and `Str("42")` are different elements. */
  datatype Id = Num(n: int) | Str(s: string)

  predicate IsDigit(c: char) { '0' <= c <= '9' }

  predicate AllDigits(s: string) { forall i :: 0 <= i < |s| ==> IsDigit(s[i]) }

  function DigitChar(d: nat): (c: char)
    requires d < 10
    ensures IsDigit(c) && c as int - '0' as int == d
  {
    "0123456789"[d]
  }

  function DigitValue(c: char): (d: nat)
    requires IsDigit(c)
    ensures d < 10
  {
    c as int - '0' as int
  }

  /** Decimal digits of `n`, most significant first. */
  function NatToDecimal(n: nat): (s: string)
    ensures |s| > 0 && AllDigits(s)
    ensures s[0] == '0' <==> n == 0
    decreases n
  {
    if n < 10 then [DigitChar(n)] else NatToDecimal(n / 10) + [DigitChar(n % 10)]
  }

  /** Value of a string of decimal digits (the reader that undoes NatToDecimal). */
  function DecimalToNat(s: string): nat
    requires AllDigits(s)
  {
    if |s| == 0 then 0 else 10 * DecimalToNat(s[..|s| - 1]) + DigitValue(s[|s| - 1])
  }

  lemma {:induction false} DecimalRoundTrip(n: nat)
    ensures DecimalToNat(NatToDecimal(n)) == n
    decreases n
  {
    if n >= 10 {
      var s := NatToDecimal(n);
      DecimalRoundTrip(n / 10);
      assert s[..|s| - 1] == NatToDecimal(n / 10);
    }
  }

  /** An optional minus sign followed by at least one decimal digit. */
  predicate IsIntegerLiteral(s: string)
  {
    (|s| > 0 && AllDigits(s)) || (|s| > 1 && s[0] == '-' && AllDigits(s[1..]))
  }

  function ParseInteger(s: string): int
    requires IsIntegerLiteral(s)
  {
    if s[0] == '-' then 0 - DecimalToNat(s[1..]) else DecimalToNat(s)
  }

  /** `String(n)` for a whole JavaScript number `n`. */
  function IntToDecimal(n: int): (s: string)
    ensures IsIntegerLiteral(s)
    ensures s[0] == '-' <==> n < 0
  {
    if n < 0 then "-" + NatToDecimal(-n) else NatToDecimal(n)
  }

  lemma IntToDecimalRoundTrip(n: int)
    ensures ParseInteger(IntToDecimal(n)) == n
  {
    if n < 0 {
      DecimalRoundTrip(-n);
      assert IntToDecimal(n)[1..] == NatToDecimal(-n);
    } else {
      DecimalRoundTrip(n);
    }
  }

  lemma IntToDecimalInjective(a: int, b: int)
    ensures IntToDecimal(a) == IntToDecimal(b) ==> a == b
  {
    IntToDecimalRoundTrip(a);
    IntToDecimalRoundTrip(b);
  }

  /** JavaScript `String(id)`: a string is returned as is, a number as its
      decimal literal, which reads back as that number. */
  function ToStr(id: Id): (s: string)
    ensures id.Str? ==> s == id.s
    ensures id.Num? ==> IsIntegerLiteral(s) && ParseInteger(s) == id.n
  {
    match id
    case Str(s) => s
    case Num(n) => IntToDecimalRoundTrip(n); IntToDecimal(n)
  }

  /** `String(a) === String(b)` holds exactly when the two raw identifiers are
      equal, or one is a number and the other is that number's decimal string. */
  lemma ToStrAgrees(a: Id, b: Id)
    ensures ToStr(a) == ToStr(b) <==>
      a == b || (a.Num? && b == Str(ToStr(a))) || (b.Num? && a == Str(ToStr(b)))
  {
  }
}
