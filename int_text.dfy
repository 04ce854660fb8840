/**
 * Kotlin's decimal conversions between `Int` and `String`: `String.toIntOrNull()`
 * (radix 10), which the app uses to read the terminal id, and `Int.toString()`,
 * which string templates such as "${code}" use.
 */
module IntText {
  import opened Wrappers

  const IntMin: int := -0x8000_0000
  const IntMax: int := 0x7fff_ffff

  /** The values of Kotlin's 32-bit `Int`. */
  predicate InIntRange(n: int) {
    IntMin <= n <= IntMax
  }

  predicate IsDigit(c: char) {
    '0' <= c <= '9'
  }

  predicate AllDigits(s: string) {
    forall i :: 0 <= i < |s| ==> IsDigit(s[i])
  }

  function DigitValue(c: char): nat
    requires IsDigit(c)
  {
    (c as int) - ('0' as int)
  }

  function DigitChar(d: nat): char
    requires d < 10
  {
    (('0' as int) + d) as char
  }

  /** The number written by a run of decimal digits, most significant first. */
  function DigitsValue(s: string): nat
    requires AllDigits(s)
  {
    if s == [] then 0 else DigitsValue(s[..|s| - 1]) * 10 + DigitValue(s[|s| - 1])
  }

  /** A run of digits after an optional sign, kept only if it fits in an `Int`. */
  function SignedDigits(negative: bool, digits: string): Option<int> {
    if !AllDigits(digits) then None
    else
      var v: int := if negative then 0 - DigitsValue(digits) as int else DigitsValue(digits);
      if InIntRange(v) then Some(v) else None
  }

  /** The text after an optional leading '+' or '-'. */
  function Unsigned(s: string): string {
    if |s| > 0 && s[0] in "+-" then s[1..] else s
  }

  /** An optional sign followed by at least one digit. */
  predicate IsIntText(s: string) {
    |Unsigned(s)| > 0 && AllDigits(Unsigned(s))
  }

  /** The number an integer text writes, whether or not it fits in an `Int`. */
  function TextValue(s: string): int
    requires IsIntText(s)
  {
    if s[0] == '-' then 0 - DigitsValue(Unsigned(s)) as int else DigitsValue(Unsigned(s))
  }

  /**
   * `String.toIntOrNull()`: the empty string, a lone sign, a first character
   * below '0' other than '+' or '-', any non-digit after the sign, and a value
   * outside the `Int` range all give null.
   */
  function ToIntOrNull(s: string): (r: Option<int>)
    ensures r.Some? <==> IsIntText(s) && InIntRange(TextValue(s))
    ensures r.Some? ==> r.value == TextValue(s)
    ensures r.Some? ==> InIntRange(r.value)
    ensures r.Some? && s[0] == '-' ==> r.value <= 0
    ensures r.Some? && s[0] != '-' ==> r.value >= 0
  {
    if |s| == 0 then None
    else if s[0] < '0' then
      if |s| == 1 then None
      else if s[0] == '-' then SignedDigits(true, s[1..])
      else if s[0] == '+' then SignedDigits(false, s[1..])
      else None
    else SignedDigits(false, s)
  }

  /** Digits whose value does not fit in an `Int` give null, never a wrapped value. */
  lemma ToIntOrNullOverflow(s: string)
    requires IsIntText(s) && !InIntRange(TextValue(s))
    ensures ToIntOrNull(s) == None
  {
  }

  /** A text with a non-digit after its optional sign (or no digit at all) gives null. */
  lemma ToIntOrNullNotNumeric(s: string)
    requires !IsIntText(s)
    ensures ToIntOrNull(s) == None
  {
  }

  /** Decimal digits of a natural number, without leading zeros. */
  function NatToString(n: nat): (s: string)
    ensures |s| > 0 && AllDigits(s)
    decreases n
  {
    if n < 10 then [DigitChar(n)] else NatToString(n / 10) + [DigitChar(n % 10)]
  }

  /** `Int.toString()`: a '-' before the digits of a negative number. */
  function IntToString(n: int): (s: string)
    ensures |s| > 0
    ensures s[0] == '-' <==> n < 0
  {
    if n < 0 then "-" + NatToString(-n) else NatToString(n)
  }

  lemma {:induction false} NatToStringDigits(n: nat)
    ensures |NatToString(n)| > 0 && AllDigits(NatToString(n))
    ensures DigitsValue(NatToString(n)) == n
    ensures n > 0 ==> NatToString(n)[0] != '0'
    decreases n
  {
    var s := NatToString(n);
    if n >= 10 {
      NatToStringDigits(n / 10);
      var prefix := NatToString(n / 10);
      assert s == prefix + [DigitChar(n % 10)];
      assert s[..|s| - 1] == prefix;
      assert s[0] == prefix[0];
    }
  }

  /** Reading back the text of any `Int` gives that `Int` again. */
  lemma IntToStringRoundTrip(n: int)
    requires InIntRange(n)
    ensures ToIntOrNull(IntToString(n)) == Some(n)
  {
    if n < 0 {
      NatToStringDigits(-n);
      var s := IntToString(n);
      assert s[1..] == NatToString(-n);
      assert Unsigned(s) == NatToString(-n);
    } else {
      NatToStringDigits(n);
      assert Unsigned(IntToString(n)) == NatToString(n);
    }
  }

  /** Distinct `Int`s have distinct texts. */
  lemma IntToStringInjective(a: int, b: int)
    requires InIntRange(a) && InIntRange(b)
    requires IntToString(a) == IntToString(b)
    ensures a == b
  {
    IntToStringRoundTrip(a);
    IntToStringRoundTrip(b);
  }
}
