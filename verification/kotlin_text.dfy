/** The pieces of Kotlin's standard library whose exact behaviour the
    application's rules depend on: `Int` arithmetic on 32 bits,
    `String.isBlank()`, `String.toIntOrNull()` and `Int.toString()`. */
module KotlinText {
  import opened Optional

  const INT_MIN: int := -0x8000_0000
  const INT_MAX: int := 0x7FFF_FFFF

  /** Kotlin's `Int`: a signed 32-bit integer. */
  type Int32 = x: int | INT_MIN <= x <= INT_MAX

  /** Two's-complement wrap-around of an exact result into `Int`. */
  function Wrap32(x: int): (r: Int32)
    ensures INT_MIN <= x <= INT_MAX ==> r == x
    ensures (r - x) % 0x1_0000_0000 == 0
  {
    (x - INT_MIN) % 0x1_0000_0000 + INT_MIN
  }

  /** `Collection.size` on the JVM: the element count, capped at `Int.MAX_VALUE`. */
  function ListSize(n: nat): (r: Int32)
    ensures 0 <= r <= n
    ensures r == n <==> n <= INT_MAX
    ensures n > INT_MAX ==> r == INT_MAX
  {
    if n <= INT_MAX then n else INT_MAX
  }

  /** `Char.isWhitespace()` on the JVM: Java's `Character.isWhitespace` or
      `Character.isSpaceChar`. */
  predicate IsWhitespace(c: char)
  {
    || c == '\t' || c == '\n' || c == '\U{B}' || c == '\U{C}' || c == '\r'
    || ('\U{1C}' <= c <= '\U{1F}')
    || c == ' ' || c == '\U{A0}' || c == '\U{1680}'
    || ('\U{2000}' <= c <= '\U{200A}')
    || c == '\U{2028}' || c == '\U{2029}' || c == '\U{202F}' || c == '\U{205F}' || c == '\U{3000}'
  }

  /** `String.isBlank()`: empty or made only of whitespace. */
  predicate IsBlank(s: string)
  {
    forall i :: 0 <= i < |s| ==> IsWhitespace(s[i])
  }

  predicate IsDigit(c: char)
  {
    '0' <= c <= '9'
  }

  function DigitValue(c: char): nat
    requires IsDigit(c)
  {
    c as int - '0' as int
  }

  function DigitChar(d: nat): (c: char)
    requires d < 10
    ensures IsDigit(c) && DigitValue(c) == d
  {
    ('0' as int + d) as char
  }

  predicate AllDigits(s: string)
  {
    forall i :: 0 <= i < |s| ==> IsDigit(s[i])
  }

  /** The number written by a string of decimal digits, most significant first. */
  function DigitsValue(s: string): nat
    requires AllDigits(s)
  {
    if s == [] then 0 else 10 * DigitsValue(s[..|s| - 1]) + DigitValue(s[|s| - 1])
  }

  /** `String.toIntOrNull()`: an optional sign followed by at least one decimal
      digit, whose value fits in `Int`; null for anything else. */
  function ToIntOrNull(s: string): (r: Option<Int32>)
    ensures r.Some? ==> |s| > 0
    ensures r.Some? && s[0] != '-' && s[0] != '+' ==> AllDigits(s) && r.value == DigitsValue(s)
    ensures r.Some? && s[0] == '+' ==> AllDigits(s[1..]) && r.value == DigitsValue(s[1..])
    ensures r.Some? && s[0] == '-' ==> AllDigits(s[1..]) && r.value == -(DigitsValue(s[1..]) as int)
    // and every such string whose value fits is accepted
    ensures |s| > 0 && AllDigits(s) && DigitsValue(s) <= INT_MAX ==> r == Some(DigitsValue(s))
    ensures |s| > 1 && s[0] == '+' && AllDigits(s[1..]) && DigitsValue(s[1..]) <= INT_MAX ==>
              r == Some(DigitsValue(s[1..]))
    ensures |s| > 1 && s[0] == '-' && AllDigits(s[1..]) && DigitsValue(s[1..]) <= -INT_MIN ==>
              r == Some(-(DigitsValue(s[1..]) as int))
  {
    if |s| == 0 then None
    else
      var negative := s[0] == '-';
      var signed := s[0] == '-' || s[0] == '+';
      var digits := if signed then s[1..] else s;
      if |digits| == 0 || !AllDigits(digits) then None
      else
        var v := if negative then -(DigitsValue(digits) as int) else DigitsValue(digits);
        if INT_MIN <= v <= INT_MAX then Some(v) else None
  }

  /** The decimal digits of a natural number, without leading zeros. */
  function NatToString(n: nat): (s: string)
    ensures |s| > 0 && AllDigits(s)
    decreases n
  {
    if n < 10 then [DigitChar(n)] else NatToString(n / 10) + [DigitChar(n % 10)]
  }

  /** `Int.toString()`: a minus sign for negative numbers, then the digits. */
  function IntToString(n: int): string
  {
    if n < 0 then "-" + NatToString(-n) else NatToString(n)
  }

  /** Reading back the digits of a natural number gives the number. */
  lemma {:induction false} NatToStringValue(n: nat)
    ensures DigitsValue(NatToString(n)) == n
    decreases n
  {
    var s := NatToString(n);
    if n >= 10 {
      NatToStringValue(n / 10);
      assert s[..|s| - 1] == NatToString(n / 10);
    }
  }

  /** `toIntOrNull` inverts `toString` on every `Int`: this is what lets screens
      pass integers to each other as navigation strings. */
  lemma IntToStringRoundTrip(n: Int32)
    ensures ToIntOrNull(IntToString(n)) == Some(n)
  {
    if n < 0 {
      var m: nat := -(n as int);
      NatToStringValue(m);
      assert IntToString(n)[1..] == NatToString(m);
    } else {
      NatToStringValue(n);
      assert IsDigit(NatToString(n)[0]);
    }
  }

  /** `toString` of a non-negative number never starts with a sign. */
  lemma IntToStringShape(n: int)
    ensures |IntToString(n)| > 0
    ensures IntToString(n)[0] == '-' <==> n < 0
  {
    if n >= 0 {
      assert IsDigit(NatToString(n)[0]);
    }
  }
}
