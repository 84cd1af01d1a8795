/**
 * Kotlin's `Int`: 32-bit two's complement arithmetic, and the decimal text a
 * string template such as "${code}" renders for it.
 */
module KotlinInt {
  import opened Wrappers

  const INT_MIN: int := -0x8000_0000
  const INT_MAX: int := 0x7fff_ffff
  const MODULUS: int := 0x1_0000_0000

  newtype int32 = x: int | -0x8000_0000 <= x < 0x8000_0000

  /** The 32-bit value congruent to `x`, as the JVM's integer arithmetic produces. */
  function Wrap(x: int): (r: int32)
    ensures INT_MIN <= x <= INT_MAX ==> r as int == x
    ensures (r as int - x) % MODULUS == 0
  {
    var m := (x - INT_MIN) % MODULUS;
    (m + INT_MIN) as int32
  }

  /** Kotlin's `a + b` on `Int`. */
  function Plus(a: int32, b: int32): (r: int32)
    ensures INT_MIN <= a as int + b as int <= INT_MAX ==> r as int == a as int + b as int
    ensures (r as int - (a as int + b as int)) % MODULUS == 0
  {
    Wrap(a as int + b as int)
  }

  /** Kotlin's `a - b` on `Int`. */
  function Minus(a: int32, b: int32): (r: int32)
    ensures INT_MIN <= a as int - b as int <= INT_MAX ==> r as int == a as int - b as int
    ensures (r as int - (a as int - b as int)) % MODULUS == 0
  {
    Wrap(a as int - b as int)
  }

  /** An instance of the wrap-around: Int.MAX_VALUE + 1 is Int.MIN_VALUE. */
  lemma PlusOneWrapsAtMax()
    ensures Plus(INT_MAX as int32, 1) as int == INT_MIN
  {
  }

  predicate IsDigit(c: char)
  {
    '0' <= c <= '9'
  }

  predicate AllDigits(s: string)
  {
    forall i :: 0 <= i < |s| ==> IsDigit(s[i])
  }

  function DigitChar(d: nat): (c: char)
    requires d < 10
    ensures IsDigit(c)
  {
    ('0' as int + d) as char
  }

  function DigitValue(c: char): (d: nat)
    requires IsDigit(c)
    ensures d < 10 && DigitChar(d) == c
  {
    c as int - '0' as int
  }

  /** Decimal digits of `n`, most significant first, without leading zeros. */
  function NatToDecimal(n: nat): (s: string)
    ensures |s| > 0 && AllDigits(s)
    ensures |s| > 1 ==> s[0] != '0'
    decreases n
  {
    if n < 10 then [DigitChar(n)] else NatToDecimal(n / 10) + [DigitChar(n % 10)]
  }

  /** `i.toString()`: a minus sign for negative values, then the digits. */
  function IntToDecimal(i: int): (s: string)
    ensures |s| > 0 && ' ' !in s
    ensures i < 0 <==> s[0] == '-'
  {
    if i < 0 then "-" + NatToDecimal(-i) else NatToDecimal(i)
  }

  /** The value of a string of decimal digits. */
  function DecimalToNat(s: string): nat
    requires AllDigits(s)
  {
    if s == [] then 0 else DecimalToNat(s[..|s| - 1]) * 10 + DigitValue(s[|s| - 1])
  }

  /** Reads back what IntToDecimal writes; None for any other text. */
  function ParseInt(s: string): Option<int>
  {
    if |s| > 1 && s[0] == '-' && AllDigits(s[1..]) then Some(0 - DecimalToNat(s[1..]) as int)
    else if |s| > 0 && AllDigits(s) then Some(DecimalToNat(s) as int)
    else None
  }

  lemma {:induction false} NatDecimalRoundTrip(n: nat)
    ensures DecimalToNat(NatToDecimal(n)) == n
    decreases n
  {
    var s := NatToDecimal(n);
    if n >= 10 {
      NatDecimalRoundTrip(n / 10);
      assert s[..|s| - 1] == NatToDecimal(n / 10);
    }
  }

  /** The decimal text of an Int determines the Int. */
  lemma IntDecimalRoundTrip(i: int)
    ensures ParseInt(IntToDecimal(i)) == Some(i)
  {
    var s := IntToDecimal(i);
    if i < 0 {
      assert s[1..] == NatToDecimal(-i);
      NatDecimalRoundTrip(-i);
    } else {
      NatDecimalRoundTrip(i);
    }
  }

  /** The text before the first space (all of `s` when there is none). */
  function UpToSpace(s: string): (r: string)
    ensures ' ' !in r && r <= s
  {
    if s == [] || s[0] == ' ' then [] else [s[0]] + UpToSpace(s[1..])
  }

  lemma {:induction false} UpToSpaceOfConcat(t: string, u: string)
    requires ' ' !in t
    requires |u| > 0 && u[0] == ' '
    ensures UpToSpace(t + u) == t
  {
    if t != [] {
      assert (t + u)[1..] == t[1..] + u;
      UpToSpaceOfConcat(t[1..], u);
    }
  }

  /** The status code an error text of the form "Code: <code> ..." carries. */
  function CodeInMessage(message: string): Option<int>
  {
    if |message| >= 6 && message[..6] == "Code: " then ParseInt(UpToSpace(message[6..])) else None
  }

  lemma CodeInMessageOf(code: int, rest: string)
    requires |rest| > 0 && rest[0] == ' '
    ensures CodeInMessage("Code: " + IntToDecimal(code) + rest) == Some(code)
  {
    var m := "Code: " + IntToDecimal(code) + rest;
    assert m[..6] == "Code: ";
    assert m[6..] == IntToDecimal(code) + rest;
    UpToSpaceOfConcat(IntToDecimal(code), rest);
    IntDecimalRoundTrip(code);
  }

  /** `tail` is what is left of `head + middle + tail` after its first |head| + |middle| characters. */
  lemma EndsWith(head: string, middle: string, tail: string)
    ensures var s := head + (middle + tail); |s| >= |tail| && s[|s| - |tail|..] == tail
  {
    var s := head + (middle + tail);
    assert s[|head| + |middle|..] == tail;
  }
}
