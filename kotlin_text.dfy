/**
 * The two Kotlin standard-library string operations the service relies on:
 * `isBlank()` (for the credential test) and `toInt()` (for the port setting),
 * both as the JVM implements them.
 */
module KotlinText {
  import opened Base

  /** The range of a Kotlin `Int`. */
  const IntMin: int := -0x8000_0000
  const IntMax: int := 0x7FFF_FFFF

  /**
   * `Char.isWhitespace()` on the JVM: `Character.isWhitespace(c) || Character.isSpaceChar(c)`,
   * that is the control characters 9-13 and 28-31 and every character of the Unicode
   * categories Zs, Zl and Zp.
   */
  predicate IsWhitespace(c: char)
  {
    var n := c as int;
    (9 <= n <= 13) || (28 <= n <= 32) || n == 0xA0 || n == 0x1680
    || (0x2000 <= n <= 0x200A) || n == 0x2028 || n == 0x2029
    || n == 0x202F || n == 0x205F || n == 0x3000
  }

  /** `CharSequence.isBlank()`: empty, or whitespace only. */
  predicate IsBlank(s: string)
  {
    forall i | 0 <= i < |s| :: IsWhitespace(s[i])
  }

  predicate IsDigit(c: char)
  {
    '0' <= c <= '9'
  }

  predicate AllDigits(s: string)
  {
    forall i | 0 <= i < |s| :: IsDigit(s[i])
  }

  function DigitValue(c: char): (d: nat)
    requires IsDigit(c)
    ensures d < 10
  {
    c as int - '0' as int
  }

  /** The value of a string of decimal digits, most significant first. */
  function DigitsValue(ds: string): nat
    requires AllDigits(ds)
    decreases |ds|
  {
    if ds == [] then 0 else DigitsValue(AllButLast(ds)) * 10 + DigitValue(Last(ds))
  }

  /**
   * `String.toInt()` on the JVM, which is `Integer.parseInt(s, 10)`: an optional leading
   * `-` or `+`, then at least one digit, and a value that fits in an `Int`. `None` stands
   * for the `NumberFormatException` thrown otherwise.
   */
  function ToIntOrNull(s: string): (r: Option<int>)
    ensures r.Some? ==> IntMin <= r.value <= IntMax
    ensures r.Some? ==> |s| > 0 && (IsDigit(s[0]) || s[0] == '-' || s[0] == '+')
  {
    if |s| == 0 then None
    else
      var digits := if s[0] == '-' || s[0] == '+' then s[1..] else s;
      if |digits| == 0 || !AllDigits(digits) then None
      else
        var magnitude: int := DigitsValue(digits);
        var v := if s[0] == '-' then -magnitude else magnitude;
        if IntMin <= v <= IntMax then Some(v) else None
  }

  function DigitChar(d: nat): (c: char)
    requires d < 10
    ensures IsDigit(c) && DigitValue(c) == d
  {
    ('0' as int + d) as char
  }

  /** The decimal digits of `n`, without leading zeros. */
  function NatDigits(n: nat): (ds: string)
    ensures |ds| > 0 && AllDigits(ds)
    ensures IsDigit(ds[0])
    decreases n
  {
    if n < 10 then [DigitChar(n)] else NatDigits(n / 10) + [DigitChar(n % 10)]
  }

  /** `Int.toString()`: the reference against which `ToIntOrNull` is checked. */
  function Decimal(n: int): string
  {
    if n < 0 then "-" + NatDigits(-n) else NatDigits(n)
  }

  lemma {:induction false} DigitsValueOfNatDigits(n: nat)
    ensures DigitsValue(NatDigits(n)) == n
    decreases n
  {
    if n >= 10 {
      var ds := NatDigits(n);
      assert AllButLast(ds) == NatDigits(n / 10);
      assert Last(ds) == DigitChar(n % 10);
      DigitsValueOfNatDigits(n / 10);
    }
  }

  /** Parsing the decimal form of any `Int` gives that `Int` back. */
  lemma ToIntOfDecimal(n: int)
    requires IntMin <= n <= IntMax
    ensures ToIntOrNull(Decimal(n)) == Some(n)
  {
    var s := Decimal(n);
    if n < 0 {
      assert s[1..] == NatDigits(-n);
      DigitsValueOfNatDigits(-n);
    } else {
      DigitsValueOfNatDigits(n);
    }
  }

  /** The default port string used by the service parses to 1883. */
  lemma DefaultPortParses()
    ensures ToIntOrNull("1883") == Some(1883)
  {
    assert Decimal(1883) == "1883";
    ToIntOfDecimal(1883);
  }
}
