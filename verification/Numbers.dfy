/** Numbers as text, in decimal and in hex. */
module Numbers {
  const DIGITS := "0123456789abcdef"

  function Hex(n: nat): string {
    if n < 16 then [DIGITS[n]] else Hex(n / 16) + [DIGITS[n % 16]]
  }

  function Digit(c: char): nat {
    if '0' <= c <= '9' then c as int - '0' as int
    else if 'a' <= c <= 'f' then c as int - 'a' as int + 10
    else 0
  }

  function ParseHex(s: string): nat {
    if |s| == 0 then 0 else 16 * ParseHex(s[..|s| - 1]) + Digit(s[|s| - 1])
  }

  lemma DigitOf(n: nat)
    requires n < 16
    ensures Digit(DIGITS[n]) == n
  {
  }

  lemma {:induction false} HexRoundTrip(n: nat)
    ensures ParseHex(Hex(n)) == n
  {
    if n < 16 {
      DigitOf(n);
      assert [DIGITS[n]][..0] == [];
    } else {
      HexRoundTrip(n / 16);
      DigitOf(n % 16);
      assert Hex(n)[..|Hex(n)| - 1] == Hex(n / 16);
    }
  }

  // ---------- decimal ----------

  function Decimal(n: nat): string {
    if n < 10 then [DIGITS[n]] else Decimal(n / 10) + [DIGITS[n % 10]]
  }

  function ParseDecimal(s: string): nat {
    if |s| == 0 then 0 else 10 * ParseDecimal(s[..|s| - 1]) + Digit(s[|s| - 1])
  }

  /** str.isdigit. */
  predicate IsDigits(s: string) {
    |s| > 0 && forall i | 0 <= i < |s| :: '0' <= s[i] <= '9'
  }

  lemma {:induction false} DecimalRoundTrip(n: nat)
    ensures ParseDecimal(Decimal(n)) == n && IsDigits(Decimal(n))
  {
    if n < 10 {
      DigitOf(n);
      assert [DIGITS[n]][..0] == [];
    } else {
      DecimalRoundTrip(n / 10);
      DigitOf(n % 10);
      assert Decimal(n)[..|Decimal(n)| - 1] == Decimal(n / 10);
    }
  }
}
