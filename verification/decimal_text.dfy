/** Printing and reading natural numbers in decimal, without leading zeros. */
module DecimalText {
  function Decimal(n: nat): (s: string)
    ensures s != "" && forall k :: 0 <= k < |s| ==> '0' <= s[k] <= '9'
  {
    if n < 10 then ['0' + n as char] else Decimal(n / 10) + ['0' + (n % 10) as char]
  }

  predicate AllDigits(s: string) { s != "" && forall k :: 0 <= k < |s| ==> '0' <= s[k] <= '9' }

  function DigitValue(s: string): nat
    requires forall k :: 0 <= k < |s| ==> '0' <= s[k] <= '9'
  {
    if s == "" then 0 else 10 * DigitValue(s[..|s| - 1]) + (s[|s| - 1] as int - '0' as int)
  }

  lemma {:induction false} DigitValueOfDecimal(n: nat)
    ensures DigitValue(Decimal(n)) == n
  {
    var s := Decimal(n);
    if n < 10 {
      assert s[..0] == "";
    } else {
      DigitValueOfDecimal(n / 10);
      assert s[..|s| - 1] == Decimal(n / 10);
    }
  }

  /** d digits are enough for anything below 10 to the d. */
  lemma {:induction false} DecimalIsShort(n: nat, d: nat, power: nat)
    requires d >= 1 && n < power && power == Power10(d)
    ensures |Decimal(n)| <= d
  {
    if n >= 10 {
      DecimalIsShort(n / 10, d - 1, Power10(d - 1));
    }
  }

  function Power10(d: nat): nat { if d == 0 then 1 else 10 * Power10(d - 1) }
}
