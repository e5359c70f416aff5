/**
 * Invoice numbers: "INV-" followed by the clock reading YYYYMMDDHHMMSS,
 * given here as the 14-digit number it spells.
 */
module Invoice {

  function Pow10(k: nat): nat
  {
    if k == 0 then 1 else 10 * Pow10(k - 1)
  }

  /** A clock reading to the second in the years 1000 to 9999: exactly 14 digits. */
  predicate IsStamp(stamp: int)
  {
    Pow10(13) <= stamp < Pow10(14)
  }

  predicate IsDigit(c: char)
  {
    '0' <= c <= '9'
  }

  predicate AllDigits(s: string)
  {
    forall i :: 0 <= i < |s| ==> IsDigit(s[i])
  }

  /** The last `width` decimal digits of `n`, most significant first. */
  function Digits(n: nat, width: nat): (s: string)
    ensures |s| == width
    ensures AllDigits(s)
  {
    if width == 0 then "" else Digits(n / 10, width - 1) + [('0' as int + n % 10) as char]
  }

  /** The number a string of decimal digits denotes. */
  function DigitsValue(s: string): nat
    requires AllDigits(s)
  {
    if s == [] then 0
    else 10 * DigitsValue(s[..|s| - 1]) + (s[|s| - 1] as int - '0' as int)
  }

  lemma {:induction false} DigitsRoundTrip(n: nat, width: nat)
    requires n < Pow10(width)
    ensures DigitsValue(Digits(n, width)) == n
  {
    if width > 0 {
      var s := Digits(n, width);
      assert s[..|s| - 1] == Digits(n / 10, width - 1);
      DigitsRoundTrip(n / 10, width - 1);
    }
  }

  const InvoicePrefix: string := "INV-"

  function InvoiceNumber(stamp: nat): (inv: string)
    ensures |inv| == 18
    ensures inv[..4] == InvoicePrefix
    ensures AllDigits(inv[4..])
  {
    InvoicePrefix + Digits(stamp, 14)
  }

  /** Reads the clock reading back out of an invoice number. */
  function InvoiceStamp(inv: string): nat
    requires |inv| >= 4 && AllDigits(inv[4..])
  {
    DigitsValue(inv[4..])
  }

  lemma InvoiceRoundTrip(stamp: nat)
    requires IsStamp(stamp)
    ensures InvoiceStamp(InvoiceNumber(stamp)) == stamp
  {
    assert InvoiceNumber(stamp)[4..] == Digits(stamp, 14);
    DigitsRoundTrip(stamp, 14);
  }

  /** Two readings share an invoice number exactly when they are the same second. */
  lemma InvoiceNumberInjective(s1: nat, s2: nat)
    requires IsStamp(s1) && IsStamp(s2)
    ensures InvoiceNumber(s1) == InvoiceNumber(s2) <==> s1 == s2
  {
    InvoiceRoundTrip(s1);
    InvoiceRoundTrip(s2);
  }
}
