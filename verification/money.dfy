/**
 * Amounts of money as whole cents, and their rendering with exactly two
 * decimals. Every price in the catalog is written with two decimals, so a
 * price is an exact number of cents and the two-decimal rendering of it
 * involves no rounding.
 */
module Money {
  import opened Wrappers
  import opened Text

  /** `cents` written as "<units>.<two digits>", e.g. 1099 as "10.99" and 1050 as "10.50". */
  function FormatCents(cents: nat): (s: string)
    ensures |s| >= 4 && s[|s| - 3] == '.'
    ensures AllDigits(s[..|s| - 3]) && AllDigits(s[|s| - 2..])
    ensures s[0] == '0' ==> cents < 100
    ensures cents < 100 ==> |s| == 4
  {
    Digits(cents / 100) + "." + [DigitChar(cents % 100 / 10), DigitChar(cents % 10)]
  }

  /** Reads "<digits>.<digit><digit>" back as a number of cents. */
  function ParseCents(s: string): Option<nat> {
    if |s| >= 4 && s[|s| - 3] == '.' && AllDigits(s[..|s| - 3]) && AllDigits(s[|s| - 2..]) then
      Some(100 * DigitsValue(s[..|s| - 3]) + 10 * DigitValue(s[|s| - 2]) + DigitValue(s[|s| - 1]))
    else
      None
  }

  /** The rendering loses nothing: the amount can be read back from it. */
  lemma FormatCentsRoundTrip(cents: nat)
    ensures ParseCents(FormatCents(cents)) == Some(cents)
  {
    var units := Digits(cents / 100);
    var d1, d2 := DigitChar(cents % 100 / 10), DigitChar(cents % 10);
    var s := FormatCents(cents);
    assert s == units + "." + [d1, d2];
    assert s[..|s| - 3] == units;
    assert s[|s| - 2] == d1 && s[|s| - 1] == d2;
    DigitsRoundTrip(cents / 100);
    assert 100 * (cents / 100) + 10 * (cents % 100 / 10) + cents % 10 == cents;
  }

  /** Hence two different amounts never render alike. */
  lemma FormatCentsInjective(a: nat, b: nat)
    requires FormatCents(a) == FormatCents(b)
    ensures a == b
  {
    FormatCentsRoundTrip(a);
    FormatCentsRoundTrip(b);
  }

  /** Worked renderings: a trailing zero is kept, and an amount below one unit gets a leading "0". */
  lemma FormatCentsExamples()
    ensures FormatCents(1099) == "10.99"
    ensures FormatCents(1050) == "10.50"
    ensures FormatCents(1499) == "14.99"
    ensures FormatCents(5) == "0.05"
  {
    assert Digits(10) == "10";
    assert Digits(14) == "14";
  }
}
