/** The quote-number maker. The current year and the value of Math.random() are parameters. */
module Utils {
  import opened Decimal

  /** The three-digit serial: floor(random * 1000) for random in [0, 1). */
  function QuoteSerial(random: real): (n: nat)
    requires 0.0 <= random < 1.0
    ensures n < 1000
    ensures n as real <= random * 1000.0 < n as real + 1.0
  {
    (random * 1000.0).Floor
  }

  /** The serial spelled in decimal and left-padded with '0' to three characters. */
  function QuoteSuffix(random: real): (r: string)
    requires 0.0 <= random < 1.0
    ensures |r| == 3 && AllDigits(r)
    ensures Value(r) == QuoteSerial(random)
  {
    var n := QuoteSerial(random);
    DigitsBelowThousand(n);
    var r := PadStart(Digits(n), 3, '0');
    assert r == r[..|r| - |Digits(n)|] + Digits(n);
    ValueIgnoresLeadingZeros(r[..|r| - |Digits(n)|], Digits(n));
    ValueOfDigits(n);
    r
  }

  /** `INT-<year>-<serial>`. */
  function QuoteNumber(year: nat, random: real): string
    requires 0.0 <= random < 1.0
  {
    "INT-" + Digits(year) + "-" + QuoteSuffix(random)
  }

  /** A quote number can be read back: it starts with "INT-", the year sits between the two dashes,
      and the last three characters are the serial. A four-digit year gives a twelve-character number. */
  lemma QuoteNumberReadBack(year: nat, random: real)
    requires 0.0 <= random < 1.0
    ensures ReadsBack(QuoteNumber(year, random), year, QuoteSerial(random))
    ensures 1000 <= year <= 9999 ==> |QuoteNumber(year, random)| == 12
  {
    var y, sfx := Digits(year), QuoteSuffix(random);
    TemplateSlices(y, sfx);
    ValueOfDigits(year);
    if 1000 <= year <= 9999 {
      FourDigitYear(year);
    }
  }

  /** `q` has the shape INT-<digits of year>-<three digits of serial>. */
  predicate ReadsBack(q: string, year: nat, serial: nat)
  {
    && |q| >= 9 && q[..4] == "INT-" && q[|q| - 4] == '-'
    && AllDigits(q[4..|q| - 4]) && Value(q[4..|q| - 4]) == year
    && (q[4] == '0' ==> year == 0 && |q| == 9)
    && AllDigits(q[|q| - 3..]) && Value(q[|q| - 3..]) == serial
  }

  lemma TemplateSlices(y: string, s: string)
    requires |s| == 3
    ensures var q := "INT-" + y + "-" + s;
      && |q| == 8 + |y| && q[..4] == "INT-" && q[|q| - 4] == '-'
      && q[4..|q| - 4] == y && q[|q| - 3..] == s
  {
    var q := "INT-" + y + "-" + s;
    assert q == "INT-" + (y + ("-" + s));
  }

  lemma FourDigitYear(year: nat)
    requires 1000 <= year <= 9999
    ensures |Digits(year)| == 4
  {
    assert Digits(year) == Digits(year / 10) + [DigitChar(year % 10)];
    assert Digits(year / 10) == Digits(year / 100) + [DigitChar((year / 10) % 10)];
    assert Digits(year / 100) == Digits(year / 1000) + [DigitChar((year / 100) % 10)];
    assert year / 1000 < 10;
  }
}
