/** Shortening of long tool outputs (enclave/agent/controller.py:189-198). */
module Truncation {
  import opened Text

  const MAX_TOOL_OUTPUT_CHARS := 30_000
  const TRUNCATION_KEEP_HEAD := 10_000
  const TRUNCATION_KEEP_TAIL := 10_000

  /** The last three digits of `n`. */
  function ThreeDigits(n: nat): (s: string)
    ensures |s| == 3
  {
    [Digit(n / 100), Digit(n / 10), Digit(n)]
  }

  function Digit(n: nat): char {
    ('0' as int + n % 10) as char
  }

  /** `f"{n:,}"`: decimal digits with a comma before every group of three. */
  function Grouped(n: nat): string {
    if n < 10 then [Digit(n)]
    else if n < 100 then [Digit(n / 10), Digit(n)]
    else if n < 1000 then ThreeDigits(n)
    else Grouped(n / 1000) + "," + ThreeDigits(n % 1000)
  }

  function Marker(dropped: nat): string {
    "\n\n[...truncated " + Grouped(dropped) + " characters...]\n\n"
  }

  function Truncate(output: string): string {
    if |output| <= MAX_TOOL_OUTPUT_CHARS then output
    else
      output[..TRUNCATION_KEEP_HEAD]
      + Marker(|output| - TRUNCATION_KEEP_HEAD - TRUNCATION_KEEP_TAIL)
      + output[|output| - TRUNCATION_KEEP_TAIL..]
  }

  lemma {:induction false} GroupedLength(n: nat)
    ensures |Grouped(n)| <= 3 + n / 100
  {
    if n >= 1000 {
      GroupedLength(n / 1000);
    }
  }

  /** A printed number without its commas. */
  function WithoutCommas(s: string): string {
    if s == "" then ""
    else WithoutCommas(s[..|s| - 1]) + if s[|s| - 1] == ',' then "" else [s[|s| - 1]]
  }

  lemma {:induction false} WithoutCommasConcat(a: string, b: string)
    ensures WithoutCommas(a + b) == WithoutCommas(a) + WithoutCommas(b)
  {
    if b == "" {
      assert a + b == a;
    } else {
      assert (a + b)[..|a + b| - 1] == a + b[..|b| - 1];
      WithoutCommasConcat(a, b[..|b| - 1]);
    }
  }

  lemma {:induction false} NumeralsHaveNoCommas(s: string)
    requires IsNumeral(s) || s == ""
    ensures WithoutCommas(s) == s
  {
    if s != "" {
      NumeralsHaveNoCommas(s[..|s| - 1]);
    }
  }

  lemma DigitRead(a: string, n: nat)
    requires IsNumeral(a) || a == ""
    ensures IsNumeral(a + [Digit(n)]) && NumeralValue(a + [Digit(n)]) == 10 * NumeralValue(a) + n % 10
  {
    assert (a + [Digit(n)])[..|a|] == a;
  }

  lemma ThreeDigitsRead(a: string, n: nat)
    requires (IsNumeral(a) || a == "") && n < 1000
    ensures IsNumeral(a + ThreeDigits(n)) && NumeralValue(a + ThreeDigits(n)) == 1000 * NumeralValue(a) + n
  {
    hide IsNumeral, Digit, NumeralValue;
    DigitRead(a, n / 100);
    DigitRead(a + [Digit(n / 100)], n / 10);
    DigitRead(a + [Digit(n / 100)] + [Digit(n / 10)], n);
    assert a + ThreeDigits(n) == a + [Digit(n / 100)] + [Digit(n / 10)] + [Digit(n)];
    DigitsOf(n);
  }

  lemma DigitsOf(n: nat)
    requires n < 1000
    ensures 10 * (10 * (n / 100 % 10) + n / 10 % 10) + n % 10 == n
  {
    assert n / 100 == n / 10 / 10;
  }

  lemma OneDigitReads(n: nat)
    ensures IsNumeral([Digit(n)]) && NumeralValue([Digit(n)]) == n % 10
  {
    DigitRead("", n);
    assert "" + [Digit(n)] == [Digit(n)];
  }

  lemma TwoDigitsRead(n: nat)
    requires n < 100
    ensures IsNumeral([Digit(n / 10), Digit(n)]) && NumeralValue([Digit(n / 10), Digit(n)]) == n
  {
    OneDigitReads(n / 10);
    DigitRead([Digit(n / 10)], n);
    hide NumeralValue, IsNumeral, Digit;
    assert [Digit(n / 10)] + [Digit(n)] == [Digit(n / 10), Digit(n)];
  }

  lemma SmallNumberReads(n: nat)
    requires n < 1000
    ensures IsNumeral(Grouped(n)) && NumeralValue(Grouped(n)) == n
  {
    if n < 10 {
      OneDigitReads(n);
    } else if n < 100 {
      TwoDigitsRead(n);
    } else {
      ThreeDigitsRead("", n);
      assert "" + ThreeDigits(n) == ThreeDigits(n);
    }
    hide NumeralValue, IsNumeral, Digit, ThreeDigits;
  }

  lemma NextGroup(front: string, digits: string)
    requires IsNumeral(digits)
    ensures WithoutCommas(front + "," + digits) == WithoutCommas(front) + digits
  {
    hide IsNumeral;
    NumeralsHaveNoCommas(digits);
    WithoutCommasConcat(front, ",");
    WithoutCommasConcat(front + ",", digits);
    assert WithoutCommas(",") == "" by {
      assert ","[..0] == "";
    }
    assert WithoutCommas(front) + "" == WithoutCommas(front);
  }

  /** A grouped number reads as that number once its commas are taken out. */
  lemma {:induction false} GroupedReads(n: nat)
    ensures IsNumeral(WithoutCommas(Grouped(n))) && NumeralValue(WithoutCommas(Grouped(n))) == n
  {
    if n < 1000 {
      SmallNumberReads(n);
      NumeralsHaveNoCommas(Grouped(n));
    } else {
      GroupedReads(n / 1000);
      var front, digits := Grouped(n / 1000), ThreeDigits(n % 1000);
      assert Grouped(n) == front + "," + digits;
      hide Grouped, IsNumeral, NumeralValue, WithoutCommas, ThreeDigits;
      ThreeDigitsRead("", n % 1000);
      assert "" + digits == digits;
      NextGroup(front, digits);
      ThreeDigitsRead(WithoutCommas(front), n % 1000);
    }
  }

  /** What replaces the middle of a long output: a marker that tells its length. */
  ghost predicate Marks(marker: string, dropped: nat) {
    exists number :: Tells(marker, number, dropped)
  }

  predicate Tells(marker: string, number: string, dropped: nat) {
    && marker == "\n\n[...truncated " + number + " characters...]\n\n"
    && IsNumeral(WithoutCommas(number)) && NumeralValue(WithoutCommas(number)) == dropped
  }

  lemma MarkerTells(dropped: nat)
    ensures Marks(Marker(dropped), dropped)
  {
    GroupedReads(dropped);
    assert Tells(Marker(dropped), Grouped(dropped), dropped);
  }

  /** Truncation never lengthens an output, shortens every output over the limit, keeps the
      first and the last ten thousand characters of it, and says between them how many
      others there were. */
  lemma TruncateKeepsEnds(output: string)
    ensures var r := Truncate(output);
            if |output| <= MAX_TOOL_OUTPUT_CHARS then r == output
            else
              && |r| < |output|
              && output[..TRUNCATION_KEEP_HEAD] <= r
              && |r| >= TRUNCATION_KEEP_TAIL
              && r[|r| - TRUNCATION_KEEP_TAIL..] == output[|output| - TRUNCATION_KEEP_TAIL..]
              && |r| >= TRUNCATION_KEEP_HEAD + TRUNCATION_KEEP_TAIL
              && Marks(r[TRUNCATION_KEEP_HEAD..|r| - TRUNCATION_KEEP_TAIL], |output| - TRUNCATION_KEEP_HEAD - TRUNCATION_KEEP_TAIL)
  {
    if |output| > MAX_TOOL_OUTPUT_CHARS {
      var dropped := |output| - TRUNCATION_KEEP_HEAD - TRUNCATION_KEEP_TAIL;
      GroupedLength(dropped);
      MarkerTells(dropped);
      hide Marks, Marker;
      var r := Truncate(output);
      assert r[TRUNCATION_KEEP_HEAD..|r| - TRUNCATION_KEEP_TAIL] == Marker(dropped);
    }
  }
}
