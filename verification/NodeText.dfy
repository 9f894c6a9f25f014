/** The text that the clearing driver prints into a list node, and the number a reader of the proc file finds in it. */
module NodeText {
  import opened Options

  const DIGITS := "0123456789"

  /** `%d` of a non-negative number. */
  function Decimal(n: nat): string {
    if n < 10 then [DIGITS[n]] else Decimal(n / 10) + [DIGITS[n % 10]]
  }

  /** `sprintf(q->info1, "byte Count=%d\n", n)`. */
  function CountText(n: nat): string {
    "byte Count=" + Decimal(n) + "\n"
  }

  /** The text never overflows its 20 bytes: with its NUL it takes at most 17. */
  lemma CountTextFits(n: nat)
    requires n < 1024
    ensures |CountText(n)| + 1 <= 17
  {
    assert |Decimal(n / 10 / 10 / 10)| == 1;
    assert |Decimal(n / 10 / 10)| <= 2;
    assert |Decimal(n / 10)| <= 3;
  }

  // ----- Reading the number back

  predicate AllDigits(s: string) {
    forall i :: 0 <= i < |s| ==> '0' <= s[i] <= '9'
  }

  function Weight(digit: char): (d: nat)
    requires '0' <= digit <= '9'
    ensures d < 10
  {
    digit as int - '0' as int
  }

  /** The number that digits denote, the most significant first. */
  function Value(digits: string): nat
    requires AllDigits(digits)
  {
    if digits == "" then 0
    else 10 * Value(digits[..|digits| - 1]) + Weight(digits[|digits| - 1])
  }

  /** A decimal number as it is usually written: some digits, the first one 0 only when it is the only one. */
  predicate Numeral(s: string) {
    AllDigits(s) && s != "" && (s[0] == '0' ==> s == "0")
  }

  lemma DigitIs(d: nat)
    requires d < 10
    ensures '0' <= DIGITS[d] <= '9' && Weight(DIGITS[d]) == d
  {}

  lemma WeightIs(digit: char)
    requires '0' <= digit <= '9'
    ensures DIGITS[Weight(digit)] == digit
  {}

  /** What is printed is a numeral, and its value is the number. */
  lemma {:induction false} DecimalReadsBack(n: nat)
    ensures Numeral(Decimal(n)) && Value(Decimal(n)) == n
  {
    DigitIs(n % 10);
    if n < 10 {
      assert Decimal(n)[..0] == "";
    } else {
      DecimalReadsBack(n / 10);
      assert Decimal(n)[..|Decimal(n)| - 1] == Decimal(n / 10);
    }
  }

  /** The digits before the last one of a numeral are the numeral of a positive number. */
  lemma FrontIsNumeral(s: string)
    requires Numeral(s) && |s| > 1
    ensures Numeral(s[..|s| - 1]) && s[..|s| - 1] != "0"
  {
    var front := s[..|s| - 1];
    assert front[0] == s[0] != '0';
  }

  /** One more digit after a positive number. */
  lemma DecimalMore(n: nat, m: nat, d: nat)
    requires n == 10 * m + d && 0 < m && d < 10
    ensures Decimal(n) == Decimal(m) + [DIGITS[d]]
  {
    assert n / 10 == m && n % 10 == d;
  }

  lemma OneDigit(s: string)
    requires Numeral(s) && |s| == 1
    ensures Decimal(Value(s)) == s
  {
    WeightIs(s[0]);
    assert s[..0] == "" && Value(s) == Weight(s[0]);
  }

  /** And there is no other numeral of that value. */
  lemma {:induction false} OnlyNumeral(s: string)
    requires Numeral(s)
    ensures Decimal(Value(s)) == s
  {
    if |s| == 1 {
      OneDigit(s);
    } else {
      var front, last := s[..|s| - 1], s[|s| - 1];
      FrontIsNumeral(s);
      OnlyNumeral(front);
      assert 0 < Value(front) by { assert Decimal(0) == "0"; }
      DecimalMore(Value(s), Value(front), Weight(last));
      WeightIs(last);
      assert s == front + [last];
    }
  }

  /** The number in a line of the form `byte Count=<digits>`, if it is one. */
  function NumberIn(text: string): Option<nat> {
    if |text| > 12 && text[..11] == "byte Count=" && text[|text| - 1] == '\n' && AllDigits(text[11..|text| - 1])
    then Some(Value(text[11..|text| - 1]))
    else None
  }

  /** The printed line can be read back. */
  lemma CountTextTells(n: nat)
    ensures NumberIn(CountText(n)) == Some(n)
  {
    DecimalReadsBack(n);
    var text := CountText(n);
    assert text[..11] == "byte Count=" && text[11..|text| - 1] == Decimal(n);
  }
}
