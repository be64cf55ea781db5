/** The ids the in-memory ticket store hands out: the decimal numerals of a
    counter. The n-th ticket saved gets `Decimal(n)`; parsing an id back gives
    the counter value it was made from, which is what makes ids fresh. */
module TicketIds {
  import opened JavaLang

  predicate IsDigit(c: char) {
    '0' <= c <= '9'
  }

  predicate AllDigits(s: string) {
    forall i :: 0 <= i < |s| ==> IsDigit(s[i])
  }

  function DigitChar(d: nat): (c: char)
    requires d < 10
    ensures IsDigit(c) && c as int - '0' as int == d
  {
    ('0' as int + d) as char
  }

  /** The decimal numeral of `n`, most significant digit first. */
  function Decimal(n: nat): (s: string)
    ensures |s| > 0 && AllDigits(s)
    ensures n < 10 <==> |s| == 1
  {
    if n < 10 then [DigitChar(n)] else Decimal(n / 10) + [DigitChar(n % 10)]
  }

  /** The number a string of digits denotes. */
  function DigitsValue(s: string): nat
    requires AllDigits(s)
  {
    if s == [] then 0 else 10 * DigitsValue(s[..|s| - 1]) + (s[|s| - 1] as int - '0' as int)
  }

  /** The counter value an id stands for, or `None` for a string that is not a
      numeral. */
  function ParseId(s: string): Option<nat> {
    if |s| > 0 && AllDigits(s) then Some(DigitsValue(s)) else None
  }

  /** Parsing undoes `Decimal`. */
  lemma {:induction false} ParseDecimal(n: nat)
    ensures ParseId(Decimal(n)) == Some(n)
    decreases n
  {
    var s := Decimal(n);
    if n >= 10 {
      ParseDecimal(n / 10);
      assert s[..|s| - 1] == Decimal(n / 10);
    } else {
      assert s[..|s| - 1] == [];
      assert DigitsValue(s) == 10 * DigitsValue([]) + (s[0] as int - '0' as int);
    }
  }
}
