/**
 * Decimal numerals: `fmt.Sprintf("%d", n)` for a non-negative `n`, and the
 * parse a client applies to read the number back.
 */
module Decimal {

  import opened Wrappers

  predicate IsDigit(c: char)
  {
    '0' <= c <= '9'
  }

  function DigitChar(d: nat): (c: char)
    requires d < 10
    ensures IsDigit(c) && c as int - '0' as int == d
  {
    ('0' as int + d) as char
  }

  function DigitValue(c: char): (d: nat)
    requires IsDigit(c)
    ensures d < 10 && DigitChar(d) == c
  {
    c as int - '0' as int
  }

  predicate AllDigits(s: string)
  {
    forall i :: 0 <= i < |s| ==> IsDigit(s[i])
  }

  /** A canonical numeral: non-empty, digits only, and no leading zero unless it is "0". */
  predicate IsNumeral(s: string)
  {
    |s| > 0 && AllDigits(s) && (s[0] == '0' ==> |s| == 1)
  }

  /** The number a string of digits denotes (most significant digit first). */
  function ValueOf(s: string): nat
    requires AllDigits(s)
    decreases |s|
  {
    if s == [] then 0 else 10 * ValueOf(s[..|s| - 1]) + DigitValue(s[|s| - 1])
  }

  /** `fmt.Sprintf("%d", n)`: the canonical numeral of `n`. */
  function Format(n: nat): (s: string)
    ensures IsNumeral(s)
    ensures s[0] == '0' <==> n == 0
    decreases n
  {
    if n < 10 then [DigitChar(n)] else Format(n / 10) + [DigitChar(n % 10)]
  }

  /** Reads a canonical numeral; anything else is refused. */
  function Parse(s: string): (r: Option<nat>)
    ensures r.Some? <==> IsNumeral(s)
    ensures r.Some? ==> Format(r.value) == s
  {
    if IsNumeral(s) then
      FormatParse(s);
      Some(ValueOf(s))
    else None
  }

  /** The numeral of a size parses back to that size. */
  lemma {:induction false} ParseFormat(n: nat)
    ensures Parse(Format(n)) == Some(n)
  {
    ValueOfFormat(n);
  }

  lemma {:induction false} ValueOfFormat(n: nat)
    ensures ValueOf(Format(n)) == n
    decreases n
  {
    var s := Format(n);
    if n >= 10 {
      ValueOfFormat(n / 10);
      assert s[..|s| - 1] == Format(n / 10);
    } else {
      assert s[..|s| - 1] == [];
    }
  }

  /** A string of digits with a non-zero digit denotes a positive number. */
  lemma {:induction false} ValueOfPositive(s: string, k: nat)
    requires AllDigits(s) && k < |s| && s[k] != '0'
    ensures ValueOf(s) > 0
    decreases |s|
  {
    if k < |s| - 1 {
      ValueOfPositive(s[..|s| - 1], k);
    }
  }

  /** Every canonical numeral is the one Format produces: the numeral of a number is unique. */
  lemma {:induction false} FormatParse(s: string)
    requires IsNumeral(s)
    ensures Format(ValueOf(s)) == s
    decreases |s|
  {
    if |s| > 1 {
      var init := s[..|s| - 1];
      assert init[0] == s[0];
      ValueOfPositive(init, 0);
      FormatParse(init);
      var v := ValueOf(s);
      assert v / 10 == ValueOf(init) && v % 10 == DigitValue(s[|s| - 1]);
      assert s == init + [s[|s| - 1]];
    }
  }

}
