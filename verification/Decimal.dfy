/** Decimal numerals: `strconv.Itoa` and `strconv.ParseInt(s, 10, 64)`. */
module Decimal {
  import opened Bytes

  const DIGITS: string := "0123456789"

  predicate IsDigit(c: char) { '0' <= c <= '9' }

  predicate AllDigits(s: string) { forall i :: 0 <= i < |s| ==> IsDigit(s[i]) }

  function Digits(n: nat): (s: string)
    ensures s != [] && AllDigits(s)
  {
    (if n < 10 then [] else Digits(n / 10)) + [DIGITS[n % 10]]
  }

  function Value(s: string): nat
    requires AllDigits(s)
  {
    if s == [] then 0 else Value(s[..|s| - 1]) * 10 + (s[|s| - 1] as int - '0' as int)
  }

  function ParseInt(s: string): Option<int> {
    var signed := s != [] && (s[0] == '+' || s[0] == '-');
    var digits := if signed then s[1..] else s;
    if digits == [] || !AllDigits(digits) then None
    else
      var v: int := if signed && s[0] == '-' then 0 - Value(digits) else Value(digits);
      if -TWO_63 <= v < TWO_63 then Some(v) else None
  }

  lemma {:induction false} DigitsValue(n: nat)
    ensures Value(Digits(n)) == n
  {
    var s := Digits(n);
    assert s[|s| - 1] == DIGITS[n % 10] && DIGITS[n % 10] as int == '0' as int + n % 10;
    if n >= 10 {
      assert s[..|s| - 1] == Digits(n / 10);
      DigitsValue(n / 10);
    } else {
      assert s[..|s| - 1] == [];
    }
  }

  /** Parsing undoes printing, for every number an int64 holds. */
  lemma ParseDigits(n: nat)
    requires n < TWO_63
    ensures ParseInt(Digits(n)) == Some(n)
  {
    DigitsValue(n);
    assert IsDigit(Digits(n)[0]);
  }
}
