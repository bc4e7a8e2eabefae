/** Decimal printing and parsing of event ids, as fmt's %d and strconv.Atoi do it. */
module Decimal {
  import opened Wrappers

  const MAX_INT := 0x7fff_ffff_ffff_ffff
  const MIN_INT := -0x8000_0000_0000_0000

  predicate IsDigit(c: char) {
    '0' <= c <= '9'
  }

  function DigitChar(d: nat): (c: char)
    requires d < 10
    ensures IsDigit(c) && DigitValue(c) == d
  {
    ('0' as int + d) as char
  }

  function DigitValue(c: char): nat
    requires IsDigit(c)
  {
    c as int - '0' as int
  }

  function Itoa(n: nat): (s: string)
    ensures s != "" && forall i :: 0 <= i < |s| ==> IsDigit(s[i])
  {
    if n < 10 then [DigitChar(n)] else Itoa(n / 10) + [DigitChar(n % 10)]
  }

  /** The number a run of digits denotes, or None when some character is not a digit. */
  function DigitsValue(s: string): Option<nat> {
    if s == "" then Some(0)
    else
      match DigitsValue(s[..|s| - 1])
      case None => None
      case Some(v) => if IsDigit(s[|s| - 1]) then Some(10 * v + DigitValue(s[|s| - 1])) else None
  }

  /** strconv.Atoi for a 64-bit int: an optional sign, at least one digit, within range. */
  function Atoi(s: string): Option<int> {
    if s == "" then None
    else
      var signed := s[0] == '-' || s[0] == '+';
      var digits := if signed then s[1..] else s;
      if digits == "" then None
      else
        match DigitsValue(digits)
        case None => None
        case Some(v) =>
          var n: int := if s[0] == '-' then 0 - v else v as int;
          if MIN_INT <= n <= MAX_INT then Some(n) else None
  }

  /** Two's-complement wrap-around of a 64-bit int. */
  function Wrap(n: int): (w: int)
    ensures MIN_INT <= w <= MAX_INT
    ensures MIN_INT <= n <= MAX_INT ==> w == n
  {
    (n - MIN_INT) % 0x1_0000_0000_0000_0000 + MIN_INT
  }

  lemma {:induction false} DigitsValueOfItoa(n: nat)
    ensures DigitsValue(Itoa(n)) == Some(n)
  {
    if n < 10 {
      assert Itoa(n)[..0] == "";
      assert DigitsValue("") == Some(0);
    } else {
      DigitsValueOfItoa(n / 10);
      assert Itoa(n)[..|Itoa(n)| - 1] == Itoa(n / 10);
    }
  }

  lemma {:induction false} AtoiOfItoa(n: nat)
    requires n <= MAX_INT
    ensures Atoi(Itoa(n)) == Some(n)
  {
    DigitsValueOfItoa(n);
    assert IsDigit(Itoa(n)[0]);
  }
}
