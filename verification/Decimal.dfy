/** Integers as text: `str(n)`, and the reading that accepts nothing but `str(n)`. */
module Decimal {
  import opened Wrappers

  const DIGITS := "0123456789"

  function Digits(n: nat): string {
    if n < 10 then [DIGITS[n]] else Digits(n / 10) + [DIGITS[n % 10]]
  }

  function Text(n: int): string { if n < 0 then "-" + Digits(-n) else Digits(n) }

  function Digit(c: char): Option<nat> {
    if '0' <= c <= '9' then Some(c as int - '0' as int) else None
  }

  /** The value of a nonempty text of decimal digits, leading zeros included. */
  function Value(s: string): Option<nat> {
    if s == "" then None
    else
      var n := |s| - 1;
      match Digit(s[n])
      case None => None
      case Some(d) =>
        if n == 0 then Some(d)
        else match Value(s[..n]) case Some(v) => Some(10 * v + d) case None => None
  }

  /**
    `int(s)` for the texts that can pass the comparison which follows it. `int` also reads spaces, `+`, `_`
    and other scripts' digits; all of those differ from the `str` of what was read.
   */
  function Read(s: string): Option<int> {
    var negative := s != "" && s[0] == '-';
    var v := Value(if negative then s[1..] else s);
    if v.None? then None else if negative then Option<int>.Some(-(v.value as int)) else Some(v.value)
  }

  /** `int(s)`, refused unless `str(int(s)) == s`. */
  function Strict(s: string): Option<int> {
    match Read(s) case Some(n) => if Text(n) == s then Some(n) else None case None => None
  }

  lemma {:induction false} DigitsRead(n: nat)
    ensures Digits(n) != "" && Digit(Digits(n)[0]).Some? && Value(Digits(n)) == Some(n)
  {
    if n >= 10 {
      DigitsRead(n / 10);
      assert Digits(n)[..|Digits(n)| - 1] == Digits(n / 10);
    }
  }

  /** A text is accepted exactly when it is the text of an integer, and it is read as that integer. */
  lemma StrictIsInverse(s: string, n: int)
    ensures Strict(s) == Some(n) <==> s == Text(n)
  {
    DigitsRead(if n < 0 then -n else n);
    if n < 0 { assert Text(n)[1..] == Digits(-n); }
  }

  lemma Injective(m: int, n: int)
    requires Text(m) == Text(n)
    ensures m == n
  {
    StrictIsInverse(Text(m), m);
    StrictIsInverse(Text(m), n);
  }
}
