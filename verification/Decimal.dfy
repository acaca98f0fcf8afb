/** Decimal numerals as the standard library prints and parses them. */
module Decimal {
  import opened Octets

  const ZERO: Octet := 48
  const NINE: Octet := 57
  const PLUS: Octet := 43
  const MINUS: Octet := 45

  predicate IsDigit(c: Octet) {
    ZERO <= c <= NINE
  }

  predicate AllDigits(s: Bytes) {
    forall i :: 0 <= i < |s| ==> IsDigit(s[i])
  }

  function Format(n: nat): (s: Bytes)
    ensures |s| > 0 && AllDigits(s)
  {
    if n < 10 then [ZERO + n] else Format(n / 10) + [ZERO + n % 10]
  }

  /** The value of a digit string, most significant digit first; leading zeros count for nothing. */
  function Value(s: Bytes): (n: nat)
    requires AllDigits(s)
  {
    if |s| == 0 then 0 else Value(s[..|s| - 1]) * 10 + (s[|s| - 1] - ZERO)
  }

  lemma {:induction false} ValueOfFormat(n: nat)
    ensures Value(Format(n)) == n
  {
    var s := Format(n);
    if n < 10 {
      assert s[..0] == [];
    } else {
      ValueOfFormat(n / 10);
      assert s[..|s| - 1] == Format(n / 10);
    }
  }

  /** A run of digits read as a 64-bit integer: an overlong run yields the largest one. */
  function ParseSaturating(s: Bytes): (n: int)
    requires AllDigits(s)
    ensures 0 <= n <= MAX_INT64
  {
    if Value(s) > MAX_INT64 then MAX_INT64 else Value(s)
  }

  /** An optionally signed numeral; anything else, or a value out of range, is an error. */
  function Atoi(s: Bytes): (n: Option<int>)
  {
    var digits := if |s| > 0 && (s[0] == PLUS || s[0] == MINUS) then s[1..] else s;
    if |digits| == 0 || !AllDigits(digits) then None
    else
      var v := if s[0] == MINUS then 0 - Value(digits) as int else Value(digits) as int;
      if -MAX_INT64 - 1 <= v <= MAX_INT64 then Some(v) else None
  }

  function Itoa(n: int): (s: Bytes)
  {
    if n < 0 then [MINUS] + Format(-n) else Format(n)
  }

  lemma AtoiOfItoa(n: int)
    requires 0 <= n <= MAX_INT64
    ensures Atoi(Itoa(n)) == Some(n)
  {
    ValueOfFormat(n);
    assert IsDigit(Format(n)[0]);
  }
}
