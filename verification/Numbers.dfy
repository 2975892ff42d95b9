/** Decimal numbers as std::to_string prints and std::stoi reads them. */
module Numbers {
  import opened Common

  const INT_MAX: int := 0x7FFF_FFFF

  predicate IsSpace(c: char) {
    c == ' ' || '\t' <= c <= '\r'
  }

  predicate IsDigit(c: char) {
    '0' <= c <= '9'
  }

  predicate AllDigits(s: string) {
    forall i | 0 <= i < |s| :: IsDigit(s[i])
  }

  function DigitsEnd(s: string): (n: nat)
    ensures n <= |s|
  {
    if s != "" && IsDigit(s[0]) then 1 + DigitsEnd(s[1..]) else 0
  }

  function Value(digits: string): int
    requires AllDigits(digits)
  {
    if digits == "" then 0 else Value(digits[..|digits| - 1]) * 10 + (digits[|digits| - 1] as int - '0' as int)
  }

  lemma {:induction false} DigitsEndIsDigits(s: string)
    ensures AllDigits(s[..DigitsEnd(s)])
  {
    if s != "" && IsDigit(s[0]) {
      DigitsEndIsDigits(s[1..]);
      assert s[..DigitsEnd(s)] == [s[0]] + s[1..][..DigitsEnd(s[1..])];
    }
  }

  /** std::stoi: blanks, a sign, then as many digits as there are; None when it throws. */
  function Stoi(s: string): (r: Option<int>)
    ensures r.Some? ==> -INT_MAX - 1 <= r.value <= INT_MAX
    decreases |s|
  {
    if s != "" && IsSpace(s[0]) then Stoi(s[1..])
    else
      var negative := s != "" && s[0] == '-';
      var t := if s != "" && (s[0] == '-' || s[0] == '+') then s[1..] else s;
      var n := DigitsEnd(t);
      DigitsEndIsDigits(t);
      var v := if negative then -Value(t[..n]) else Value(t[..n]);
      if n == 0 || v < -INT_MAX - 1 || v > INT_MAX then None else Some(v)
  }

  function Decimal(n: nat): (s: string)
    ensures s != "" && AllDigits(s)
  {
    (if n < 10 then "" else Decimal(n / 10)) + [('0' as int + n % 10) as char]
  }

  lemma {:induction false} DecimalValue(n: nat)
    ensures Value(Decimal(n)) == n
  {
    var s := Decimal(n);
    if n >= 10 {
      DecimalValue(n / 10);
      assert s[..|s| - 1] == Decimal(n / 10);
    } else {
      assert s[..|s| - 1] == "";
    }
  }

  lemma {:induction false} DigitsEndOfDigits(s: string)
    requires AllDigits(s)
    ensures DigitsEnd(s) == |s|
  {
    if s != "" {
      DigitsEndOfDigits(s[1..]);
    }
  }

  /** Printing and parsing a number are inverse on everything an int holds. */
  lemma StoiDecimal(n: nat)
    ensures Stoi(Decimal(n)) == if n <= INT_MAX then Some(n) else None
  {
    var s := Decimal(n);
    assert IsDigit(s[0]);
    DigitsEndOfDigits(s);
    DecimalValue(n);
    assert s[..|s|] == s;
  }

  /** Blanks before a number do nothing. */
  lemma StoiBlank(blank: char, s: string)
    requires IsSpace(blank)
    ensures Stoi([blank] + s) == Stoi(s)
  {
    assert ([blank] + s)[1..] == s;
  }

  lemma Signed(sign: char, s: string)
    requires (sign == '-' || sign == '+') && s != "" && AllDigits(s) && DigitsEnd(s) == |s|
    ensures Stoi([sign] + s) ==
      var v := if sign == '-' then -Value(s) else Value(s);
      if v < -INT_MAX - 1 || v > INT_MAX then None else Some(v)
  {
    hide Value, DigitsEnd;
    var t := [sign] + s;
    assert t[0] == sign && t[1..] == s && s[..|s|] == s;
    assert !IsSpace(t[0]);
  }

  /** A minus sign negates and a plus sign does nothing; -2147483648 is the least number. */
  lemma StoiSign(n: int)
    requires n >= 0
    ensures Stoi(['-'] + Decimal(n)) == if n <= INT_MAX + 1 then Some(-n) else None
    ensures Stoi(['+'] + Decimal(n)) == Stoi(Decimal(n))
  {
    DigitsEndOfDigits(Decimal(n));
    DecimalValue(n);
    StoiDecimal(n);
    hide Stoi, Decimal, Value, DigitsEnd;
    Signed('-', Decimal(n));
    Signed('+', Decimal(n));
  }

  /** What follows the digits is ignored, and without a digit there is no number. */
  lemma StoiTail(n: nat, tail: string)
    requires tail != "" ==> !IsDigit(tail[0])
    ensures Stoi(Decimal(n) + tail) == Stoi(Decimal(n))
    ensures tail == "" || (!IsSpace(tail[0]) && tail[0] != '-' && tail[0] != '+') ==> Stoi(tail) == None
  {
    var s := Decimal(n);
    assert IsDigit(s[0]);
    DigitsEndBefore(s, tail);
    DigitsEndOfDigits(s);
    NoDigits(tail);
    hide Decimal, Value, DigitsEnd;
    assert s[..|s|] == s && (s + tail)[..|s|] == s && (s + tail)[0] == s[0];
  }

  lemma NoDigits(s: string)
    requires s != "" ==> !IsDigit(s[0])
    ensures DigitsEnd(s) == 0
  {
  }

  lemma {:induction false} DigitsEndBefore(s: string, tail: string)
    requires AllDigits(s) && (tail != "" ==> !IsDigit(tail[0]))
    ensures DigitsEnd(s + tail) == |s|
  {
    if s != "" {
      DigitsEndBefore(s[1..], tail);
      assert (s + tail)[1..] == s[1..] + tail;
    } else {
      assert s + tail == tail;
    }
  }
}
