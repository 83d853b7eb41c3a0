/** Signed decimal text: `std::to_string`, `std::stoi` and `std::stoul`. */
module Decimal {
  import opened Wrappers

  predicate IsDigit(c: char) {
    '0' <= c <= '9'
  }

  predicate AllDigits(s: string) {
    forall i | 0 <= i < |s| :: IsDigit(s[i])
  }

  function DigitChar(d: nat): (c: char)
    requires d < 10
    ensures IsDigit(c) && c as int - '0' as int == d
  {
    ('0' as int + d) as char
  }

  function Digits(n: nat): (s: string)
    ensures |s| >= 1 && AllDigits(s)
  {
    if n < 10 then [DigitChar(n)] else Digits(n / 10) + [DigitChar(n % 10)]
  }

  /** `std::to_string` on an integer. */
  function ToString(x: int): (s: string)
    ensures |s| >= 1 && (IsDigit(s[0]) || (s[0] == '-' && |s| >= 2))
    ensures forall i | 1 <= i < |s| :: IsDigit(s[i])
    ensures x < 0 <==> s[0] == '-'
  {
    if x < 0 then "-" + Digits(-x) else Digits(x)
  }

  /** The number a run of digits denotes, most significant first. */
  function Value(s: string): nat
    requires AllDigits(s)
  {
    if s == [] then 0
    else Value(s[..|s| - 1]) * 10 + (s[|s| - 1] as int - '0' as int)
  }

  lemma {:induction false} ValueOfDigits(n: nat)
    ensures Value(Digits(n)) == n
  {
    var s := Digits(n);
    if n >= 10 {
      ValueOfDigits(n / 10);
      assert s[..|s| - 1] == Digits(n / 10);
    }
  }

  /** The characters `isspace` accepts in the C locale. */
  predicate IsSpace(c: char) {
    c == ' ' || 9 <= c as int <= 13
  }

  function SkipSpaces(s: string): (t: string)
    ensures |t| <= |s|
    ensures t != [] ==> !IsSpace(t[0])
  {
    if s != [] && IsSpace(s[0]) then SkipSpaces(s[1..]) else s
  }

  /** Length of the longest run of digits at the front. */
  function DigitRun(s: string): (n: nat)
    ensures n <= |s| && AllDigits(s[..n])
    ensures n < |s| ==> !IsDigit(s[n])
  {
    if s == [] || !IsDigit(s[0]) then 0
    else
      var m := DigitRun(s[1..]);
      assert s[..m + 1] == [s[0]] + s[1..][..m];
      m + 1
  }

  datatype ParseError = InvalidArgument | OutOfRange

  datatype Parsed = Parsed(negative: bool, magnitude: nat)

  /** The part shared by `strtol` and `strtoul`: blanks, a sign, and the longest run of digits. */
  function Scan(s: string): Result<Parsed, ParseError> {
    var t := SkipSpaces(s);
    var signed := t != [] && (t[0] == '-' || t[0] == '+');
    var u := if signed then t[1..] else t;
    var n := DigitRun(u);
    if n == 0 then Err(InvalidArgument)
    else Ok(Parsed(signed && t[0] == '-', Value(u[..n])))
  }

  /** `std::stoi`. */
  function Stoi(s: string): Result<Int32, ParseError> {
    match Scan(s)
    case Err(e) => Err(e)
    case Ok(p) =>
      var x: int := if p.negative then 0 - p.magnitude else p.magnitude;
      if INT32_MIN <= x <= INT32_MAX then Ok(x) else Err(OutOfRange)
  }

  /** `std::stoul` with a 64-bit `unsigned long`: a minus sign negates modulo 2^64. */
  function Stoul(s: string): Result<nat, ParseError> {
    match Scan(s)
    case Err(e) => Err(e)
    case Ok(p) =>
      if p.magnitude >= 0x1_0000_0000_0000_0000 then Err(OutOfRange)
      else if p.negative && p.magnitude > 0 then Ok(0x1_0000_0000_0000_0000 - p.magnitude)
      else Ok(p.magnitude)
  }

  lemma ScanOfToString(x: int)
    ensures Scan(ToString(x)) == Ok(Parsed(x < 0, if x < 0 then -x else x))
  {
    var s := ToString(x);
    var u := if x < 0 then s[1..] else s;
    assert u == Digits(if x < 0 then -x else x);
    assert u[..DigitRun(u)] == u;
    ValueOfDigits(if x < 0 then -x else x);
  }

  /** Decimal printing and parsing are inverse on every 32-bit integer, and every other is out of range. */
  lemma StoiOfToString(x: int)
    ensures Stoi(ToString(x)) == if INT32_MIN <= x <= INT32_MAX then Ok(x) else Err(OutOfRange)
  {
    ScanOfToString(x);
  }

  // What the printed text is, said without the printer.

  /** The one way to write a natural number: digits, most significant first, no leading zero. */
  predicate IsNatural(s: string, n: nat) {
    s != [] && AllDigits(s) && (s[0] == '0' ==> |s| == 1) && Value(s) == n
  }

  predicate IsDecimal(s: string, x: int) {
    if x < 0 then |s| >= 2 && s[0] == '-' && IsNatural(s[1..], -x) else IsNatural(s, x)
  }

  lemma {:induction false} DigitsHaveNoLeadingZero(n: nat)
    ensures Digits(n)[0] == '0' ==> n == 0
  {
    if n >= 10 {
      DigitsHaveNoLeadingZero(n / 10);
      assert Digits(n)[0] == Digits(n / 10)[0];
    }
  }

  lemma {:induction false} ValueIsPositive(s: string)
    requires s != [] && AllDigits(s) && s[0] != '0'
    ensures Value(s) >= 1
  {
    if |s| > 1 {
      ValueIsPositive(s[..|s| - 1]);
    } else {
      assert s[..|s| - 1] == [];
    }
  }

  lemma {:induction false} NaturalIsDigits(s: string, n: nat)
    requires IsNatural(s, n)
    ensures s == Digits(n)
    decreases |s|
  {
    var front := s[..|s| - 1];
    var d := s[|s| - 1] as int - '0' as int;
    assert s == front + [s[|s| - 1]];
    assert DigitChar(d) == s[|s| - 1];
    if front == [] {
      assert Value(front) == 0;
    } else {
      ValueIsPositive(front);
      NaturalIsDigits(front, n / 10);
    }
  }

  /** The printed text is the decimal of the number, and no other text is. */
  lemma ToStringIsTheDecimal(x: int, s: string)
    ensures IsDecimal(s, x) <==> s == ToString(x)
  {
    var n := if x < 0 then -x else x;
    ValueOfDigits(n);
    DigitsHaveNoLeadingZero(n);
    if x < 0 {
      assert ToString(x)[1..] == Digits(n);
      if IsDecimal(s, x) {
        NaturalIsDigits(s[1..], n);
        assert s == "-" + s[1..];
      }
    } else if IsDecimal(s, x) {
      NaturalIsDigits(s, n);
    }
  }

  lemma DecimalExamples()
    ensures ToString(0) == "0" && ToString(7) == "7" && ToString(120) == "120" && ToString(-35) == "-35"
  {
  }

  /** A sign, digits, and something that is not a digit. */
  lemma ScanSigned(sign: string, digits: string, rest: string)
    requires sign == "" || sign == "-" || sign == "+"
    requires digits != [] && AllDigits(digits) && (rest == [] || !IsDigit(rest[0]))
    ensures var t := sign + (digits + rest);
            t != [] && !IsSpace(t[0]) && (SkipSpaces(t) == t ==> Scan(t) == Ok(Parsed(sign == "-", Value(digits))))
  {
    var u := digits + rest;
    var t := sign + u;
    DigitRunOf(digits, rest);
    assert u[..|digits|] == digits;
    if sign == "" {
      assert t == u;
    } else {
      assert t[0] == sign[0] && t[1..] == u;
    }
  }

  /** Reading skips the blanks of the C locale and one sign, and stops at the first non-digit. */
  lemma ScanReadsPrefix(blanks: string, sign: string, digits: string, rest: string)
    requires forall c | c in blanks :: c in [' ', '\t', '\n', 11 as char, 12 as char, '\r']
    requires sign == "" || sign == "-" || sign == "+"
    requires digits != [] && AllDigits(digits) && (rest == [] || rest[0] < '0' || '9' < rest[0])
    ensures Scan(blanks + (sign + (digits + rest))) == Ok(Parsed(sign == "-", Value(digits)))
  {
    var t := sign + (digits + rest);
    ScanSigned(sign, digits, rest);
    SkipSpacesOf(blanks, t);
    assert [] + t == t;
    SkipSpacesOf([], t);
  }

  /** A text whose first character after the blanks is neither digit nor sign is no number; nor is a lone sign. */
  lemma NoNumberThere(blanks: string, text: string)
    requires forall c | c in blanks :: IsSpace(c)
    requires text != [] && !IsSpace(text[0]) && text[0] != '-' && text[0] != '+' && !IsDigit(text[0])
    ensures Scan(blanks + text) == Err(InvalidArgument) && Scan("") == Err(InvalidArgument) && Scan("-") == Err(InvalidArgument)
  {
    SkipSpacesOf(blanks, text);
  }

  lemma {:induction false} SkipSpacesOf(blanks: string, t: string)
    requires t != [] && !IsSpace(t[0]) && forall c | c in blanks :: IsSpace(c)
    ensures SkipSpaces(blanks + t) == t
  {
    if blanks == [] {
      assert blanks + t == t;
    } else {
      assert (blanks + t)[1..] == blanks[1..] + t;
      SkipSpacesOf(blanks[1..], t);
    }
  }

  lemma {:induction false} DigitRunOf(digits: string, rest: string)
    requires AllDigits(digits) && (rest == [] || !IsDigit(rest[0]))
    ensures DigitRun(digits + rest) == |digits|
  {
    if digits == [] {
      assert digits + rest == rest;
    } else {
      assert (digits + rest)[1..] == digits[1..] + rest;
      DigitRunOf(digits[1..], rest);
    }
  }

  lemma ToStringInjective(x: int, y: int)
    requires ToString(x) == ToString(y)
    ensures x == y
  {
    ScanOfToString(x);
    ScanOfToString(y);
  }

  /** `std::stoul` on a printed number: itself, its negation modulo 2^64, or out of range. */
  lemma StoulOfToString(n: nat)
    ensures n < 0x1_0000_0000_0000_0000 ==> Stoul(ToString(n)) == Ok(n)
    ensures 0 < n < 0x1_0000_0000_0000_0000 ==> Stoul(ToString(0 - n)) == Ok(0x1_0000_0000_0000_0000 - n)
    ensures n >= 0x1_0000_0000_0000_0000 ==> Stoul(ToString(n)) == Stoul(ToString(0 - n)) == Err(OutOfRange)
  {
    ScanOfToString(n);
    ScanOfToString(0 - n);
  }
}
