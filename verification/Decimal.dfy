/** Base-ten numerals: what the %d verb and the JSON encoder print, and how to
    read it back. */
module Decimal {
  import opened Base

  function Digit(d: nat): char
    requires d < 10
  {
    '0' + d as char
  }

  predicate IsDigit(c: char) {
    '0' <= c <= '9'
  }

  function Digits(n: nat): (s: string)
    ensures s != [] && forall i :: 0 <= i < |s| ==> IsDigit(s[i])
  {
    if n < 10 then [Digit(n)] else Digits(n / 10) + [Digit(n % 10)]
  }

  function Numeral(n: int): (s: string)
    ensures s != []
  {
    if n < 0 then "-" + Digits(-n) else Digits(n)
  }

  // ----- reading

  function ValueOf(s: string): nat
    requires forall i :: 0 <= i < |s| ==> IsDigit(s[i])
  {
    if s == [] then 0
    else
      assert IsDigit(s[|s| - 1]);
      10 * ValueOf(s[..|s| - 1]) + (s[|s| - 1] as int - '0' as int)
  }

  /** The number of digits s starts with. */
  function Span(s: string): (k: nat)
    ensures k <= |s|
    ensures forall i :: 0 <= i < k ==> IsDigit(s[i])
  {
    if s != [] && IsDigit(s[0]) then 1 + Span(s[1..]) else 0
  }

  /** The digits at the front of s, without a leading zero. */
  function ReadNat(s: string): (r: Option<(int, string)>)
    ensures r.Some? ==> |r.value.1| < |s|
  {
    var k := Span(s);
    if k == 0 || (k > 1 && s[0] == '0') then None else Some((ValueOf(s[..k]), s[k..]))
  }

  /** The integer at the front of s, as RFC 8259 section 6 has it: an optional
      minus sign and digits without a leading zero. */
  function ReadInt(s: string): (r: Option<(int, string)>)
    ensures r.Some? ==> |r.value.1| < |s|
  {
    if s != [] && s[0] == '-' then
      match ReadNat(s[1..])
      case None => None
      case Some((n, rest)) => Some((-n, rest))
    else ReadNat(s)
  }

  lemma {:induction false} DigitsValue(n: nat)
    ensures ValueOf(Digits(n)) == n
    ensures Digits(n)[0] == '0' ==> n == 0
    ensures |Digits(n)| > 1 ==> n >= 10
  {
    if n >= 10 {
      DigitsValue(n / 10);
      var s := Digits(n);
      assert s[..|s| - 1] == Digits(n / 10);
    }
  }

  predicate StartsWithDigit(s: string) {
    s != [] && IsDigit(s[0])
  }

  lemma {:induction false} SpanOf(digits: string, rest: string)
    requires forall i :: 0 <= i < |digits| ==> IsDigit(digits[i])
    requires !StartsWithDigit(rest)
    ensures Span(digits + rest) == |digits|
  {
    if digits == [] {
      assert digits + rest == rest;
    } else {
      SpanOf(digits[1..], rest);
      assert (digits + rest)[1..] == digits[1..] + rest;
    }
  }

  lemma DigitsRead(n: nat, rest: string)
    requires !StartsWithDigit(rest)
    ensures ReadNat(Digits(n) + rest) == Some((n, rest))
  {
    var d := Digits(n);
    DigitsValue(n);
    SpanOf(d, rest);
    assert (d + rest)[..|d|] == d && (d + rest)[|d|..] == rest;
  }

  lemma SignedRead(digits: string)
    requires ReadNat(digits).Some?
    ensures ReadInt("-" + digits) == Some((-ReadNat(digits).value.0, ReadNat(digits).value.1))
  {
    assert ("-" + digits)[1..] == digits;
  }

  lemma UnsignedRead(digits: string)
    requires digits != [] && digits[0] != '-'
    ensures ReadInt(digits) == ReadNat(digits)
  {
  }

  /** Printing and reading an integer is the identity, whatever follows it. */
  lemma NumeralReads(n: int, rest: string)
    requires !StartsWithDigit(rest)
    ensures ReadInt(Numeral(n) + rest) == Some((n, rest))
  {
    if n < 0 {
      Append2("-", Digits(-n), rest);
      DigitsRead(-n, rest);
      SignedRead(Digits(-n) + rest);
    } else {
      NatReads(n, rest);
    }
  }

  lemma NatReads(n: nat, rest: string)
    requires !StartsWithDigit(rest)
    ensures ReadInt(Digits(n) + rest) == Some((n, rest))
  {
    DigitsRead(n, rest);
    assert (Digits(n) + rest)[0] == Digits(n)[0] && IsDigit(Digits(n)[0]);
    UnsignedRead(Digits(n) + rest);
  }

  /** The numeral of a number ends in the digit of its units, after the numeral of the
      tens. */
  lemma NumeralOfTens(tens: nat, units: nat)
    requires units < 10
    ensures Numeral(10 * tens + units) == (if tens == 0 then "" else Numeral(tens)) + ["0123456789"[units]]
    ensures 0 < 10 * tens + units ==> Numeral(-(10 * tens + units)) == "-" + Numeral(10 * tens + units)
  {
    assert (10 * tens + units) / 10 == tens && (10 * tens + units) % 10 == units;
    assert "0123456789"[units] == '0' + units as char;
  }

  lemma NumeralReadsWhole(n: int)
    ensures ReadInt(Numeral(n)) == Some((n, ""))
  {
    NumeralReads(n, "");
    assert Numeral(n) + "" == Numeral(n);
  }

  function ReadWholeInt(field: string, low: int, high: int): Option<int> {
    match ReadInt(field)
    case None => None
    case Some((n, rest)) => if rest == [] && low <= n < high then Some(n) else None
  }

  function ReadInt64(field: string): Option<int64> {
    match ReadWholeInt(field, -0x8000_0000_0000_0000, 0x8000_0000_0000_0000)
    case None => None
    case Some(n) => if -0x8000_0000_0000_0000 <= n < 0x8000_0000_0000_0000 then Some(n as int64) else None
  }

  /** A numeral holds digits and, in front, a minus sign when it is negative. */
  lemma NumeralChars(n: int, i: nat)
    requires i < |Numeral(n)|
    ensures IsDigit(Numeral(n)[i]) || (i == 0 && n < 0 && Numeral(n)[0] == '-')
  {
  }
}
