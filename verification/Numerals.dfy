/**
 Positional numerals: what std::to_string prints, what std::stoi reads back, and the
 in-place digit printer sio_ltoa of csapp.c.
 */
module Numerals {
  import opened Basics

  const MIN32: int := -0x8000_0000
  const MAX32: int := 0x7fff_ffff
  const MIN64: int := -0x8000_0000_0000_0000
  const MAX64: int := 0x7fff_ffff_ffff_ffff

  predicate IsInt32(n: int) { MIN32 <= n <= MAX32 }

  predicate IsInt64(n: int) { MIN64 <= n <= MAX64 }

  /** C's truncating division and its remainder. */
  function TruncDiv(a: int, b: int): int
    requires b != 0
  {
    if (a >= 0) == (b > 0) then Abs(a) / Abs(b) else -(Abs(a) / Abs(b))
  }

  function TruncMod(a: int, b: int): int
    requires b != 0
  {
    a - b * TruncDiv(a, b)
  }

  function Abs(a: int): nat { if a < 0 then -a else a }

  /** q is the quotient of a by b as C has it: the remainder is smaller than the divisor and is zero or
      has the sign of the dividend. */
  predicate Truncates(a: int, b: int, q: int) {
    var r := a - b * q;
    && (if r < 0 then -r else r) < (if b < 0 then -b else b)
    && (r == 0 || (r < 0 <==> a < 0))
  }

  lemma QuotientTruncates(a: int, b: int)
    requires b != 0
    ensures Truncates(a, b, TruncDiv(a, b))
  {
    var q := Abs(a) / Abs(b);
    DivMod(Abs(a), Abs(b));
    Signs(q, Abs(b));
    Commutes(b, TruncDiv(a, b));
  }

  lemma Signs(x: int, y: int)
    ensures -x * y == -(x * y) && x * -y == -(x * y) && -x * -y == x * y
  {
  }

  /** Nothing else is. */
  lemma QuotientIsUnique(a: int, b: int, q: int, p: int)
    requires b != 0 && Truncates(a, b, q) && Truncates(a, b, p)
    ensures q == p
  {
    var m, d := Abs(b), Abs(q - p);
    assert b * q - b * p == b * (q - p) by { Distributes(b, p, q - p); }
    Signs(m, d);
    assert Abs(b * q - b * p) == m * d;
    if d > 0 { Scales(m, 1, d); }
  }

  // ---------------------------------------------------------------- digits

  function Digit(d: nat): char
    requires d < 36
  {
    if d < 10 then (48 + d) as char else (87 + d) as char
  }

  function DigitValue(c: char): int {
    if IsDigit(c) then c as int - 48 else c as int - 87
  }

  lemma DivMod(n: nat, b: nat)
    requires b > 0
    ensures n / b * b + n % b == n && n % b < b
    ensures b >= 2 ==> 2 * (n / b) <= n
  {
    var q, r := n / b, n % b;
    Commutes(b, q);
    assert n == b * q + r;
    if b >= 2 { Scales(q, 2, b); }
  }

  lemma Commutes(x: int, y: int)
    ensures x * y == y * x
  {
  }

  lemma Scales(q: nat, m: nat, n: nat)
    requires m <= n
    ensures m * q <= q * n
  {
    Commutes(m, q);
    Distributes(q, m, n - m);
    NonNegative(q, n - m);
  }

  lemma Distributes(q: int, x: int, y: int)
    ensures q * (x + y) == q * x + q * y
  {
  }

  lemma NonNegative(x: nat, y: nat)
    ensures x * y >= 0
  {
  }

  /** The numeral of n in base b, most significant digit first. */
  function Digits(n: nat, b: nat): (s: string)
    requires 2 <= b <= 36
    ensures |s| >= 1
    decreases n
  {
    if n < b then [Digit(n)]
    else
      DivMod(n, b);
      Digits(n / b, b) + [Digit(n % b)]
  }

  /** The number a numeral denotes. */
  function Value(s: string, b: nat): int {
    if s == [] then 0 else Value(s[..|s| - 1], b) * b + DigitValue(s[|s| - 1])
  }

  /** A number with its sign. */
  function Text(v: int, b: nat): string
    requires 2 <= b <= 36
  {
    if v < 0 then "-" + Digits(-v, b) else Digits(v, b)
  }

  function Parse(s: string, b: nat): int {
    if s != [] && s[0] == '-' then -Value(s[1..], b) else Value(s, b)
  }

  predicate IsNumeral(s: string, b: nat) {
    forall i :: 0 <= i < |s| ==> exists d :: 0 <= d < b && d < 36 && s[i] == Digit(d)
  }

  lemma ValueAppend(s: string, c: char, b: nat)
    ensures Value(s + [c], b) == Value(s, b) * b + DigitValue(c)
  {
    assert (s + [c])[..|s|] == s;
  }

  lemma ValueAppendDigit(s: string, d: nat, b: nat)
    requires d < 36
    ensures Value(s + [Digit(d)], b) == Value(s, b) * b + d
  {
    ValueAppend(s, Digit(d), b);
    assert DigitValue(Digit(d)) == d;
  }

  lemma DigitsSplit(n: nat, b: nat) returns (q: nat, r: nat)
    requires 2 <= b <= 36 && n >= b
    ensures 0 < q < n && 2 * q <= n && r < b && n == q * b + r
    ensures Digits(n, b) == Digits(q, b) + [Digit(r)]
  {
    q, r := n / b, n % b;
    DivMod(n, b);
  }

  lemma {:induction false} DigitsDenote(n: nat, b: nat)
    requires 2 <= b <= 36
    ensures Value(Digits(n, b), b) == n
    decreases n
  {
    if n < b {
      assert Digits(n, b) == "" + [Digit(n)];
      ValueAppendDigit("", n, b);
      assert Value("", b) * b == 0;
    } else {
      var q, r := DigitsSplit(n, b);
      DigitsDenote(q, b);
      ValueAppendDigit(Digits(q, b), r, b);
    }
  }

  /** Every character is a digit of the base, and zero leads only the numeral of zero. */
  lemma {:induction false} DigitsShape(n: nat, b: nat)
    requires 2 <= b <= 36
    ensures IsNumeral(Digits(n, b), b)
    ensures Digits(n, b)[0] == '0' <==> n == 0
    ensures n == 0 ==> Digits(n, b) == "0"
    decreases n
  {
    if n < b {
      assert Digits(n, b)[0] == Digit(n);
    } else {
      var q, r := DigitsSplit(n, b);
      DigitsShape(q, b);
      NumeralAppend(Digits(q, b), r, b);
    }
  }

  lemma NumeralAppend(s: string, d: nat, b: nat)
    requires IsNumeral(s, b) && d < b <= 36
    ensures IsNumeral(s + [Digit(d)], b)
  {
    var t := s + [Digit(d)];
    forall i | 0 <= i < |t|
      ensures exists e :: 0 <= e < b && e < 36 && t[i] == Digit(e)
    {
      if i < |s| { assert t[i] == s[i]; } else { assert t[i] == Digit(d); }
    }
  }

  lemma NumeralCharacters(s: string, b: nat)
    requires b <= 36 && IsNumeral(s, b)
    ensures forall i :: 0 <= i < |s| ==> IsDigit(s[i]) || 'a' <= s[i] <= 'z'
    ensures b <= 10 ==> forall i :: 0 <= i < |s| ==> IsDigit(s[i])
  {
  }

  /** Text and Parse are inverse, so distinct numbers print differently. */
  lemma TextParses(v: int, b: nat)
    requires 2 <= b <= 36
    ensures Parse(Text(v, b), b) == v
  {
    DigitsDenote(Abs(v), b);
    DigitsShape(Abs(v), b);
    NumeralCharacters(Digits(Abs(v), b), b);
  }

  function Pow2(k: nat): nat { if k == 0 then 1 else 2 * Pow2(k - 1) }

  /** A number below 2^k needs at most k digits, in any base. */
  lemma {:induction false} DigitsLength(n: nat, b: nat, k: nat)
    requires 2 <= b <= 36 && n < Pow2(k) && k >= 1
    ensures |Digits(n, b)| <= k
    decreases k
  {
    if n >= b {
      var q, r := DigitsSplit(n, b);
      assert k > 1;
      DigitsLength(q, b, k - 1);
    }
  }

  lemma Pow2Of63()
    ensures Pow2(63) == 0x8000_0000_0000_0000
  {
    assert Pow2(10) == 1024;
    assert Pow2(20) == 1024 * 1024;
    assert Pow2(30) == 1024 * 1024 * 1024;
    assert Pow2(40) == 1024 * 1024 * 1024 * 1024;
    assert Pow2(50) == 1024 * 1024 * 1024 * 1024 * 1024;
    assert Pow2(60) == 1024 * 1024 * 1024 * 1024 * 1024 * 1024;
  }

  // ---------------------------------------------------------------- std::to_string and std::stoi

  /** std::to_string of a 64-bit integer. */
  function ToString(n: int): string { Text(n, 10) }

  function SkipSpaces(s: string): string {
    if s != [] && IsSpace(s[0]) then SkipSpaces(s[1..]) else s
  }

  function DigitPrefix(s: string): string {
    if s != [] && IsDigit(s[0]) then [s[0]] + DigitPrefix(s[1..]) else []
  }

  /** std::stoi: skips blanks, takes a sign and the longest run of digits, ignores what follows.
      None stands for the exceptions thrown without digits or outside 32 bits. */
  function Stoi(s: string): Option<int> {
    var t := SkipSpaces(s);
    var signed := t != [] && (t[0] == '-' || t[0] == '+');
    ToInt32(DigitPrefix(if signed then t[1..] else t), signed && t[0] == '-')
  }

  function ToInt32(d: string, negative: bool): Option<int> {
    var v := if negative then -Value(d, 10) else Value(d, 10);
    if d == [] || !IsInt32(v) then None else Some(v)
  }

  lemma {:induction false} DigitPrefixOfDigits(s: string)
    requires forall i :: 0 <= i < |s| ==> IsDigit(s[i])
    ensures DigitPrefix(s) == s
  {
    if s != [] { DigitPrefixOfDigits(s[1..]); }
  }

  lemma StoiOfDigits(s: string, negative: bool)
    requires s != [] && forall i :: 0 <= i < |s| ==> IsDigit(s[i])
    ensures Stoi(if negative then "-" + s else s) == ToInt32(s, negative)
  {
    var t := if negative then "-" + s else s;
    assert SkipSpaces(t) == t;
    DigitPrefixOfDigits(s);
    if negative { assert t[1..] == s; }
  }

  /** Reading back a printed integer gives the integer when it fits 32 bits, and fails otherwise. */
  lemma StoiOfToString(n: int)
    ensures Stoi(ToString(n)) == if IsInt32(n) then Some(n) else None
  {
    DigitsDenote(Abs(n), 10);
    DigitsShape(Abs(n), 10);
    NumeralCharacters(Digits(Abs(n), 10), 10);
    StoiOfDigits(Digits(Abs(n), 10), n < 0);
  }

  // ---------------------------------------------------------------- what is written and read, in plain text

  lemma Widths()
    ensures MIN32 == -2147483648 && MAX32 == 2147483647
    ensures MIN64 == -9223372036854775808 && MAX64 == 9223372036854775807
  {
  }

  lemma DigitTable()
    ensures [Digit(0), Digit(1), Digit(2), Digit(3), Digit(4), Digit(5), Digit(6), Digit(7), Digit(8), Digit(9)] == "0123456789"
    ensures [Digit(10), Digit(11), Digit(12), Digit(13), Digit(14), Digit(15), Digit(16), Digit(17), Digit(18),
             Digit(19), Digit(20), Digit(21), Digit(22)] == "abcdefghijklm"
    ensures [Digit(23), Digit(24), Digit(25), Digit(26), Digit(27), Digit(28), Digit(29), Digit(30), Digit(31),
             Digit(32), Digit(33), Digit(34), Digit(35)] == "nopqrstuvwxyz"
  {
  }

  lemma DigitValues(d: nat)
    requires d < 36
    ensures DigitValue(Digit(d)) == d
  {
  }

  /** std::to_string writes decimal numerals: a digit, or the numeral of the tens and a digit, after a
      minus sign when negative. */
  lemma DecimalText(n: int)
    ensures 0 <= n < 10 ==> ToString(n) == ["0123456789"[n]]
    ensures n >= 10 ==> ToString(n) == ToString(n / 10) + ToString(n % 10)
    ensures n < 0 ==> ToString(n) == "-" + ToString(-n)
  {
    if 0 <= n < 10 {
      DecimalDigit(n);
    } else if n >= 10 {
      DivMod(n, 10);
    }
  }

  lemma DecimalDigit(d: nat)
    requires d < 10
    ensures Digit(d) == "0123456789"[d]
  {
  }

  function Zeros(k: nat): string { if k == 0 then "" else "0" + Zeros(k - 1) }

  lemma {:induction false} SkipAllSpaces(blanks: string, t: string)
    requires (forall i :: 0 <= i < |blanks| ==> IsSpace(blanks[i])) && (t == "" || !IsSpace(t[0]))
    ensures SkipSpaces(blanks + t) == t
  {
    if blanks == "" {
      assert blanks + t == t;
    } else {
      assert (blanks + t)[1..] == blanks[1..] + t;
      SkipAllSpaces(blanks[1..], t);
    }
  }

  lemma {:induction false} DigitPrefixStops(d: string, rest: string)
    requires (forall i :: 0 <= i < |d| ==> IsDigit(d[i])) && (rest == "" || !IsDigit(rest[0]))
    ensures DigitPrefix(d + rest) == d
  {
    if d == "" {
      assert d + rest == rest;
    } else {
      assert (d + rest)[1..] == d[1..] + rest;
      DigitPrefixStops(d[1..], rest);
    }
  }

  lemma {:induction false} ZerosFirst(k: nat, d: string)
    requires forall i :: 0 <= i < |d| ==> IsDigit(d[i])
    ensures forall i :: 0 <= i < |Zeros(k) + d| ==> IsDigit((Zeros(k) + d)[i])
    ensures Value(Zeros(k) + d, 10) == Value(d, 10)
    decreases k
  {
    if k == 0 {
      assert Zeros(k) + d == d;
    } else {
      assert Zeros(k) + d == ['0'] + (Zeros(k - 1) + d);
      ZerosFirst(k - 1, d);
      LeadingZero(Zeros(k - 1) + d);
    }
  }

  lemma {:induction false} LeadingZero(d: string)
    ensures Value(['0'] + d, 10) == Value(d, 10)
  {
    if d == "" {
      assert ['0'] + d == "" + ['0'];
      ValueAppend("", '0', 10);
    } else {
      var front, last := d[..|d| - 1], d[|d| - 1];
      LeadingZero(front);
      assert (['0'] + d)[..|d|] == ['0'] + front;
    }
  }

  lemma StoiParts(blanks: string, sign: string, d: string, rest: string)
    requires forall i :: 0 <= i < |blanks| ==> IsSpace(blanks[i])
    requires sign == "" || sign == "+" || sign == "-"
    requires (forall i :: 0 <= i < |d| ==> IsDigit(d[i])) && (rest == "" || !IsDigit(rest[0]))
    requires sign == "" && d == "" && rest != "" ==> !IsSpace(rest[0]) && rest[0] != '+' && rest[0] != '-'
    ensures Stoi(blanks + (sign + (d + rest))) == ToInt32(d, sign == "-")
  {
    var t := sign + (d + rest);
    assert sign != "" ==> t[0] == sign[0] && t[1..] == d + rest;
    assert sign == "" ==> t == d + rest;
    assert sign == "" && d != "" ==> t[0] == d[0];
    SkipAllSpaces(blanks, t);
    DigitPrefixStops(d, rest);
    hide SkipSpaces, DigitPrefix, ToInt32;
  }

  /** std::stoi: blanks, at most one sign, leading zeros and a numeral are read as the number, whatever
      follows the digits, if it fits 32 bits. */
  lemma StoiReads(blanks: string, sign: string, k: nat, n: nat, rest: string)
    requires forall i :: 0 <= i < |blanks| ==> IsSpace(blanks[i])
    requires sign == "" || sign == "+" || sign == "-"
    requires rest == "" || rest[0] !in "0123456789"
    ensures var v: int := if sign == "-" then -(n as int) else n;
            Stoi(blanks + (sign + ((Zeros(k) + ToString(n)) + rest))) ==
            if -2147483648 <= v <= 2147483647 then Some(v) else None
  {
    DigitsDenote(n, 10);
    DigitsShape(n, 10);
    NumeralCharacters(Digits(n, 10), 10);
    ZerosFirst(k, Digits(n, 10));
    if rest != "" { CharacterTable(rest[0]); }
    StoiParts(blanks, sign, Zeros(k) + ToString(n), rest);
    hide Value, Digits, Zeros, Stoi;
  }

  /** And without a digit after the blanks and the sign it throws. */
  lemma StoiFails(blanks: string, sign: string, rest: string)
    requires forall i :: 0 <= i < |blanks| ==> IsSpace(blanks[i])
    requires sign == "" || sign == "+" || sign == "-"
    requires rest == "" || rest[0] !in "0123456789"
    requires sign == "" && rest != "" ==> !IsSpace(rest[0]) && rest[0] != '+' && rest[0] != '-'
    ensures Stoi(blanks + (sign + rest)) == None
  {
    if rest != "" { CharacterTable(rest[0]); }
    StoiParts(blanks, sign, "", rest);
    assert "" + rest == rest;
    hide Stoi;
  }
}
