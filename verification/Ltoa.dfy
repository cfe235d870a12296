/** The digit printer of csapp.c, which fills a character array backwards and reverses it in place. */
module Ltoa {
  import opened Basics
  import opened Numerals

  /** Negating a 64-bit integer: the least one is its own negation. */
  function Negated(v: int): int {
    if v == MIN64 then MIN64 else -v
  }

  /** The digit written for v. A negative v, which only the least integer leads to, has a
      negative remainder, and what is written for it comes before '0'. */
  function DigitFor(v: int, b: nat): char
    requires 2 <= b <= 36
  {
    RemainderRange(v, b);
    var c := TruncMod(v, b);
    if c < 10 then (c + 48) as char else (c - 10 + 97) as char
  }

  lemma RemainderRange(v: int, b: nat)
    requires b > 0
    ensures -(b as int) < TruncMod(v, b) < b
    ensures v >= 0 ==> TruncMod(v, b) == v % b && TruncDiv(v, b) == v / b
    ensures v <= 0 ==> TruncMod(v, b) <= 0 && TruncDiv(v, b) <= 0
  {
    var a := Abs(v);
    DivMod(a, b);
    if v < 0 {
      NegateProduct(b, a / b);
      assert TruncDiv(v, b) == -(a / b);
    } else {
      assert TruncDiv(v, b) == a / b;
    }
  }

  lemma NegateProduct(b: int, q: int)
    ensures b * (-q) == -(q * b)
  {
  }

  /** What sio_ltoa leaves before the NUL. */
  function Printed(v: int, b: nat): string
    requires 2 <= b <= 36
  {
    if v == MIN64 then "-" + [DigitFor(v, b)] else Text(v, b)
  }

  // ---------------------------------------------------------------- what is printed

  /** The printed text denotes the number for every long but the least, and is never longer than
      a sign and 63 digits. */
  lemma PrintedDenotes(v: int, b: nat)
    requires IsInt64(v) && 2 <= b <= 36
    ensures Parse(Printed(v, b), b) == v <==> v > MIN64
    ensures 1 <= |Printed(v, b)| <= 64
  {
    if v == MIN64 {
      RemainderRange(v, b);
      var d := DigitFor(v, b);
      assert Printed(v, b)[1..] == [d] == "" + [d];
      ValueAppend("", d, b);
      assert Value("", b) * b == 0;
    } else {
      TextParses(v, b);
      Pow2Of63();
      DigitsLength(Abs(v), b, 63);
    }
  }

  /** A sign only on negative numbers, then digits of the base, the first of them not zero
      unless the number is. */
  lemma PrintedShape(v: int, b: nat)
    requires MIN64 < v <= MAX64 && 2 <= b <= 36
    ensures var p := Printed(v, b);
            var d := if v < 0 then p[1..] else p;
            && (p[0] == '-' <==> v < 0)
            && d != "" && IsNumeral(d, b)
            && (d[0] == '0' ==> d == "0")
  {
    DigitsShape(Abs(v), b);
    NumeralCharacters(Digits(Abs(v), b), b);
  }

  /** No NUL ends the text early. */
  lemma PrintedIsCString(v: int, b: nat)
    requires IsInt64(v) && 2 <= b <= 36
    ensures NUL !in Printed(v, b)
  {
    if v == MIN64 {
      RemainderRange(v, b);
    } else {
      DigitsShape(Abs(v), b);
      NumeralCharacters(Digits(Abs(v), b), b);
    }
  }

  // ---------------------------------------------------------------- the array code

  /** A NUL-terminated text at the start of an array. */
  predicate Holds(s: array<char>, text: string)
    reads s
  {
    |text| < s.Length && s[..|text|] == text && s[|text|] == NUL && NUL !in text
  }

  lemma HoldsText(s: array<char>, text: string)
    requires |text| < s.Length && s[..|text|] == text && s[|text|] == NUL && NUL !in text
    ensures Holds(s, text)
  {
  }

  method SioStrlen(s: array<char>, ghost text: string) returns (n: nat)
    requires Holds(s, text)
    ensures n == |text|
  {
    n := 0;
    while s[n] != NUL
      invariant n <= |text| && (n < |text| ==> s[n] == text[n] && text[n] in text)
      decreases |text| - n
    {
      n := n + 1;
    }
  }

  /** Reverses the text in place; the rest of the array stays. */
  method SioReverse(s: array<char>, ghost text: string)
    requires Holds(s, text)
    modifies s
    ensures Holds(s, Reversed(text))
    ensures forall k :: |text| < k < s.Length ==> s[k] == old(s[k])
  {
    var n := SioStrlen(s, text);
    var i: int, j: int := 0, n - 1;
    while i < j
      invariant 0 <= i <= n && i + j == n - 1 && i <= j + 2
      invariant forall k :: 0 <= k < i ==> s[k] == old(s[n - 1 - k]) && s[n - 1 - k] == old(s[k])
      invariant forall k :: i <= k < n - i ==> s[k] == old(s[k])
      invariant forall k :: n <= k < s.Length ==> s[k] == old(s[k])
    {
      var c := s[i];
      s[i] := s[j];
      s[j] := c;
      i, j := i + 1, j - 1;
    }
    forall k | 0 <= k < n
      ensures s[k] == Reversed(text)[k] && s[k] == text[n - 1 - k]
    {
      ReversedAt(text, k);
      assert old(s[n - 1 - k]) == old(s[..n])[n - 1 - k];
    }
    assert s[..n] == Reversed(text);
  }

  /** The digits still to be written when v is left to print. */
  function Remaining(v: int, b: nat): (r: string)
    requires 2 <= b <= 36
    ensures |r| >= 1
  {
    if v < 0 then [DigitFor(v, b)] else Digits(v, b)
  }

  lemma RemainingStep(v: int, b: nat)
    requires 2 <= b <= 36
    ensures var q := TruncDiv(v, b);
            Remaining(v, b) == (if q > 0 then Remaining(q, b) else "") + [DigitFor(v, b)]
    ensures TruncDiv(v, b) > 0 ==> TruncDiv(v, b) < v
  {
    RemainderRange(v, b);
    if v >= b {
      DigitsStep(v, b);
    } else if v >= 0 {
      SmallDivMod(v, b);
    }
  }

  lemma DigitsStep(v: nat, b: nat)
    requires 2 <= b <= 36 && v >= b
    ensures 0 < v / b < v && v % b < b
    ensures Digits(v, b) == Digits(v / b, b) + [Digit(v % b)]
  {
    DivMod(v, b);
    QuotientPositive(v, b);
  }

  lemma SmallDivMod(v: nat, b: nat)
    requires v < b
    ensures v / b == 0 && v % b == v
  {
  }

  lemma QuotientPositive(v: nat, b: nat)
    requires b > 0 && v >= b
    ensures v / b > 0
  {
  }

  lemma LoopStep(v: int, b: nat, written: string, text: string)
    requires 2 <= b <= 36 && text == Remaining(v, b) + Reversed(written)
    ensures var q := TruncDiv(v, b);
            text == (if q > 0 then Remaining(q, b) else "") + Reversed(written + [DigitFor(v, b)])
    ensures TruncDiv(v, b) > 0 ==> TruncDiv(v, b) < v
  {
    RemainingStep(v, b);
    ReversedAppend(written, DigitFor(v, b));
  }

  lemma Extended(now: string, was: string, c: char)
    requires |now| == |was| + 1 && now[..|was|] == was && now[|was|] == c
    ensures now == was + [c]
  {
  }

  /** The loop of sio_ltoa: writes the digits of w from the last to the first. */
  method WriteDigits(v: int, s: array<char>, b: nat) returns (i: nat)
    requires 2 <= b <= 36 && |Remaining(v, b)| <= s.Length
    modifies s
    ensures i == |Remaining(v, b)| && Reversed(s[..i]) == Remaining(v, b)
    ensures forall k :: i <= k < s.Length ==> s[k] == old(s[k])
  {
    hide Remaining, TruncDiv, DigitFor, TruncMod;
    ghost var text := Remaining(v, b);
    var w := v;
    i := 0;
    assert text == text + Reversed(s[..0]);
    hide Reversed;
    var more := true;
    while more
      invariant i <= |text| <= s.Length
      invariant text == (if more then Remaining(w, b) else "") + Reversed(s[..i])
      invariant forall k :: i <= k < s.Length ==> s[k] == old(s[k])
      decreases more, w
    {
      ghost var was := s[..i];
      LoopStep(w, b, was, text);
      s[i] := DigitFor(w, b);
      i := i + 1;
      w := TruncDiv(w, b);
      more := w > 0;
      Extended(s[..i], was, s[i - 1]);
    }
  }

  lemma PrintedBackwards(v: int, b: nat, digits: string)
    requires IsInt64(v) && 2 <= b <= 36
    requires Reversed(digits) == Remaining(if v < 0 then Negated(v) else v, b)
    ensures var backwards := if v < 0 then digits + ['-'] else digits;
            Reversed(backwards) == Printed(v, b) && NUL !in backwards
  {
    var backwards := if v < 0 then digits + ['-'] else digits;
    ReversedAppend(digits, '-');
    hide Reversed, DigitFor, Digits;
    assert Reversed(backwards) == Printed(v, b);
    PrintedIsCString(v, b);
    ReversedHas(backwards, NUL);
  }

  /** Its end: the sign and the NUL. */
  method Terminate(s: array<char>, i: nat, neg: bool)
    requires i + (if neg then 1 else 0) < s.Length
    modifies s
    ensures var text := if neg then old(s[..i]) + ['-'] else old(s[..i]);
            && s[..|text|] == text && s[|text|] == NUL
            && forall k :: |text| < k < s.Length ==> s[k] == old(s[k])
  {
    var n := i;
    if neg {
      s[n] := '-';
      n := n + 1;
      Extended(s[..n], old(s[..i]), '-');
    }
    s[n] := NUL;
  }

  /** Prints v in base b. The buffer must hold the text and its NUL. */
  method SioLtoa(v: int, s: array<char>, b: nat)
    requires IsInt64(v) && 2 <= b <= 36
    requires |Printed(v, b)| < s.Length
    modifies s
    ensures Holds(s, Printed(v, b))
    ensures forall k :: |Printed(v, b)| < k < s.Length ==> s[k] == old(s[k])
  {
    var neg := v < 0;
    var w := if neg then Negated(v) else v;
    assert Printed(v, b) == (if neg then "-" else "") + Remaining(w, b);
    hide *;
    var i := WriteDigits(w, s, b);
    ghost var digits := s[..i];
    PrintedBackwards(v, b, digits);
    ghost var backwards := if neg then digits + ['-'] else digits;
    assert |backwards| == |Printed(v, b)| && Reversed(backwards) == Printed(v, b);
    Terminate(s, i, neg);
    HoldsText(s, backwards);
    SioReverse(s, backwards);
  }

  lemma ReversedHas(s: string, c: char)
    ensures c in s ==> c in Reversed(s)
  {
    if c in s {
      var k :| 0 <= k < |s| && s[k] == c;
      ReversedAt(s, |s| - 1 - k);
    }
  }

  /** sio_putl: 128 characters are enough in base 10. Returns the text written. */
  method SioPutl(v: int) returns (text: string)
    requires IsInt64(v)
    ensures text == Printed(v, 10)
  {
    var s := new char[128];
    PrintedDenotes(v, 10);
    SioLtoa(v, s, 10);
    var n := SioStrlen(s, Printed(v, 10));
    return s[..n];
  }
}
