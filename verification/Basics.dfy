/** Option values and the character classes the server tests for. */
module Basics {

  datatype Option<+T> = None | Some(value: T)

  const NUL: char := '\0'
  const NEWLINE: char := '\n'
  const SPACE: char := ' '
  const QUOTE: char := '\"'

  /** The ASCII characters isspace accepts: tab, newline, vertical tab, form feed, carriage return, space. */
  predicate IsSpace(c: char) {
    9 <= c as int <= 13 || c == SPACE
  }

  predicate IsDigit(c: char) {
    '0' <= c <= '9'
  }

  /** The characters and classes, as the ASCII table has them. */
  lemma CharacterTable(c: char)
    ensures NUL as int == 0 && NEWLINE as int == 10 && SPACE as int == 32 && QUOTE as int == 34
    ensures IsSpace(c) <==> c as int in {9, 10, 11, 12, 13, 32}
    ensures IsDigit(c) <==> c in "0123456789"
  {
  }

  /** A string in reverse order. */
  function Reversed(s: string): (r: string)
    ensures |r| == |s|
  {
    if s == [] then [] else Reversed(s[1..]) + [s[0]]
  }

  lemma {:induction false} ReversedAt(s: string, k: nat)
    requires k < |s|
    ensures Reversed(s)[k] == s[|s| - 1 - k]
  {
    var tail := s[1..];
    if k < |tail| {
      ReversedAt(tail, k);
      assert Reversed(s)[k] == Reversed(tail)[k];
      assert tail[|tail| - 1 - k] == s[|s| - 1 - k];
    }
  }

  lemma {:induction false} ReversedAppend(s: string, c: char)
    ensures Reversed(s + [c]) == [c] + Reversed(s)
  {
    if s != [] {
      assert (s + [c])[1..] == s[1..] + [c];
      ReversedAppend(s[1..], c);
    }
  }
}
