/** Protocol messages and when they are valid. */
module Messages {
  import opened Basics

  datatype Kind =
    | NONE
    | LOGIN | CREATE | PUSH | POP | TOP | SET | GET | ADD | SUB | MUL | DIV | BEGIN | COMMIT | BYE
    | OK | FAILED | ERROR | DATA

  /** The value of a message. */
  datatype Message = Message(kind: Kind, args: seq<string>)

  const MAX_ENCODED_LEN: nat := 1024

  // ---------------------------------------------------------------- validity

  /** A letter, or the character just before 'A'. */
  predicate IsLetter(c: char) {
    64 <= c as int <= 90 || 97 <= c as int <= 122
  }

  predicate IsWordChar(c: char) {
    IsLetter(c) || c == '_' || IsDigit(c)
  }

  predicate IsIdentifier(s: string) {
    |s| >= 1 && IsLetter(s[0]) && forall i :: 1 <= i < |s| ==> IsWordChar(s[i])
  }

  predicate IsValue(s: string) {
    |s| >= 1 && forall i :: 0 <= i < |s| ==> !IsSpace(s[i])
  }

  /** No quote strictly between the first and the last character. */
  predicate IsQuotedText(s: string) {
    forall i :: 1 <= i < |s| - 1 ==> s[i] != QUOTE
  }

  function Arity(k: Kind): nat {
    match k
    case SET => 2
    case GET => 2
    case LOGIN => 1
    case CREATE => 1
    case PUSH => 1
    case FAILED => 1
    case ERROR => 1
    case DATA => 1
    case _ => 0
  }

  predicate Valid(m: Message) {
    && |m.args| == Arity(m.kind)
    && match m.kind
       case LOGIN => IsIdentifier(m.args[0])
       case CREATE => IsIdentifier(m.args[0])
       case SET => IsIdentifier(m.args[0]) && IsIdentifier(m.args[1])
       case GET => IsIdentifier(m.args[0]) && IsIdentifier(m.args[1])
       case PUSH => IsValue(m.args[0])
       case DATA => IsValue(m.args[0])
       case FAILED => IsQuotedText(m.args[0])
       case ERROR => IsQuotedText(m.args[0])
       case _ => true
  }

  /** The letters, in plain text; '@' counts as one. */
  const LETTERS: string := "@" + "ABCDEFGHI" + "JKLMNOPQR" + "STUVWXYZ" + "abcdefghi" + "jklmnopqr" + "stuvwxyz"

  lemma LetterTable(c: char)
    ensures IsLetter(c) <==> c in LETTERS
  {
    assert c in "ABCDEFGHI" <==> 65 <= c as int <= 73;
    assert c in "JKLMNOPQR" <==> 74 <= c as int <= 82;
    assert c in "STUVWXYZ" <==> 83 <= c as int <= 90;
    assert c in "abcdefghi" <==> 97 <= c as int <= 105;
    assert c in "jklmnopqr" <==> 106 <= c as int <= 114;
    assert c in "stuvwxyz" <==> 115 <= c as int <= 122;
  }

  lemma WordCharTable(c: char)
    ensures IsWordChar(c) <==> c in LETTERS + "_0123456789"
  {
    LetterTable(c);
    CharacterTable(c);
    hide IsLetter, IsDigit;
    assert c in "_0123456789" <==> c == '_' || c in "0123456789";
  }

  /** Which names are accepted. */
  lemma IdentifierAlphabet(s: string)
    ensures IsIdentifier(s) <==>
              s != "" && s[0] in LETTERS && forall i :: 1 <= i < |s| ==> s[i] in LETTERS + "_0123456789"
  {
    if s != "" { LetterTable(s[0]); }
    forall i | 1 <= i < |s| ensures IsWordChar(s[i]) <==> s[i] in LETTERS + "_0123456789" {
      WordCharTable(s[i]);
    }
    hide IsLetter, IsWordChar;
  }

  /** Which values are accepted. */
  lemma ValueAlphabet(s: string)
    ensures IsValue(s) <==> s != "" && forall i :: 0 <= i < |s| ==> s[i] as int !in {9, 10, 11, 12, 13, 32}
  {
    forall i | 0 <= i < |s| ensures IsSpace(s[i]) <==> s[i] as int in {9, 10, 11, 12, 13, 32} {
      CharacterTable(s[i]);
    }
  }

  method IdentifierIsValid(identifier: string) returns (ok: bool)
    ensures ok <==> IsIdentifier(identifier)
  {
    if |identifier| < 1 || !IsLetter(identifier[0]) {
      return false;
    }
    for i := 1 to |identifier|
      invariant forall j :: 1 <= j < i ==> IsWordChar(identifier[j])
    {
      if !IsWordChar(identifier[i]) {
        return false;
      }
    }
    return true;
  }

  method ValueIsValid(value: string) returns (ok: bool)
    ensures ok <==> IsValue(value)
  {
    if |value| < 1 {
      return false;
    }
    for i := 0 to |value|
      invariant forall j :: 0 <= j < i ==> !IsSpace(value[j])
    {
      if IsSpace(value[i]) {
        return false;
      }
    }
    return true;
  }

  method QuotedTextIsValid(text: string) returns (ok: bool)
    ensures ok <==> IsQuotedText(text)
  {
    var i := 1;
    while i < |text| - 1
      invariant i >= 1
      invariant forall j :: 1 <= j < i && j < |text| - 1 ==> text[j] != QUOTE
    {
      if text[i] == QUOTE {
        return false;
      }
      i := i + 1;
    }
    return true;
  }

  method IsValid(m: Message) returns (ok: bool)
    ensures ok <==> Valid(m)
  {
    if |m.args| != Arity(m.kind) {
      return false;
    }
    ok := true;
    match m.kind {
      case LOGIN => ok := IdentifierIsValid(m.args[0]);
      case CREATE => ok := IdentifierIsValid(m.args[0]);
      case SET =>
        ok := IdentifierIsValid(m.args[0]);
        if ok { ok := IdentifierIsValid(m.args[1]); }
      case GET =>
        ok := IdentifierIsValid(m.args[0]);
        if ok { ok := IdentifierIsValid(m.args[1]); }
      case PUSH => ok := ValueIsValid(m.args[0]);
      case DATA => ok := ValueIsValid(m.args[0]);
      case FAILED => ok := QuotedTextIsValid(m.args[0]);
      case ERROR => ok := QuotedTextIsValid(m.args[0]);
      case _ =>
    }
  }

  /** The message object the decoder fills in place. */
  class MessageBuffer {
    var kind: Kind
    var args: seq<string>

    constructor ()
      ensures Contents() == Message(NONE, [])
    {
      kind, args := NONE, [];
    }

    function Contents(): Message
      reads this
    {
      Message(kind, args)
    }

    method ResetMsg()
      modifies this
      ensures Contents() == Message(NONE, [])
    {
      kind, args := NONE, [];
    }

    method SetMessageType(k: Kind)
      modifies this
      ensures Contents() == Message(k, old(args))
    {
      kind := k;
    }

    method PushArg(arg: string)
      modifies this
      ensures Contents() == Message(old(kind), old(args) + [arg])
    {
      args := args + [arg];
    }
  }
}
