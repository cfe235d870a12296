/**
 The wire format: the encoder, and the decoder with its index loops, proved against a
 recursive tokenizer that knows nothing of indices or pending arguments.
 */
module Codec {
  import opened Basics
  import opened Messages

  // ---------------------------------------------------------------- type names

  function TypeName(k: Kind): string {
    match k
    case NONE => ""
    case LOGIN => "LOGIN"
    case CREATE => "CREATE"
    case PUSH => "PUSH"
    case POP => "POP"
    case TOP => "TOP"
    case SET => "SET"
    case GET => "GET"
    case ADD => "ADD"
    case SUB => "SUB"
    case MUL => "MUL"
    case DIV => "DIV"
    case BEGIN => "BEGIN"
    case COMMIT => "COMMIT"
    case BYE => "BYE"
    case OK => "OK"
    case FAILED => "FAILED"
    case ERROR => "ERROR"
    case DATA => "DATA"
  }

  function TypeOf(s: string): Kind {
    if s == "LOGIN" then LOGIN
    else if s == "CREATE" then CREATE
    else if s == "PUSH" then PUSH
    else if s == "POP" then POP
    else if s == "TOP" then TOP
    else if s == "SET" then SET
    else if s == "GET" then GET
    else if s == "ADD" then ADD
    else if s == "SUB" then SUB
    else if s == "MUL" then MUL
    else if s == "DIV" then DIV
    else if s == "BEGIN" then BEGIN
    else if s == "COMMIT" then COMMIT
    else if s == "BYE" then BYE
    else if s == "OK" then OK
    else if s == "FAILED" then FAILED
    else if s == "ERROR" then ERROR
    else if s == "DATA" then DATA
    else NONE
  }

  /** A name and its type determine each other. */
  lemma TypeRoundTrip(k: Kind)
    ensures TypeOf(TypeName(k)) == k
  {
    match k
    case NONE =>
    case LOGIN =>
    case CREATE =>
    case PUSH =>
    case POP =>
    case TOP =>
    case SET =>
    case GET =>
    case ADD => assert "ADD"[0] == 'A';
    case SUB => assert "SUB"[0] == 'S' && "SUB"[1] == 'U';
    case MUL => assert "MUL"[0] == 'M';
    case DIV => assert "DIV"[0] == 'D';
    case BEGIN => assert "BEGIN"[0] == 'B';
    case COMMIT => assert "COMMIT"[1] == 'O';
    case BYE => assert "BYE"[0] == 'B';
    case OK => assert |"OK"| == 2;
    case FAILED => assert "FAILED"[0] == 'F';
    case ERROR => assert "ERROR"[0] == 'E';
    case DATA => assert "DATA"[0] == 'D';
  }

  lemma TypeNameShape(k: Kind)
    ensures forall i :: 0 <= i < |TypeName(k)| ==> IsLetter(TypeName(k)[i])
    ensures |TypeName(k)| <= 6 && (TypeName(k) == "" <==> k == NONE)
  {
  }

  // ---------------------------------------------------------------- the tokenizer

  /** How far s goes on before a character of stop, or its end. */
  function Span(s: string, stop: set<char>): (n: nat)
    ensures n <= |s|
  {
    if s == [] || s[0] in stop then 0 else 1 + Span(s[1..], stop)
  }

  lemma {:induction false} SpanFacts(s: string, stop: set<char>)
    ensures var n := Span(s, stop);
            (forall i :: 0 <= i < n ==> s[i] !in stop) && (n < |s| ==> s[n] in stop)
  {
    if s != [] && s[0] !in stop {
      SpanFacts(s[1..], stop);
      forall i | 0 <= i < Span(s, stop) ensures s[i] !in stop {
        if i > 0 { assert s[i] == s[1..][i - 1]; }
      }
    }
  }

  const BLANK: set<char> := {SPACE, NEWLINE}
  const DELIMITER: set<char> := {SPACE, NEWLINE, QUOTE}

  /** The tokens of an argument part, and whether every quote in it was closed. */
  datatype Scan = Scan(tokens: seq<string>, closed: bool)

  function Cons(token: string, rest: Scan): Scan { rest.(tokens := [token] + rest.tokens) }

  /** Blanks separate tokens; quotes enclose a token that may hold blanks; an unquoted newline ends. */
  function Tokens(s: string): Scan
    decreases |s|
  {
    if s == [] || s[0] == NEWLINE then Scan([], true)
    else if s[0] == SPACE then Tokens(s[1..])
    else if s[0] == QUOTE then
      var n := Span(s[1..], {QUOTE});
      if n == |s| - 1 then Scan([], false) else Cons(s[1..n + 1], Tokens(s[n + 2..]))
    else
      var n := Span(s, DELIMITER);
      Cons(s[..n], Tokens(s[n..]))
  }

  // ---------------------------------------------------------------- what decoding means

  /** Invalid stands for InvalidMessage, OutOfRange for std::out_of_range. */
  datatype Decoded = Ok(m: Message) | Invalid | OutOfRange

  function Checked(m: Message): Decoded {
    if Valid(m) then Ok(m) else Invalid
  }

  function SkipBlanks(s: string): string {
    if s != [] && s[0] == SPACE then SkipBlanks(s[1..]) else s
  }

  /** A line: an optional indentation, the type up to a blank, the argument part. An unclosed quote
      runs past the end of the line, except in a line of exactly the maximal length, where the index
      bound stops the loops first and the unfinished token is dropped. */
  function Decoding(s: string): Decoded {
    if |s| > MAX_ENCODED_LEN then Invalid
    else if s == [] then OutOfRange
    else if s[|s| - 1] != NEWLINE then Invalid
    else
      var body := SkipBlanks(s);
      var n := Span(body, BLANK);
      var scan := Tokens(body[n..]);
      if !scan.closed && |s| < MAX_ENCODED_LEN then OutOfRange
      else Checked(Message(TypeOf(body[..n]), scan.tokens))
  }

  // ---------------------------------------------------------------- the encoder

  function Joined(args: seq<string>): string {
    if args == [] then "" else " " + args[0] + Joined(args[1..])
  }

  function Encoded(m: Message): string {
    TypeName(m.kind) + Joined(m.args) + "\n"
  }

  lemma {:induction false} JoinedAppend(args: seq<string>, arg: string)
    ensures Joined(args + [arg]) == Joined(args) + " " + arg
  {
    if args == [] {
      assert [] + [arg] == [arg] && Joined([arg]) == " " + arg + Joined([]);
    } else {
      JoinedAppend(args[1..], arg);
      assert (args + [arg])[1..] == args[1..] + [arg];
    }
  }

  /** None stands for InvalidMessage: the text is longer than a message may be. */
  method Encode(m: Message) returns (text: Option<string>)
    ensures text == if |Encoded(m)| > MAX_ENCODED_LEN then None else Some(Encoded(m))
  {
    var encoded := TypeName(m.kind);
    for i := 0 to |m.args|
      invariant encoded == TypeName(m.kind) + Joined(m.args[..i])
    {
      encoded := encoded + " ";
      encoded := encoded + m.args[i];
      JoinedAppend(m.args[..i], m.args[i]);
      assert m.args[..i + 1] == m.args[..i] + [m.args[i]];
    }
    assert m.args[..|m.args|] == m.args;
    encoded := encoded + "\n";
    if |encoded| > MAX_ENCODED_LEN {
      return None;
    }
    return Some(encoded);
  }

  // ---------------------------------------------------------------- the decoder

  function Prepend(tokens: seq<string>, rest: Scan): Scan { rest.(tokens := tokens + rest.tokens) }

  /** What remains to be found when the characters of arg are pending before s. */
  function Pending(arg: string, s: string): Scan {
    if arg == "" then Tokens(s)
    else
      var n := Span(s, DELIMITER);
      Cons(arg + s[..n], Tokens(s[n..]))
  }

  lemma PendingWordChar(arg: string, s: string)
    requires s != [] && s[0] !in DELIMITER
    ensures Pending(arg, s) == Pending(arg + [s[0]], s[1..])
  {
    var n := Span(s[1..], DELIMITER);
    assert Span(s, DELIMITER) == n + 1;
    assert arg + s[..n + 1] == (arg + [s[0]]) + s[1..][..n];
    assert s[n + 1..] == s[1..][n..];
    assert arg == "" ==> arg + s[..n + 1] == s[..n + 1];
  }

  lemma PendingDelimiter(arg: string, s: string)
    requires s != [] && s[0] in DELIMITER && arg != ""
    ensures Pending(arg, s) == Cons(arg, Tokens(s))
  {
    assert arg + s[..0] == arg && s[0..] == s;
  }

  lemma PrependOne(tokens: seq<string>, token: string, rest: Scan)
    ensures Prepend(tokens, Cons(token, rest)) == Prepend(tokens + [token], rest)
  {
    assert tokens + ([token] + rest.tokens) == (tokens + [token]) + rest.tokens;
  }

  lemma {:induction false} SpanIs(s: string, stop: set<char>, n: nat)
    requires n <= |s| && (forall i :: 0 <= i < n ==> s[i] !in stop) && (n < |s| ==> s[n] in stop)
    ensures Span(s, stop) == n
  {
    if n > 0 { SpanIs(s[1..], stop, n - 1); }
  }

  lemma {:induction false} SkipBlanksIs(s: string, n: nat)
    requires n < |s| && (forall i :: 0 <= i < n ==> s[i] == SPACE) && s[n] != SPACE
    ensures SkipBlanks(s) == s[n..]
  {
    if n > 0 {
      SkipBlanksIs(s[1..], n - 1);
      assert s[1..][n - 1..] == s[n..];
    }
  }

  // Where the decoder stands: tokens already pushed, characters of arg pending, index i next.

  lemma AtWordChar(tokens: seq<string>, arg: string, s: string, i: nat)
    requires i < |s| && s[i] !in DELIMITER
    ensures Prepend(tokens, Pending(arg, s[i..])) == Prepend(tokens, Pending(arg + [s[i]], s[i + 1..]))
  {
    PendingWordChar(arg, s[i..]);
    assert s[i..][1..] == s[i + 1..];
  }

  lemma AtDelimiter(tokens: seq<string>, arg: string, s: string, i: nat)
    requires i < |s| && s[i] in DELIMITER
    ensures Prepend(tokens, Pending(arg, s[i..])) == Prepend(if arg == "" then tokens else tokens + [arg], Tokens(s[i..]))
  {
    if arg != "" {
      PendingDelimiter(arg, s[i..]);
      PrependOne(tokens, arg, Tokens(s[i..]));
    }
  }

  lemma AtBlank(s: string, i: nat)
    requires i < |s|
    ensures s[i] == SPACE ==> Tokens(s[i..]) == Tokens(s[i + 1..])
    ensures s[i] == NEWLINE ==> Tokens(s[i..]) == Scan([], true)
  {
    assert s[i..][1..] == s[i + 1..];
  }

  function Flushed(tokens: seq<string>, arg: string): seq<string> {
    if arg == "" then tokens else tokens + [arg]
  }

  lemma AtSpace(tokens: seq<string>, arg: string, s: string, i: nat)
    requires i < |s| && s[i] == SPACE
    ensures Prepend(tokens, Pending(arg, s[i..])) == Prepend(Flushed(tokens, arg), Pending("", s[i + 1..]))
  {
    AtDelimiter(tokens, arg, s, i);
    AtBlank(s, i);
  }

  lemma AtNewline(tokens: seq<string>, arg: string, s: string, i: nat)
    requires i < |s| && s[i] == NEWLINE
    ensures Prepend(tokens, Pending(arg, s[i..])) == Scan(Flushed(tokens, arg), true)
  {
    AtDelimiter(tokens, arg, s, i);
    AtBlank(s, i);
  }

  lemma AtQuote(tokens: seq<string>, arg: string, s: string, i: nat)
    requires i < |s| && s[i] == QUOTE
    ensures Prepend(tokens, Pending(arg, s[i..])) == Prepend(Flushed(tokens, arg), Tokens(s[i..]))
  {
    AtDelimiter(tokens, arg, s, i);
  }

  lemma AtClosingQuote(tokens: seq<string>, s: string, open: nat, close: nat)
    requires open < close < |s| && s[open] == QUOTE == s[close] && forall j :: open < j < close ==> s[j] != QUOTE
    ensures Prepend(tokens, Tokens(s[open..])) == Prepend(tokens + [s[open + 1..close]], Tokens(s[close + 1..]))
  {
    QuoteClosed(s, open, close);
    PrependOne(tokens, s[open + 1..close], Tokens(s[close + 1..]));
  }

  /** The inner loop, on a quoted token: open is the index of its opening quote. It ends on the
      closing quote, or where the index bound stops it, or past the end of the line. */
  method DecodeQuoted(s: string, open: nat, msg: MessageBuffer) returns (inBounds: bool, i: nat)
    requires open < |s| <= MAX_ENCODED_LEN && s[open] == QUOTE
    modifies msg
    ensures msg.kind == old(msg.kind)
    ensures if inBounds && i < |s| then
              i > open && s[i] == QUOTE &&
              Prepend(old(msg.args), Tokens(s[open..])) == Prepend(msg.args, Pending("", s[i + 1..]))
            else
              Prepend(old(msg.args), Tokens(s[open..])) == Scan(msg.args, false) &&
              (inBounds <==> |s| == MAX_ENCODED_LEN) && (inBounds ==> i == MAX_ENCODED_LEN)
  {
    var arg := "";
    i := open + 1;
    while i < 1024
      invariant open < i <= |s|
      invariant arg == s[open + 1..i] && forall j :: open < j < i ==> s[j] != QUOTE
      decreases 1024 - i
    {
      if i >= |s| {
        QuoteOpen(s, open);
        return false, i;
      }
      if s[i] == '\"' {
        AtClosingQuote(msg.args, s, open, i);
        msg.PushArg(arg);
        return true, i;
      }
      assert s[open + 1..i + 1] == s[open + 1..i] + [s[i]];
      arg := arg + [s[i]];
      i := i + 1;
    }
    QuoteOpen(s, open);
    return true, i;
  }

  /** The loop over the argument part: start is the index of its first character. */
  method DecodeArguments(s: string, start: nat, msg: MessageBuffer) returns (inBounds: bool)
    requires start < |s| <= MAX_ENCODED_LEN && s[|s| - 1] == NEWLINE && msg.args == []
    modifies msg
    ensures msg.kind == old(msg.kind)
    ensures var scan := Tokens(s[start..]);
            && (inBounds <==> scan.closed || |s| == MAX_ENCODED_LEN)
            && (inBounds ==> msg.args == scan.tokens)
  {
    ghost var scan := Tokens(s[start..]);
    var i := start;
    var arg := "";
    assert scan == Prepend(msg.args, Pending(arg, s[i..]));
    hide Tokens;
    hide Pending;
    hide Prepend;
    while i < 1024
      invariant start <= i && (i < |s| || i > 1024)
      invariant msg.kind == old(msg.kind)
      invariant if i < |s| then scan == Prepend(msg.args, Pending(arg, s[i..]))
                else |s| == MAX_ENCODED_LEN && scan == Scan(msg.args, false)
      decreases 1024 - i
    {
      if s[i] != ' ' && s[i] != '\n' {
        if s[i] == '\"' {
          AtQuote(msg.args, arg, s, i);
          if arg != "" {
            msg.PushArg(arg);
            arg := "";
          }
          inBounds, i := DecodeQuoted(s, i, msg);
          if !inBounds {
            return;
          }
        } else {
          AtWordChar(msg.args, arg, s, i);
          arg := arg + [s[i]];
        }
      } else {
        if s[i] == ' ' { AtSpace(msg.args, arg, s, i); } else { AtNewline(msg.args, arg, s, i); }
        if arg != "" {
          msg.PushArg(arg);
          arg := "";
        }
        if s[i] == '\n' {
          break;
        }
      }
      i := i + 1;
    }
    return true;
  }

  lemma QuoteOpen(s: string, open: nat)
    requires open < |s| && s[open] == QUOTE && forall j :: open < j < |s| ==> s[j] != QUOTE
    ensures Tokens(s[open..]) == Scan([], false)
  {
    SpanIs(s[open..][1..], {QUOTE}, |s| - open - 1);
  }

  lemma QuoteClosed(s: string, open: nat, close: nat)
    requires open < close < |s| && s[open] == QUOTE == s[close] && forall j :: open < j < close ==> s[j] != QUOTE
    ensures Tokens(s[open..]) == Cons(s[open + 1..close], Tokens(s[close + 1..]))
  {
    var t := s[open..];
    SpanIs(t[1..], {QUOTE}, close - open - 1);
    assert t[1..close - open] == s[open + 1..close];
    assert t[close - open + 1..] == s[close + 1..];
  }

  /** Fills msg from a line. On an error the message is left half filled and unused. */
  method Decode(s: string, msg: MessageBuffer) returns (result: Decoded)
    modifies msg
    ensures result == Decoding(s)
    ensures result.Ok? ==> msg.Contents() == result.m
  {
    hide Tokens;
    hide SkipBlanks;
    hide Span;
    hide TypeOf;
    hide Valid;
    msg.ResetMsg();
    if |s| > MAX_ENCODED_LEN {
      return Invalid;
    }
    if |s| == 0 {
      return OutOfRange;
    }
    if s[|s| - 1] != '\n' {
      return Invalid;
    }
    var i := 0;
    while s[i] == ' '
      invariant i < |s| && forall j :: 0 <= j < i ==> s[j] == SPACE
      decreases |s| - i
    {
      i := i + 1;
    }
    SkipBlanksIs(s, i);
    ghost var body := s[i..];
    ghost var first := i;
    var messageType := "";
    while s[i] != ' ' && s[i] != '\n'
      invariant first <= i < |s| && messageType == s[first..i] && forall j :: first <= j < i ==> s[j] !in BLANK
      decreases |s| - i
    {
      messageType := messageType + [s[i]];
      i := i + 1;
    }
    SpanIs(body, BLANK, i - first);
    assert body[..i - first] == messageType && body[i - first..] == s[i..];
    msg.SetMessageType(TypeOf(messageType));
    AtBlank(s, i);
    if s[i] != '\n' {
      i := i + 1;
      var inBounds := DecodeArguments(s, i, msg);
      if !inBounds {
        return OutOfRange;
      }
    }
    var ok := IsValid(msg.Contents());
    if !ok {
      return Invalid;
    }
    return Ok(msg.Contents());
  }
}
