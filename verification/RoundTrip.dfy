/** When decoding undoes encoding, when the decoder runs off a line, and what blanks may be added. */
module RoundTrip {
  import opened Basics
  import opened Messages
  import opened Codec

  /** A token that survives the wire unquoted. */
  predicate Clean(a: string) {
    a != "" && forall i :: 0 <= i < |a| ==> a[i] !in DELIMITER
  }

  predicate QuoteFree(s: string) {
    forall i :: 0 <= i < |s| ==> s[i] != QUOTE
  }

  predicate AllClean(args: seq<string>) {
    forall i :: 0 <= i < |args| ==> Clean(args[i])
  }

  // ---------------------------------------------------------------- clean arguments come back

  lemma TokensOfWord(w: string, t: string)
    requires Clean(w) && t != "" && t[0] in DELIMITER
    ensures Tokens(w + t) == Cons(w, Tokens(t))
  {
    SpanIs(w + t, DELIMITER, |w|);
    assert (w + t)[..|w|] == w && (w + t)[|w|..] == t;
  }

  lemma SpaceFirst(t: string)
    ensures Tokens(" " + t) == Tokens(t)
  {
    assert (" " + t)[1..] == t;
  }

  lemma JoinedFirst(args: seq<string>)
    requires args != []
    ensures Joined(args) + "\n" == " " + (args[0] + (Joined(args[1..]) + "\n"))
  {
  }

  lemma {:induction false} TokensOfJoined(args: seq<string>)
    requires AllClean(args)
    ensures Tokens(Joined(args) + "\n") == Scan(args, true)
  {
    if args != [] {
      var a, tail := args[0], Joined(args[1..]) + "\n";
      TokensOfJoined(args[1..]);
      JoinedFirst(args);
      SpaceFirst(a + tail);
      assert Clean(a) && tail[0] in DELIMITER;
      TokensOfWord(a, tail);
      assert [a] + args[1..] == args;
    }
  }

  /** The decoder finds the type and the argument part of an encoded message. */
  lemma DecodingEncoded(m: Message)
    requires m.kind == NONE ==> m.args == []
    ensures Decoding(Encoded(m)) ==
            var scan := Tokens(Joined(m.args) + "\n");
            if |Encoded(m)| > MAX_ENCODED_LEN then Invalid
            else if !scan.closed && |Encoded(m)| < MAX_ENCODED_LEN then OutOfRange
            else Checked(Message(m.kind, scan.tokens))
  {
    var name, rest := TypeName(m.kind), Joined(m.args) + "\n";
    var s := Encoded(m);
    assert s == name + rest && s[|s| - 1] == NEWLINE;
    TypeNameShape(m.kind);
    TypeRoundTrip(m.kind);
    assert s[0] != SPACE;
    SpanIs(s, BLANK, |name|);
    assert s[..|name|] == name && s[|name|..] == rest;
  }

  // ---------------------------------------------------------------- what tokens look like

  lemma {:induction false} TokensAreQuoteFree(s: string)
    ensures forall i :: 0 <= i < |Tokens(s).tokens| ==> QuoteFree(Tokens(s).tokens[i])
    decreases |s|
  {
    if s != [] && s[0] != NEWLINE {
      if s[0] == SPACE {
        TokensAreQuoteFree(s[1..]);
      } else if s[0] == QUOTE {
        var n := Span(s[1..], {QUOTE});
        SpanFacts(s[1..], {QUOTE});
        if n != |s| - 1 {
          TokensAreQuoteFree(s[n + 2..]);
          assert s[1..n + 1] == s[1..][..n];
        }
      } else {
        var n := Span(s, DELIMITER);
        SpanFacts(s, DELIMITER);
        assert QuoteFree(s[..n]);
        TokensAreQuoteFree(s[n..]);
      }
    }
  }

  lemma {:induction false} TokensOfQuoteFree(s: string)
    requires QuoteFree(s)
    ensures Tokens(s).closed && AllClean(Tokens(s).tokens)
    decreases |s|
  {
    if s != [] && s[0] != NEWLINE {
      if s[0] == SPACE {
        TokensOfQuoteFree(s[1..]);
      } else {
        var n := Span(s, DELIMITER);
        SpanFacts(s, DELIMITER);
        TokensOfQuoteFree(s[n..]);
        assert Clean(s[..n]);
      }
    }
  }

  lemma {:induction false} JoinedQuoteFree(args: seq<string>)
    requires forall i :: 0 <= i < |args| ==> QuoteFree(args[i])
    ensures QuoteFree(Joined(args) + "\n")
  {
    if args != [] {
      JoinedQuoteFree(args[1..]);
      var rest := Joined(args[1..]) + "\n";
      assert Joined(args) + "\n" == " " + args[0] + rest;
      forall i | 0 <= i < |Joined(args) + "\n"| ensures (Joined(args) + "\n")[i] != QUOTE {
        if 1 <= i < 1 + |args[0]| { assert (" " + args[0] + rest)[i] == args[0][i - 1]; }
        else if i > |args[0]| { assert (" " + args[0] + rest)[i] == rest[i - 1 - |args[0]|]; }
      }
    }
  }

  // ---------------------------------------------------------------- the round trip

  /** Decoding gives back exactly the valid messages that fit a line and whose every argument is
      non-empty and free of spaces, newlines and quotes. */
  lemma DecodeInvertsEncode(m: Message)
    ensures Decoding(Encoded(m)) == Decoded.Ok(m) <==>
            Valid(m) && AllClean(m.args) && |Encoded(m)| <= MAX_ENCODED_LEN
  {
    if Valid(m) {
      DecodingEncoded(m);
      if AllClean(m.args) {
        TokensOfJoined(m.args);
      } else if Decoding(Encoded(m)) == Decoded.Ok(m) {
        TokensAreQuoteFree(Joined(m.args) + "\n");
        JoinedQuoteFree(m.args);
        TokensOfQuoteFree(Joined(m.args) + "\n");
        assert false;
      }
    }
  }

  /** For the messages of the protocol other than FAILED and ERROR only a quote can do harm. */
  lemma OnlyQuotesHarm(m: Message)
    requires Valid(m) && m.kind != FAILED && m.kind != ERROR && |Encoded(m)| <= MAX_ENCODED_LEN
    ensures Decoding(Encoded(m)) == Decoded.Ok(m) <==> forall i :: 0 <= i < |m.args| ==> QuoteFree(m.args[i])
  {
    DecodeInvertsEncode(m);
    forall i | 0 <= i < |m.args| ensures Clean(m.args[i]) <==> QuoteFree(m.args[i]) {
      var a := m.args[i];
      assert IsIdentifier(a) || IsValue(a);
      forall j | 0 <= j < |a| ensures a[j] != SPACE && a[j] != NEWLINE {
        if IsIdentifier(a) { assert IsWordChar(a[j]); }
      }
    }
  }

  lemma TokensOfQuoted(text: string)
    ensures QuoteFree(text) ==> Tokens("\"" + text + "\"" + "\n") == Scan([text], true)
  {
    var quoted := "\"" + text + "\"" + "\n";
    if QuoteFree(text) {
      QuoteClosed(quoted, 0, |text| + 1);
      assert quoted[0..] == quoted && quoted[1..|text| + 1] == text && quoted[|text| + 2..] == "\n";
    }
  }

  /** The text of a FAILED or ERROR reply goes on the wire in quotes and comes back without them,
      whatever blanks it holds, exactly when it holds no quote itself. */
  lemma QuotedTextComesBack(kind: Kind, text: string)
    requires kind == FAILED || kind == ERROR
    requires |Encoded(Message(kind, ["\"" + text + "\""]))| <= MAX_ENCODED_LEN
    ensures Decoding(Encoded(Message(kind, ["\"" + text + "\""]))) == Decoded.Ok(Message(kind, [text])) <==> QuoteFree(text)
  {
    var m := Message(kind, ["\"" + text + "\""]);
    var line := Joined(m.args) + "\n";
    DecodingEncoded(m);
    QuotedLine(text);
    TokensOfQuoted(text);
    TokensAreQuoteFree(line);
    assert [text][0] == text;
    assert Valid(Message(kind, [text])) || !QuoteFree(text);
  }

  lemma QuotedLine(text: string)
    ensures Tokens(Joined(["\"" + text + "\""]) + "\n") == Tokens("\"" + text + "\"" + "\n")
  {
    var quoted := "\"" + text + "\"" + "\n";
    var args := ["\"" + text + "\""];
    JoinedFirst(args);
    assert args[1..] == [] && args[0] + ("" + "\n") == quoted;
    SpaceFirst(quoted);
  }

  /** Different messages of the first class are different lines. */
  lemma EncodeIsInjective(m: Message, n: Message)
    requires Valid(m) && AllClean(m.args) && |Encoded(m)| <= MAX_ENCODED_LEN
    requires Valid(n) && AllClean(n.args) && Encoded(m) == Encoded(n)
    ensures m == n
  {
    DecodeInvertsEncode(m);
    DecodeInvertsEncode(n);
  }

  // ---------------------------------------------------------------- running off the line

  function Quotes(s: string): nat {
    if s == [] then 0 else (if s[0] == QUOTE then 1 else 0) + Quotes(s[1..])
  }

  lemma {:induction false} QuotesSplit(s: string, n: nat)
    requires n <= |s|
    ensures Quotes(s) == Quotes(s[..n]) + Quotes(s[n..])
  {
    if n > 0 {
      QuotesSplit(s[1..], n - 1);
      assert s[..n][1..] == s[1..][..n - 1] && s[n..] == s[1..][n - 1..];
    } else {
      assert s[0..] == s;
    }
  }

  lemma {:induction false} NoQuotes(s: string)
    ensures Quotes(s) == 0 <==> QuoteFree(s)
  {
    if s != [] {
      NoQuotes(s[1..]);
      assert QuoteFree(s) <==> s[0] != QUOTE && QuoteFree(s[1..]) by {
        if QuoteFree(s) { forall i | 0 <= i < |s[1..]| ensures s[1..][i] != QUOTE { assert s[1..][i] == s[i + 1]; } }
      }
    }
  }

  /** Its only newline is the last character. */
  predicate IsLine(s: string) {
    s != [] && s[|s| - 1] == NEWLINE && forall i :: 0 <= i < |s| - 1 ==> s[i] != NEWLINE
  }

  lemma QuotesAfterQuoted(u: string)
    requires u != "" && u[0] == QUOTE
    ensures var n := Span(u[1..], {QUOTE});
            if n < |u| - 1 then Quotes(u) == 2 + Quotes(u[n + 2..]) else Quotes(u) == 1
  {
    var w := u[1..];
    var n := Span(w, {QUOTE});
    SpanFacts(w, {QUOTE});
    NoQuotes(w);
    QuotesSplit(w, n);
    NoQuotes(w[..n]);
    if n < |w| { assert w[n..][1..] == u[n + 2..]; }
  }

  lemma QuotesAfterWord(u: string)
    ensures Quotes(u[Span(u, DELIMITER)..]) == Quotes(u)
  {
    var n := Span(u, DELIMITER);
    SpanFacts(u, DELIMITER);
    QuotesSplit(u, n);
    NoQuotes(u[..n]);
  }

  lemma QuotesAfterBlank(u: string)
    requires u != "" && u[0] in BLANK
    ensures Quotes(u[1..]) == Quotes(u)
  {
  }

  lemma TailIsLine(s: string, n: nat)
    requires IsLine(s) && n < |s|
    ensures IsLine(s[n..])
  {
  }

  /** Every quote of an argument part is closed when their number is even. */
  lemma {:induction false} ClosedWhenEven(s: string)
    requires IsLine(s)
    ensures Tokens(s).closed <==> Quotes(s) % 2 == 0
    decreases |s|
  {
    hide Quotes;
    hide Span;
    if s[0] == NEWLINE {
      assert s == "\n" && QuoteFree(s);
      NoQuotes(s);
    } else if s[0] == SPACE {
      QuotesAfterBlank(s);
      TailIsLine(s, 1);
      ClosedWhenEven(s[1..]);
    } else if s[0] == QUOTE {
      var n := Span(s[1..], {QUOTE});
      QuotesAfterQuoted(s);
      SpanFacts(s[1..], {QUOTE});
      if n < |s| - 1 {
        assert s[n + 1] == QUOTE;
        TailIsLine(s, n + 2);
        ClosedWhenEven(s[n + 2..]);
      }
    } else {
      var n := Span(s, DELIMITER);
      QuotesAfterWord(s);
      SpanFacts(s, DELIMITER);
      TailIsLine(s, n);
      ClosedWhenEven(s[n..]);
    }
  }

  /** The argument part of a line: what follows the type. */
  function ArgumentPart(s: string): string {
    SkipBlanks(s)[Span(SkipBlanks(s), BLANK)..]
  }

  lemma {:induction false} SkipBlanksSplits(s: string) returns (n: nat)
    ensures n <= |s| && SkipBlanks(s) == s[n..] && forall i :: 0 <= i < n ==> s[i] == SPACE
  {
    if s != [] && s[0] == SPACE {
      n := SkipBlanksSplits(s[1..]);
      assert s[1..][n..] == s[n + 1..];
      n := n + 1;
    } else {
      n := 0;
    }
  }

  lemma ArgumentPartIsLine(s: string)
    requires IsLine(s)
    ensures IsLine(ArgumentPart(s))
  {
    var n := SkipBlanksSplits(s);
    var m := Span(s[n..], BLANK);
    SpanFacts(s[n..], BLANK);
    assert s[|s| - 1] != SPACE;
    assert m < |s| - n by { assert s[n..][|s| - n - 1] in BLANK; }
    assert ArgumentPart(s) == s[n + m..];
  }

  /** The decoder indexes past the end of a line exactly when the argument part has an odd number
      of quotes and the line is shorter than the maximum. */
  lemma RunsOffOddLines(s: string)
    requires IsLine(s) && |s| <= MAX_ENCODED_LEN
    ensures Decoding(s) == OutOfRange <==> Quotes(ArgumentPart(s)) % 2 == 1 && |s| < MAX_ENCODED_LEN
  {
    ArgumentPartIsLine(s);
    ClosedWhenEven(ArgumentPart(s));
  }

  // ---------------------------------------------------------------- extra blanks

  function Blanks(k: nat): string {
    if k == 0 then "" else " " + Blanks(k - 1)
  }

  /** A place where a blank separates nothing that was one token: at the start, or beside a blank. */
  predicate Boundary(p: string, q: string) {
    p == "" || p[|p| - 1] == SPACE || (q != "" && q[0] in BLANK)
  }

  lemma SpanStops(u: string, v: string, stop: set<char>)
    requires Span(u, stop) < |u| || (v != "" && v[0] in stop)
    ensures Span(u + v, stop) == Span(u, stop)
  {
    var n := Span(u, stop);
    SpanFacts(u, stop);
    forall i | 0 <= i < n ensures (u + v)[i] !in stop {
      assert (u + v)[i] == u[i];
    }
    assert (u + v)[n] == if n < |u| then u[n] else v[0];
    SpanIs(u + v, stop, n);
  }

  lemma TokensOfQuote(s: string)
    requires s != "" && s[0] == QUOTE && Span(s[1..], {QUOTE}) < |s| - 1
    ensures var n := Span(s[1..], {QUOTE}); Tokens(s) == Cons(s[1..n + 1], Tokens(s[n + 2..]))
  {
  }

  lemma SlicesOfConcat(u: string, v: string, n: nat)
    requires n + 2 <= |u|
    ensures (u + v)[1..] == u[1..] + v && (u + v)[n + 2..] == u[n + 2..] + v && (u + v)[1..n + 1] == u[1..n + 1]
  {
  }

  lemma QuoteFirst(u: string, v: string)
    requires u != "" && u[0] == QUOTE && Span(u[1..], {QUOTE}) < |u| - 1
    ensures var n := Span(u[1..], {QUOTE}); Tokens(u + v) == Cons(u[1..n + 1], Tokens(u[n + 2..] + v))
  {
    hide Tokens, Span;
    var n := Span(u[1..], {QUOTE});
    SpanStops(u[1..], v, {QUOTE});
    SlicesOfConcat(u, v, n);
    TokensOfQuote(u + v);
  }

  lemma SplitConcat(u: string, v: string, n: nat)
    requires n <= |u|
    ensures (u + v)[..n] == u[..n] && (u + v)[n..] == u[n..] + v
  {
  }

  lemma WordFirst(u: string, v: string)
    requires u != "" && u[0] !in DELIMITER && (Span(u, DELIMITER) < |u| || (v != "" && v[0] in DELIMITER))
    ensures var n := Span(u, DELIMITER); Tokens(u + v) == Cons(u[..n], Tokens(u[n..] + v))
  {
    SpanStops(u, v, DELIMITER);
    SplitConcat(u, v, Span(u, DELIMITER));
  }

  lemma WordIsNotEmpty(u: string)
    requires u != "" && u[0] !in DELIMITER
    ensures Span(u, DELIMITER) > 0
  {
  }

  lemma BlankFirst(u: string, v: string)
    requires u != "" && u[0] == SPACE
    ensures Tokens(u + v) == Tokens(u[1..] + v)
  {
    SplitConcat(u, v, 1);
  }

  lemma BoundaryOfTail(u: string, q: string, n: nat)
    requires n <= |u| && Boundary(u, q) && NEWLINE !in u
    ensures Boundary(u[n..], q) && NEWLINE !in u[n..]
    ensures n == |u| && n > 0 ==> u[|u| - 1] == SPACE || (q != "" && q[0] in BLANK)
  {
    if n < |u| { assert u[n..][|u| - n - 1] == u[|u| - 1]; }
  }

  /** A blank added outside quotes leaves the tokens alone. */
  lemma {:induction false} TokensWithBlank(u: string, q: string)
    requires Boundary(u, q) && Quotes(u) % 2 == 0 && NEWLINE !in u
    ensures Tokens(u + (" " + q)) == Tokens(u + q)
    decreases |u|
  {
    var v := " " + q;
    hide Tokens, Quotes, Span;
    if u == "" {
      assert u + v == v && u + q == q;
      SpaceFirst(q);
    } else {
      var n := if u[0] == SPACE then 1 else if u[0] == QUOTE then Span(u[1..], {QUOTE}) + 2 else Span(u, DELIMITER);
      if u[0] == SPACE { PeelBlank(u, q, v); } else if u[0] == QUOTE { PeelQuoted(u, q, v); } else { PeelWord(u, q, v); }
      TokensWithBlank(u[n..], q);
    }
  }

  /** The first n characters of u stand for the same whether q follows u or v does. */
  ghost predicate Peels(u: string, q: string, v: string, n: nat) {
    && 0 < n <= |u| && Boundary(u[n..], q) && Quotes(u[n..]) % 2 == 0 && NEWLINE !in u[n..]
    && (Tokens(u[n..] + v) == Tokens(u[n..] + q) ==> Tokens(u + v) == Tokens(u + q))
  }

  lemma PeelBlank(u: string, q: string, v: string)
    requires u != "" && u[0] == SPACE && Boundary(u, q) && Quotes(u) % 2 == 0 && NEWLINE !in u
    ensures Peels(u, q, v, 1)
  {
    hide Tokens, Quotes, Boundary;
    BlankFirst(u, v);
    BlankFirst(u, q);
    QuotesAfterBlank(u);
    BoundaryOfTail(u, q, 1);
  }

  lemma PeelQuoted(u: string, q: string, v: string)
    requires u != "" && u[0] == QUOTE && Boundary(u, q) && Quotes(u) % 2 == 0 && NEWLINE !in u
    ensures Peels(u, q, v, Span(u[1..], {QUOTE}) + 2)
  {
    hide Tokens, Quotes, Span, Boundary;
    QuotesAfterQuoted(u);
    QuoteFirst(u, v);
    QuoteFirst(u, q);
    BoundaryOfTail(u, q, Span(u[1..], {QUOTE}) + 2);
  }

  lemma PeelWord(u: string, q: string, v: string)
    requires u != "" && u[0] != SPACE && u[0] != QUOTE && v == " " + q
    requires Boundary(u, q) && Quotes(u) % 2 == 0 && NEWLINE !in u
    ensures Peels(u, q, v, Span(u, DELIMITER))
  {
    WordIsNotEmpty(u);
    hide Tokens, Quotes, Span, Boundary;
    QuotesAfterWord(u);
    SpanFacts(u, DELIMITER);
    BoundaryOfTail(u, q, Span(u, DELIMITER));
    WordFirst(u, v);
    WordFirst(u, q);
  }

  lemma {:induction false} SkipBlanksOfPrefix(p: string, v: string)
    ensures SkipBlanks(p + v) == if SkipBlanks(p) == "" then SkipBlanks(v) else SkipBlanks(p) + v
  {
    if p == "" {
      assert p + v == v;
    } else if p[0] == SPACE {
      assert (p + v)[1..] == p[1..] + v;
      SkipBlanksOfPrefix(p[1..], v);
    }
  }

  /** A line without its indentation, split at the first blank. */
  function TypePart(b: string): string { b[..Span(b, BLANK)] }

  function RestPart(b: string): string { b[Span(b, BLANK)..] }

  lemma HeadSplits(h: string, v: string)
    requires Span(h, BLANK) < |h| || (v != "" && v[0] in BLANK)
    ensures TypePart(h + v) == TypePart(h) && RestPart(h + v) == RestPart(h) + v
  {
    SpanStops(h, v, BLANK);
    SplitConcat(h, v, Span(h, BLANK));
  }

  lemma HeadWithBlank(h: string, q: string)
    requires h != "" && q != "" && NEWLINE !in h && Boundary(h, q) && Quotes(RestPart(h)) % 2 == 0
    ensures TypePart(h + (" " + q)) == TypePart(h + q)
    ensures Tokens(RestPart(h + (" " + q))) == Tokens(RestPart(h + q))
  {
    SpanFacts(h, BLANK);
    HeadSplits(h, q);
    HeadSplits(h, " " + q);
    TokensWithBlank(RestPart(h), q);
  }

  lemma BlankFreeHead(p: string)
    requires NEWLINE !in p
    ensures NEWLINE !in SkipBlanks(p) && (SkipBlanks(p) != "" ==> SkipBlanks(p)[|SkipBlanks(p)| - 1] == p[|p| - 1])
  {
    var k := SkipBlanksSplits(p);
    forall i | 0 <= i < |SkipBlanks(p)| ensures SkipBlanks(p)[i] != NEWLINE {
      assert SkipBlanks(p)[i] == p[k + i];
    }
  }

  /** One more blank outside quotes: the type and the tokens stay. */
  lemma PartsWithBlank(p: string, q: string)
    requires NEWLINE !in p && q != "" && Boundary(p, q) && Quotes(RestPart(SkipBlanks(p))) % 2 == 0
    ensures var b, b' := SkipBlanks(p + q), SkipBlanks(p + (" " + q));
            TypePart(b') == TypePart(b) && Tokens(RestPart(b')) == Tokens(RestPart(b))
  {
    SkipBlanksOfPrefix(p, q);
    SkipBlanksOfPrefix(p, " " + q);
    BlankFreeHead(p);
    if SkipBlanks(p) == "" {
      assert (" " + q)[1..] == q;
    } else {
      HeadWithBlank(SkipBlanks(p), q);
    }
  }

  lemma {:induction false} QuotesOfBlanks(u: string, k: nat)
    ensures Quotes(u + Blanks(k)) == Quotes(u)
    decreases k
  {
    if k == 0 {
      assert u + Blanks(k) == u;
    } else {
      QuotesOfBlanks(u + " ", k - 1);
      assert u + Blanks(k) == u + " " + Blanks(k - 1);
      QuotesSplit(u + " ", |u|);
      assert (u + " ")[..|u|] == u && (u + " ")[|u|..] == " ";
      assert Quotes(" ") == Quotes(" "[1..]);
    }
  }

  lemma BlankKeepsBalance(p: string)
    requires NEWLINE !in p
    ensures Quotes(RestPart(SkipBlanks(p + " "))) == Quotes(RestPart(SkipBlanks(p)))
  {
    SkipBlanksOfPrefix(p, " ");
    var h := SkipBlanks(p);
    if h != "" {
      HeadSplits(h, " ");
      QuotesOfBlanks(RestPart(h), 1);
      assert Blanks(1) == " " + Blanks(0) == " ";
    } else {
      assert SkipBlanks(p + " ") == "" by { assert " "[1..] == ""; }
    }
  }

  lemma BlankShift(p: string, k: nat, q: string)
    requires k > 0
    ensures p + Blanks(k) + q == (p + " ") + Blanks(k - 1) + q && (p + " ") + q == p + (" " + q)
  {
  }

  lemma {:induction false} PartsWithBlanks(p: string, k: nat, q: string)
    requires NEWLINE !in p && q != "" && Boundary(p, q) && Quotes(RestPart(SkipBlanks(p))) % 2 == 0
    ensures var b, b' := SkipBlanks(p + q), SkipBlanks(p + Blanks(k) + q);
            TypePart(b') == TypePart(b) && Tokens(RestPart(b')) == Tokens(RestPart(b))
    decreases k
  {
    if k == 0 {
      assert p + Blanks(k) + q == p + q;
    } else {
      BlankKeepsBalance(p);
      PartsWithBlanks(p + " ", k - 1, q);
      PartsWithBlank(p, q);
      BlankShift(p, k, q);
    }
  }

  /** Any number of extra spaces at the start, beside another blank, or at the end of a line, and
      outside quotes, leaves what is decoded unchanged while the line stays within its bound. Only
      a line with an open quote tells a line of the maximal length from a shorter one. */
  lemma ExtraBlanksDoNotMatter(p: string, k: nat, q: string)
    requires IsLine(p + q) && q != "" && Boundary(p, q) && Quotes(RestPart(SkipBlanks(p))) % 2 == 0
    requires |p + Blanks(k) + q| <= MAX_ENCODED_LEN
    requires Quotes(ArgumentPart(p + q)) % 2 == 0 || |p + Blanks(k) + q| < MAX_ENCODED_LEN
    ensures Decoding(p + Blanks(k) + q) == Decoding(p + q)
  {
    var s, s' := p + q, p + Blanks(k) + q;
    assert NEWLINE !in p by { assert forall i :: 0 <= i < |p| ==> p[i] == s[i]; }
    PartsWithBlanks(p, k, q);
    assert s'[|s'| - 1] == q[|q| - 1] == s[|s| - 1];
    ArgumentPartIsLine(s);
    ClosedWhenEven(ArgumentPart(s));
    hide Tokens, Span, SkipBlanks, Quotes, Boundary, IsLine;
    SamePartsDecodeAlike(s, s');
  }

  /** Only the type, the tokens and, with an open quote, the length of a line matter. */
  lemma SamePartsDecodeAlike(s: string, s': string)
    requires s != "" && s[|s| - 1] == NEWLINE && |s| <= MAX_ENCODED_LEN
    requires s' != "" && s'[|s'| - 1] == NEWLINE && |s'| <= MAX_ENCODED_LEN
    requires TypePart(SkipBlanks(s')) == TypePart(SkipBlanks(s))
    requires Tokens(RestPart(SkipBlanks(s'))) == Tokens(RestPart(SkipBlanks(s)))
    requires Tokens(RestPart(SkipBlanks(s))).closed || (|s| < MAX_ENCODED_LEN && |s'| < MAX_ENCODED_LEN)
    ensures Decoding(s') == Decoding(s)
  {
    hide Tokens, Span, SkipBlanks, TypeOf, Checked;
  }
}
