/** Which requests the lines of a client stand for, in plain text. */
module RequestLines {
  import opened Calculator
  import opened Messages
  import opened Codec
  import opened RoundTrip
  import Protocol
  import opened Values

  /** A name, in plain text. */
  predicate Name(s: string) {
    s != "" && s[0] in LETTERS && forall i :: 1 <= i < |s| ==> s[i] in LETTERS + "_0123456789"
  }

  /** A word with no space, newline or quote in it. */
  predicate Word(s: string) {
    s != "" && ' ' !in s && '\n' !in s && '\"' !in s
  }

  lemma WordsAreClean(s: string)
    ensures Word(s) <==> Clean(s)
  {
    if Word(s) {
      forall i | 0 <= i < |s| ensures s[i] !in DELIMITER {
        assert s[i] in s;
      }
    }
  }

  lemma WordNames(s: string)
    ensures Name(s) <==> IsIdentifier(s)
  {
    IdentifierAlphabet(s);
  }

  predicate NameChar(c: char) { c in LETTERS + "_0123456789" }

  lemma NameCharIsNoDelimiter(c: char)
    requires NameChar(c)
    ensures c != ' ' && c != '\n' && c != '\"' && c != '\0'
  {
    WordCharTable(c);
  }

  lemma NameChars(s: string)
    requires Name(s)
    ensures forall i :: 0 <= i < |s| ==> NameChar(s[i])
  {
  }

  lemma NamesAreWords(s: string)
    requires Name(s)
    ensures Word(s) && '\0' !in s
  {
    NameChars(s);
    hide NameChar, Name;
    forall i | 0 <= i < |s| ensures s[i] != ' ' && s[i] != '\n' && s[i] != '\"' && s[i] != '\0' {
      NameCharIsNoDelimiter(s[i]);
    }
  }

  // ---------------------------------------------------------------- lines that are requests

  /** A message with clean arguments, sent as it is, is asked for if it is valid and refused if not. */
  lemma EncodedAsks(m: Message)
    requires m.kind != NONE && AllClean(m.args) && |Encoded(m)| <= MAX_ENCODED_LEN
    ensures FromLine(Encoded(m)) == if Valid(m) then Asked(m) else Protocol.Bad
  {
    DecodingEncoded(m);
    TokensOfJoined(m.args);
    hide Decoding, Encoded, Tokens, Valid, Asked;
  }

  lemma PlainLine(k: Kind, word: string, line: string, r: Protocol.Request)
    requires k != NONE && Arity(k) == 0 && word == TypeName(k) && line == word + "\n" && r == Asked(Message(k, []))
    ensures FromLine(line) == r
  {
    var m := Message(k, []);
    TypeNameShape(k);
    assert Encoded(m) == line;
    EncodedAsks(m);
    hide Asked, FromLine;
  }

  lemma PlainStackRequests()
    ensures FromLine("POP\n") == Protocol.Pop
    ensures FromLine("TOP\n") == Protocol.Top
    ensures FromLine("BYE\n") == Protocol.Bye
  {
    hide FromLine;
    PlainLine(POP, "POP", "POP\n", Protocol.Pop);
    PlainLine(TOP, "TOP", "TOP\n", Protocol.Top);
    PlainLine(BYE, "BYE", "BYE\n", Protocol.Bye);
  }

  lemma PlainArithmeticRequests()
    ensures FromLine("ADD\n") == Protocol.Arithmetic(Add)
    ensures FromLine("MUL\n") == Protocol.Arithmetic(Mul)
    ensures FromLine("SUB\n") == Protocol.Arithmetic(Sub)
    ensures FromLine("DIV\n") == Protocol.Arithmetic(Div)
  {
    hide FromLine;
    PlainLine(ADD, "ADD", "ADD\n", Protocol.Arithmetic(Add));
    PlainLine(MUL, "MUL", "MUL\n", Protocol.Arithmetic(Mul));
    PlainLine(SUB, "SUB", "SUB\n", Protocol.Arithmetic(Sub));
    PlainLine(DIV, "DIV", "DIV\n", Protocol.Arithmetic(Div));
  }

  lemma PlainTransactionRequests()
    ensures FromLine("BEGIN\n") == Protocol.Begin
    ensures FromLine("COMMIT\n") == Protocol.Commit
  {
    hide FromLine;
    PlainLine(BEGIN, "BEGIN", "BEGIN\n", Protocol.Begin);
    PlainLine(COMMIT, "COMMIT", "COMMIT\n", Protocol.Commit);
  }

  /** The requests without arguments. */
  lemma PlainRequests()
    ensures FromLine("POP\n") == Protocol.Pop
    ensures FromLine("TOP\n") == Protocol.Top
    ensures FromLine("ADD\n") == Protocol.Arithmetic(Add)
    ensures FromLine("MUL\n") == Protocol.Arithmetic(Mul)
    ensures FromLine("SUB\n") == Protocol.Arithmetic(Sub)
    ensures FromLine("DIV\n") == Protocol.Arithmetic(Div)
    ensures FromLine("BEGIN\n") == Protocol.Begin
    ensures FromLine("COMMIT\n") == Protocol.Commit
    ensures FromLine("BYE\n") == Protocol.Bye
  {
    hide FromLine;
    PlainStackRequests();
    PlainArithmeticRequests();
    PlainTransactionRequests();
  }

  lemma EncodedOne(k: Kind, a: string)
    ensures Encoded(Message(k, [a])) == TypeName(k) + " " + a + "\n"
  {
    assert [a][1..] == [];
    assert Joined([a]) == " " + a + Joined([]);
  }

  lemma EncodedTwo(k: Kind, a: string, b: string)
    ensures Encoded(Message(k, [a, b])) == TypeName(k) + " " + a + " " + b + "\n"
  {
    assert [a, b][1..] == [b] && [b][1..] == [];
    assert Joined([b]) == " " + b + Joined([]);
    assert Joined([a, b]) == " " + a + Joined([b]);
  }

  /** A line with one word after its type. */
  lemma LineOfOne(k: Kind, word: string, a: string)
    requires k != NONE && word == TypeName(k) && Word(a) && |word + " " + a + "\n"| <= 1024
    ensures var m := Message(k, [a]);
            FromLine(word + " " + a + "\n") == if Valid(m) then Asked(m) else Protocol.Bad
  {
    EncodedOne(k, a);
    WordsAreClean(a);
    EncodedAsks(Message(k, [a]));
    hide Asked, TypeName, Word, FromLine, Encoded, Valid;
  }

  lemma LineOfTwo(k: Kind, word: string, a: string, b: string)
    requires k != NONE && word == TypeName(k) && Word(a) && Word(b) && |word + " " + a + " " + b + "\n"| <= 1024
    ensures var m := Message(k, [a, b]);
            FromLine(word + " " + a + " " + b + "\n") == if Valid(m) then Asked(m) else Protocol.Bad
  {
    EncodedTwo(k, a, b);
    WordsAreClean(a);
    WordsAreClean(b);
    EncodedAsks(Message(k, [a, b]));
    hide Asked, TypeName, Word, FromLine, Encoded, Valid;
  }

  /** The requests with a name: accepted exactly for the names. */
  lemma LoginRequests(n: string)
    requires Word(n) && |n| <= 1017
    ensures FromLine("LOGIN " + n + "\n") == if Name(n) then Protocol.Login else Protocol.Bad
  {
    WordNames(n);
    LineOfOne(LOGIN, "LOGIN", n);
    assert "LOGIN" + " " == "LOGIN ";
    hide FromLine, Name, IsIdentifier, Word;
  }

  lemma CreateRequests(n: string)
    requires Word(n) && |n| <= 1016
    ensures FromLine("CREATE " + n + "\n") == if Name(n) then Protocol.Create(n) else Protocol.Bad
  {
    WordNames(n);
    LineOfOne(CREATE, "CREATE", n);
    assert "CREATE" + " " == "CREATE ";
    hide FromLine, Name, IsIdentifier, Word;
  }

  /** The requests with a table and a key. */
  lemma SetRequests(n: string, k: string)
    requires Word(n) && Word(k) && |n| + |k| <= 1018
    ensures FromLine("SET " + n + " " + k + "\n") == if Name(n) && Name(k) then Protocol.Set(n, k) else Protocol.Bad
  {
    WordNames(n);
    WordNames(k);
    LineOfTwo(SET, "SET", n, k);
    assert "SET" + " " == "SET ";
    hide FromLine, Name, IsIdentifier, Word;
  }

  lemma GetRequests(n: string, k: string)
    requires Word(n) && Word(k) && |n| + |k| <= 1018
    ensures FromLine("GET " + n + " " + k + "\n") == if Name(n) && Name(k) then Protocol.Get(n, k) else Protocol.Bad
  {
    WordNames(n);
    WordNames(k);
    LineOfTwo(GET, "GET", n, k);
    assert "GET" + " " == "GET ";
    hide FromLine, Name, IsIdentifier, Word;
  }

  /** A value is pushed exactly when it holds no blank. */
  lemma PushRequests(v: string)
    requires Word(v) && |v| <= 1018
    ensures FromLine("PUSH " + v + "\n") ==
            if forall i :: 0 <= i < |v| ==> v[i] as int !in {9, 10, 11, 12, 13, 32} then Protocol.Push(v) else Protocol.Bad
  {
    ValueAlphabet(v);
    LineOfOne(PUSH, "PUSH", v);
    assert "PUSH" + " " == "PUSH ";
    hide FromLine, IsValue, Word;
  }

  // ---------------------------------------------------------------- and no others

  /** The first word of a line. */
  function FirstWord(line: string): string { TypePart(SkipBlanks(line)) }

  /** The words and quoted texts after it. */
  function OtherWords(line: string): seq<string> { Tokens(RestPart(SkipBlanks(line))).tokens }

  /** What the words of a request must be. */
  predicate Spelled(r: Protocol.Request, word: string, args: seq<string>) {
    match r
    case Login => word == "LOGIN" && |args| == 1
    case Create(n) => word == "CREATE" && args == [n]
    case Push(v) => word == "PUSH" && args == [v]
    case Pop => word == "POP" && args == []
    case Top => word == "TOP" && args == []
    case Set(n, k) => word == "SET" && args == [n, k]
    case Get(n, k) => word == "GET" && args == [n, k]
    case Arithmetic(Add) => word == "ADD" && args == []
    case Arithmetic(Mul) => word == "MUL" && args == []
    case Arithmetic(Sub) => word == "SUB" && args == []
    case Arithmetic(Div) => word == "DIV" && args == []
    case Begin => word == "BEGIN" && args == []
    case Commit => word == "COMMIT" && args == []
    case Bye => word == "BYE" && args == []
    case Bad => true
    case Garbled => true
  }

  lemma AskedIsSpelled(m: Message)
    requires Valid(m)
    ensures Spelled(Asked(m), TypeName(m.kind), m.args)
  {
    assert m.args == (if |m.args| == 0 then [] else if |m.args| == 1 then [m.args[0]] else [m.args[0], m.args[1]]);
  }

  lemma TypeOfWord(word: string)
    ensures TypeOf(word) != NONE ==> TypeName(TypeOf(word)) == word
  {
  }

  /** Whatever the spacing, a line that is taken for a request starts with that request's word. So a line
      with any other first word, an answer of the server among them, is refused. */
  lemma RequestsAreSpelled(line: string)
    ensures Spelled(FromLine(line), FirstWord(line), OtherWords(line))
  {
    var d := Decoding(line);
    if d.Ok? {
      DecodedParts(line);
      TypeOfWord(FirstWord(line));
      if d.m.kind != NONE { AskedIsSpelled(d.m); }
    }
    hide Decoding, TypeOf, TypeName, Valid, FirstWord, OtherWords;
  }

  lemma DecodedParts(line: string)
    requires Decoding(line).Ok?
    ensures Decoding(line).m == Message(TypeOf(FirstWord(line)), OtherWords(line)) && Valid(Decoding(line).m)
  {
    hide Tokens, Span, SkipBlanks, TypeOf, Valid;
  }
}
