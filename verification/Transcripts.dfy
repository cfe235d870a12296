/**
 Conversations in plain text: what a client sends, line by line, and what it gets. The expressions,
 tables and transactions of the other modules, seen from the outside.
 */
module Transcripts {
  import opened Basics
  import opened Numerals
  import opened Calculator
  import opened Tables
  import opened Protocol
  import opened BigStep
  import Messages
  import Codec
  import Rio
  import Framing
  import Values
  import opened RequestLines
  import opened PostfixEval
  import opened Connections
  import Endings

  /** One line, with nothing in it that would end it early. */
  predicate Sent(line: string) {
    1 <= |line| <= 1024 && line[|line| - 1] == '\n' && '\n' !in line[..|line| - 1] && '\0' !in line
  }

  lemma NextLine(line: string, rest: seq<Rio.Item>)
    requires Sent(line)
    ensures NextRequest(Rio.Bytes(line) + rest) == Values.FromLine(line) && Unread(Rio.Bytes(line) + rest) == rest
  {
    var w := line[..|line| - 1];
    assert line == w + "\n";
    Framing.LineOfBytes(w, rest, Messages.MAX_ENCODED_LEN);
    Framing.CStringOf(line);
    hide Rio.Line, Rio.Bytes, Framing.CString, Codec.Decoding, Values.RequestOf;
  }

  /** A client whose code stands at a sends text and gets the replies; then its code stands at b. */
  ghost predicate Says(a: Core, c: ClientId, text: string, replies: seq<Reply>, b: Core) {
    && WellFormed(a) && WellFormed(b)
    && forall rest {:trigger Conversing(b, c, rest)} ::
         Conversing(a, c, Rio.Bytes(text) + rest) == Resumed(replies, Conversing(b, c, rest))
  }

  lemma OneLine(a: Core, c: ClientId, line: string, b: Core)
    requires WellFormed(a) && Sent(line) && Meaning(a, c, Values.FromLine(line)) == Continues(b) && FitsLine(b.session.reply)
    ensures Says(a, c, line, [b.session.reply], b)
  {
    hide Meaning, Values.FromLine, NextRequest, Unread;
    MeaningKeepsFormed(a, c, Values.FromLine(line));
    hide WellFormed;
    forall rest ensures Conversing(a, c, Rio.Bytes(line) + rest) == Resumed([b.session.reply], Conversing(b, c, rest)) {
      NextLine(line, rest);
    }
  }

  lemma Then(a: Core, c: ClientId, s: string, p: seq<Reply>, b: Core, t: string, q: seq<Reply>, d: Core)
    requires Says(a, c, s, p, b) && Says(b, c, t, q, d)
    ensures Says(a, c, s + t, p + q, d)
  {
    hide WellFormed, Conversing, Rio.Bytes;
    forall rest ensures Conversing(a, c, Rio.Bytes(s + t) + rest) == Resumed(p + q, Conversing(d, c, rest)) {
      Rio.BytesConcat(s, t);
      Rio.Assoc(Rio.Bytes(s), Rio.Bytes(t), rest);
      var later := Conversing(d, c, rest);
      assert Conversing(b, c, Rio.Bytes(t) + rest) == Resumed(q, later);
      assert p + (q + later.replies) == (p + q) + later.replies;
    }
  }

  // ---------------------------------------------------------------- single lines

  lemma PlainLineSent(line: string)
    requires line in {"POP\n", "TOP\n", "ADD\n", "MUL\n", "SUB\n", "DIV\n", "BEGIN\n", "COMMIT\n", "BYE\n"}
    ensures Sent(line)
  {
  }

  /** A value that a line can carry. */
  predicate Sayable(v: string) {
    && 1 <= |v| <= 1018
    && forall i :: 0 <= i < |v| ==> v[i] as int !in {0, 9, 10, 11, 12, 13, 32} && v[i] != '\"'
  }

  /** Text that ends nothing early. */
  predicate Plain(w: string) { '\n' !in w && '\0' !in w }

  lemma PlainJoins(v: string, w: string)
    ensures Plain(v + w) <==> Plain(v) && Plain(w)
  {
  }

  lemma Terminated(w: string)
    requires Plain(w) && |w| <= 1023
    ensures Sent(w + "\n")
  {
    assert (w + "\n")[..|w|] == w;
  }

  lemma SayableIsPlain(v: string)
    requires Sayable(v)
    ensures Plain(v) && Word(v)
  {
    assert forall i :: 0 <= i < |v| ==> v[i] != '\n' && v[i] != '\0' && v[i] != ' ' && v[i] != '\"';
  }

  lemma PushLine(v: string)
    requires Sayable(v)
    ensures Sent("PUSH " + v + "\n") && Values.FromLine("PUSH " + v + "\n") == Push(v)
  {
    SayableIsPlain(v);
    PushRequests(v);
    PlainJoins("PUSH ", v);
    hide Values.FromLine, Word, Plain, Sent;
    assert Plain("PUSH ") by { PlainWords(); }
    Terminated("PUSH " + v);
  }

  lemma PlainWords()
    ensures Plain("PUSH ") && Plain("LOGIN ") && Plain("CREATE ") && Plain("SET ") && Plain("GET ") && Plain(" ")
  {
  }

  lemma PushSays(a: Core, c: ClientId, v: string)
    requires WellFormed(a) && a.session.loggedIn && Sayable(v)
    ensures Says(a, c, "PUSH " + v + "\n", [Ok], a.Stacked(a.session.stack + [v]).Replied(Ok))
  {
    PushLine(v);
    OneLine(a, c, "PUSH " + v + "\n", a.Stacked(a.session.stack + [v]).Replied(Ok));
    hide Values.FromLine, Says, Sent, Sayable;
  }

  lemma TopSays(a: Core, c: ClientId)
    requires WellFormed(a) && a.session.loggedIn && a.session.stack != []
    requires var v := a.session.stack[|a.session.stack| - 1]; |v| <= 1018
    ensures var v := a.session.stack[|a.session.stack| - 1]; Says(a, c, "TOP\n", [Data(v)], a.Replied(Data(v)))
  {
    PlainRequests();
    PlainLineSent("TOP\n");
    OneLine(a, c, "TOP\n", a.Replied(Data(a.session.stack[|a.session.stack| - 1])));
    hide Values.FromLine, Says, Sent;
  }

  // ---------------------------------------------------------------- expressions

  function OperatorText(op: Operator): string {
    match op
    case Add => "ADD\n"
    case Sub => "SUB\n"
    case Mul => "MUL\n"
    case Div => "DIV\n"
  }

  /** An expression as a client sends it. */
  function ExprText(e: Expr): string {
    match e
    case Literal(n) => "PUSH " + ToString(n) + "\n"
    case Apply(op, left, right) => ExprText(left) + ExprText(right) + OperatorText(op)
  }

  /** Every literal fits a line. */
  predicate Writable(e: Expr) {
    match e
    case Literal(n) => |ToString(n)| <= 1018
    case Apply(_, left, right) => Writable(left) && Writable(right)
  }

  function Lines(e: Expr): nat {
    match e
    case Literal(_) => 1
    case Apply(_, left, right) => Lines(left) + Lines(right) + 1
  }

  function Oks(n: nat): seq<Reply> { if n == 0 then [] else Oks(n - 1) + [Ok] }

  lemma {:induction false} OksAdd(m: nat, n: nat)
    ensures Oks(m) + Oks(n) == Oks(m + n)
    decreases n
  {
    if n > 0 { OksAdd(m, n - 1); }
  }

  lemma NumeralsAreSayable(n: int)
    requires |ToString(n)| <= 1018
    ensures Sayable(ToString(n))
  {
    var d := Digits(Abs(n), 10);
    DigitsShape(Abs(n), 10);
    NumeralCharacters(d, 10);
    assert forall i :: 0 <= i < |d| ==> IsDigit(d[i]);
    hide Digits;
  }

  lemma OperatorLine(op: Operator)
    ensures Sent(OperatorText(op)) && Values.FromLine(OperatorText(op)) == Arithmetic(op)
  {
    PlainRequests();
    PlainLineSent(OperatorText(op));
    hide Values.FromLine, Sent;
  }

  lemma OperatorSays(a: Core, c: ClientId, op: Operator, base: seq<Value>, x: int, y: int)
    requires WellFormed(a) && a.session.loggedIn && a.session.stack == base + [ToString(x)] + [ToString(y)]
    requires Combine(op, x, y).Number?
    ensures Says(a, c, OperatorText(op), [Ok], a.Stacked(base + [ToString(Combine(op, x, y).v)]).Replied(Ok))
  {
    OperatorLine(op);
    ArithOfNumerals(base, op, x, y);
    hide Arith, ToString, Combine;
    OneLine(a, c, OperatorText(op), a.Stacked(base + [ToString(Combine(op, x, y).v)]).Replied(Ok));
    hide Values.FromLine, Says, Sent, OperatorText;
  }

  function Pushed(a: Core, stack: seq<Value>, v: int): Core {
    a.Stacked(stack + [ToString(v)]).Replied(Ok)
  }

  lemma PushedTwice(a: Core, s: seq<Value>, x: int, t: seq<Value>, y: int)
    ensures Pushed(Pushed(a, s, x), t, y) == Pushed(a, t, y)
    ensures Pushed(a, s, x).session.stack == s + [ToString(x)] && Pushed(a, s, x).session.loggedIn == a.session.loggedIn
  {
  }

  /** Two texts that push two numbers, and an operator on them. */
  lemma ApplySays(a: Core, c: ClientId, op: Operator, s: string, m: nat, x: int, t: string, n: nat, y: int)
    requires a.session.loggedIn && Combine(op, x, y).Number?
    requires var base := a.session.stack;
             var b := Pushed(a, base, x);
             Says(a, c, s, Oks(m), b) && Says(b, c, t, Oks(n), Pushed(b, b.session.stack, y))
    ensures Says(a, c, s + t + OperatorText(op), Oks(m + n + 1), Pushed(a, a.session.stack, Combine(op, x, y).v))
  {
    var base := a.session.stack;
    var b := Pushed(a, base, x);
    var d := Pushed(b, b.session.stack, y);
    var z := Combine(op, x, y).v;
    PushedTwice(a, base, x, b.session.stack, y);
    PushedTwice(b, b.session.stack, y, base, z);
    PushedTwice(a, base, x, base, z);
    OksAdd(m, n);
    assert Oks(m + n + 1) == Oks(m + n) + [Ok];
    OperatorSays(d, c, op, base, x, y);
    assert d.Stacked(base + [ToString(z)]).Replied(Ok) == Pushed(a, base, z);
    hide *;
    Then(a, c, s, Oks(m), b, t, Oks(n), d);
    Then(a, c, s + t, Oks(m) + Oks(n), d, OperatorText(op), [Ok], Pushed(a, base, z));
  }

  /** Sending an expression leaves its value on the stack, and every line is answered OK. */
  lemma {:induction false} ExpressionSays(a: Core, c: ClientId, e: Expr)
    requires WellFormed(a) && a.session.loggedIn && Writable(e) && Eval(e).Number?
    ensures Says(a, c, ExprText(e), Oks(Lines(e)), Pushed(a, a.session.stack, Eval(e).v))
    decreases e
  {
    hide Says, Combine, ToString;
    match e
    case Literal(n) =>
      NumeralsAreSayable(n);
      PushSays(a, c, ToString(n));
      assert Oks(1) == Oks(0) + [Ok] == [Ok];
    case Apply(op, left, right) =>
      ExpressionSays(a, c, left);
      ExpressionSays(Pushed(a, a.session.stack, Eval(left).v), c, right);
      ApplySays(a, c, op, ExprText(left), Lines(left), Eval(left).v, ExprText(right), Lines(right), Eval(right).v);
      hide Oks;
  }

  lemma ValueFits(e: Expr)
    requires Writable(e) && Eval(e).Number?
    ensures |ToString(Eval(e).v)| <= 1018
  {
    if e.Apply? { CombinedFits(e.op, Eval(e.left).v, Eval(e.right).v); }
  }

  lemma CombinedFits(op: Operator, x: int, y: int)
    requires Combine(op, x, y).Number?
    ensures |ToString(Combine(op, x, y).v)| <= 1018
  {
    ArithmeticFits(op, y, x);
    if op.Div? {
      QuotientTruncates(x, y);
      QuotientIsUnique(x, y, TruncDiv(x, y), Combine(op, x, y).v);
    }
    Values.NumeralsAreStorable(Combine(op, x, y).v);
    hide ToString, Truncates, TruncDiv;
  }

  /** So asking for the top afterwards gives the value of the expression. */
  lemma ExpressionTranscript(a: Core, c: ClientId, e: Expr)
    requires WellFormed(a) && a.session.loggedIn && Writable(e) && Eval(e).Number?
    ensures var v := ToString(Eval(e).v);
            Says(a, c, ExprText(e) + "TOP\n", Oks(Lines(e)) + [Data(v)], a.Stacked(a.session.stack + [v]).Replied(Data(v)))
  {
    var b := a.Stacked(a.session.stack + [ToString(Eval(e).v)]).Replied(Ok);
    ExpressionSays(a, c, e);
    ValueFits(e);
    TopSays(b, c);
    Then(a, c, ExprText(e), Oks(Lines(e)), b, "TOP\n", [Data(ToString(Eval(e).v))], b.Replied(Data(ToString(Eval(e).v))));
    hide Says, ToString, Writable, Eval;
  }

  // ---------------------------------------------------------------- the bytes of the answers

  predicate Cheerful(rs: seq<Reply>) {
    forall i :: 0 <= i < |rs| ==> rs[i].Ok? || rs[i].Data?
  }

  /** The answers in plain text. */
  function AnswerText(rs: seq<Reply>): string
    requires Cheerful(rs)
  {
    if rs == [] then ""
    else OneAnswer(rs[0]) + AnswerText(rs[1..])
  }

  function OneAnswer(r: Reply): string {
    match r
    case Ok => "OK\n"
    case Data(v) => "DATA " + v + "\n"
    case _ => ""
  }

  /** What the client reads is exactly that text. */
  lemma {:induction false} AnswersRead(ms: seq<Messages.Message>, rs: seq<Reply>)
    requires TellAll(ms, rs) && Cheerful(rs)
    ensures Framing.EncodedAll(ms) == AnswerText(rs)
  {
    if rs != [] {
      ToldText(ms[0], rs[0]);
      AnswersRead(ms[1..], rs[1..]);
      hide Codec.Encoded, Tells;
    }
  }

  // ---------------------------------------------------------------- names, tables and transactions

  lemma NamePlain(n: string)
    requires Name(n)
    ensures Plain(n) && Word(n)
  {
    NamesAreWords(n);
  }

  lemma LoginLine(u: string)
    requires Name(u) && |u| <= 1017
    ensures Sent("LOGIN " + u + "\n") && Values.FromLine("LOGIN " + u + "\n") == Login
  {
    NamePlain(u);
    LoginRequests(u);
    PlainWords();
    PlainJoins("LOGIN ", u);
    hide Values.FromLine, Word, Plain, Sent, Name;
    Terminated("LOGIN " + u);
  }

  lemma CreateLine(n: string)
    requires Name(n) && |n| <= 1016
    ensures Sent("CREATE " + n + "\n") && Values.FromLine("CREATE " + n + "\n") == Create(n)
  {
    NamePlain(n);
    CreateRequests(n);
    PlainWords();
    PlainJoins("CREATE ", n);
    hide Values.FromLine, Word, Plain, Sent, Name;
    Terminated("CREATE " + n);
  }

  lemma KeyLines(n: string, k: string)
    requires Name(n) && Name(k) && |n| + |k| <= 1018
    ensures Sent("SET " + n + " " + k + "\n") && Values.FromLine("SET " + n + " " + k + "\n") == Protocol.Set(n, k)
    ensures Sent("GET " + n + " " + k + "\n") && Values.FromLine("GET " + n + " " + k + "\n") == Protocol.Get(n, k)
  {
    NamePlain(n);
    NamePlain(k);
    SetRequests(n, k);
    GetRequests(n, k);
    PlainWords();
    PlainJoins("SET ", n);
    PlainJoins("SET " + n, " ");
    PlainJoins("SET " + n + " ", k);
    PlainJoins("GET ", n);
    PlainJoins("GET " + n, " ");
    PlainJoins("GET " + n + " ", k);
    hide Values.FromLine, Word, Plain, Sent, Name;
    Terminated("SET " + n + " " + k);
    Terminated("GET " + n + " " + k);
  }

  lemma LoginSays(a: Core, c: ClientId, u: string)
    requires WellFormed(a) && Name(u) && |u| <= 1017
    ensures Says(a, c, "LOGIN " + u + "\n", [Ok], a.(session := a.session.(loggedIn := true, reply := Ok)))
  {
    LoginLine(u);
    OneLine(a, c, "LOGIN " + u + "\n", a.(session := a.session.(loggedIn := true, reply := Ok)));
    hide Values.FromLine, Says, Sent, Name;
  }

  lemma CreateSays(a: Core, c: ClientId, n: string)
    requires WellFormed(a) && a.session.loggedIn && Name(n) && |n| <= 1016 && n !in a.directory
    ensures Says(a, c, "CREATE " + n + "\n", [Ok], Created(a, n))
  {
    CreateLine(n);
    OneLine(a, c, "CREATE " + n + "\n", Created(a, n));
    hide Values.FromLine, Says, Sent, Name;
  }

  /** The name is bound to table t, and the client may use the table at once. */
  predicate AtHand(a: Core, n: string, t: TableId) {
    && WellFormed(a) && a.session.loggedIn && n in a.directory && a.directory[n] == t && t < |a.tables|
    && (a.tables[t].owner.None? || (a.session.inTxn && t in a.session.locked))
  }

  /** Table t and the locks after a GET or a SET that leaves tb. */
  function Used(a: Core, c: ClientId, t: TableId, tb: TableState): Core
    requires t < |a.tables|
  {
    if a.session.inTxn
    then a.With(t, tb.(owner := if t in a.session.locked then a.tables[t].owner else Some(c)))
          .(session := a.session.(locked := a.session.locked + {t}))
    else a.With(t, tb.Commit().(owner := None))
  }

  lemma LockedAlready(a: Core, t: TableId)
    requires t in a.session.locked
    ensures a.session.locked + {t} == a.session.locked
  {
  }

  lemma SetMeans(a: Core, c: ClientId, n: string, k: string, t: TableId, base: seq<Value>, v: Value)
    requires AtHand(a, n, t) && a.session.stack == base + [v]
    ensures Meaning(a, c, Protocol.Set(n, k)) == Continues(Used(a, c, t, a.tables[t].Set(k, v)).Stacked(base).Replied(Ok))
  {
    if t in a.session.locked { LockedAlready(a, t); }
    assert a.session.stack[..|a.session.stack| - 1] == base;
  }

  lemma GetMeans(a: Core, c: ClientId, n: string, k: string, t: TableId)
    requires AtHand(a, n, t)
    ensures Meaning(a, c, Protocol.Get(n, k)) ==
            Continues(Used(a, c, t, a.tables[t].AfterGet(k))
                      .Stacked(a.session.stack + [Lookup(a.tables[t].Visible(), k)]).Replied(Ok))
  {
    if t in a.session.locked { LockedAlready(a, t); }
  }

  lemma SetSays(a: Core, c: ClientId, n: string, k: string, t: TableId, base: seq<Value>, v: Value)
    requires AtHand(a, n, t) && Name(n) && Name(k) && |n| + |k| <= 1018 && a.session.stack == base + [v]
    ensures Says(a, c, "SET " + n + " " + k + "\n", [Ok], Used(a, c, t, a.tables[t].Set(k, v)).Stacked(base).Replied(Ok))
  {
    KeyLines(n, k);
    SetMeans(a, c, n, k, t, base, v);
    OneLine(a, c, "SET " + n + " " + k + "\n", Used(a, c, t, a.tables[t].Set(k, v)).Stacked(base).Replied(Ok));
    hide Values.FromLine, Says, Sent, Name, Meaning, Used;
  }

  lemma GetSays(a: Core, c: ClientId, n: string, k: string, t: TableId)
    requires AtHand(a, n, t) && Name(n) && Name(k) && |n| + |k| <= 1018
    ensures Says(a, c, "GET " + n + " " + k + "\n", [Ok],
                 Used(a, c, t, a.tables[t].AfterGet(k)).Stacked(a.session.stack + [Lookup(a.tables[t].Visible(), k)]).Replied(Ok))
  {
    KeyLines(n, k);
    GetMeans(a, c, n, k, t);
    OneLine(a, c, "GET " + n + " " + k + "\n",
            Used(a, c, t, a.tables[t].AfterGet(k)).Stacked(a.session.stack + [Lookup(a.tables[t].Visible(), k)]).Replied(Ok));
    hide Values.FromLine, Says, Sent, Name, Meaning, Used;
  }

  lemma UsedAtHand(a: Core, c: ClientId, n: string, t: TableId, tb: TableState, stack: seq<Value>)
    requires AtHand(a, n, t)
    ensures var b := Used(a, c, t, tb).Stacked(stack).Replied(Ok);
            && AtHand(b, n, t) && b.session.inTxn == a.session.inTxn && b.session.stack == stack
            && b.session.locked == (if a.session.inTxn then a.session.locked + {t} else a.session.locked)
            && b.directory == a.directory && |b.tables| == |a.tables|
            && b.tables[t].committed == (if a.session.inTxn then tb else tb.Commit()).committed
            && b.tables[t].pending == (if a.session.inTxn then tb else tb.Commit()).pending
            && forall u: TableId :: u < |a.tables| && u != t ==> b.tables[u] == a.tables[u]
  {
  }

  /** The four lines that store a value under a key and ask for it. */
  function StoreText(n: string, k: string, v: string): string {
    "PUSH " + v + "\n" + ("SET " + n + " " + k + "\n" + ("GET " + n + " " + k + "\n" + "TOP\n"))
  }

  /** What tb becomes when v is set under k, and committed outside a transaction. */
  function Stored(tb: TableState, k: string, v: string, inTxn: bool): TableState {
    if inTxn then tb.Set(k, v) else tb.Set(k, v).Commit()
  }

  lemma StoredShows(tb: TableState, k: string, v: string, inTxn: bool)
    ensures var st := Stored(tb, k, v, inTxn);
            && Lookup(st.Visible(), k) == v && st.AfterGet(k) == st
            && (!inTxn ==> st.Commit() == st)
  {
  }

  /** The client's code after those lines. */
  predicate AfterStore(a: Core, b: Core, t: TableId, k: string, v: string)
    requires t < |a.tables|
  {
    && b.session == a.session.(stack := a.session.stack + [v], reply := Data(v), locked := b.session.locked)
    && b.session.locked == (if a.session.inTxn then a.session.locked + {t} else a.session.locked)
    && b.directory == a.directory && |b.tables| == |a.tables|
    && b.tables[t].committed == Stored(a.tables[t], k, v, a.session.inTxn).committed
    && b.tables[t].pending == Stored(a.tables[t], k, v, a.session.inTxn).pending
    && b.tables[t].name == a.tables[t].name
    && (!a.session.inTxn ==> b.tables[t].owner.None?)
    && (forall u: TableId :: u < |a.tables| && u != t ==> b.tables[u] == a.tables[u])
  }

  /** A value stored in a table at hand comes back, inside a transaction and outside. */
  lemma StoreTranscript(a: Core, c: ClientId, n: string, k: string, t: TableId, v: string) returns (b: Core)
    requires AtHand(a, n, t) && Name(n) && Name(k) && |n| + |k| <= 1018 && Sayable(v)
    ensures Says(a, c, StoreText(n, k, v), [Ok, Ok, Ok, Data(v)], b) && AfterStore(a, b, t, k, v)
    ensures AtHand(b, n, t)
  {
    var base := a.session.stack;
    var a1 := a.Stacked(base + [v]).Replied(Ok);
    PushSays(a, c, v);
    assert AtHand(a1, n, t);
    SetSays(a1, c, n, k, t, base, v);
    UsedAtHand(a1, c, n, t, a1.tables[t].Set(k, v), base);
    var a2 := Used(a1, c, t, a1.tables[t].Set(k, v)).Stacked(base).Replied(Ok);
    StoredShows(a.tables[t], k, v, a.session.inTxn);
    GetSays(a2, c, n, k, t);
    var got := Lookup(a2.tables[t].Visible(), k);
    UsedAtHand(a2, c, n, t, a2.tables[t].AfterGet(k), base + [got]);
    var a3 := Used(a2, c, t, a2.tables[t].AfterGet(k)).Stacked(base + [got]).Replied(Ok);
    assert got == v;
    TopSays(a3, c);
    b := a3.Replied(Data(v));
    StoreSays(a, c, a1, a2, a3, b, n, k, v);
    hide Says, WellFormed;
  }

  lemma StoreSays(a: Core, c: ClientId, a1: Core, a2: Core, a3: Core, b: Core, n: string, k: string, v: string)
    requires Says(a, c, "PUSH " + v + "\n", [Ok], a1) && Says(a1, c, "SET " + n + " " + k + "\n", [Ok], a2)
    requires Says(a2, c, "GET " + n + " " + k + "\n", [Ok], a3) && Says(a3, c, "TOP\n", [Data(v)], b)
    ensures Says(a, c, StoreText(n, k, v), [Ok, Ok, Ok, Data(v)], b)
  {
    hide Says;
    Then(a2, c, "GET " + n + " " + k + "\n", [Ok], a3, "TOP\n", [Data(v)], b);
    Then(a1, c, "SET " + n + " " + k + "\n", [Ok], a2, "GET " + n + " " + k + "\n" + "TOP\n", [Ok] + [Data(v)], b);
    Then(a, c, "PUSH " + v + "\n", [Ok], a1,
         "SET " + n + " " + k + "\n" + ("GET " + n + " " + k + "\n" + "TOP\n"), [Ok] + ([Ok] + [Data(v)]), b);
    assert [Ok] + ([Ok] + ([Ok] + [Data(v)])) == [Ok, Ok, Ok, Data(v)];
  }

  lemma BeginSays(a: Core, c: ClientId)
    requires WellFormed(a) && a.session.loggedIn
    ensures Says(a, c, "BEGIN\n", [Ok], a.(session := a.session.(inTxn := true, reply := Ok)))
  {
    PlainRequests();
    PlainLineSent("BEGIN\n");
    OneLine(a, c, "BEGIN\n", a.(session := a.session.(inTxn := true, reply := Ok)));
    hide Values.FromLine, Says, Sent;
  }

  lemma CommitSays(a: Core, c: ClientId)
    requires WellFormed(a) && a.session.loggedIn
    ensures Says(a, c, "COMMIT\n", [Ok], Closed(a, CommittedAll(a.tables, a.session.locked), Ok))
  {
    PlainRequests();
    PlainLineSent("COMMIT\n");
    OneLine(a, c, "COMMIT\n", Closed(a, CommittedAll(a.tables, a.session.locked), Ok));
    hide Values.FromLine, Says, Sent;
  }

  /** A transaction that stores a value: it sees its own value, and its COMMIT makes it the table's and
      frees the table. */
  lemma TransactionTranscript(a: Core, c: ClientId, n: string, k: string, t: TableId, v: string) returns (b: Core)
    requires AtHand(a, n, t) && !a.session.inTxn && a.session.locked == {}
    requires Name(n) && Name(k) && |n| + |k| <= 1018 && Sayable(v)
    ensures Says(a, c, "BEGIN\n" + (StoreText(n, k, v) + "COMMIT\n"), [Ok, Ok, Ok, Ok, Data(v), Ok], b)
    ensures b.session == a.session.(stack := a.session.stack + [v], reply := Ok)
    ensures var was := a.tables[t];
            b.tables == a.tables[t := TableState(was.name, None, (was.committed + was.pending)[k := v], map[])]
  {
    var a1 := a.(session := a.session.(inTxn := true, reply := Ok));
    BeginSays(a, c);
    var a2 := StoreTranscript(a1, c, n, k, t, v);
    CommitSays(a2, c);
    b := Closed(a2, CommittedAll(a2.tables, a2.session.locked), Ok);
    assert b.tables == a.tables[t := b.tables[t]];
    assert b.tables[t].committed == (a.tables[t].committed + a.tables[t].pending)[k := v];
    TransactionSays(a, c, a1, a2, b, StoreText(n, k, v), v);
    hide Says;
  }

  lemma TransactionSays(a: Core, c: ClientId, a1: Core, a2: Core, b: Core, text: string, v: string)
    requires Says(a, c, "BEGIN\n", [Ok], a1) && Says(a1, c, text, [Ok, Ok, Ok, Data(v)], a2) && Says(a2, c, "COMMIT\n", [Ok], b)
    ensures Says(a, c, "BEGIN\n" + (text + "COMMIT\n"), [Ok, Ok, Ok, Ok, Data(v), Ok], b)
  {
    hide Says;
    Then(a1, c, text, [Ok, Ok, Ok, Data(v)], a2, "COMMIT\n", [Ok], b);
    Then(a, c, "BEGIN\n", [Ok], a1, text + "COMMIT\n", [Ok, Ok, Ok, Data(v)] + [Ok], b);
    assert [Ok] + ([Ok, Ok, Ok, Data(v)] + [Ok]) == [Ok, Ok, Ok, Ok, Data(v), Ok];
  }

  // ---------------------------------------------------------------- refusals and farewells

  lemma LastLine(a: Core, c: ClientId, line: string, end: Ended, rest: seq<Rio.Item>)
    requires WellFormed(a) && Sent(line) && Meaning(a, c, Values.FromLine(line)) == end
    requires end.Dies? || (end.Leaves? && FitsLine(end.core.session.reply))
    ensures Conversing(a, c, Rio.Bytes(line) + rest) ==
            Conversation(if end.Dies? then [] else [end.core.session.reply], end)
  {
    hide Meaning, Values.FromLine, NextRequest, Unread, WellFormed;
    NextLine(line, rest);
  }

  /** BYE is answered, and what follows it is not read. */
  lemma ByeEnds(a: Core, c: ClientId, rest: seq<Rio.Item>)
    requires WellFormed(a) && a.session.loggedIn
    ensures Conversing(a, c, Rio.Bytes("BYE\n") + rest) == Conversation([Ok], Leaves(a.Replied(Ok)))
  {
    PlainRequests();
    PlainLineSent("BYE\n");
    LastLine(a, c, "BYE\n", Leaves(a.Replied(Ok)), rest);
    hide Values.FromLine, Conversing;
  }

  /** Before the login, any other line is answered with an error and ends the conversation. */
  lemma LoginComesFirst(a: Core, c: ClientId, line: string, rest: seq<Rio.Item>)
    requires WellFormed(a) && !a.session.loggedIn && Sent(line)
    requires FirstWord(line) != "LOGIN" && Codec.Decoding(line) != Codec.OutOfRange
    ensures Conversing(a, c, Rio.Bytes(line) + rest) == Conversation([Error], Leaves(a.Replied(Error)))
  {
    RequestsAreSpelled(line);
    Endings.GarbledIsOutOfRange(line);
    assert Values.FromLine(line) != Login && Values.FromLine(line) != Garbled;
    RefusedMeaning(a, c, Values.FromLine(line));
    LastLine(a, c, line, Leaves(a.Replied(Error)), rest);
    hide Values.FromLine, Conversing, Meaning, FirstWord, Codec.Decoding;
  }

  /** POP on an empty stack fails outside a transaction, and ends the process inside one. */
  lemma EmptyPop(a: Core, c: ClientId, rest: seq<Rio.Item>)
    requires WellFormed(a) && a.session.loggedIn && a.session.stack == []
    ensures if a.session.inTxn then Conversing(a, c, Rio.Bytes("POP\n") + rest) == Conversation([], Dies)
            else Says(a, c, "POP\n", [Failed], a.Replied(Failed))
  {
    PlainRequests();
    PlainLineSent("POP\n");
    if a.session.inTxn { LastLine(a, c, "POP\n", Dies, rest); } else { OneLine(a, c, "POP\n", a.Replied(Failed)); }
    hide Values.FromLine, Conversing, Says;
  }

  /** A name already bound cannot be created, and a name not bound cannot be used. */
  lemma WrongTable(a: Core, c: ClientId, n: string, k: string, rest: seq<Rio.Item>)
    requires WellFormed(a) && a.session.loggedIn && Name(n) && Name(k) && |n| + |k| <= 1015
    ensures var refused := Conversation([Error], Leaves(a.Replied(Error)));
            if n in a.directory then Conversing(a, c, Rio.Bytes("CREATE " + n + "\n") + rest) == refused
            else
              && Conversing(a, c, Rio.Bytes("SET " + n + " " + k + "\n") + rest) == refused
              && Conversing(a, c, Rio.Bytes("GET " + n + " " + k + "\n") + rest) == refused
  {
    CreateLine(n);
    KeyLines(n, k);
    WrongTableMeaning(a, c, n, k);
    hide Values.FromLine, Conversing, Meaning, Name, Sent;
    var end := Leaves(a.Replied(Error));
    if n in a.directory {
      LastLine(a, c, "CREATE " + n + "\n", end, rest);
    } else {
      LastLine(a, c, "SET " + n + " " + k + "\n", end, rest);
      LastLine(a, c, "GET " + n + " " + k + "\n", end, rest);
    }
  }

  lemma WrongTableMeaning(a: Core, c: ClientId, n: string, k: string)
    requires WellFormed(a) && a.session.loggedIn
    ensures var end := Leaves(a.Replied(Error));
            if n in a.directory then Meaning(a, c, Create(n)) == end
            else Meaning(a, c, Protocol.Set(n, k)) == end && Meaning(a, c, Protocol.Get(n, k)) == end
  {
  }

  // ---------------------------------------------------------------- a whole conversation

  /** A server that has just started, to its first client. */
  function Fresh(flag: bool): Core {
    Core([], map[], Session(flag, [], false, {}, Silent))
  }

  function FirstText(u: string, n: string, k: string, v: string): string {
    "LOGIN " + u + "\n" + ("CREATE " + n + "\n" + StoreText(n, k, v))
  }

  function FirstAnswers(v: string): string {
    "OK\n" + ("OK\n" + ("OK\n" + ("OK\n" + ("OK\n" + ("DATA " + v + "\n" + "OK\n")))))
  }

  lemma FirstSteps(c: ClientId, flag: bool, u: string, n: string, k: string, v: string) returns (b: Core)
    requires Name(u) && |u| <= 1017 && Name(n) && |n| <= 1016 && Name(k) && |n| + |k| <= 1018 && Sayable(v)
    ensures Says(Fresh(flag), c, FirstText(u, n, k, v), [Ok, Ok, Ok, Ok, Ok, Data(v)], b)
    ensures b.session.loggedIn && b.tables == [TableState(n, None, map[k := v], map[])]
  {
    var a := Fresh(flag);
    var a1 := a.(session := a.session.(loggedIn := true, reply := Ok));
    var a2 := Created(a1, n);
    FreshAtHand(flag, n);
    hide Sayable, Name, FirstText, Created, WellFormed, AtHand;
    LoginSays(a, c, u);
    CreateSays(a1, c, n);
    b := StoreTranscript(a2, c, n, k, 0, v);
    FirstStored(flag, n, k, v, b);
    hide Says;
    FirstSays(a, c, a1, a2, b, u, n, k, v);
  }

  lemma FreshAtHand(flag: bool, n: string)
    ensures var a := Fresh(flag);
            var a1 := a.(session := a.session.(loggedIn := true, reply := Ok));
            && WellFormed(a) && WellFormed(a1) && AtHand(Created(a1, n), n, 0)
  {
  }

  lemma FirstStored(flag: bool, n: string, k: string, v: string, b: Core)
    requires var a := Fresh(flag);
             var a2 := Created(a.(session := a.session.(loggedIn := true, reply := Ok)), n);
             |a2.tables| > 0 && AfterStore(a2, b, 0, k, v)
    ensures b.session.loggedIn && b.tables == [TableState(n, None, map[k := v], map[])]
  {
    var none: Row := map[];
    var tb := TableState(n, None, none, none);
    assert Stored(tb, k, v, false).committed == map[k := v];
    assert |b.tables| == 1 && b.tables[0] == TableState(n, None, map[k := v], map[]);
  }

  lemma AnswersFirst(r: Reply, rs: seq<Reply>)
    requires Cheerful([r] + rs)
    ensures Cheerful(rs)
    ensures AnswerText([r] + rs) == OneAnswer(r) + AnswerText(rs)
  {
    assert forall i :: 0 <= i < |rs| ==> rs[i] == ([r] + rs)[i + 1];
    assert ([r] + rs)[1..] == rs;
  }

  lemma FirstAnswersText(v: string)
    ensures Cheerful([Ok, Ok, Ok, Ok, Ok, Data(v), Ok]) && AnswerText([Ok, Ok, Ok, Ok, Ok, Data(v), Ok]) == FirstAnswers(v)
  {
    var r1: seq<Reply> := [Ok] + [];
    var r2, r3, r4 := [Data(v)] + r1, [Ok] + ([Data(v)] + r1), [Ok] + ([Ok] + ([Data(v)] + r1));
    assert Cheerful([]) && AnswerText([]) == "";
    AnswersFirst(Ok, []);
    AnswersFirst(Data(v), r1);
    AnswersFirst(Ok, r2);
    AnswersFirst(Ok, r3);
    AnswersFirst(Ok, r4);
    AnswersFirst(Ok, [Ok] + r4);
    AnswersFirst(Ok, [Ok] + ([Ok] + r4));
    assert [Ok] + ([Ok] + ([Ok] + r4)) == [Ok, Ok, Ok, Ok, Ok, Data(v), Ok];
    assert "OK\n" + "" == "OK\n";
    hide AnswerText;
  }

  /** Log in, create a table, store a value, read it back, leave: every byte of the answers. */
  lemma FirstConversation(c: ClientId, flag: bool, u: string, n: string, k: string, v: string)
    requires Name(u) && |u| <= 1017 && Name(n) && |n| <= 1016 && Name(k) && |n| + |k| <= 1018 && Sayable(v)
    ensures var all := Conversing(Fresh(flag), c, Rio.Bytes(FirstText(u, n, k, v)) + Rio.Bytes("BYE\n"));
            && all.replies == [Ok, Ok, Ok, Ok, Ok, Data(v), Ok] && all.end.Leaves?
            && all.end.core.tables == [TableState(n, None, map[k := v], map[])]
            && forall ms :: TellAll(ms, all.replies) ==> Framing.EncodedAll(ms) == FirstAnswers(v)
  {
    var b := FirstSteps(c, flag, u, n, k, v);
    ByeEnds(b, c, []);
    assert Rio.Bytes("BYE\n") + [] == Rio.Bytes("BYE\n");
    var replies := [Ok, Ok, Ok, Ok, Ok, Data(v), Ok];
    assert [Ok, Ok, Ok, Ok, Ok, Data(v)] + [Ok] == replies;
    FirstAnswersText(v);
    hide Conversing, Framing.EncodedAll, AnswerText, Tells, FirstText, FirstAnswers, Rio.Bytes, TellAll, Cheerful, WellFormed;
    forall ms | TellAll(ms, replies) ensures Framing.EncodedAll(ms) == FirstAnswers(v) {
      AnswersRead(ms, replies);
    }
  }

  lemma FirstSays(a: Core, c: ClientId, a1: Core, a2: Core, b: Core, u: string, n: string, k: string, v: string)
    requires Says(a, c, "LOGIN " + u + "\n", [Ok], a1) && Says(a1, c, "CREATE " + n + "\n", [Ok], a2)
    requires Says(a2, c, StoreText(n, k, v), [Ok, Ok, Ok, Data(v)], b)
    ensures Says(a, c, FirstText(u, n, k, v), [Ok, Ok, Ok, Ok, Ok, Data(v)], b)
  {
    hide Says;
    Then(a1, c, "CREATE " + n + "\n", [Ok], a2, StoreText(n, k, v), [Ok, Ok, Ok, Data(v)], b);
    Then(a, c, "LOGIN " + u + "\n", [Ok], a1, "CREATE " + n + "\n" + StoreText(n, k, v), [Ok] + [Ok, Ok, Ok, Data(v)], b);
    assert [Ok] + ([Ok] + [Ok, Ok, Ok, Data(v)]) == [Ok, Ok, Ok, Ok, Ok, Data(v)];
  }
}
