/**
 Every value on a stack or in a table can be sent back: requests arrive as lines, so what a
 client can push is bounded, and nothing the server computes is longer.
 */
module Values {
  import opened Basics
  import opened Numerals
  import opened Calculator
  import opened Tables
  import Messages
  import Codec
  import RoundTrip
  import Framing
  import opened Protocol

  // ---------------------------------------------------------------- requests from lines

  /** The switch of the chat loop. A valid message that is no request is refused like an invalid one. */
  function Asked(m: Messages.Message): Request
    requires Messages.Valid(m)
  {
    match m.kind
    case LOGIN => Login
    case CREATE => Create(m.args[0])
    case PUSH => Push(m.args[0])
    case POP => Pop
    case TOP => Top
    case SET => Set(m.args[0], m.args[1])
    case GET => Get(m.args[0], m.args[1])
    case ADD => Arithmetic(Add)
    case SUB => Arithmetic(Sub)
    case MUL => Arithmetic(Mul)
    case DIV => Arithmetic(Div)
    case BEGIN => Begin
    case COMMIT => Commit
    case BYE => Bye
    case _ => Bad
  }

  function RequestOf(incoming: Framing.Incoming): Request {
    match incoming
    case CommFailure => Bad
    case Request(Invalid) => Bad
    case Request(OutOfRange) => Garbled
    case Request(Ok(m)) => if Messages.Valid(m) then Asked(m) else Bad
  }

  /** What a client's thread makes of a line. */
  function FromLine(line: string): Request { RequestOf(Framing.Request(Codec.Decoding(line))) }

  /** Every request of the run came as some line, or the input ended. */
  ghost predicate FromLines(moves: seq<Move>) {
    forall i :: 0 <= i < |moves| && moves[i].l.Receive? ==> LineRequest(moves[i].l.r)
  }

  ghost predicate LineRequest(r: Request) {
    r == Bad || exists line :: r == FromLine(line)
  }

  // ---------------------------------------------------------------- storable values

  predicate Storable(v: Value) {
    1 <= |v| <= 1018 && forall i :: 0 <= i < |v| ==> !IsSpace(v[i]) && v[i] != QUOTE
  }

  /** The empty string appears only after a GET of a missing key. */
  predicate Held(v: Value, missing: bool) {
    Storable(v) || (missing && v == "")
  }

  predicate Ended(s: string) { s != [] && s[|s| - 1] == NEWLINE }

  lemma TailEnded(s: string, n: nat)
    requires Ended(s) && n < |s|
    ensures Ended(s[n..])
  {
  }

  lemma QuotedFirst(s: string) returns (n: nat)
    requires Ended(s) && s[0] == QUOTE && Codec.Tokens(s).tokens != []
    ensures n + 2 < |s| && Codec.Tokens(s).tokens == [s[1..n + 1]] + Codec.Tokens(s[n + 2..]).tokens
  {
    n := Codec.Span(s[1..], {QUOTE});
    Codec.SpanFacts(s[1..], {QUOTE});
    assert n < |s| - 1;
    assert s[1..][n] == s[n + 1];
  }

  lemma WordFirst(s: string) returns (n: nat)
    requires Ended(s) && s[0] !in Codec.DELIMITER
    ensures 0 < n < |s| && Codec.Tokens(s).tokens == [s[..n]] + Codec.Tokens(s[n..]).tokens
  {
    n := Codec.Span(s, Codec.DELIMITER);
    Codec.SpanFacts(s, Codec.DELIMITER);
  }

  predicate Shorter(tokens: seq<string>, n: nat) {
    forall i :: 0 <= i < |tokens| ==> |tokens[i]| < n
  }

  lemma ShorterCons(token: string, rest: seq<string>, m: nat, n: nat)
    requires |token| < n && m <= n && Shorter(rest, m)
    ensures Shorter([token] + rest, n)
  {
  }

  lemma SpaceSkipped(s: string)
    requires Ended(s)
    ensures s[0] == NEWLINE ==> Codec.Tokens(s).tokens == []
    ensures s[0] == SPACE ==> Codec.Tokens(s) == Codec.Tokens(s[1..]) && |s| > 1
  {
  }

  lemma {:induction false} TokensFit(s: string)
    requires Ended(s)
    ensures Shorter(Codec.Tokens(s).tokens, |s|)
    decreases |s|
  {
    hide Codec.Tokens;
    SpaceSkipped(s);
    if s[0] == SPACE {
      TailEnded(s, 1);
      TokensFit(s[1..]);
    } else if s[0] == QUOTE && Codec.Tokens(s).tokens != [] {
      var n := QuotedFirst(s);
      TailEnded(s, n + 2);
      TokensFit(s[n + 2..]);
      ShorterCons(s[1..n + 1], Codec.Tokens(s[n + 2..]).tokens, |s| - n - 2, |s|);
    } else if s[0] !in Codec.DELIMITER {
      var n := WordFirst(s);
      TailEnded(s, n);
      TokensFit(s[n..]);
      ShorterCons(s[..n], Codec.Tokens(s[n..]).tokens, |s| - n, |s|);
    }
  }

  lemma PushType(s: string)
    requires Codec.TypeOf(s) == Messages.PUSH
    ensures |s| == 4
  {
  }

  lemma PushMessage(line: string, v: Value)
    requires FromLine(line) == Push(v)
    ensures Codec.Decoding(line) == Codec.Ok(Messages.Message(Messages.PUSH, [v])) && Messages.IsValue(v)
  {
    hide Codec.Decoding;
  }

  /** The token of a line of a certain type. */
  lemma OnlyToken(line: string, kind: Messages.Kind, v: Value)
    requires Codec.Decoding(line) == Codec.Ok(Messages.Message(kind, [v]))
    ensures var body := Codec.SkipBlanks(line);
            var n := Codec.Span(body, Codec.BLANK);
            |line| <= 1024 && Codec.TypeOf(body[..n]) == kind && Codec.Tokens(body[n..]).tokens == [v]
    ensures Ended(line)
  {
    hide Messages.Valid, Codec.Tokens, Codec.TypeOf, Codec.Span, Codec.SkipBlanks;
  }

  /** What PUSH brings in is storable. */
  lemma PushedValuesAreStorable(line: string, v: Value)
    requires FromLine(line) == Push(v)
    ensures Storable(v)
  {
    PushMessage(line, v);
    OnlyToken(line, Messages.PUSH, v);
    var body := Codec.SkipBlanks(line);
    var k := RoundTrip.SkipBlanksSplits(line);
    var n := Codec.Span(body, Codec.BLANK);
    PushType(body[..n]);
    Codec.SpanFacts(body, Codec.BLANK);
    ArgumentsFit(body[n..], v);
    assert RoundTrip.QuoteFree(v) && |v| + 2 <= |body| - n;
    assert |body| <= |line|;
    hide Codec.Tokens, Codec.TypeOf, Codec.Span, Codec.SkipBlanks, FromLine;
  }

  lemma ArgumentsFit(s: string, v: Value)
    requires Codec.Tokens(s).tokens == [v]
    requires Ended(s) && s[0] in Codec.BLANK
    ensures RoundTrip.QuoteFree(v) && |v| + 2 <= |s|
  {
    hide Codec.Tokens, RoundTrip.QuoteFree;
    RoundTrip.TokensAreQuoteFree(s);
    assert RoundTrip.QuoteFree(Codec.Tokens(s).tokens[0]);
    SpaceSkipped(s);
    TailEnded(s, 1);
    TokensFit(s[1..]);
    assert |Codec.Tokens(s[1..]).tokens[0]| < |s[1..]|;
  }

  lemma NumeralsAreStorable(n: int)
    requires IsInt64(n)
    ensures Storable(ToString(n))
  {
    Pow2Of63();
    DigitsLength(Abs(n), 10, 64);
    DigitsShape(Abs(n), 10);
    NumeralCharacters(Digits(Abs(n), 10), 10);
  }

  // ---------------------------------------------------------------- replies

  /** A value can be sent in a DATA reply, and comes back as itself, unless a GET of a missing key
      brought it up. */
  lemma HeldValuesComeBack(v: Value, missing: bool)
    requires Held(v, missing)
    ensures var m := Messages.Message(Messages.DATA, [v]);
            && |Codec.Encoded(m)| <= Messages.MAX_ENCODED_LEN
            && (Codec.Decoding(Codec.Encoded(m)) == Codec.Ok(m) <==> v != "")
  {
    var m := Messages.Message(Messages.DATA, [v]);
    assert m.args[1..] == [];
    assert Codec.Joined(m.args) == " " + v + Codec.Joined([]);
    RoundTrip.DecodeInvertsEncode(m);
    assert v != "" ==> RoundTrip.Clean(v);
    assert v == "" ==> !Messages.Valid(m);
  }

  // ---------------------------------------------------------------- the invariant

  predicate StackHeld(stack: seq<Value>, missing: bool) {
    forall i :: 0 <= i < |stack| ==> Held(stack[i], missing)
  }

  predicate RowHeld(m: Row, missing: bool) {
    forall k :: k in m ==> Held(m[k], missing)
  }

  predicate ClientHeld(cl: Client, missing: bool) {
    StackHeld(cl.stack, missing) && (cl.reply.Data? ==> Held(cl.reply.v, missing))
  }

  predicate TableHeld(tb: TableState, missing: bool) {
    RowHeld(tb.committed, missing) && RowHeld(tb.pending, missing)
  }

  ghost predicate ValuesHeld(s: State) {
    && (forall c :: c in s.clients ==> ClientHeld(s.clients[c], s.missing))
    && (forall t: TableId :: t < |s.tables| ==> TableHeld(s.tables[t], s.missing))
  }

  lemma StackPush(stack: seq<Value>, v: Value, missing: bool)
    requires StackHeld(stack, missing) && Held(v, missing)
    ensures StackHeld(stack + [v], missing)
  {
  }

  lemma ArithHeld(stack: seq<Value>, op: Operator, missing: bool)
    requires StackHeld(stack, missing)
    ensures Arith(stack, op).Pushed? || Arith(stack, op).Rejected? ==> StackHeld(Arith(stack, op).stack, missing)
  {
    var n := |stack|;
    if Arith(stack, op).Pushed? {
      var top, below := Stoi(stack[n - 1]).value, Stoi(stack[n - 2]).value;
      ArithmeticFits(op, top, below);
      NumeralsAreStorable(Compute(op, top, below).value);
      StackPush(stack[..n - 2], ToString(Compute(op, top, below).value), missing);
    }
  }

  lemma ReceivesHeld(s: State, c: ClientId, r: Request)
    requires c in s.clients && ClientHeld(s.clients[c], s.missing) && (r.Push? ==> Storable(r.v))
    ensures Receives(s, c, r).tables == s.tables && Receives(s, c, r).missing == s.missing
    ensures OnlyMoves(s, c, Receives(s, c, r)) && ClientHeld(Receives(s, c, r).clients[c], s.missing)
  {
    ReceivesMovesOne(s, c, r);
    var cl := s.clients[c];
    if r.Arithmetic? { ArithHeld(cl.stack, r.op, s.missing); }
    hide Arith;
    hide Storable;
  }

  lemma VisibleHeld(tb: TableState, missing: bool)
    requires TableHeld(tb, missing)
    ensures RowHeld(tb.Visible(), missing)
  {
  }

  lemma GetHeld(tb: TableState, k: Key, missing: bool, now: bool)
    requires TableHeld(tb, missing) && now == (missing || !tb.HasKey(k))
    ensures TableHeld(tb.AfterGet(k), now) && Held(Lookup(tb.Visible(), k), now)
  {
    VisibleHeld(tb, missing);
    hide Storable;
  }

  lemma SetHeld(tb: TableState, k: Key, v: Value, missing: bool)
    requires TableHeld(tb, missing) && Held(v, missing)
    ensures TableHeld(tb.Set(k, v), missing)
  {
    hide Held;
  }

  lemma WiderStack(stack: seq<Value>, v: Value, missing: bool, now: bool)
    requires StackHeld(stack, missing) && Held(v, now) && (missing ==> now)
    ensures StackHeld(stack + [v], now)
  {
    hide Storable;
  }

  lemma AccessesHeld(s: State, c: ClientId, r: Request, t: TableId)
    requires c in s.clients && t < |s.tables|
    requires ClientHeld(s.clients[c], s.missing) && TableHeld(s.tables[t], s.missing)
    ensures var s' := Accesses(s, c, r, t);
            && OnlyMoves(s, c, s') && ClientHeld(s'.clients[c], s'.missing)
            && |s'.tables| == |s.tables| && s'.tables == s.tables[t := s'.tables[t]] && TableHeld(s'.tables[t], s'.missing)
            && (s.missing ==> s'.missing)
  {
    AccessesMovesOne(s, c, r, t);
    var tb, stack := s.tables[t], s.clients[c].stack;
    if r.Get? {
      GetHeld(tb, r.key, s.missing, Accesses(s, c, r, t).missing);
      WiderStack(stack, Lookup(tb.Visible(), r.key), s.missing, Accesses(s, c, r, t).missing);
      WiderReply(s.clients[c].reply, s.missing, Accesses(s, c, r, t).missing);
    } else if r.Set? && stack != [] {
      SetHeld(tb, r.key, stack[|stack| - 1], s.missing);
    }
    hide Held, TableHeld;
  }

  lemma WiderReply(reply: Reply, missing: bool, now: bool)
    requires (reply.Data? ==> Held(reply.v, missing)) && (missing ==> now)
    ensures reply.Data? ==> Held(reply.v, now)
  {
    hide Storable;
  }

  /** A table that a loop or an autocommit request commits, rolls back or unlocks. */
  ghost predicate Recycled(s: State, s': State) {
    && |s'.tables| >= |s.tables| && s'.missing == s.missing
    && (forall t: TableId :: t < |s.tables| ==>
          var tb, tb' := s.tables[t], s'.tables[t];
          (tb'.committed == tb.committed || tb'.committed == tb.committed + tb.pending) &&
          (tb'.pending == tb.pending || tb'.pending == map[]))
    && (forall t: TableId :: |s.tables| <= t < |s'.tables| ==> s'.tables[t].committed == map[] && s'.tables[t].pending == map[])
  }

  lemma DirectoryTables(s: State, c: ClientId)
    requires c in s.clients && OnDirectory(s.clients[c].task)
    ensures Consults(s, c).missing == s.missing
    ensures Consults(s, c).tables == s.tables || exists name :: Consults(s, c).tables == s.tables + [TableState(name, None, map[], map[])]
  {
  }

  lemma DirectoryRecycles(s: State, c: ClientId)
    requires c in s.clients && OnDirectory(s.clients[c].task)
    ensures Recycled(s, Consults(s, c)) && KeepsValues(s, c, Consults(s, c))
  {
    ConsultsClient(s, c);
    DirectoryMovesOne(s, c);
    DirectoryTables(s, c);
    hide Consults;
  }

  /** Step of a client that leaves its stack alone and sends no value. */
  ghost predicate KeepsValues(s: State, c: ClientId, s': State)
    requires c in s.clients
  {
    OnlyMoves(s, c, s') && s'.clients[c].stack == s.clients[c].stack
    && (s'.clients[c].reply.Data? ==> s'.clients[c].reply == s.clients[c].reply)
  }

  lemma LocksRecycle(s: State, c: ClientId, r: Request, t: TableId)
    requires c in s.clients && t < |s.tables|
    ensures Recycled(s, Locks(s, c, r, t)) && KeepsValues(s, c, Locks(s, c, r, t))
  {
    var s' := Locks(s, c, r, t);
    if s.clients[c].inTxn && (t in s.clients[c].locked || s.tables[t].owner.Some?) {
      assert s'.tables == s.tables[t := s.tables[t]];
    } else {
      assert s'.tables == s.tables[t := s.tables[t].(owner := Some(c))];
    }
    TableRecycled(s, t, s'.tables[t], s');
    hide Recycled;
  }

  lemma TableRecycled(s: State, t: TableId, tb: TableState, s': State)
    requires t < |s.tables| && s'.tables == s.tables[t := tb] && s'.missing == s.missing
    requires tb.committed == s.tables[t].committed || tb.committed == s.tables[t].committed + s.tables[t].pending
    requires tb.pending == s.tables[t].pending || tb.pending == map[]
    ensures Recycled(s, s')
  {
  }

  lemma RunsRecycle(s: State, c: ClientId)
    requires c in s.clients && !s.clients[c].task.Access?
    ensures Recycled(s, Runs(s, c)) && KeepsValues(s, c, Runs(s, c))
  {
    var cl := s.clients[c];
    if OnDirectory(cl.task) {
      DirectoryRecycles(s, c);
    } else {
      match cl.task
      case Locking(r, t) => if t < |s.tables| { LocksRecycle(s, c, r, t); }
      case Publish(t) => if t < |s.tables| { TableRecycled(s, t, s.tables[t].Commit(), Runs(s, c)); }
      case Release(t) => if t < |s.tables| { TableRecycled(s, t, s.tables[t].(owner := None), Runs(s, c)); }
      case Committing(todo, cur) => LoopRecycles(s, c, cl.(task := Committing(todo, None)), cur, Ok);
      case Rolling(todo, cur) => LoopRecycles(s, c, cl.(task := Rolling(todo, None)), cur, Failed);
      case Idle =>
      case Gone =>
    }
  }

  lemma LoopRecycles(s: State, c: ClientId, on: Client, cur: Option<TableId>, r: Reply)
    requires c in s.clients && !r.Data? && on.stack == s.clients[c].stack && on.reply == s.clients[c].reply
    ensures Recycled(s, EndLoop(s, c, on, cur, r)) && KeepsValues(s, c, EndLoop(s, c, on, cur, r))
  {
    if cur.Some? && cur.value < |s.tables| {
      TableRecycled(s, cur.value, s.tables[cur.value].(owner := None), EndLoop(s, c, on, cur, r));
    }
  }

  lemma PicksRecycle(s: State, c: ClientId, t: TableId)
    requires c in s.clients
    ensures Recycled(s, Picks(s, c, t)) && KeepsValues(s, c, Picks(s, c, t))
  {
    if t < |s.tables| && (s.clients[c].task.Committing? || s.clients[c].task.Rolling?) {
      TableRecycled(s, t, Picks(s, c, t).tables[t], Picks(s, c, t));
    }
  }

  lemma RecycledHeld(s: State, c: ClientId, s': State)
    requires ValuesHeld(s) && Recycled(s, s') && c in s.clients && KeepsValues(s, c, s')
    ensures ValuesHeld(s')
  {
    hide Held;
    assert ClientHeld(s.clients[c], s.missing);
    forall t: TableId | t < |s'.tables| ensures TableHeld(s'.tables[t], s'.missing) {
      if t < |s.tables| { assert TableHeld(s.tables[t], s.missing); }
    }
  }

  lemma RunsHeld(s: State, c: ClientId)
    requires ValuesHeld(s) && Enabled(s, c, Run)
    ensures ValuesHeld(Runs(s, c))
  {
    var task := s.clients[c].task;
    if task.Access? {
      if task.t < |s.tables| {
        AccessesHeld(s, c, task.r, task.t);
        WiderHeld(s, c, task.t, Runs(s, c));
      }
    } else {
      RunsRecycle(s, c);
      RecycledHeld(s, c, Runs(s, c));
    }
  }

  lemma WiderHeld(s: State, c: ClientId, t: TableId, s': State)
    requires ValuesHeld(s) && OnlyMoves(s, c, s') && ClientHeld(s'.clients[c], s'.missing)
    requires t < |s.tables| == |s'.tables| && s'.tables == s.tables[t := s'.tables[t]] && TableHeld(s'.tables[t], s'.missing)
    requires s.missing ==> s'.missing
    ensures ValuesHeld(s')
  {
    forall d | d in s'.clients && d != c ensures ClientHeld(s'.clients[d], s'.missing) {
      assert ClientHeld(s.clients[d], s.missing);
    }
    forall u: TableId | u < |s'.tables| && u != t ensures TableHeld(s'.tables[u], s'.missing) {
      assert TableHeld(s.tables[u], s.missing);
    }
  }

  lemma StepHeld(s: State, c: ClientId, l: Label)
    requires ValuesHeld(s) && Enabled(s, c, l) && (l.Receive? ==> LineRequest(l.r))
    ensures ValuesHeld(Next(s, c, l))
  {
    match l
    case Connect(_) =>
    case Receive(r) =>
      if r.Push? {
        var line :| r == FromLine(line);
        PushedValuesAreStorable(line, r.v);
      }
      ReceivesHeld(s, c, r);
    case Run => RunsHeld(s, c);
    case Pick(t) =>
      PicksRecycle(s, c, t);
      RecycledHeld(s, c, Picks(s, c, t));
    case Throw =>
      assert ValuesHeld(s.(missing := true)) by {
        assert forall v :: Held(v, s.missing) ==> Held(v, true);
      }
  }

  /** In every run whose requests came as lines, every value on a stack or in a table, and every
      value in a DATA reply, is non-empty, free of blanks and quotes and at most 1018 bytes long,
      except empty strings once some GET has named a missing key. */
  lemma {:induction false} ValuesStayStorable(states: seq<State>, moves: seq<Move>)
    requires IsRun(states, moves) && states[0] == INITIAL && FromLines(moves)
    ensures ValuesHeld(states[|moves|])
    decreases |moves|
  {
    if moves != [] {
      var n := |moves| - 1;
      hide Next;
      hide Enabled;
      ValuesStayStorable(states[..n + 1], moves[..n]);
      StepHeld(states[n], moves[n].c, moves[n].l);
    }
  }

  /** So the reply to TOP always encodes, and decodes at the client to the value on the stack,
      unless that is the empty string. */
  lemma TopRepliesArrive(states: seq<State>, moves: seq<Move>, c: ClientId)
    requires IsRun(states, moves) && states[0] == INITIAL && FromLines(moves)
    requires var s := states[|moves|]; c in s.clients && s.clients[c].reply.Data?
    ensures var s := states[|moves|];
            var m := Messages.Message(Messages.DATA, [s.clients[c].reply.v]);
            && |Codec.Encoded(m)| <= Messages.MAX_ENCODED_LEN
            && (Codec.Decoding(Codec.Encoded(m)) == Codec.Ok(m) <==> s.clients[c].reply.v != "")
            && (s.clients[c].reply.v == "" ==> s.missing)
  {
    ValuesStayStorable(states, moves);
    var s := states[|moves|];
    assert ClientHeld(s.clients[c], s.missing);
    HeldValuesComeBack(s.clients[c].reply.v, s.missing);
  }
}
