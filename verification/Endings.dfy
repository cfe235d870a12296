/**
 When the process ends. No exception but four is caught in the chat loop, so a request can take the
 server down; this says exactly which steps do, and which lines a client can send bring them about.
 */
module Endings {
  import opened Basics
  import opened Numerals
  import opened Calculator
  import opened Tables
  import Messages
  import Codec
  import RoundTrip
  import Rio
  import Framing
  import opened Protocol
  import opened Invariant
  import opened LoopSteps
  import opened Values
  import opened Witnesses

  // ---------------------------------------------------------------- one step

  /** A request on the client's own stack that ends the process: inside a transaction one that fails,
      and anywhere a division by zero. */
  predicate Fatal(cl: Client, r: Request) {
    var n := |cl.stack|;
    match r
    case Pop => cl.inTxn && n == 0
    case Top => cl.inTxn && n == 0
    case Arithmetic(op) =>
      if n < 2 || Stoi(cl.stack[n - 1]).None? || Stoi(cl.stack[n - 2]).None? then cl.inTxn
      else op.Div? && Stoi(cl.stack[n - 1]) == Some(0)
    case _ => false
  }

  /** A SET with nothing to set, inside a transaction and with its table locked. */
  predicate FatalSet(cl: Client) {
    cl.task.Access? && cl.task.r.Set? && cl.inTxn && cl.stack == []
  }

  predicate Ends(s: State, c: ClientId, l: Label)
    requires Enabled(s, c, l)
  {
    match l
    case Throw => true
    case Receive(r) => r.Garbled? || (s.clients[c].loggedIn && Fatal(s.clients[c], r))
    case Run => FatalSet(s.clients[c])
    case _ => false
  }

  lemma ReceiveEnds(s: State, c: ClientId, r: Request)
    requires Enabled(s, c, Receive(r))
    ensures Receives(s, c, r).down <==> Ends(s, c, Receive(r))
  {
    hide Stoi;
  }

  lemma RunEnds(s: State, c: ClientId)
    requires Enabled(s, c, Run) && (s.clients[c].task.Access? ==> Accessing(s.clients[c].task.r) && s.clients[c].task.t < |s.tables|)
    ensures Runs(s, c).down <==> Ends(s, c, Run)
  {
  }

  /** A step of any thread ends the process exactly when its guard says so. */
  lemma StepEnds(s: State, c: ClientId, l: Label)
    requires Reachable(s) && Enabled(s, c, l)
    ensures Next(s, c, l).down <==> Ends(s, c, l)
  {
    ReachableInvariant(s);
    match l
    case Receive(r) => ReceiveEnds(s, c, r);
    case Run =>
      assert TaskOk(s.clients[c], |s.tables|) by { assert LocalOk(s, c); }
      RunEnds(s, c);
    case _ =>
  }

  // ---------------------------------------------------------------- lines

  /** What a line reader hands over: no newline before the last character. */
  predicate OneLine(line: string) {
    forall i :: 0 <= i < |line| - 1 ==> line[i] != NEWLINE
  }

  /** The decoder indexes past the end of the line. */
  predicate RunsOff(line: string) {
    line == "" || (|line| < Messages.MAX_ENCODED_LEN && line[|line| - 1] == NEWLINE &&
                   RoundTrip.Quotes(RoundTrip.ArgumentPart(line)) % 2 == 1)
  }

  lemma GarbledIsOutOfRange(line: string)
    ensures FromLine(line) == Garbled <==> Codec.Decoding(line) == Codec.OutOfRange
  {
    hide Codec.Decoding;
  }

  /** A line ends the process by itself exactly when it is empty, or below the limit with an odd number
      of quotes after its type. */
  lemma GarbledLines(line: string)
    requires OneLine(line)
    ensures FromLine(line) == Garbled <==> RunsOff(line)
  {
    GarbledIsOutOfRange(line);
    hide FromLine;
    if RoundTrip.IsLine(line) && |line| <= Messages.MAX_ENCODED_LEN { RoundTrip.RunsOffOddLines(line); }
  }

  lemma {:induction false} LinesEndAtNewlines(s: seq<Rio.Item>, room: nat)
    ensures OneLine(Rio.Line(s, room).bytes)
    decreases room
  {
    if room > 0 && s != [] && s[0].Byte? && s[0].c != NEWLINE {
      LinesEndAtNewlines(s[1..], room - 1);
    }
  }

  /** Whatever arrives, the chat loop decodes such a line. */
  lemma ReceivedLines(s: seq<Rio.Item>)
    ensures OneLine(Framing.CString(Rio.Line(s, Messages.MAX_ENCODED_LEN).bytes))
  {
    var bytes := Rio.Line(s, Messages.MAX_ENCODED_LEN).bytes;
    LinesEndAtNewlines(s, Messages.MAX_ENCODED_LEN);
    Framing.CStringOf(bytes);
    hide Rio.Line, Framing.CString;
    assert Framing.CString(bytes) <= bytes;
  }

  // ---------------------------------------------------------------- runs

  /** Every request of the run came as the line given, or as the end of input. */
  ghost predicate CameAs(moves: seq<Move>, lines: seq<Option<string>>) {
    && |lines| == |moves|
    && forall i :: 0 <= i < |moves| && moves[i].l.Receive? ==> Carries(lines[i], moves[i].l.r)
  }

  predicate Carries(line: Option<string>, r: Request) {
    match line
    case None => r == Bad
    case Some(text) => OneLine(text) && r == FromLine(text)
  }

  /** The line or the step that ends the process. */
  predicate EndsOn(s: State, mv: Move, line: Option<string>)
    requires Enabled(s, mv.c, mv.l)
  {
    match mv.l
    case Throw => true
    case Receive(_) =>
      line.Some? && (RunsOff(line.value) || (s.clients[mv.c].loggedIn && Fatal(s.clients[mv.c], FromLine(line.value))))
    case Run => FatalSet(s.clients[mv.c])
    case _ => false
  }

  lemma PrefixIsReachable(states: seq<State>, moves: seq<Move>, i: nat)
    requires IsRun(states, moves) && states[0] == INITIAL && i < |states|
    ensures Reachable(states[i])
  {
    hide Next, Enabled;
    assert RunTo(states[..i + 1], moves[..i], states[i]);
  }

  /** A run whose requests came as lines goes down exactly at the first line that runs off its end, the
      first GET of a missing key that throws, or the first failing request the guards name; and there
      it is over. */
  lemma RunsEnd(states: seq<State>, moves: seq<Move>, lines: seq<Option<string>>, i: nat)
    requires IsRun(states, moves) && states[0] == INITIAL && CameAs(moves, lines) && i < |moves|
    ensures states[i + 1].down <==> EndsOn(states[i], moves[i], lines[i])
    ensures states[i + 1].down ==> i + 1 == |moves|
  {
    var s, mv := states[i], moves[i];
    PrefixIsReachable(states, moves, i);
    StepEnds(s, mv.c, mv.l);
    if mv.l.Receive? {
      assert Carries(lines[i], mv.l.r);
      if lines[i].Some? { GarbledLines(lines[i].value); }
    }
    if i + 1 < |moves| { assert Enabled(states[i + 1], moves[i + 1].c, moves[i + 1].l); }
    hide Next, FromLine, RunsOff, Fatal;
  }

  // ---------------------------------------------------------------- it happens

  /** A client that connects and logs in may send requests. */
  lemma ClientsConnect(c: ClientId, flag: bool) returns (s: State)
    ensures Reachable(s) && MaySend(s, c) && !s.clients[c].inTxn && s.clients[c].stack == []
  {
    assert RunTo([INITIAL], [], INITIAL);
    ReachableStep(INITIAL, c, Connect(flag));
    var s1 := Next(INITIAL, c, Connect(flag));
    ReachableStep(s1, c, Receive(Login));
    s := Next(s1, c, Receive(Login));
  }

  /** BEGIN and then POP, by a client with nothing on its stack. */
  lemma FailedPopEndsTheProcess(s: State, c: ClientId) returns (s': State)
    requires Reachable(s) && MaySend(s, c) && s.clients[c].stack == []
    ensures Reachable(s') && s'.down
  {
    ReachableStep(s, c, Receive(Begin));
    var s1 := Next(s, c, Receive(Begin));
    ReachableStep(s1, c, Receive(Pop));
    s' := Next(s1, c, Receive(Pop));
  }

  /** The line of a TOP followed by a lone quote, from any client that has no request in progress. */
  lemma LoneQuoteEndsTheProcess(s: State, c: ClientId) returns (s': State)
    requires Reachable(s) && MaySend(s, c)
    ensures Reachable(s') && s'.down && s' == Next(s, c, Receive(FromLine("TOP \"\n")))
  {
    var line := "TOP \"\n";
    assert RoundTrip.ArgumentPart(line) == " \"\n" by {
      assert Codec.SkipBlanks(line) == line;
      Codec.SpanIs(line, Codec.BLANK, 3);
    }
    QuotesOfLoneQuote();
    GarbledLines(line);
    ReachableStep(s, c, Receive(Garbled));
    s' := Next(s, c, Receive(Garbled));
  }

  /** Dividing anything by a zero just pushed. */
  lemma DivisionByZeroEndsTheProcess(s: State, c: ClientId) returns (s': State)
    requires Reachable(s) && MaySend(s, c)
    ensures Reachable(s') && s'.down
  {
    StoiOfToString(0);
    var zero := ToString(0);
    ReachableStep(s, c, Receive(Push(zero)));
    var s1 := Next(s, c, Receive(Push(zero)));
    ReachableStep(s1, c, Receive(Push(zero)));
    var s2 := Next(s1, c, Receive(Push(zero)));
    assert s2.clients[c].stack == s.clients[c].stack + [zero] + [zero];
    ReachableStep(s2, c, Receive(Arithmetic(Div)));
    s' := Next(s2, c, Receive(Arithmetic(Div)));
    ReceiveEnds(s2, c, Arithmetic(Div));
    hide Receives, ToString, Stoi;
  }

  lemma QuotesOfLoneQuote()
    ensures RoundTrip.Quotes(" \"\n") == 1
  {
    assert " \"\n"[1..] == "\"\n" && "\"\n"[1..] == "\n" && "\n"[1..] == "";
  }
}
