/**
 One client's connection: the request handlers of client_connection.cpp as methods of an object
 that shares table objects with other connections.
 */
module Connections {
  import opened Basics
  import opened Numerals
  import opened Calculator
  import opened Tables
  import opened SharedTable
  import opened ValueStacks
  import opened Directories
  import opened Protocol
  import opened BigStep
  import Messages
  import Rio
  import Codec
  import RoundTrip
  import Framing
  import Values
  import RequestLines

  /** How a handler ends. Trap is the hardware exception of a division by zero. */
  datatype Thrown = Nothing | OperationException | FailedTransaction | InvalidMessage | Trap

  /** The catch clauses of the chat loop. */
  function Caught(core: Core, x: Thrown): Ended {
    match x
    case Nothing => Continues(core)
    case OperationException => Operation(core)
    case FailedTransaction => Continues(Closed(core, RolledBackAll(core.tables, core.session.locked), Failed))
    case InvalidMessage => Leaves(core.Replied(Error))
    case Trap => Dies
  }

  /** What handle_table_locking does to a table whose mutex need not be waited for. */
  function Taken(tb: TableState, c: ClientId, inTxn: bool, held: bool): TableState {
    if !inTxn || (!held && tb.owner.None?) then tb.(owner := Some(c)) else tb
  }

  predicate Usable(tb: TableState, inTxn: bool, held: bool) {
    !inTxn || held || tb.owner.None?
  }

  /** The end of a handler that used a table. */
  function Closing(tb: TableState, inTxn: bool): TableState {
    if inTxn then tb else tb.Commit().(owner := None)
  }

  function LockedAfter(session: Session, t: TableId): set<TableId> {
    if session.inTxn then session.locked + {t} else session.locked
  }

  /** What get_request_handler does to the table it found and to the session. */
  predicate Gets(was: TableState, now: TableState, session: Session, session': Session, c: ClientId, t: TableId, key: Key, x: Thrown) {
    var tb := Taken(was, c, session.inTxn, t in session.locked);
    if !Usable(was, session.inTxn, t in session.locked) then x.FailedTransaction? && now == was && session' == session
    else
      && x.Nothing?
      && now == Closing(tb.AfterGet(key), session.inTxn)
      && session' == session.(locked := LockedAfter(session, t), stack := session.stack + [Lookup(tb.Visible(), key)], reply := Ok)
  }

  /** What set_request_handler does to the table it found and to the session. */
  predicate Sets(was: TableState, now: TableState, session: Session, session': Session, c: ClientId, t: TableId, key: Key, x: Thrown) {
    var tb := Taken(was, c, session.inTxn, t in session.locked);
    var locked := session.(locked := LockedAfter(session, t));
    var n := |session.stack|;
    if !Usable(was, session.inTxn, t in session.locked) then x.FailedTransaction? && now == was && session' == session
    else if n == 0 then x.OperationException? && now == tb && session' == locked
    else
      && x.Nothing?
      && now == Closing(tb.Set(key, session.stack[n - 1]), session.inTxn)
      && session' == locked.(stack := session.stack[..n - 1], reply := Ok)
  }

  /** Both mean what their requests mean. */
  lemma GetsMeaning(core: Core, c: ClientId, r: Request, t: TableId, now: TableState, session: Session, x: Thrown)
    requires t < |core.tables| && !Reach(core, c, r, t).Waits?
    requires r.Get? && Gets(core.tables[t], now, core.session, session, c, t, r.key, x)
    ensures Caught(core.With(t, now).(session := session), x) == Reach(core, c, r, t)
  {
    if x.FailedTransaction? { assert core.With(t, core.tables[t]) == core; }
  }

  lemma SetsMeaning(core: Core, c: ClientId, r: Request, t: TableId, now: TableState, session: Session, x: Thrown)
    requires t < |core.tables| && !Reach(core, c, r, t).Waits?
    requires r.Set? && Sets(core.tables[t], now, core.session, session, c, t, r.key, x)
    ensures Caught(core.With(t, now).(session := session), x) == Reach(core, c, r, t)
  {
    if x.FailedTransaction? { assert core.With(t, core.tables[t]) == core; }
  }

  lemma NamedMeaning(core: Core, c: ClientId, r: Request)
    requires WellFormed(core) && core.session.loggedIn && (r.Get? || r.Set?)
    ensures Find(core, r) == if r.name in core.directory then Some(core.directory[r.name]) else None
    ensures Meaning(core, c, r) ==
            if r.name !in core.directory then Caught(core, InvalidMessage) else Reach(core, c, r, core.directory[r.name])
    ensures !Meaning(core, c, r).Waits? && r.name in core.directory ==>
              core.session.inTxn || core.tables[core.directory[r.name]].owner.None?
  {
  }

  lemma CreateMeaning(core: Core, c: ClientId, r: Request)
    requires WellFormed(core) && core.session.loggedIn && r.Create?
    ensures Meaning(core, c, r) ==
            if r.name in core.directory then Caught(core, InvalidMessage) else Caught(Created(core, r.name), Nothing)
  {
  }

  lemma PopMeaning(core: Core, c: ClientId, r: Request)
    requires WellFormed(core) && core.session.loggedIn && r.Pop?
    ensures var stack, n := core.session.stack, |core.session.stack|;
            Meaning(core, c, r) ==
            if n == 0 then Caught(core, OperationException)
            else Caught(core.(session := core.session.(stack := stack[..n - 1], reply := Ok)), Nothing)
  {
  }

  lemma TopMeaning(core: Core, c: ClientId, r: Request)
    requires WellFormed(core) && core.session.loggedIn && r.Top?
    ensures var stack, n := core.session.stack, |core.session.stack|;
            Meaning(core, c, r) ==
            if n == 0 then Caught(core, OperationException)
            else Caught(core.(session := core.session.(reply := Data(stack[n - 1]))), Nothing)
  {
  }

  /** The stack after pop_two_values, and the operands it found. */
  function WithoutTwo(stack: seq<Value>): seq<Value> {
    if |stack| < 2 then [] else stack[..|stack| - 2]
  }

  function Operands(stack: seq<Value>): Option<(int, int)> {
    var n := |stack|;
    if n >= 2 && Stoi(stack[n - 1]).Some? && Stoi(stack[n - 2]).Some?
    then Some((Stoi(stack[n - 1]).value, Stoi(stack[n - 2]).value)) else None
  }

  lemma ArithmeticMeaning(core: Core, c: ClientId, r: Request)
    requires WellFormed(core) && core.session.loggedIn && r.Arithmetic?
    ensures var rest, operands := WithoutTwo(core.session.stack), Operands(core.session.stack);
            Meaning(core, c, r) ==
            if operands.None? then Caught(core.(session := core.session.(stack := rest)), OperationException)
            else
              match Compute(r.op, operands.value.0, operands.value.1)
              case None => Dies
              case Some(v) => Caught(core.(session := core.session.(stack := rest + [ToString(v)], reply := Ok)), Nothing)
  {
    assert Meaning(core, c, r) == Computed(core, Arith(core.session.stack, r.op));
    hide Meaning, Stoi, WellFormed, ToString, Compute;
  }

  lemma CommittedStates(ts: seq<Table>, was: seq<TableState>, locked: set<TableId>)
    requires |ts| == |was|
    requires forall i :: 0 <= i < |ts| ==> ts[i].State() == if i in locked then was[i].Commit().(owner := None) else was[i]
    ensures StatesOf(ts) == CommittedAll(was, locked)
  {
    hide StatesOf;
  }

  lemma RolledBackStates(ts: seq<Table>, was: seq<TableState>, locked: set<TableId>)
    requires |ts| == |was|
    requires forall i :: 0 <= i < |ts| ==> ts[i].State() == if i in locked then was[i].Rollback().(owner := None) else was[i]
    ensures StatesOf(ts) == RolledBackAll(was, locked)
  {
    hide StatesOf;
  }

  /** BEGIN, COMMIT and BYE need no handler of their own. */
  lemma ModeMeaning(core: Core, c: ClientId, r: Request)
    requires WellFormed(core) && core.session.loggedIn
    ensures r.Begin? ==> Meaning(core, c, r) == Continues(core.(session := core.session.(inTxn := true, reply := Ok)))
    ensures r.Commit? ==> Meaning(core, c, r) == Continues(Closed(core, CommittedAll(core.tables, core.session.locked), Ok))
    ensures r.Bye? ==> Meaning(core, c, r) == Leaves(core.(session := core.session.(reply := Ok)))
  {
  }

  lemma RefusedMeaning(core: Core, c: ClientId, r: Request)
    requires WellFormed(core)
    ensures r.Garbled? ==> Meaning(core, c, r) == Dies
    ensures r.Login? ==> Meaning(core, c, r) == Continues(core.(session := core.session.(loggedIn := true, reply := Ok)))
    ensures r.Bad? || (!r.Garbled? && !r.Login? && !core.session.loggedIn) ==> Meaning(core, c, r) == Caught(core, InvalidMessage)
  {
  }

  /** One table object changed. */
  lemma StatesChanged(ts: seq<Table>, was: seq<TableState>, t: Table)
    requires |was| == |ts| && t.id < |ts| && ts[t.id] == t
    requires forall i :: 0 <= i < |ts| && i != t.id ==> ts[i].State() == was[i]
    ensures StatesOf(ts) == was[t.id := t.State()]
  {
  }

  // ---------------------------------------------------------------- a conversation

  /** The next request of a stream, and what is left of it. */
  function NextRequest(s: seq<Rio.Item>): Request { Values.RequestOf(Framing.Receiving(s).0) }

  function Unread(s: seq<Rio.Item>): seq<Rio.Item> { Framing.Receiving(s).1 }

  lemma RequestsUseInput(s: seq<Rio.Item>)
    ensures NextRequest(s) != Bad ==> |Unread(s)| < |s|
  {
    Rio.LineConserves(s, Messages.MAX_ENCODED_LEN);
    hide Rio.Line;
  }

  lemma MeaningKeepsFormed(core: Core, c: ClientId, r: Request)
    requires WellFormed(core) && Meaning(core, c, r).Continues?
    ensures WellFormed(Meaning(core, c, r).core) && r != Bad
  {
  }

  /** The reply fits a line. Only a value can be too long. */
  predicate FitsLine(r: Reply) { r.Data? ==> |r.v| <= 1018 }

  /** A request and its answer: encoding a reply that does not fit throws where nothing catches it. */
  function Answered(end: Ended): Ended {
    match end
    case Continues(core) => if FitsLine(core.session.reply) then end else Dies
    case Leaves(core) => if FitsLine(core.session.reply) then end else Dies
    case _ => end
  }

  /** The message that tells a client of a reply. What exactly a failure is called is left open. */
  predicate Tells(m: Messages.Message, r: Reply) {
    match r
    case Silent => m == Messages.Message(Messages.NONE, [])
    case Ok => m == Messages.Message(Messages.OK, [])
    case Data(v) => m == Messages.Message(Messages.DATA, [v])
    case Failed => m.kind == Messages.FAILED && |m.args| == 1 && |m.args[0]| <= 100
    case Error => m.kind == Messages.ERROR && |m.args| == 1 && |m.args[0]| <= 100
  }

  lemma ToldLength(m: Messages.Message, r: Reply)
    requires Tells(m, r)
    ensures |Codec.Encoded(m)| <= Messages.MAX_ENCODED_LEN <==> FitsLine(r)
  {
    if m.args != [] {
      assert m.args[1..] == [];
      assert Codec.Joined(m.args) == " " + m.args[0] + Codec.Joined([]);
    }
  }

  /** The line a client gets for a reply, in plain text. */
  predicate ReadsAs(line: string, r: Reply) {
    match r
    case Silent => line == "\n"
    case Ok => line == "OK\n"
    case Data(v) => line == "DATA " + v + "\n"
    case Failed => 8 <= |line| <= 108 && line[..7] == "FAILED " && line[|line| - 1] == '\n'
    case Error => 7 <= |line| <= 107 && line[..6] == "ERROR " && line[|line| - 1] == '\n'
  }

  /** What tells of a reply is that line. */
  lemma ToldText(m: Messages.Message, r: Reply)
    requires Tells(m, r)
    ensures ReadsAs(Codec.Encoded(m), r)
  {
    if m.args == [] {
      assert Codec.Joined(m.args) == "";
      assert Codec.Encoded(m) == Codec.TypeName(m.kind) + "\n";
    } else {
      assert m.args == [m.args[0]];
      RequestLines.EncodedOne(m.kind, m.args[0]);
      var line := Codec.TypeName(m.kind) + " " + m.args[0] + "\n";
      assert r.Data? ==> Codec.TypeName(m.kind) + " " == "DATA ";
      assert r.Failed? ==> Codec.TypeName(m.kind) + " " == "FAILED " && line[..7] == "FAILED ";
      assert r.Error? ==> Codec.TypeName(m.kind) + " " == "ERROR " && line[..6] == "ERROR ";
    }
    hide Codec.Encoded;
  }

  /** What a client decodes a reply's line to: the answer and its value, unless the value is empty. */
  lemma RepliesDecode(v: Value, missing: bool)
    requires Values.Held(v, missing)
    ensures Codec.Decoding("OK\n") == Codec.Ok(Messages.Message(Messages.OK, []))
    ensures Codec.Decoding("DATA " + v + "\n") == Codec.Ok(Messages.Message(Messages.DATA, [v])) <==> v != ""
  {
    Values.HeldValuesComeBack(v, missing);
    ToldText(Messages.Message(Messages.DATA, [v]), Data(v));
    ToldText(Messages.Message(Messages.OK, []), Ok);
    RoundTrip.DecodeInvertsEncode(Messages.Message(Messages.OK, []));
    hide Codec.Decoding, Codec.Encoded, Values.Held;
  }

  /** A descriptor that refuses nothing has taken the messages sent and still refuses nothing. */
  predicate Carried(ok: bool, was: string, still: bool, now: string, sent: seq<Messages.Message>) {
    ok ==> still && now == was + Framing.EncodedAll(sent)
  }

  lemma {:induction false} EncodedConcat(ms: seq<Messages.Message>, more: seq<Messages.Message>)
    ensures Framing.EncodedAll(ms + more) == Framing.EncodedAll(ms) + Framing.EncodedAll(more)
  {
    if ms == [] {
      assert [] + more == more && "" + Framing.EncodedAll(more) == Framing.EncodedAll(more);
    } else {
      assert (ms + more)[1..] == ms[1..] + more;
      EncodedConcat(ms[1..], more);
    }
  }

  lemma CarriedOn(ok: bool, a: string, ok1: bool, b: string, ok2: bool, c: string,
                  ms: seq<Messages.Message>, more: seq<Messages.Message>)
    requires Carried(ok, a, ok1, b, ms) && Carried(ok1, b, ok2, c, more)
    ensures Carried(ok, a, ok2, c, ms + more)
  {
    EncodedConcat(ms, more);
    Framing.Associate(a, Framing.EncodedAll(ms), Framing.EncodedAll(more));
    hide Framing.EncodedAll;
  }

  lemma TellMore(ms: seq<Messages.Message>, more: seq<Messages.Message>, rs: seq<Reply>, r: Reply)
    requires TellAll(ms, rs) && TellAll(more, [r])
    ensures TellAll(ms + more, rs + [r])
  {
    hide Tells;
    forall i | 0 <= i < |ms + more| ensures Tells((ms + more)[i], (rs + [r])[i]) {
      if i < |ms| { assert Tells(ms[i], rs[i]); } else { assert Tells(more[0], [r][0]); }
    }
  }

  predicate TellAll(ms: seq<Messages.Message>, rs: seq<Reply>) {
    |ms| == |rs| && forall i :: 0 <= i < |ms| ==> Tells(ms[i], rs[i])
  }

  lemma ToldTexts(ms: seq<Messages.Message>, rs: seq<Reply>)
    requires TellAll(ms, rs)
    ensures forall i :: 0 <= i < |ms| ==> ReadsAs(Codec.Encoded(ms[i]), rs[i])
  {
    hide ReadsAs;
    forall i | 0 <= i < |ms| ensures ReadsAs(Codec.Encoded(ms[i]), rs[i]) {
      ToldText(ms[i], rs[i]);
    }
  }

  /** The replies sent up to the end of a conversation, and how it ends. */
  datatype Conversation = Conversation(replies: seq<Reply>, end: Ended) {
    function After(reply: Reply): Conversation { this.(replies := [reply] + replies) }
  }

  /** All that a client gets out of a stream of input: its requests are read, decoded and served
      one after the other. */
  function Conversing(core: Core, c: ClientId, s: seq<Rio.Item>): Conversation
    requires WellFormed(core)
    decreases |s|
  {
    var end := Answered(Meaning(core, c, NextRequest(s)));
    match end
    case Continues(next) =>
      MeaningKeepsFormed(core, c, NextRequest(s));
      RequestsUseInput(s);
      Conversing(next, c, Unread(s)).After(next.session.reply)
    case Leaves(last) => Conversation([last.session.reply], end)
    case _ => Conversation([], end)
  }

  /** A message sent whole is the next request, whatever follows it. */
  lemma SentMessagesAreRequests(m: Messages.Message, rest: seq<Rio.Item>)
    requires Framing.Sendable(m)
    ensures var s := Rio.Bytes(Codec.Encoded(m)) + rest; NextRequest(s) == Values.Asked(m) && Unread(s) == rest
  {
    Framing.OneMessageArrives(m, rest);
    hide Framing.Receiving, Codec.Encoded;
  }

  function Resumed(replies: seq<Reply>, rest: Conversation): Conversation { rest.(replies := replies + rest.replies) }

  lemma ResumedOne(replies: seq<Reply>, reply: Reply, rest: Conversation)
    ensures Resumed(replies, rest.After(reply)) == Resumed(replies + [reply], rest)
  {
    assert replies + ([reply] + rest.replies) == (replies + [reply]) + rest.replies;
  }

  lemma ResumedEnd(replies: seq<Reply>, rest: Conversation)
    ensures Resumed(replies, rest) == Conversation(replies + rest.replies, rest.end)
  {
  }

  class ClientConnection {
    const id: ClientId
    const server: Server
    const clientStack: ValueStack
    var loggedIn: bool
    var response: Reply
    var transactionMode: bool
    var lockedTables: set<Table>

    /** The constructor does not initialise loggedIn: flag is whatever it held. */
    constructor (id: ClientId, server: Server, flag: bool)
      requires server.Valid()
      ensures Valid() && this.id == id && this.server == server
      ensures View() == Core(server.States(), server.Directory(), Session(flag, [], false, {}, Silent))
    {
      this.id, this.server := id, server;
      clientStack := new ValueStack();
      loggedIn, response, transactionMode, lockedTables := flag, Silent, false, {};
    }

    ghost predicate Valid()
      reads this, server`created, server`serverTables, clientStack
    {
      && server.Valid() && clientStack.Valid()
      && forall t :: t in lockedTables ==> t in server.created
    }

    ghost function Locked(): set<TableId>
      reads this
    {
      set t | t in lockedTables :: t.id
    }

    ghost function View(): Core
      reads this, server`created, server`serverTables, clientStack, server.created
    {
      Core(server.States(), server.Directory(), SessionNow())
    }

    ghost function SessionNow(): Session
      reads this, clientStack
    {
      Session(loggedIn, clientStack.Contents(), transactionMode, Locked(), response)
    }

    lemma ViewWellFormed()
      requires Valid()
      ensures WellFormed(View())
      ensures forall t :: t in server.created ==> t.id < |server.created| && server.created[t.id] == t
      ensures forall t :: t in server.created ==> (t in lockedTables <==> t.id in Locked())
    {
    }

    /** True when the caller may use the table; false stands for the FailedTransaction. */
    method HandleTableLocking(table: Table) returns (ok: bool)
      requires Valid() && table in server.created && (!transactionMode ==> table.owner.None?)
      modifies this`lockedTables, table
      ensures Valid()
      ensures ok <==> Usable(old(table.State()), transactionMode, table in old(lockedTables))
      ensures lockedTables == if transactionMode && ok then old(lockedTables) + {table} else old(lockedTables)
      ensures table.State() == Taken(old(table.State()), id, transactionMode, table in old(lockedTables))
    {
      if !transactionMode {
        table.Lock(id);
        return true;
      }
      if table in lockedTables {
        return true;
      }
      ok := table.TryLock(id);
      if ok {
        lockedTables := lockedTables + {table};
      }
    }

    /** What request r means in the state the objects are in. */
    ghost function Means(r: Request): Ended
      requires Valid()
      reads this, server`created, server`serverTables, clientStack, server.created
    {
      ViewWellFormed();
      Meaning(View(), id, r)
    }

    /** The objects after a handler that worked on one table. */
    lemma Landed(core: Core, table: Table, session: Session)
      requires Valid() && After(core, table)
      requires session == SessionNow()
      ensures table.id < |core.tables| && View() == core.With(table.id, table.State()).(session := session)
    {
      ViewWellFormed();
      StatesChanged(server.created, core.tables, table);
    }

    /** The rest of get_request_handler, once the table is found. */
    method GetFrom(curTable: Table, key: Key) returns (x: Thrown)
      requires Valid() && curTable in server.created && (!transactionMode ==> curTable.owner.None?)
      modifies this`lockedTables, this`response, curTable, clientStack
      ensures Valid()
      ensures Gets(old(curTable.State()), curTable.State(), old(SessionNow()), SessionNow(), id, curTable.id, key, x)
    {
      ViewWellFormed();
      hide WellFormed, StatesOf, Server.Directory, Server.Valid, ValueStack.Valid;
      var ok := HandleTableLocking(curTable);
      if !ok {
        return FailedTransaction;
      }
      assert Locked() == LockedAfter(old(SessionNow()), curTable.id);
      var curVal := curTable.Get(key);
      clientStack.Push(curVal);
      if !transactionMode {
        curTable.CommitChanges();
        curTable.Unlock();
      }
      response := Ok;
      return Nothing;
    }

    /** The rest of set_request_handler, once the table is found. */
    method SetIn(curTable: Table, key: Key) returns (x: Thrown)
      requires Valid() && curTable in server.created && (!transactionMode ==> curTable.owner.None?)
      modifies this`lockedTables, this`response, curTable, clientStack
      ensures Valid()
      ensures Sets(old(curTable.State()), curTable.State(), old(SessionNow()), SessionNow(), id, curTable.id, key, x)
    {
      ViewWellFormed();
      hide WellFormed, StatesOf, Server.Directory, Server.Valid;
      var ok := HandleTableLocking(curTable);
      if !ok {
        return FailedTransaction;
      }
      assert Locked() == LockedAfter(old(SessionNow()), curTable.id);
      var empty := clientStack.IsEmpty();
      if empty {
        return OperationException;
      }
      SetPopped(curTable, key);
      return Nothing;
    }

    /** Its successful end. */
    method SetPopped(curTable: Table, key: Key)
      requires Valid() && clientStack.Contents() != []
      modifies this`response, curTable, clientStack
      ensures clientStack.Valid()
      ensures var stack := old(clientStack.Contents());
              && clientStack.Contents() == stack[..|stack| - 1]
              && curTable.State() == Closing(old(curTable.State()).Set(key, stack[|stack| - 1]), transactionMode)
      ensures response == Ok
    {
      var poppedVal := clientStack.GetTop();
      var _ := clientStack.Pop();
      curTable.Set(key, poppedVal.value);
      if !transactionMode {
        curTable.CommitChanges();
        curTable.Unlock();
      }
      response := Ok;
    }

    /** Since core was the view, at most this table object and the session have changed. */
    ghost predicate After(core: Core, table: Table)
      reads this, server`created, server`serverTables, server.created
    {
      && table in server.created && table.id < |core.tables| == |server.created| && core.directory == server.Directory()
      && forall i :: 0 <= i < |server.created| && i != table.id ==> server.created[i].State() == core.tables[i]
    }

    lemma UsedGets(core: Core, r: Request, table: Table, x: Thrown)
      requires Valid() && After(core, table) && r.Get? && !Reach(core, id, r, table.id).Waits?
      requires Gets(core.tables[table.id], table.State(), core.session, SessionNow(), id, table.id, r.key, x)
      ensures Caught(View(), x) == Reach(core, id, r, table.id)
    {
      Landed(core, table, SessionNow());
      GetsMeaning(core, id, r, table.id, table.State(), SessionNow(), x);
    }

    lemma UsedSets(core: Core, r: Request, table: Table, x: Thrown)
      requires Valid() && After(core, table) && r.Set? && !Reach(core, id, r, table.id).Waits?
      requires Sets(core.tables[table.id], table.State(), core.session, SessionNow(), id, table.id, r.key, x)
      ensures Caught(View(), x) == Reach(core, id, r, table.id)
    {
      Landed(core, table, SessionNow());
      SetsMeaning(core, id, r, table.id, table.State(), SessionNow(), x);
    }

    method GetFromFound(curTable: Table, r: Request) returns (x: Thrown)
      requires Valid() && curTable in server.created && r.Get? && (!transactionMode ==> curTable.owner.None?)
      requires curTable.id < |server.created| && !Reach(View(), id, r, curTable.id).Waits?
      modifies this`lockedTables, this`response, curTable, clientStack
      ensures Valid()
      ensures Caught(View(), x) == old(Reach(View(), id, r, curTable.id))
    {
      ghost var core := View();
      ViewWellFormed();
      hide WellFormed, StatesOf, Reach, Gets, Caught;
      x := GetFrom(curTable, r.key);
      UsedGets(core, r, curTable, x);
    }

    method GetRequestHandler(r: Request) returns (x: Thrown)
      requires Valid() && server.tablesMutex.None? && loggedIn && r.Get? && !Means(r).Waits?
      modifies this, server`tablesMutex, clientStack, server.created
      ensures Valid() && server.tablesMutex.None?
      ensures Caught(View(), x) == old(Means(r))
    {
      ghost var core := View();
      ViewWellFormed();
      NamedMeaning(core, id, r);
      hide Meaning, WellFormed, StatesOf, Reach, Caught;
      var curTable := server.FindTable(id, r.name);
      if curTable == null {
        return InvalidMessage;
      }
      x := GetFromFound(curTable, r);
    }

    method SetInFound(curTable: Table, r: Request) returns (x: Thrown)
      requires Valid() && curTable in server.created && r.Set? && (!transactionMode ==> curTable.owner.None?)
      requires curTable.id < |server.created| && !Reach(View(), id, r, curTable.id).Waits?
      modifies this`lockedTables, this`response, curTable, clientStack
      ensures Valid()
      ensures Caught(View(), x) == old(Reach(View(), id, r, curTable.id))
    {
      ghost var core := View();
      ViewWellFormed();
      hide WellFormed, StatesOf, Reach, Sets, Caught;
      x := SetIn(curTable, r.key);
      UsedSets(core, r, curTable, x);
    }

    method SetRequestHandler(r: Request) returns (x: Thrown)
      requires Valid() && server.tablesMutex.None? && loggedIn && r.Set? && !Means(r).Waits?
      modifies this, server`tablesMutex, clientStack, server.created
      ensures Valid() && server.tablesMutex.None?
      ensures Caught(View(), x) == old(Means(r))
    {
      ghost var core := View();
      ViewWellFormed();
      NamedMeaning(core, id, r);
      hide Meaning, WellFormed, StatesOf, Reach, Caught;
      var curTable := server.FindTable(id, r.name);
      if curTable == null {
        return InvalidMessage;
      }
      x := SetInFound(curTable, r);
    }

    /** The successful end of create_request_handler. */
    method CreateNew(name: string)
      requires Valid() && server.tablesMutex.None?
      modifies this`response, server
      ensures Valid() && server.tablesMutex.None?
      ensures forall t :: t in server.created ==> t in old(server.created) || fresh(t)
      ensures View() == Created(old(View()), name)
    {
      hide Server.Valid, Server.Directory;
      server.CreateTable(id, name);
      response := Ok;
    }

    method CreateRequestHandler(r: Request) returns (x: Thrown)
      requires Valid() && server.tablesMutex.None? && loggedIn && r.Create?
      modifies this, server
      ensures Valid() && server.tablesMutex.None?
      ensures forall t :: t in server.created ==> t in old(server.created) || fresh(t)
      ensures Caught(View(), x) == old(Means(r))
    {
      ghost var core := View();
      ViewWellFormed();
      CreateMeaning(core, id, r);
      hide Meaning, WellFormed, StatesOf, Created, Caught, Server.Valid, Server.Directory;
      var found := server.FindTable(id, r.name);
      if found != null {
        return InvalidMessage;
      }
      CreateNew(r.name);
      return Nothing;
    }

    method PushRequestHandler(r: Request) returns (x: Thrown)
      requires Valid() && loggedIn && r.Push?
      modifies this`response, clientStack
      ensures Valid() && Caught(View(), x) == old(Means(r))
    {
      ViewWellFormed();
      hide WellFormed, StatesOf;
      clientStack.Push(r.v);
      response := Ok;
      return Nothing;
    }

    method PopRequestHandler(r: Request) returns (x: Thrown)
      requires Valid() && loggedIn && r.Pop?
      modifies this`response, clientStack
      ensures Valid() && Caught(View(), x) == old(Means(r))
    {
      ViewWellFormed();
      PopMeaning(View(), id, r);
      hide WellFormed, StatesOf, Meaning, Server.Directory;
      var empty := clientStack.IsEmpty();
      if empty {
        return OperationException;
      }
      var _ := clientStack.Pop();
      response := Ok;
      assert server.States() == old(server.States()) && Locked() == old(Locked());
      return Nothing;
    }

    method TopRequestHandler(r: Request) returns (x: Thrown)
      requires Valid() && loggedIn && r.Top?
      modifies this`response
      ensures Valid() && Caught(View(), x) == old(Means(r))
    {
      ViewWellFormed();
      TopMeaning(View(), id, r);
      hide WellFormed, StatesOf, Meaning, Server.Directory;
      var empty := clientStack.IsEmpty();
      if empty {
        return OperationException;
      }
      var top := clientStack.GetTop();
      response := Data(top.value);
      assert server.States() == old(server.States()) && Locked() == old(Locked());
      return Nothing;
    }

    /** Any exception inside makes it return false, with what was popped gone. */
    method PopTwoValues() returns (ok: bool, val1: int, val2: int)
      requires clientStack.Valid()
      modifies clientStack
      ensures clientStack.Valid() && clientStack.Contents() == WithoutTwo(old(clientStack.Contents()))
      ensures (if ok then Some((val1, val2)) else None) == Operands(old(clientStack.Contents()))
    {
      hide Stoi;
      val1, val2 := 0, 0;
      var pop1 := clientStack.GetTop();
      if pop1.None? {
        return false, 0, 0;
      }
      var _ := clientStack.Pop();
      var pop2 := clientStack.GetTop();
      if pop2.None? {
        return false, 0, 0;
      }
      var _ := clientStack.Pop();
      var n1, n2 := Stoi(pop1.value), Stoi(pop2.value);
      if n1.None? || n2.None? {
        return false, 0, 0;
      }
      return true, n1.value, n2.value;
    }

    /** The four instances of the template. */
    method ArithmeticRequestHandler(r: Request) returns (x: Thrown)
      requires Valid() && loggedIn && r.Arithmetic?
      modifies this`response, clientStack
      ensures Valid() && Caught(View(), x) == old(Means(r))
    {
      ghost var core := View();
      ViewWellFormed();
      ArithmeticMeaning(core, id, r);
      hide WellFormed, StatesOf, Server.Directory, Meaning, WithoutTwo, Operands, Compute;
      var ok, value1, value2 := PopTwoValues();
      if !ok {
        return OperationException;
      }
      var result := Compute(r.op, value1, value2);
      if result.None? {
        return Trap;
      }
      clientStack.Push(ToString(result.value));
      response := Ok;
      assert server.States() == core.tables && Locked() == core.session.locked;
      return Nothing;
    }

    /** Commits and unlocks the locked tables, in any order. */
    method CommitTables()
      requires Valid()
      modifies this`lockedTables, lockedTables
      ensures lockedTables == {}
      ensures server.States() == CommittedAll(old(server.States()), old(Locked()))
    {
      ViewWellFormed();
      hide WellFormed, StatesOf, CommittedAll, RolledBackAll;
      var todo := lockedTables;
      while todo != {}
        invariant todo <= lockedTables == old(lockedTables)
        invariant forall t :: t in server.created ==>
                    t.State() == if t in lockedTables && t !in todo then old(t.State()).Commit().(owner := None) else old(t.State())
        decreases todo
      {
        var table :| table in todo;
        table.CommitChanges();
        table.Unlock();
        todo := todo - {table};
      }
      ghost var ts := server.created;
      forall i | 0 <= i < |ts|
        ensures ts[i].State() == if i in Locked() then old(server.States())[i].Commit().(owner := None) else old(server.States())[i]
      {
        assert ts[i] in ts && ts[i].id == i;
      }
      CommittedStates(ts, old(server.States()), Locked());
      lockedTables := {};
    }

    /** Rolls back and unlocks the locked tables, in any order. */
    method RollbackTables()
      requires Valid()
      modifies this`lockedTables, lockedTables
      ensures lockedTables == {}
      ensures server.States() == RolledBackAll(old(server.States()), old(Locked()))
    {
      ViewWellFormed();
      hide WellFormed, StatesOf, CommittedAll, RolledBackAll;
      var todo := lockedTables;
      while todo != {}
        invariant todo <= lockedTables == old(lockedTables)
        invariant forall t :: t in server.created ==>
                    t.State() == if t in lockedTables && t !in todo then old(t.State()).Rollback().(owner := None) else old(t.State())
        decreases todo
      {
        var table :| table in todo;
        table.RollbackChanges();
        table.Unlock();
        todo := todo - {table};
      }
      ghost var ts := server.created;
      forall i | 0 <= i < |ts|
        ensures ts[i].State() == if i in Locked() then old(server.States())[i].Rollback().(owner := None) else old(server.States())[i]
      {
        assert ts[i] in ts && ts[i].id == i;
      }
      RolledBackStates(ts, old(server.States()), Locked());
      lockedTables := {};
    }

    /** The switch of the chat loop. */
    method Dispatch(r: Request) returns (x: Thrown, keepGoing: bool)
      requires Valid() && server.tablesMutex.None? && loggedIn && !Means(r).Waits?
      requires !r.Garbled? && !r.Bad? && !r.Login?
      modifies this, server, clientStack, server.created
      ensures Valid() && server.tablesMutex.None?
      ensures forall t :: t in server.created ==> t in old(server.created) || fresh(t)
      ensures old(Means(r)) == if keepGoing then Caught(View(), x) else Leaves(View())
    {
      x, keepGoing := Nothing, true;
      hide Meaning, WellFormed, StatesOf, CommittedAll, View;
      if r.Create? || r.Set? || r.Get? {
        x := DispatchTable(r);
      } else if r.Begin? || r.Commit? || r.Bye? {
        keepGoing := DispatchMode(r);
      } else {
        x := DispatchStack(r);
      }
    }

    /** Its cases that name a table. */
    method DispatchTable(r: Request) returns (x: Thrown)
      requires Valid() && server.tablesMutex.None? && loggedIn && !Means(r).Waits?
      requires r.Create? || r.Set? || r.Get?
      modifies this, server, clientStack, server.created
      ensures Valid() && server.tablesMutex.None?
      ensures forall t :: t in server.created ==> t in old(server.created) || fresh(t)
      ensures Caught(View(), x) == old(Means(r))
    {
      hide Means, Caught, StatesOf, View;
      match r {
        case Create(_) => x := CreateRequestHandler(r);
        case Set(_, _) => x := SetRequestHandler(r);
        case Get(_, _) => x := GetRequestHandler(r);
      }
    }

    /** Its cases that start and end transactions and the conversation. */
    method DispatchMode(r: Request) returns (keepGoing: bool)
      requires Valid() && loggedIn && (r.Begin? || r.Commit? || r.Bye?)
      modifies this, lockedTables
      ensures Valid() && old(Means(r)) == if keepGoing then Continues(View()) else Leaves(View())
    {
      ViewWellFormed();
      ModeMeaning(View(), id, r);
      hide Meaning, WellFormed, StatesOf, CommittedAll;
      keepGoing := true;
      match r {
        case Begin =>
          response := Ok;
          transactionMode := true;
        case Commit =>
          CommitTransaction();
        case Bye =>
          response := Ok;
          keepGoing := false;
      }
    }

    method CommitTransaction()
      requires Valid()
      modifies this, lockedTables
      ensures Valid()
      ensures View() == Closed(old(View()), CommittedAll(old(View()).tables, old(View()).session.locked), Ok)
    {
      hide CommittedAll, StatesOf;
      CommitTables();
      transactionMode := false;
      response := Ok;
      assert Locked() == {};
    }

    /** Its cases that only use the stack. */
    method DispatchStack(r: Request) returns (x: Thrown)
      requires Valid() && loggedIn && (r.Push? || r.Pop? || r.Top? || r.Arithmetic?)
      modifies this`response, clientStack
      ensures Valid() && Caught(View(), x) == old(Means(r))
    {
      hide Means, Caught, StatesOf;
      match r {
        case Push(_) => x := PushRequestHandler(r);
        case Pop => x := PopRequestHandler(r);
        case Top => x := TopRequestHandler(r);
        case Arithmetic(_) => x := ArithmeticRequestHandler(r);
      }
    }

    method RollbackTransaction()
      requires Valid()
      modifies this, lockedTables
      ensures Valid()
      ensures View() == Closed(old(View()), RolledBackAll(old(View()).tables, old(View()).session.locked), Failed)
    {
      hide RolledBackAll, StatesOf;
      RollbackTables();
      transactionMode := false;
      response := Failed;
      assert Locked() == {};
    }

    /** The catch clauses. A failed operation inside a transaction raises an exception that no
        clause catches. */
    method Catch(x: Thrown) returns (keepGoing: bool, died: bool)
      requires Valid()
      modifies this, lockedTables
      ensures Valid() && (died ==> !keepGoing)
      ensures Caught(old(View()), x) == if died then Dies else if keepGoing then Continues(View()) else Leaves(View())
    {
      hide Closed, RolledBackAll, StatesOf;
      keepGoing, died := true, false;
      match x {
        case Nothing =>
        case Trap => keepGoing, died := false, true;
        case OperationException =>
          if transactionMode {
            keepGoing, died := false, true;
          } else {
            response := Failed;
          }
        case FailedTransaction =>
          RollbackTransaction();
        case InvalidMessage =>
          response := Error;
          keepGoing := false;
      }
    }

    /** A request of a client that has logged in. */
    method ServeRequest(r: Request) returns (keepGoing: bool, died: bool)
      requires Valid() && server.tablesMutex.None? && loggedIn && !Means(r).Waits?
      requires !r.Garbled? && !r.Bad? && !r.Login?
      modifies this, server, clientStack, server.created
      ensures Valid() && server.tablesMutex.None? && (died ==> !keepGoing)
      ensures forall t :: t in server.created ==> t in old(server.created) || fresh(t)
      ensures old(Means(r)) == if died then Dies else if keepGoing then Continues(View()) else Leaves(View())
    {
      hide Means, Caught, StatesOf, View;
      var x;
      x, keepGoing := Dispatch(r);
      if !keepGoing {
        return false, false;
      }
      keepGoing, died := Catch(x);
    }

    /** One turn of the chat loop, after the request is read. */
    method Serve(r: Request) returns (keepGoing: bool, died: bool)
      requires Valid() && server.tablesMutex.None? && !Means(r).Waits?
      modifies this, server, clientStack, server.created
      ensures Valid() && server.tablesMutex.None? && (died ==> !keepGoing)
      ensures forall t :: t in server.created ==> t in old(server.created) || fresh(t)
      ensures old(Means(r)) == if died then Dies else if keepGoing then Continues(View()) else Leaves(View())
    {
      ViewWellFormed();
      RefusedMeaning(View(), id, r);
      hide Meaning, WellFormed, StatesOf;
      if r.Garbled? {
        return false, true;
      } else if r.Login? {
        loggedIn := true;
        response := Ok;
        return true, false;
      } else if r.Bad? || !loggedIn {
        response := Error;
        return false, false;
      }
      keepGoing, died := ServeRequest(r);
    }

    ghost function Converses(s: seq<Rio.Item>): Conversation
      requires Valid()
      reads this, server`created, server`serverTables, clientStack, server.created
    {
      ViewWellFormed();
      Conversing(View(), id, s)
    }

    /** What a turn that served request r, taken from stream s, makes of the conversation. */
    ghost function TurnOf(s: seq<Rio.Item>, end: Ended): Conversation {
      match end
      case Continues(next) =>
        if |Unread(s)| < |s| && WellFormed(next) then Conversing(next, id, Unread(s)).After(next.session.reply)
        else Conversation([], end)
      case Leaves(last) => Conversation([last.session.reply], end)
      case _ => Conversation([], end)
    }

    lemma Turns(s: seq<Rio.Item>)
      requires Valid()
      ensures Converses(s) == TurnOf(s, Answered(Means(NextRequest(s))))
      ensures Means(NextRequest(s)).Continues? ==> |Unread(s)| < |s|
      ensures Means(NextRequest(s)).Waits? ==> Converses(s).end.Waits?
    {
      ViewWellFormed();
      RequestsUseInput(s);
      hide NextRequest, Unread;
      if Means(NextRequest(s)).Continues? { MeaningKeepsFormed(View(), id, NextRequest(s)); }
      hide Meaning, WellFormed, StatesOf;
    }

    /** The conversation before a turn, seen from after it. */
    ghost predicate Turned(all: Conversation, s: seq<Rio.Item>, keepGoing: bool, died: bool)
      requires Valid()
      reads this, server`created, server`serverTables, clientStack, server.created
    {
      all == if died then Conversation([], Dies)
             else if keepGoing then Converses(s).After(response)
             else Conversation([response], Leaves(View()))
    }

    lemma AfterTurn(s: seq<Rio.Item>, keepGoing: bool, died: bool)
      requires Valid() && (keepGoing ==> |Unread(s)| < |s|)
      ensures Turned(TurnOf(s, if died then Dies else if keepGoing then Continues(View()) else Leaves(View())), Unread(s), keepGoing, died)
    {
      ViewWellFormed();
      hide WellFormed, Conversing, StatesOf, Unread;
    }

    /** Reads one request. */
    method ReadRequest(rp: Rio.Reader) returns (r: Request)
      requires rp.Valid()
      modifies rp, rp.fd, rp.buf
      ensures rp.Valid() && r == NextRequest(old(rp.Stream())) && rp.Stream() == Unread(old(rp.Stream()))
    {
      var request := new Messages.MessageBuffer();
      var incoming := Framing.Receive(rp, request);
      return Values.RequestOf(incoming);
    }

    /** Encodes and writes the response. None: it does not fit, and the exception ends the process. */
    method ReturnResponseToClient(fd: Rio.Sink) returns (sent: Option<Messages.Message>)
      modifies fd
      ensures sent.Some? <==> FitsLine(response)
      ensures sent.Some? ==> Tells(sent.value, response) && ReadsAs(Codec.Encoded(sent.value), response)
      ensures old(fd.NeverRefuses()) ==>
                fd.NeverRefuses() && fd.written == old(fd.written) + if sent.Some? then Codec.Encoded(sent.value) else ""
    {
      var what: string :| |what| <= 100;
      var m :=
        match response
        case Silent => Messages.Message(Messages.NONE, [])
        case Ok => Messages.Message(Messages.OK, [])
        case Data(v) => Messages.Message(Messages.DATA, [v])
        case Failed => Messages.Message(Messages.FAILED, [what])
        case Error => Messages.Message(Messages.ERROR, [what]);
      ToldLength(m, response);
      ToldText(m, response);
      hide Codec.Encoded, ReadsAs;
      assert fd.written + "" == fd.written;
      var encodedResponse := Codec.Encode(m);
      if encodedResponse.None? {
        return None;
      }
      var _ := Rio.WriteN(fd, encodedResponse.value);
      return Some(m);
    }

    /** A request and the answer to it. */
    method ServeAndAnswer(r: Request, fd: Rio.Sink) returns (keepGoing: bool, died: bool, sent: seq<Messages.Message>)
      requires Valid() && server.tablesMutex.None? && !Means(r).Waits?
      modifies this, server, clientStack, server.created, fd
      ensures Valid() && server.tablesMutex.None? && (died ==> !keepGoing)
      ensures forall t :: t in server.created ==> t in old(server.created) || fresh(t)
      ensures old(Answered(Means(r))) == if died then Dies else if keepGoing then Continues(View()) else Leaves(View())
      ensures if died then sent == [] else TellAll(sent, [response])
      ensures Carried(old(fd.NeverRefuses()), old(fd.written), fd.NeverRefuses(), fd.written, sent)
    {
      hide Means, StatesOf, Tells, FitsLine, Codec.Encoded;
      NothingSent(fd.written);
      keepGoing, died := Serve(r);
      sent := [];
      if !died {
        var m := ReturnResponseToClient(fd);
        if m.Some? {
          sent := [m.value];
          OneSent(m.value);
        } else {
          keepGoing, died := false, true;
        }
      }
    }

    lemma NothingSent(written: string)
      ensures written + Framing.EncodedAll([]) == written && written + "" == written
    {
    }

    lemma OneSent(m: Messages.Message)
      ensures Framing.EncodedAll([m]) == Codec.Encoded(m)
    {
      assert [m][1..] == [] && Codec.Encoded(m) + "" == Codec.Encoded(m);
    }

    /** What a turn does with the request r taken from the stream s. */
    method Turn(r: Request, ghost s: seq<Rio.Item>, fd: Rio.Sink) returns (keepGoing: bool, died: bool, sent: seq<Messages.Message>)
      requires Valid() && server.tablesMutex.None? && r == NextRequest(s)
      requires !Converses(s).end.Waits?
      modifies this, server, clientStack, server.created, fd
      ensures Valid() && server.tablesMutex.None?
      ensures forall t :: t in server.created ==> t in old(server.created) || fresh(t)
      ensures (died ==> !keepGoing) && (keepGoing ==> |Unread(s)| < |s|)
      ensures Turned(old(Converses(s)), Unread(s), keepGoing, died)
      ensures if died then sent == [] else TellAll(sent, [response])
      ensures Carried(old(fd.NeverRefuses()), old(fd.written), fd.NeverRefuses(), fd.written, sent)
    {
      Turns(s);
      AnsweredWaits(Means(r));
      hide *;
      keepGoing, died, sent := ServeAndAnswer(r, fd);
      AfterTurn(s, keepGoing, died);
    }

    lemma AnsweredWaits(end: Ended)
      ensures end.Continues? <== Answered(end).Continues?
      ensures end.Waits? <==> Answered(end).Waits?
    {
    }

    /** One turn of the chat loop. */
    method ReadAndServe(rp: Rio.Reader, fd: Rio.Sink) returns (keepGoing: bool, died: bool, sent: seq<Messages.Message>)
      requires Valid() && server.tablesMutex.None? && rp.Valid()
      requires !Converses(rp.Stream()).end.Waits?
      modifies this, server, clientStack, server.created, rp, rp.fd, rp.buf, fd
      ensures Valid() && server.tablesMutex.None? && rp.Valid()
      ensures forall t :: t in server.created ==> t in old(server.created) || fresh(t)
      ensures died ==> !keepGoing
      ensures keepGoing ==> |rp.Stream()| < old(|rp.Stream()|)
      ensures Turned(old(Converses(rp.Stream())), rp.Stream(), keepGoing, died)
      ensures if died then sent == [] else TellAll(sent, [response])
      ensures Carried(old(fd.NeverRefuses()), old(fd.written), fd.NeverRefuses(), fd.written, sent)
    {
      hide *;
      ghost var s := rp.Stream();
      var r := ReadRequest(rp);
      keepGoing, died, sent := Turn(r, s, fd);
    }

    /** Where a conversation stands: what was answered, and what is still to come from stream s. */
    ghost predicate Stands(all: Conversation, replies: seq<Reply>, s: seq<Rio.Item>, keepGoing: bool, died: bool)
      requires Valid()
      reads this, server`created, server`serverTables, clientStack, server.created
    {
      if keepGoing then !died && all == Resumed(replies, Converses(s))
      else all == Conversation(replies, if died then Dies else Leaves(View()))
    }

    lemma TurnsAddUp(all: Conversation, rest: Conversation, replies: seq<Reply>, s: seq<Rio.Item>, keepGoing: bool, died: bool)
      requires Valid() && all == Resumed(replies, rest) && Turned(rest, s, keepGoing, died) && (died ==> !keepGoing)
      ensures Stands(all, if died then replies else replies + [response], s, keepGoing, died)
    {
      hide Converses, View;
      if keepGoing { ResumedOne(replies, response, Converses(s)); }
    }

    lemma StillWaitFree(all: Conversation, replies: seq<Reply>, s: seq<Rio.Item>)
      requires Valid() && Stands(all, replies, s, true, false) && !all.end.Waits?
      ensures all == Resumed(replies, Converses(s)) && !Converses(s).end.Waits?
    {
      hide Converses, View;
    }

    /** One turn of the chat loop, added to the turns before it. */
    method OneTurn(rp: Rio.Reader, fd: Rio.Sink, before: seq<Reply>, told: seq<Messages.Message>,
                   ghost all: Conversation, ghost ok: bool, ghost written: string)
      returns (keepGoing: bool, died: bool, replies: seq<Reply>, sent: seq<Messages.Message>)
      requires Valid() && server.tablesMutex.None? && rp.Valid() && TellAll(told, before)
      requires Stands(all, before, rp.Stream(), true, false) && !all.end.Waits?
      requires Carried(ok, written, fd.NeverRefuses(), fd.written, told)
      modifies this, server, clientStack, server.created, rp, rp.fd, rp.buf, fd
      ensures Valid() && server.tablesMutex.None? && rp.Valid() && TellAll(sent, replies)
      ensures forall t :: t in server.created ==> t in old(server.created) || fresh(t)
      ensures keepGoing ==> !died && |rp.Stream()| < old(|rp.Stream()|)
      ensures Stands(all, replies, rp.Stream(), keepGoing, died)
      ensures Carried(ok, written, fd.NeverRefuses(), fd.written, sent)
    {
      StillWaitFree(all, before, rp.Stream());
      ghost var rest := Converses(rp.Stream());
      hide *;
      var more;
      keepGoing, died, more := ReadAndServe(rp, fd);
      TurnsAddUp(all, rest, before, rp.Stream(), keepGoing, died);
      sent := told + more;
      CarriedOn(ok, written, old(fd.NeverRefuses()), old(fd.written), fd.NeverRefuses(), fd.written, told, more);
      replies := before;
      if died {
        assert sent == told;
      } else {
        TellMore(told, more, before, response);
        replies := replies + [response];
      }
    }

    /** The chat loop, from the first request to the last: the replies, the messages that tell the client
        of them, and the state left are those of the conversation; the bytes are the messages' encodings. */
    method ChatWithClient(rp: Rio.Reader, fd: Rio.Sink) returns (died: bool, replies: seq<Reply>, sent: seq<Messages.Message>)
      requires Valid() && server.tablesMutex.None? && rp.Valid()
      requires !Converses(rp.Stream()).end.Waits?
      modifies this, server, clientStack, server.created, rp, rp.fd, rp.buf, fd
      ensures Valid() && server.tablesMutex.None?
      ensures old(Converses(rp.Stream())) == Conversation(replies, if died then Dies else Leaves(View()))
      ensures TellAll(sent, replies) && forall i :: 0 <= i < |sent| ==> ReadsAs(Codec.Encoded(sent[i]), replies[i])
      ensures Carried(old(fd.NeverRefuses()), old(fd.written), fd.NeverRefuses(), fd.written, sent)
    {
      replies, sent := [], [];
      died := false;
      var keepGoing := true;
      ghost var all := Converses(rp.Stream());
      ghost var ok, written := fd.NeverRefuses(), fd.written;
      AtTheStart(rp.Stream(), ok, written);
      hide *;
      while keepGoing
        invariant Valid() && server.tablesMutex.None? && rp.Valid()
        invariant forall t :: t in server.created ==> t in old(server.created) || fresh(t)
        invariant Stands(all, replies, rp.Stream(), keepGoing, died) && TellAll(sent, replies)
        invariant Carried(ok, written, fd.NeverRefuses(), fd.written, sent) && (keepGoing ==> !died)
        decreases keepGoing, |rp.Stream()|
      {
        assert forall i :: 0 <= i < |server.created| ==> server.created[i] in old(server.created) || fresh(server.created[i]);
        keepGoing, died, replies, sent := OneTurn(rp, fd, replies, sent, all, ok, written);
      }
      AtTheEnd(all, replies, rp.Stream(), died);
      ToldTexts(sent, replies);
    }

    lemma AtTheStart(s: seq<Rio.Item>, ok: bool, written: string)
      requires Valid()
      ensures Stands(Converses(s), [], s, true, false) && TellAll([], []) && Carried(ok, written, ok, written, [])
    {
      var all := Converses(s);
      assert [] + all.replies == all.replies;
      NothingSent(written);
      hide Converses, View;
    }

    lemma AtTheEnd(all: Conversation, replies: seq<Reply>, s: seq<Rio.Item>, died: bool)
      requires Valid() && Stands(all, replies, s, false, died)
      ensures all == Conversation(replies, if died then Dies else Leaves(View()))
    {
      hide View;
    }
  }
}
