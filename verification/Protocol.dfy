/**
 The server as a step relation. Any number of client threads share tables, which are
 identified by creation order and not by name, a directory of names and the directory mutex.
 Every step is one thread passing from one point of client_connection.cpp to the next; the
 fields from `received` on, and `history` and `missing` in the state, are bookkeeping that no
 step consults.
 */
module Protocol {
  import opened Basics
  import opened Calculator
  import opened Tables

  datatype Request =
    | Login
    | Create(name: string)
    | Push(v: Value)
    | Pop
    | Top
    | Set(name: string, key: Key)
    | Get(name: string, key: Key)
    | Arithmetic(op: Operator)
    | Begin
    | Commit
    | Bye
    | Bad      // end of input, or a line that does not decode to a valid request
    | Garbled  // a line on which the decoder indexes past the end

  datatype Reply = Silent | Ok | Failed | Error | Data(v: Value)

  /** Where a client's thread is. */
  datatype Task =
    | Idle
    | FindLock(r: Request)                             // about to lock the directory
    | FindHeld(r: Request)                             // holds it, about to look the name up
    | FindFound(r: Request, found: Option<TableId>)    // holds it, about to unlock
    | CreateLock(name: string)
    | CreateHeld(name: string)
    | CreateDone
    | Locking(r: Request, t: TableId)                  // about to call handle_table_locking
    | Access(r: Request, t: TableId)                   // has the table, about to get or set
    | Publish(t: TableId)                              // autocommit: about to commit_changes
    | Release(t: TableId)                              // autocommit: about to unlock
    | Committing(todo: set<TableId>, cur: Option<TableId>)
    | Rolling(todo: set<TableId>, cur: Option<TableId>)
    | Gone

  /** A command as it acts on a client's stack and on the store, with tables resolved. */
  datatype Command =
    | CPush(v: Value)
    | CPop
    | CTop(v: Value)
    | CArith(op: Operator)
    | CGet(t: TableId, k: Key, v: Value)  // v is what the GET returned
    | CSet(t: TableId, k: Key)

  datatype Client = Client(
    task: Task,
    loggedIn: bool,
    stack: seq<Value>,
    inTxn: bool,
    locked: set<TableId>,
    reply: Reply,
    received: seq<Request>,       // every request received so far
    leaked: set<TableId>,         // tables a failed autocommit SET left locked
    before: seq<Value>,           // the stack when the current transaction began
    cmds: seq<Command>)           // the commands of the current transaction
  {
    /** Records a command of the running transaction. */
    function Did(cmd: Command): Client {
      if inTxn then this.(cmds := cmds + [cmd]) else this
    }

    function Answer(r: Reply): Client { this.(task := Idle, reply := r) }

    function Leave(r: Reply): Client { this.(task := Gone, reply := r) }
  }

  /** One entry of the serial history. */
  datatype Transaction = Transaction(client: ClientId, before: seq<Value>, cmds: seq<Command>, after: seq<Value>)

  datatype State = State(
    tables: seq<TableState>,
    directory: map<string, TableId>,
    dirOwner: Option<ClientId>,
    clients: map<ClientId, Client>,
    down: bool,                   // the process has ended
    history: seq<Transaction>,
    missing: bool)                // some GET named a key its table did not have
  {
    function Put(c: ClientId, cl: Client): State { this.(clients := clients[c := cl]) }

    function PutTable(t: TableId, tb: TableState): State
      requires t < |tables|
    {
      this.(tables := tables[t := tb])
    }
  }

  const INITIAL := State([], map[], None, map[], false, [], false)

  // ---------------------------------------------------------------- steps

  /** What makes a thread move: its client connects, a request arrives, the code runs on, a
      loop over the locked tables picks its next table, or get throws. */
  datatype Label = Connect(flag: bool) | Receive(r: Request) | Run | Pick(t: TableId) | Throw

  /** A thread that called chat_with_client starts with an arbitrary logged_in flag. */
  function NewClient(flag: bool): Client {
    Client(Idle, flag, [], false, {}, Silent, [], {}, [], [])
  }

  predicate MissingGet(s: State, task: Task) {
    task.Access? && task.r.Get? && task.t < |s.tables| && !s.tables[task.t].HasKey(task.r.key)
  }

  /** The next step of client c under label l is possible: only a held mutex blocks. */
  predicate Enabled(s: State, c: ClientId, l: Label) {
    && !s.down
    && (l.Connect? <==> c !in s.clients)
    && (c in s.clients ==>
          var task := s.clients[c].task;
          match l
          case Connect(_) => false
          case Receive(r) => task.Idle?
          case Throw => MissingGet(s, task)
          case Pick(t) => (task.Committing? || task.Rolling?) && task.cur.None? && t in task.todo
          case Run =>
            match task
            case FindLock(_) => s.dirOwner.None?
            case CreateLock(_) => s.dirOwner.None?
            case Locking(_, t) => s.clients[c].inTxn || (t < |s.tables| && s.tables[t].owner.None?)
            case Committing(todo, cur) => cur.Some? || todo == {}
            case Rolling(todo, cur) => cur.Some? || todo == {}
            case Idle => false
            case Gone => false
            case _ => true)
  }

  /** An operation failed: outside a transaction the client is told; inside one the exception
      raised in its place leaves the chat loop uncaught and the process ends. */
  function OperationFails(s: State, c: ClientId, cl: Client): State {
    if cl.inTxn then s.(down := true) else s.Put(c, cl.Answer(Failed))
  }

  /** A request arrives. The requests that touch only the client's own state complete at once. */
  function Receives(s: State, c: ClientId, r: Request): State
    requires c in s.clients
  {
    var cl := s.clients[c].(received := s.clients[c].received + [r]);
    var n := |cl.stack|;
    if r.Garbled? then s.(down := true)
    else if r.Bad? then s.Put(c, cl.Leave(Error))
    else if r.Login? then s.Put(c, cl.(loggedIn := true).Answer(Ok))
    else if !cl.loggedIn then s.Put(c, cl.Leave(Error))
    else
      match r
      case Push(v) => s.Put(c, cl.(stack := cl.stack + [v]).Did(CPush(v)).Answer(Ok))
      case Pop =>
        if n == 0 then OperationFails(s, c, cl)
        else s.Put(c, cl.(stack := cl.stack[..n - 1]).Did(CPop).Answer(Ok))
      case Top =>
        if n == 0 then OperationFails(s, c, cl)
        else s.Put(c, cl.Did(CTop(cl.stack[n - 1])).Answer(Data(cl.stack[n - 1])))
      case Arithmetic(op) =>
        (match Arith(cl.stack, op)
         case Pushed(stack) => s.Put(c, cl.(stack := stack).Did(CArith(op)).Answer(Ok))
         case Rejected(stack) => OperationFails(s, c, cl.(stack := stack))
         case Trapped => s.(down := true))
      case Begin =>
        var started := if cl.inTxn then cl else cl.(inTxn := true, before := cl.stack, cmds := []);
        s.Put(c, started.Answer(Ok))
      case Commit =>
        var told := s.Put(c, cl.(task := Committing(cl.locked, None), cmds := []));
        if cl.inTxn
        then told.(history := s.history + [Transaction(c, cl.before, cl.cmds, cl.stack)])
        else told
      case Bye => s.Put(c, cl.Leave(Ok))
      case _ => s.Put(c, cl.(task := FindLock(r)))
  }

  /** find_table returned; the request goes on with what it found. */
  function AfterFind(cl: Client, r: Request, found: Option<TableId>): Client {
    match found
    case None => if r.Create? then cl.(task := CreateLock(r.name)) else cl.Leave(Error)
    case Some(t) => if r.Create? then cl.Leave(Error) else cl.(task := Locking(r, t))
  }

  function RequestName(r: Request): string {
    match r
    case Create(n) => n
    case Set(n, _) => n
    case Get(n, _) => n
    case _ => ""
  }

  /** handle_table_locking. Enabled makes sure that a blocking lock finds the mutex free. */
  function Locks(s: State, c: ClientId, r: Request, t: TableId): State
    requires c in s.clients && t < |s.tables|
  {
    var cl := s.clients[c];
    var tb := s.tables[t];
    var entered := cl.(task := Access(r, t));
    var taken := s.PutTable(t, tb.(owner := Some(c)));
    if !cl.inTxn then taken.Put(c, entered)
    else if t in cl.locked then s.Put(c, entered)
    else if tb.owner.None? then
      taken.Put(c, entered.(locked := cl.locked + {t}))
    else s.Put(c, cl.(task := Rolling(cl.locked, None), cmds := []))
  }

  /** The table is locked: get or set it. Inside a transaction that ends the request. */
  function Accesses(s: State, c: ClientId, r: Request, t: TableId): State
    requires c in s.clients && t < |s.tables|
  {
    var cl := s.clients[c];
    var tb := s.tables[t];
    if r.Get? then
      var v := Lookup(tb.Visible(), r.key);
      var got := cl.(stack := cl.stack + [v]);
      s.PutTable(t, tb.AfterGet(r.key)).Put(c, Finish(cl, got, CGet(t, r.key, v), t))
        .(missing := s.missing || !tb.HasKey(r.key))
    else if r.Set? && |cl.stack| > 0 then
      var n := |cl.stack|;
      var popped := cl.(stack := cl.stack[..n - 1]);
      s.PutTable(t, tb.Set(r.key, cl.stack[n - 1])).Put(c, Finish(cl, popped, CSet(t, r.key), t))
    else OperationFails(s, c, cl.(leaked := cl.leaked + {t}))
  }

  /** The end of a get or set handler: answer inside a transaction, commit and unlock outside. */
  function Finish(was: Client, now: Client, cmd: Command, t: TableId): Client {
    if was.inTxn then now.Did(cmd).Answer(Ok)
    else now.(before := was.stack, cmds := [cmd], task := Publish(t))
  }

  /** The places of a thread in find_table and create_table. */
  predicate OnDirectory(task: Task) {
    task.FindLock? || task.FindHeld? || task.FindFound? || task.CreateLock? || task.CreateHeld? || task.CreateDone?
  }

  /** find_table and create_table: lock the directory, use it, unlock it. */
  function Consults(s: State, c: ClientId): State
    requires c in s.clients && OnDirectory(s.clients[c].task)
  {
    var cl := s.clients[c];
    match cl.task
    case FindLock(r) => s.Put(c, cl.(task := FindHeld(r))).(dirOwner := Some(c))
    case FindHeld(r) =>
      var name := RequestName(r);
      var found := if name in s.directory then Some(s.directory[name]) else None;
      s.Put(c, cl.(task := FindFound(r, found)))
    case FindFound(r, found) => s.Put(c, AfterFind(cl, r, found)).(dirOwner := None)
    case CreateLock(name) => s.Put(c, cl.(task := CreateHeld(name))).(dirOwner := Some(c))
    case CreateHeld(name) =>
      s.Put(c, cl.(task := CreateDone))
        .(directory := s.directory[name := |s.tables|],
          tables := s.tables + [TableState(name, None, map[], map[])])
    case CreateDone => s.Put(c, cl.Answer(Ok)).(dirOwner := None)
  }

  /** Runs the code of client c from one point to the next. */
  function Runs(s: State, c: ClientId): State
    requires c in s.clients
  {
    var cl := s.clients[c];
    if OnDirectory(cl.task) then Consults(s, c)
    else
      match cl.task
      case Locking(r, t) => if t < |s.tables| then Locks(s, c, r, t) else s
      case Access(r, t) => if t < |s.tables| then Accesses(s, c, r, t) else s
      case Publish(t) =>
        if t < |s.tables| then
          s.PutTable(t, s.tables[t].Commit())
            .Put(c, cl.(task := Release(t), cmds := []))
            .(history := s.history + [Transaction(c, cl.before, cl.cmds, cl.stack)])
        else s
      case Release(t) =>
        if t < |s.tables| then s.PutTable(t, s.tables[t].(owner := None)).Put(c, cl.Answer(Ok)) else s
      case Committing(todo, cur) => EndLoop(s, c, cl.(task := Committing(todo, None)), cur, Ok)
      case Rolling(todo, cur) => EndLoop(s, c, cl.(task := Rolling(todo, None)), cur, Failed)
      case _ => s
  }

  /** In a commit or rollback loop: unlock the current table, or leave the loop. */
  function EndLoop(s: State, c: ClientId, on: Client, cur: Option<TableId>, r: Reply): State {
    match cur
    case Some(t) => if t < |s.tables| then s.PutTable(t, s.tables[t].(owner := None)).Put(c, on) else s
    case None => s.Put(c, on.(locked := {}, inTxn := false).Answer(r))
  }

  /** In a commit or rollback loop: commit or roll back the picked table. */
  function Picks(s: State, c: ClientId, t: TableId): State
    requires c in s.clients
  {
    var cl := s.clients[c];
    if t >= |s.tables| then s
    else
      match cl.task
      case Committing(todo, _) =>
        s.PutTable(t, s.tables[t].Commit()).Put(c, cl.(task := Committing(todo - {t}, Some(t))))
      case Rolling(todo, _) =>
        s.PutTable(t, s.tables[t].Rollback()).Put(c, cl.(task := Rolling(todo - {t}, Some(t))))
      case _ => s
  }

  function Next(s: State, c: ClientId, l: Label): State
    requires Enabled(s, c, l)
  {
    match l
    case Connect(flag) => s.Put(c, NewClient(flag))
    case Receive(r) => Receives(s, c, r)
    case Run => Runs(s, c)
    case Pick(t) => Picks(s, c, t)
    case Throw => s.(down := true, missing := true)
  }

  // ---------------------------------------------------------------- runs

  datatype Move = Move(c: ClientId, l: Label)

  /** The states of a run: each follows from the one before by the move between them. */
  ghost predicate IsRun(states: seq<State>, moves: seq<Move>) {
    && |states| == |moves| + 1
    && forall i :: 0 <= i < |moves| ==>
         Enabled(states[i], moves[i].c, moves[i].l) && states[i + 1] == Next(states[i], moves[i].c, moves[i].l)
  }

  ghost predicate RunTo(states: seq<State>, moves: seq<Move>, s: State) {
    IsRun(states, moves) && states[0] == INITIAL && states[|moves|] == s
  }

  ghost predicate Reachable(s: State) {
    exists states, moves :: RunTo(states, moves, s)
  }

  // ---------------------------------------------------------------- the serial machine

  /** The atomic store: rows of values, absent keys reading as the empty string. */
  type Store = map<TableId, Row>

  function RowOf(st: Store, t: TableId): Row { if t in st then st[t] else map[] }

  function Read(st: Store, t: TableId, k: Key): Value { Lookup(RowOf(st, t), k) }

  function Write(st: Store, t: TableId, k: Key, v: Value): Store { st[t := RowOf(st, t)[k := v]] }

  datatype Outcome = Done(store: Store, stack: seq<Value>) | Stuck

  /** One command executed directly on the store. It gets stuck when it does not give the answer recorded. */
  function Do(st: Store, stack: seq<Value>, cmd: Command): Outcome {
    var n := |stack|;
    match cmd
    case CPush(v) => Done(st, stack + [v])
    case CPop => if n == 0 then Stuck else Done(st, stack[..n - 1])
    case CTop(v) => if n == 0 || stack[n - 1] != v then Stuck else Done(st, stack)
    case CArith(op) =>
      (match Arith(stack, op)
       case Pushed(after) => Done(st, after)
       case _ => Stuck)
    case CGet(t, k, v) => if Read(st, t, k) != v then Stuck else Done(st, stack + [v])
    case CSet(t, k) => if n == 0 then Stuck else Done(Write(st, t, k, stack[n - 1]), stack[..n - 1])
  }

  function Exec(st: Store, stack: seq<Value>, cmds: seq<Command>): Outcome {
    if cmds == [] then Done(st, stack)
    else
      match Exec(st, stack, cmds[..|cmds| - 1])
      case Done(st1, stack1) => Do(st1, stack1, cmds[|cmds| - 1])
      case Stuck => Stuck
  }

  /** Executes whole transactions one after the other, from the empty store. None if one of
      them gets stuck or ends with another stack than the one recorded. */
  function Serial(h: seq<Transaction>): Option<Store> {
    if h == [] then Some(map[])
    else
      match Serial(h[..|h| - 1])
      case None => None
      case Some(st) => SerialStep(st, h[|h| - 1])
  }

  function SerialStep(st: Store, x: Transaction): Option<Store> {
    match Exec(st, x.before, x.cmds)
    case Stuck => None
    case Done(st', after) => if after == x.after then Some(st') else None
  }

  // ---------------------------------------------------------------- whom a step concerns

  /** Only client c differs. */
  ghost predicate OnlyMoves(s: State, c: ClientId, s': State) {
    c in s'.clients && s'.clients == s.clients[c := s'.clients[c]]
  }

  lemma ReceivesMovesOne(s: State, c: ClientId, r: Request)
    requires c in s.clients
    ensures OnlyMoves(s, c, Receives(s, c, r))
  {
  }

  lemma LocksMovesOne(s: State, c: ClientId, r: Request, t: TableId)
    requires c in s.clients && t < |s.tables|
    ensures OnlyMoves(s, c, Locks(s, c, r, t))
  {
  }

  lemma AccessesMovesOne(s: State, c: ClientId, r: Request, t: TableId)
    requires c in s.clients && t < |s.tables|
    ensures OnlyMoves(s, c, Accesses(s, c, r, t))
  {
  }

  lemma LoopMovesOne(s: State, c: ClientId, on: Client, cur: Option<TableId>, r: Reply)
    requires c in s.clients
    ensures OnlyMoves(s, c, EndLoop(s, c, on, cur, r))
  {
  }

  /** In find_table and create_table only the place of the thread and its answer change. */
  lemma ConsultsClient(s: State, c: ClientId)
    requires c in s.clients && OnDirectory(s.clients[c].task)
    ensures c in Consults(s, c).clients
    ensures var cl' := Consults(s, c).clients[c];
            cl' == s.clients[c].(task := cl'.task, reply := cl'.reply) && (cl'.reply == s.clients[c].reply || !cl'.reply.Data?)
  {
    if s.clients[c].task.FindFound? {
      FoundClient(s, c);
    }
  }

  lemma FoundClient(s: State, c: ClientId)
    requires c in s.clients && s.clients[c].task.FindFound?
    ensures Consults(s, c).clients == s.clients[c := AfterFind(s.clients[c], s.clients[c].task.r, s.clients[c].task.found)]
  {
    hide AfterFind;
  }

  lemma DirectoryMovesOne(s: State, c: ClientId)
    requires c in s.clients
    requires OnDirectory(s.clients[c].task)
    ensures OnlyMoves(s, c, Consults(s, c))
  {
  }

  lemma PlainMovesOne(s: State, c: ClientId)
    requires c in s.clients
    requires var task := s.clients[c].task; !task.Locking? && !task.Access? && !task.Committing? && !task.Rolling?
    ensures OnlyMoves(s, c, Runs(s, c))
  {
    var task := s.clients[c].task;
    if OnDirectory(task) { DirectoryMovesOne(s, c); }
  }

  lemma RunsMovesOne(s: State, c: ClientId)
    requires c in s.clients
    ensures OnlyMoves(s, c, Runs(s, c))
  {
    var cl := s.clients[c];
    match cl.task
    case Locking(r, t) => if t < |s.tables| { LocksMovesOne(s, c, r, t); }
    case Access(r, t) => if t < |s.tables| { AccessesMovesOne(s, c, r, t); }
    case Committing(todo, cur) => LoopMovesOne(s, c, cl.(task := Committing(todo, None)), cur, Ok);
    case Rolling(todo, cur) => LoopMovesOne(s, c, cl.(task := Rolling(todo, None)), cur, Failed);
    case _ => PlainMovesOne(s, c);
  }

  /** A step changes no client but its own. */
  lemma OtherClients(s: State, d: ClientId, l: Label, c: ClientId)
    requires Enabled(s, d, l) && c != d
    ensures c in Next(s, d, l).clients <==> c in s.clients
    ensures c in s.clients ==> Next(s, d, l).clients[c] == s.clients[c]
  {
    match l
    case Connect(_) =>
    case Receive(r) => ReceivesMovesOne(s, d, r);
    case Run => RunsMovesOne(s, d);
    case Pick(_) =>
    case Throw =>
  }
}
