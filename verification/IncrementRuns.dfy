/** The request script of the incrementing client, followed through every interleaving. */
module IncrementRuns {
  import opened Basics
  import opened Calculator
  import opened Tables
  import opened Protocol
  import opened SerialFacts
  import opened Invariant
  import opened LoopSteps
  import opened Serializability
  import opened Increments

  /** The requests of the client program, in order; it stops at the first answer that is not OK. */
  function Script(name: string, key: Key): seq<Request> {
    [Login, Begin, Get(name, key), Push("1"), Arithmetic(Add), Set(name, key), Commit, Bye]
  }

  /** What the clients of I and the others do in a run: the ones follow the script on the key or
      hang up, the others never set the key of table t. */
  predicate Abides(s: State, mv: Move, I: set<ClientId>, name: string, key: Key, t: TableId) {
    if mv.c in I then
      mv.l.Receive? && mv.c in s.clients ==>
        var cl := s.clients[mv.c];
        || mv.l.r.Bad?
        || (|cl.received| < |Script(name, key)| && mv.l.r == Script(name, key)[|cl.received|] && (cl.received == [] || cl.reply == Ok))
    else
      mv.l.Run? && mv.c in s.clients && s.clients[mv.c].task.Access? && s.clients[mv.c].task.t == t && s.clients[mv.c].task.r.Set? ==>
        s.clients[mv.c].task.r.key != key
  }

  /** The commands recorded once n requests of the script are done; the GET has returned v. */
  function DoneCommands(n: nat, t: TableId, k: Key, v: Value): seq<Command> {
    if n <= 2 then [] else if n <= 6 then Increment(t, k, v)[..n - 2] else Increment(t, k, v)
  }

  predicate HasDone(cmds: seq<Command>, n: nat, t: TableId, k: Key) {
    cmds == DoneCommands(n, t, k, Got(cmds))
  }

  function Got(cmds: seq<Command>): Value {
    if cmds != [] && cmds[0].CGet? then cmds[0].v else ""
  }

  /** The client has been refused by its GET or its SET, or has left. */
  predicate Stopped(cl: Client) {
    || cl.task.Gone?
    || ((|cl.received| == 3 || |cl.received| == 6) && (cl.task.Rolling? || (cl.task.Idle? && cl.reply == Failed && !cl.inTxn)))
  }

  /** COMMIT has been accepted; no request but BYE is left. */
  predicate Accepted(cl: Client, name: string, key: Key) {
    && cl.received == Script(name, key)[..7] && cl.loggedIn
    && (cl.task.Committing? || (cl.task.Idle? && cl.reply == Ok && !cl.inTxn))
  }

  /** Waiting to send request number n + 1. */
  predicate Ready(cl: Client, name: string, key: Key, t: TableId) {
    var n := |cl.received|;
    && n <= 6 && cl.received == Script(name, key)[..n] && cl.task.Idle?
    && (n == 0 || (cl.reply == Ok && cl.loggedIn))
    && (cl.inTxn <==> n >= 2)
    && (cl.inTxn ==> HasDone(cl.cmds, n, t, key))
  }

  predicate OnTheWay(task: Task, r: Request, t: TableId) {
    match task
    case FindLock(q) => q == r
    case FindHeld(q) => q == r
    case FindFound(q, found) => q == r && (found.Some? ==> found.value == t)
    case Locking(q, u) => q == r && u == t
    case Access(q, u) => q == r && u == t
    case _ => false
  }

  /** The GET or the SET is being carried out. */
  predicate Working(cl: Client, name: string, key: Key, t: TableId) {
    var n := |cl.received|;
    && (n == 3 || n == 6) && cl.received == Script(name, key)[..n]
    && cl.inTxn && cl.loggedIn && HasDone(cl.cmds, n - 1, t, key)
    && OnTheWay(cl.task, Script(name, key)[n - 1], t)
  }

  predicate OnScript(cl: Client, name: string, key: Key, t: TableId) {
    Stopped(cl) || Accepted(cl, name, key) || Ready(cl, name, key, t) || Working(cl, name, key, t)
  }

  /** The COMMIT of this client has been accepted. */
  predicate HasCommitted(cl: Client) { |cl.received| >= 7 && cl.received[6].Commit? }

  // ---------------------------------------------------------------- one step of a script client

  lemma ScriptReceives(s: State, c: ClientId, r: Request, I: set<ClientId>, name: string, key: Key, t: TableId)
    requires Enabled(s, c, Receive(r)) && c in s.clients && c in I && OnScript(s.clients[c], name, key, t)
    requires Abides(s, Move(c, Receive(r)), I, name, key, t)
    ensures c in Receives(s, c, r).clients && OnScript(Receives(s, c, r).clients[c], name, key, t)
  {
    var cl := s.clients[c];
    var n := |cl.received|;
    if !r.Bad? {
      assert !Stopped(cl);
      assert cl.received + [r] == Script(name, key)[..n + 1];
      assert Ready(cl, name, key, t) || n == 7;
      if n == 3 || n == 4 { ScriptStackRequest(s, c, r, name, key, t); }
    }
  }

  lemma ScriptStackRequest(s: State, c: ClientId, r: Request, name: string, key: Key, t: TableId)
    requires c in s.clients && Ready(s.clients[c], name, key, t)
    requires (|s.clients[c].received| == 3 && r == Push("1")) || (|s.clients[c].received| == 4 && r == Arithmetic(Add))
    ensures c in Receives(s, c, r).clients && OnScript(Receives(s, c, r).clients[c], name, key, t)
  {
    var cl := s.clients[c];
    var n := |cl.received|;
    assert cl.received + [r] == Script(name, key)[..n + 1];
    var v := Got(cl.cmds);
    assert DoneCommands(n + 1, t, key, v) == DoneCommands(n, t, key, v) + [if n == 3 then CPush("1") else CArith(Add)];
  }

  lemma ScriptRuns(s: State, c: ClientId, name: string, key: Key, t: TableId)
    requires Enabled(s, c, Run) && c in s.clients && OnScript(s.clients[c], name, key, t)
    requires ClientOk(s.clients[c], |s.tables|)
    requires name in s.directory && s.directory[name] == t && t < |s.tables|
    ensures c in Runs(s, c).clients && OnScript(Runs(s, c).clients[c], name, key, t)
  {
    var cl := s.clients[c];
    match cl.task
    case Locking(_, _) => ScriptLocks(s, c, name, key, t);
    case Access(_, _) => ScriptAccesses(s, c, name, key, t);
    case Committing(_, _) => ScriptLoops(s, c, name, key, t);
    case Rolling(_, _) => ScriptLoops(s, c, name, key, t);
    case _ => ScriptConsults(s, c, name, key, t);
  }

  lemma ScriptConsults(s: State, c: ClientId, name: string, key: Key, t: TableId)
    requires c in s.clients && Working(s.clients[c], name, key, t) && OnDirectory(s.clients[c].task)
    requires name in s.directory && s.directory[name] == t
    ensures c in Runs(s, c).clients && OnScript(Runs(s, c).clients[c], name, key, t)
  {
  }

  lemma ScriptLocks(s: State, c: ClientId, name: string, key: Key, t: TableId)
    requires c in s.clients && Working(s.clients[c], name, key, t) && s.clients[c].task.Locking? && t < |s.tables|
    ensures c in Runs(s, c).clients && OnScript(Runs(s, c).clients[c], name, key, t)
  {
    assert Runs(s, c) == Locks(s, c, s.clients[c].task.r, s.clients[c].task.t);
    hide Runs, DoneCommands, Script;
  }

  lemma ScriptAccesses(s: State, c: ClientId, name: string, key: Key, t: TableId)
    requires c in s.clients && Working(s.clients[c], name, key, t) && s.clients[c].task.Access? && t < |s.tables|
    ensures c in Runs(s, c).clients && OnScript(Runs(s, c).clients[c], name, key, t)
  {
    var n := |s.clients[c].received|;
    var v := if n == 3 then Lookup(s.tables[t].Visible(), key) else Got(s.clients[c].cmds);
    assert DoneCommands(n, t, key, v) ==
           DoneCommands(n - 1, t, key, v) + [if n == 3 then CGet(t, key, v) else CSet(t, key)];
  }

  lemma ScriptLoops(s: State, c: ClientId, name: string, key: Key, t: TableId)
    requires c in s.clients && OnScript(s.clients[c], name, key, t) && Looping(s.clients[c].task)
    requires ClientOk(s.clients[c], |s.tables|)
    ensures c in Runs(s, c).clients && OnScript(Runs(s, c).clients[c], name, key, t)
  {
    hide Script, Consults, Locks, Accesses;
  }

  lemma ScriptStep(s: State, c: ClientId, l: Label, I: set<ClientId>, name: string, key: Key, t: TableId)
    requires Inv(s) && Enabled(s, c, l) && c in I && Abides(s, Move(c, l), I, name, key, t)
    requires c in s.clients ==> OnScript(s.clients[c], name, key, t)
    requires name in s.directory && s.directory[name] == t
    ensures c in Next(s, c, l).clients && OnScript(Next(s, c, l).clients[c], name, key, t)
  {
    if c in s.clients { assert LocalOk(s, c); }
    match l
    case Connect(_) =>
    case Throw =>
    case Receive(r) => ScriptReceives(s, c, r, I, name, key, t);
    case Run => ScriptRuns(s, c, name, key, t);
    case Pick(u) =>
  }

  /** Requests are recorded when they arrive, and only then. */
  lemma ReceivedOnly(s: State, c: ClientId, l: Label)
    requires Enabled(s, c, l) && c in s.clients
    ensures c in Next(s, c, l).clients
    ensures var r, r' := s.clients[c].received, Next(s, c, l).clients[c].received;
            r' == r || (l.Receive? && r' == r + [l.r])
    ensures l.Receive? && l.r.Commit? ==> Next(s, c, l).clients[c].received == s.clients[c].received + [l.r]
  {
    match l
    case Receive(r) => ReceiveRecords(s, c, r);
    case Run => RunRecordsNothing(s, c);
    case _ =>
  }

  lemma ReceiveRecords(s: State, c: ClientId, r: Request)
    requires c in s.clients
    ensures c in Receives(s, c, r).clients
    ensures var q := Receives(s, c, r).clients[c].received; q == s.clients[c].received || q == s.clients[c].received + [r]
    ensures r.Commit? ==> Receives(s, c, r).clients[c].received == s.clients[c].received + [r]
  {
    var cl := s.clients[c].(received := s.clients[c].received + [r]);
    if r.Arithmetic? {
      match Arith(cl.stack, r.op)
      case Rejected(stack) => FailureRecords(s, c, cl.(stack := stack));
      case _ =>
    } else {
      FailureRecords(s, c, cl);
    }
  }

  lemma FailureRecords(s: State, c: ClientId, cl: Client)
    requires c in s.clients
    ensures var s' := OperationFails(s, c, cl);
            c in s'.clients && (s'.clients[c].received == cl.received || s'.clients[c].received == s.clients[c].received)
  {
  }

  lemma RunRecordsNothing(s: State, c: ClientId)
    requires c in s.clients
    ensures c in Runs(s, c).clients && Runs(s, c).clients[c].received == s.clients[c].received
  {
    var cl := s.clients[c];
    if OnDirectory(cl.task) { ConsultsRecordNothing(s, c); }
    match cl.task
    case Locking(r, t) => if t < |s.tables| { LocksRecordNothing(s, c, r, t); }
    case Access(r, t) => if t < |s.tables| { AccessesRecordNothing(s, c, r, t); }
    case _ =>
  }

  lemma ConsultsRecordNothing(s: State, c: ClientId)
    requires c in s.clients && OnDirectory(s.clients[c].task)
    ensures c in Consults(s, c).clients && Consults(s, c).clients[c].received == s.clients[c].received
  {
    ConsultsClient(s, c);
    hide Consults;
  }

  lemma LocksRecordNothing(s: State, c: ClientId, r: Request, t: TableId)
    requires c in s.clients && t < |s.tables|
    ensures c in Locks(s, c, r, t).clients && Locks(s, c, r, t).clients[c].received == s.clients[c].received
  {
  }

  lemma AccessesRecordNothing(s: State, c: ClientId, r: Request, t: TableId)
    requires c in s.clients && t < |s.tables|
    ensures c in Accesses(s, c, r, t).clients && Accesses(s, c, r, t).clients[c].received == s.clients[c].received
  {
  }

  /** A script client takes effect exactly when its COMMIT is accepted, with one increment. */
  lemma ScriptTakesEffect(s: State, c: ClientId, l: Label, I: set<ClientId>, name: string, key: Key, t: TableId)
    requires Enabled(s, c, l) && c in I && Abides(s, Move(c, l), I, name, key, t)
    requires c in s.clients && OnScript(s.clients[c], name, key, t)
    ensures c in Next(s, c, l).clients
    ensures TakesEffect(s, c, l) ==> IsIncrement(s.clients[c].cmds, t, key) && !HasCommitted(s.clients[c])
    ensures HasCommitted(Next(s, c, l).clients[c]) <==> HasCommitted(s.clients[c]) || TakesEffect(s, c, l)
  {
    var cl := s.clients[c];
    assert Script(name, key)[6] == Commit;
    ReceivedOnly(s, c, l);
    if l.Receive? && l.r.Commit? {
      assert |cl.received| == 6 && cl.received == Script(name, key)[..6];
      assert Ready(cl, name, key, t);
    }
  }

  // ---------------------------------------------------------------- one step of another client

  /** A live client of the others has no set of the key among its commands. */
  predicate Innocent(cl: Client, t: TableId, key: Key) {
    Live(cl) ==> NeverSets(cl.cmds, t, key)
  }

  lemma OthersReceive(s: State, c: ClientId, r: Request, t: TableId, key: Key)
    requires c in s.clients && s.clients[c].task.Idle? && Innocent(s.clients[c], t, key)
    ensures c in Receives(s, c, r).clients && Innocent(Receives(s, c, r).clients[c], t, key)
  {
    var cl := s.clients[c].(received := s.clients[c].received + [r]);
    if r.Arithmetic? {
      match Arith(cl.stack, r.op)
      case Rejected(stack) => OthersFail(s, c, cl.(stack := stack), t, key);
      case _ =>
    } else {
      OthersFail(s, c, cl, t, key);
    }
  }

  lemma OthersFail(s: State, c: ClientId, cl: Client, t: TableId, key: Key)
    requires c in s.clients && Innocent(s.clients[c], t, key) && cl.cmds == s.clients[c].cmds && cl.inTxn == s.clients[c].inTxn
    ensures c in OperationFails(s, c, cl).clients && Innocent(OperationFails(s, c, cl).clients[c], t, key)
  {
  }

  lemma OthersLock(s: State, c: ClientId, r: Request, u: TableId, t: TableId, key: Key)
    requires c in s.clients && u < |s.tables| && s.clients[c].task.Locking? && Innocent(s.clients[c], t, key)
    ensures c in Locks(s, c, r, u).clients && Innocent(Locks(s, c, r, u).clients[c], t, key)
  {
  }

  lemma OthersAccess(s: State, c: ClientId, r: Request, u: TableId, t: TableId, key: Key)
    requires c in s.clients && u < |s.tables| && s.clients[c].task == Access(r, u) && Innocent(s.clients[c], t, key)
    requires u == t && r.Set? ==> r.key != key
    ensures c in Accesses(s, c, r, u).clients && Innocent(Accesses(s, c, r, u).clients[c], t, key)
  {
  }

  lemma ConsultsKeepCommands(s: State, c: ClientId)
    requires c in s.clients && OnDirectory(s.clients[c].task)
    ensures c in Consults(s, c).clients
    ensures var cl, cl' := s.clients[c], Consults(s, c).clients[c];
            cl'.cmds == cl.cmds && cl'.inTxn == cl.inTxn && !cl'.task.Publish?
  {
    var cl := s.clients[c];
    if cl.task.FindFound? { AfterFindKeepsCommands(cl, cl.task.r, cl.task.found); }
  }

  lemma AfterFindKeepsCommands(cl: Client, r: Request, found: Option<TableId>)
    ensures var cl' := AfterFind(cl, r, found);
            cl'.cmds == cl.cmds && cl'.inTxn == cl.inTxn && !(cl'.task.Publish? && !cl.task.Publish?)
  {
  }

  lemma OthersLoop(s: State, c: ClientId, l: Label, t: TableId, key: Key)
    requires Enabled(s, c, l) && c in s.clients && !OnDirectory(s.clients[c].task) && !l.Receive?
    requires !s.clients[c].task.Locking? && !s.clients[c].task.Access?
    ensures c in Next(s, c, l).clients && (Innocent(s.clients[c], t, key) ==> Innocent(Next(s, c, l).clients[c], t, key))
  {
  }

  lemma OthersStep(s: State, c: ClientId, l: Label, I: set<ClientId>, name: string, key: Key, t: TableId)
    requires Inv(s) && Enabled(s, c, l) && c !in I && Abides(s, Move(c, l), I, name, key, t)
    requires c in s.clients ==> Innocent(s.clients[c], t, key)
    ensures c in Next(s, c, l).clients && Innocent(Next(s, c, l).clients[c], t, key)
  {
    match l
    case Connect(_) =>
    case Throw =>
    case Receive(r) => OthersReceive(s, c, r, t, key);
    case Pick(u) => OthersLoop(s, c, l, t, key);
    case Run => OthersRun(s, c, I, name, key, t);
  }

  lemma OthersRun(s: State, c: ClientId, I: set<ClientId>, name: string, key: Key, t: TableId)
    requires Enabled(s, c, Run) && c !in I && Abides(s, Move(c, Run), I, name, key, t)
    requires c in s.clients && Innocent(s.clients[c], t, key)
    ensures c in Runs(s, c).clients && Innocent(Runs(s, c).clients[c], t, key)
  {
    var task := s.clients[c].task;
    if task.Locking? {
      if task.t < |s.tables| { OthersLock(s, c, task.r, task.t, t, key); }
    } else if task.Access? {
      if task.t < |s.tables| { OthersAccess(s, c, task.r, task.t, t, key); }
    } else if OnDirectory(task) {
      ConsultsKeepCommands(s, c);
    } else {
      OthersLoop(s, c, Run, t, key);
    }
  }

  // ---------------------------------------------------------------- whole runs

  function Committers(s: State, I: set<ClientId>): set<ClientId> {
    set c | c in I && c in s.clients && HasCommitted(s.clients[c])
  }

  ghost predicate Counting(s: State, h: seq<Transaction>, I: set<ClientId>, name: string, key: Key, t: TableId) {
    && (forall c :: c in s.clients ==> if c in I then OnScript(s.clients[c], name, key, t) else Innocent(s.clients[c], t, key))
    && h <= s.history
    && Increasing(s.history[|h|..], t, key)
    && Count(s.history[|h|..], t, key) == |Committers(s, I)|
  }

  lemma CountAppend(rest: seq<Transaction>, x: Transaction, t: TableId, k: Key)
    requires Increasing(rest, t, k) && (IsIncrement(x.cmds, t, k) || NeverSets(x.cmds, t, k))
    ensures Increasing(rest + [x], t, k)
    ensures Count(rest + [x], t, k) == Count(rest, t, k) + if IsIncrement(x.cmds, t, k) then 1 else 0
  {
    assert (rest + [x])[..|rest|] == rest;
  }

  lemma IncrementSets(cmds: seq<Command>, t: TableId, k: Key)
    requires IsIncrement(cmds, t, k)
    ensures !NeverSets(cmds, t, k)
  {
    assert cmds[3] == CSet(t, k);
  }

  /** The committers change by the script client whose COMMIT takes effect. */
  lemma CommittersStep(s: State, c: ClientId, l: Label, I: set<ClientId>, name: string, key: Key, t: TableId)
    requires Enabled(s, c, l) && Abides(s, Move(c, l), I, name, key, t)
    requires c in s.clients && c in I ==> OnScript(s.clients[c], name, key, t)
    ensures Committers(Next(s, c, l), I) ==
            if c in I && TakesEffect(s, c, l) then Committers(s, I) + {c} else Committers(s, I)
    ensures c in I && TakesEffect(s, c, l) ==> c !in Committers(s, I)
  {
    var s' := Next(s, c, l);
    if c in s.clients && c in I { ScriptTakesEffect(s, c, l, I, name, key, t); }
    forall d ensures d in Committers(s', I) <==> d in Committers(s, I) || (d == c && c in I && TakesEffect(s, c, l)) {
      if d != c { OtherClients(s, c, l, d); }
    }
  }

  lemma CountingClients(s: State, c: ClientId, l: Label, h: seq<Transaction>, I: set<ClientId>, name: string, key: Key, t: TableId)
    requires Inv(s) && Counting(s, h, I, name, key, t) && Enabled(s, c, l) && Abides(s, Move(c, l), I, name, key, t)
    requires name in s.directory && s.directory[name] == t
    ensures var s' := Next(s, c, l);
            forall d :: d in s'.clients ==> if d in I then OnScript(s'.clients[d], name, key, t) else Innocent(s'.clients[d], t, key)
  {
    var s' := Next(s, c, l);
    if c in I { ScriptStep(s, c, l, I, name, key, t); } else { OthersStep(s, c, l, I, name, key, t); }
    forall d | d in s'.clients
      ensures if d in I then OnScript(s'.clients[d], name, key, t) else Innocent(s'.clients[d], t, key)
    {
      if d != c { OtherClients(s, c, l, d); }
    }
  }

  lemma CountingHistory(s: State, s': State, h: seq<Transaction>, x: Transaction, I: set<ClientId>, t: TableId, key: Key)
    requires h <= s.history && Increasing(s.history[|h|..], t, key) && Count(s.history[|h|..], t, key) == |Committers(s, I)|
    requires s'.history == s.history + [x]
    requires if x.client in I then IsIncrement(x.cmds, t, key) && x.client !in Committers(s, I) && Committers(s', I) == Committers(s, I) + {x.client}
             else NeverSets(x.cmds, t, key) && Committers(s', I) == Committers(s, I)
    ensures h <= s'.history && Increasing(s'.history[|h|..], t, key) && Count(s'.history[|h|..], t, key) == |Committers(s', I)|
  {
    if IsIncrement(x.cmds, t, key) { IncrementSets(x.cmds, t, key); }
    CountAppend(s.history[|h|..], x, t, key);
    assert s'.history[|h|..] == s.history[|h|..] + [x];
  }

  lemma CountingStep(s: State, c: ClientId, l: Label, h: seq<Transaction>, I: set<ClientId>, name: string, key: Key, t: TableId)
    requires Inv(s) && Counting(s, h, I, name, key, t) && Enabled(s, c, l) && Abides(s, Move(c, l), I, name, key, t)
    requires name in s.directory && s.directory[name] == t
    ensures Counting(Next(s, c, l), h, I, name, key, t)
  {
    var s' := Next(s, c, l);
    CountingClients(s, c, l, h, I, name, key, t);
    CommittersStep(s, c, l, I, name, key, t);
    HistoryStep(s, c, l);
    if TakesEffect(s, c, l) {
      EffectIsCounted(s, c, l, I, name, key, t);
      CountingHistory(s, s', h, Transaction(c, s.clients[c].before, s.clients[c].cmds, s.clients[c].stack), I, t, key);
    }
  }

  lemma EffectIsCounted(s: State, c: ClientId, l: Label, I: set<ClientId>, name: string, key: Key, t: TableId)
    requires Inv(s) && Enabled(s, c, l) && TakesEffect(s, c, l) && Abides(s, Move(c, l), I, name, key, t)
    requires if c in I then OnScript(s.clients[c], name, key, t) else Innocent(s.clients[c], t, key)
    ensures if c in I then IsIncrement(s.clients[c].cmds, t, key) else NeverSets(s.clients[c].cmds, t, key)
  {
    if c in I { ScriptTakesEffect(s, c, l, I, name, key, t); }
  }

  lemma CountingStarts(s: State, I: set<ClientId>, name: string, key: Key, t: TableId)
    requires Inv(s) && t < |s.tables| && s.tables[t].owner.None? && (forall c :: c in I ==> c !in s.clients)
    ensures Counting(s, s.history, I, name, key, t)
  {
    assert Committers(s, I) == {};
    forall c | c in s.clients ensures Innocent(s.clients[c], t, key) {
      var cl := s.clients[c];
      assert LocalOk(s, c);
      if Live(cl) {
        assert !Owns(s, c, t) && t !in Holding(cl) && t !in Scope(cl);
        forall i | 0 <= i < |cl.cmds| ensures cl.cmds[i] != CSet(t, key) {
          assert Touches(cl.cmds[i], Scope(cl));
        }
      }
    }
  }

  lemma {:induction false} RunsCount(states: seq<State>, moves: seq<Move>, m: nat, i: nat, I: set<ClientId>, name: string, key: Key, t: TableId)
    requires IsRun(states, moves) && states[0] == INITIAL && m <= i < |states|
    requires t < |states[m].tables| && states[m].tables[t].owner.None? && (forall c :: c in I ==> c !in states[m].clients)
    requires forall j :: m <= j < i ==>
               Abides(states[j], moves[j], I, name, key, t) && name in states[j].directory && states[j].directory[name] == t
    ensures Counting(states[i], states[m].history, I, name, key, t)
  {
    if i == m {
      RunsKeepInvariant(states, moves, m);
      CountingStarts(states[m], I, name, key, t);
    } else {
      RunsCount(states, moves, m, i - 1, I, name, key, t);
      RunsKeepInvariant(states, moves, i - 1);
      CountingStep(states[i - 1], moves[i - 1].c, moves[i - 1].l, states[m].history, I, name, key, t);
    }
  }

  /** From any moment at which table t is free: while the clients of I connect and run the script
      on a name bound to t, and nobody else sets the key, the key's number is the one it had plus
      the number of COMMITs of I that were accepted, in every interleaving. Accepted COMMITs have
      been answered OK as soon as no commit loop is running. */
  lemma NoLostIncrements(states: seq<State>, moves: seq<Move>, m: nat, i: nat, I: set<ClientId>, name: string, key: Key, t: TableId)
    requires IsRun(states, moves) && states[0] == INITIAL && m <= i < |states|
    requires t < |states[m].tables| && states[m].tables[t].owner.None? && (forall c :: c in I ==> c !in states[m].clients)
    requires forall j :: m <= j < i ==>
               Abides(states[j], moves[j], I, name, key, t) && name in states[j].directory && states[j].directory[name] == t
    ensures Counted(Lookup(states[m].tables[t].committed, key), |Committers(states[i], I)|, Lookup(AbstractRow(states[i], t), key))
    ensures NobodyCommitting(states[i]) && t < |states[i].tables| ==>
              Counted(Lookup(states[m].tables[t].committed, key), |Committers(states[i], I)|, Lookup(states[i].tables[t].committed, key))
    ensures NobodyCommitting(states[i]) ==> forall c :: c in Committers(states[i], I) ==>
              states[i].clients[c].task.Gone? || (states[i].clients[c].task.Idle? && states[i].clients[c].reply == Ok)
  {
    RunsCount(states, moves, m, i, I, name, key, t);
    RunsKeepInvariant(states, moves, m);
    RunsKeepInvariant(states, moves, i);
    CountedNow(states[m], states[i], I, name, key, t);
    if NobodyCommitting(states[i]) { AcceptedAreAnswered(states[i], states[m].history, I, name, key, t); }
  }

  lemma CountedNow(s0: State, s: State, I: set<ClientId>, name: string, key: Key, t: TableId)
    requires HistoryOk(s0) && HistoryOk(s) && Counting(s, s0.history, I, name, key, t)
    requires t < |s0.tables| && s0.tables[t].owner.None?
    ensures Counted(Lookup(s0.tables[t].committed, key), |Committers(s, I)|, Lookup(AbstractRow(s, t), key))
    ensures NobodyCommitting(s) && t < |s.tables| ==> AbstractRow(s, t) == s.tables[t].committed
  {
    var h := s0.history;
    var rest := s.history[|h|..];
    assert h + rest == s.history;
    SerialIncrements(h, rest, t, key);
    assert Read(Serial(h).value, t, key) == Lookup(AbstractRow(s0, t), key);
    assert Read(Serial(s.history).value, t, key) == Lookup(AbstractRow(s, t), key);
  }

  lemma AcceptedAreAnswered(s: State, h: seq<Transaction>, I: set<ClientId>, name: string, key: Key, t: TableId)
    requires Counting(s, h, I, name, key, t) && NobodyCommitting(s)
    ensures forall c :: c in Committers(s, I) ==>
              s.clients[c].task.Gone? || (s.clients[c].task.Idle? && s.clients[c].reply == Ok)
  {
    forall c | c in Committers(s, I)
      ensures s.clients[c].task.Gone? || (s.clients[c].task.Idle? && s.clients[c].reply == Ok)
    {
      assert OnScript(s.clients[c], name, key, t);
    }
  }
}
