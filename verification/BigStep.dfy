/**
 What one request does when its thread runs undisturbed, stated at once and not step by step:
 the specification of the connection object, and what the steps of the protocol add up to.
 */
module BigStep {
  import opened Basics
  import opened Calculator
  import opened Tables
  import opened Protocol
  import opened Invariant
  import opened LoopSteps

  datatype Session = Session(loggedIn: bool, stack: seq<Value>, inTxn: bool, locked: set<TableId>, reply: Reply)

  /** What one client's code works on, without bookkeeping. */
  datatype Core = Core(tables: seq<TableState>, directory: map<string, TableId>, session: Session) {
    function Replied(r: Reply): Core { this.(session := session.(reply := r)) }

    function With(t: TableId, tb: TableState): Core
      requires t < |tables|
    {
      this.(tables := tables[t := tb])
    }

    function Stacked(stack: seq<Value>): Core { this.(session := session.(stack := stack)) }
  }

  /** The request is over and the client goes on or leaves; the process ends; the thread blocks. */
  datatype Ended = Continues(core: Core) | Leaves(core: Core) | Dies | Waits

  predicate WellFormed(core: Core) {
    && (forall n :: n in core.directory ==> core.directory[n] < |core.tables|)
    && (forall t :: t in core.session.locked ==> t < |core.tables|)
  }

  // ---------------------------------------------------------------- the pieces

  function CommittedAll(tables: seq<TableState>, todo: set<TableId>): (r: seq<TableState>)
    ensures |r| == |tables|
  {
    seq(|tables|, i requires 0 <= i < |tables| => if i in todo then tables[i].Commit().(owner := None) else tables[i])
  }

  function RolledBackAll(tables: seq<TableState>, todo: set<TableId>): (r: seq<TableState>)
    ensures |r| == |tables|
  {
    seq(|tables|, i requires 0 <= i < |tables| => if i in todo then tables[i].Rollback().(owner := None) else tables[i])
  }

  /** The end of a transaction, with the tables the loop over the locked tables left. */
  function Closed(core: Core, tables: seq<TableState>, r: Reply): Core {
    Core(tables, core.directory, core.session.(inTxn := false, locked := {}, reply := r))
  }

  function Operation(core: Core): Ended {
    if core.session.inTxn then Dies else Continues(core.Replied(Failed))
  }

  /** A GET or SET whose table is locked. */
  function Touch(core: Core, r: Request, t: TableId): Ended
    requires t < |core.tables|
  {
    var stack := core.session.stack;
    var n := |stack|;
    var tb := core.tables[t];
    if r.Get? then
      Continues(Finished(core.With(t, tb.AfterGet(r.key)).Stacked(stack + [Lookup(tb.Visible(), r.key)]), t))
    else if r.Set? && n > 0 then
      Continues(Finished(core.With(t, tb.Set(r.key, stack[n - 1])).Stacked(stack[..n - 1]), t))
    else Operation(core)
  }

  function Finished(core: Core, t: TableId): Core
    requires t < |core.tables|
  {
    (if core.session.inTxn then core else core.With(t, core.tables[t].Commit().(owner := None))).Replied(Ok)
  }

  /** A GET or SET about to lock its table. */
  function Reach(core: Core, c: ClientId, r: Request, t: TableId): Ended
    requires t < |core.tables|
  {
    var tb := core.tables[t];
    var taken := core.With(t, tb.(owner := Some(c)));
    if !core.session.inTxn then
      if tb.owner.None? then Touch(taken, r, t) else Waits
    else if t in core.session.locked then Touch(core, r, t)
    else if tb.owner.None? then
      Touch(taken.(session := core.session.(locked := core.session.locked + {t})), r, t)
    else Continues(Closed(core, RolledBackAll(core.tables, core.session.locked), Failed))
  }

  function Created(core: Core, name: string): Core {
    core.(directory := core.directory[name := |core.tables|],
          tables := core.tables + [TableState(name, None, map[], map[])]).Replied(Ok)
  }

  /** A request that names a table, once the table has been looked up. */
  function Named(core: Core, c: ClientId, r: Request, found: Option<TableId>): Ended
    requires found.Some? ==> found.value < |core.tables|
  {
    if r.Create? then
      if found.None? then Continues(Created(core, r.name)) else Leaves(core.Replied(Error))
    else if found.None? then Leaves(core.Replied(Error))
    else Reach(core, c, r, found.value)
  }

  function Find(core: Core, r: Request): Option<TableId> {
    if RequestName(r) in core.directory then Some(core.directory[RequestName(r)]) else None
  }

  /** What a request means. */
  function Meaning(core: Core, c: ClientId, r: Request): Ended
    requires WellFormed(core)
  {
    var stack := core.session.stack;
    var n := |stack|;
    if r.Garbled? then Dies
    else if r.Bad? then Leaves(core.Replied(Error))
    else if r.Login? then Continues(core.(session := core.session.(loggedIn := true)).Replied(Ok))
    else if !core.session.loggedIn then Leaves(core.Replied(Error))
    else
      match r
      case Push(v) => Continues(core.Stacked(stack + [v]).Replied(Ok))
      case Pop => if n == 0 then Operation(core) else Continues(core.Stacked(stack[..n - 1]).Replied(Ok))
      case Top => if n == 0 then Operation(core) else Continues(core.Replied(Data(stack[n - 1])))
      case Arithmetic(op) => Computed(core, Arith(stack, op))
      case Begin => Continues(core.(session := core.session.(inTxn := true)).Replied(Ok))
      case Commit => Continues(Closed(core, CommittedAll(core.tables, core.session.locked), Ok))
      case Bye => Leaves(core.Replied(Ok))
      case Create(_) => Named(core, c, r, Find(core, r))
      case Set(_, _) => Named(core, c, r, Find(core, r))
      case Get(_, _) => Named(core, c, r, Find(core, r))
  }

  function Computed(core: Core, a: Arithmetic): Ended {
    match a
    case Pushed(after) => Continues(core.Stacked(after).Replied(Ok))
    case Rejected(after) => Operation(core.Stacked(after))
    case Trapped => Dies
  }

  // ---------------------------------------------------------------- the steps add up to it

  function SessionOf(cl: Client): Session {
    Session(cl.loggedIn, cl.stack, cl.inTxn, cl.locked, cl.reply)
  }

  function CoreOf(s: State, c: ClientId): Core
    requires c in s.clients
  {
    Core(s.tables, s.directory, SessionOf(s.clients[c]))
  }

  function Released(tables: seq<TableState>, cur: Option<TableId>): seq<TableState> {
    if cur.Some? && cur.value < |tables| then tables[cur.value := tables[cur.value].(owner := None)] else tables
  }

  predicate Fits(task: Task, n: nat) {
    match task
    case FindFound(_, found) => found.Some? ==> found.value < n
    case Locking(_, t) => t < n
    case Access(_, t) => t < n
    case Publish(t) => t < n
    case Release(t) => t < n
    case Committing(todo, cur) => (forall t :: t in todo ==> t < n) && (cur.Some? ==> cur.value < n)
    case Rolling(todo, cur) => (forall t :: t in todo ==> t < n) && (cur.Some? ==> cur.value < n)
    case _ => true
  }

  /** The tables a client's thread knows exist. */
  predicate Sound(s: State, c: ClientId) {
    c in s.clients && Fits(s.clients[c].task, |s.tables|) && WellFormed(CoreOf(s, c))
  }

  /** What the rest of a request still does, from any point of its code. */
  function Rest(s: State, c: ClientId): Ended
    requires Sound(s, c)
  {
    var core := CoreOf(s, c);
    if s.down then Dies
    else
      match s.clients[c].task
      case Idle => Continues(core)
      case Gone => Leaves(core)
      case FindLock(r) => if s.dirOwner.None? then Named(core, c, r, Find(core, r)) else Waits
      case FindHeld(r) => Named(core, c, r, Find(core, r))
      case FindFound(r, found) => Named(core, c, r, found)
      case CreateLock(name) => if s.dirOwner.None? then Continues(Created(core, name)) else Waits
      case CreateHeld(name) => Continues(Created(core, name))
      case CreateDone => Continues(core.Replied(Ok))
      case Locking(r, t) => Reach(core, c, r, t)
      case Access(r, t) => Touch(core, r, t)
      case Publish(t) => Continues(core.With(t, core.tables[t].Commit().(owner := None)).Replied(Ok))
      case Release(t) => Continues(core.With(t, core.tables[t].(owner := None)).Replied(Ok))
      case Committing(todo, cur) => Continues(Closed(core, CommittedAll(Released(core.tables, cur), todo), Ok))
      case Rolling(todo, cur) => Continues(Closed(core, RolledBackAll(Released(core.tables, cur), todo), Failed))
  }

  // One lemma for each place of the code: after the step, the rest of the request means the same.

  lemma Moved(s: State, c: ClientId, cl: Client, dir: Option<ClientId>)
    requires Sound(s, c) && cl.locked == s.clients[c].locked && Fits(cl.task, |s.tables|)
    ensures Sound(s.Put(c, cl).(dirOwner := dir), c)
    ensures CoreOf(s.Put(c, cl).(dirOwner := dir), c) == CoreOf(s, c).(session := SessionOf(cl))
  {
  }

  lemma FindRest(s: State, c: ClientId)
    requires Sound(s, c) && Enabled(s, c, Run) && (s.clients[c].task.FindLock? || s.clients[c].task.FindHeld?)
    ensures Sound(Consults(s, c), c) && Rest(Consults(s, c), c) == Rest(s, c)
  {
    var cl := s.clients[c];
    if cl.task.FindLock? {
      Moved(s, c, cl.(task := FindHeld(cl.task.r)), Some(c));
    } else {
      Moved(s, c, cl.(task := FindFound(cl.task.r, Find(CoreOf(s, c), cl.task.r))), s.dirOwner);
    }
    hide WellFormed, Named;
  }

  lemma FoundRest(s: State, c: ClientId)
    requires Sound(s, c) && Enabled(s, c, Run) && s.clients[c].task.FindFound?
    ensures Sound(Consults(s, c), c) && Rest(Consults(s, c), c) == Rest(s, c)
  {
    var cl := s.clients[c];
    var r, found := cl.task.r, cl.task.found;
    var s' := s.Put(c, AfterFind(cl, r, found)).(dirOwner := None);
    assert Consults(s, c) == s';
    Moved(s, c, AfterFind(cl, r, found), None);
    hide Consults, Sound;
    if found.None? && r.Create? {
      assert s'.clients[c].task == CreateLock(r.name);
    }
    hide WellFormed, Reach, Created, Enabled;
  }

  lemma CreateRest(s: State, c: ClientId)
    requires Sound(s, c) && Enabled(s, c, Run) && (s.clients[c].task.CreateLock? || s.clients[c].task.CreateDone?)
    ensures Sound(Consults(s, c), c) && Rest(Consults(s, c), c) == Rest(s, c)
  {
    var cl := s.clients[c];
    if cl.task.CreateLock? {
      Moved(s, c, cl.(task := CreateHeld(cl.task.name)), Some(c));
    } else {
      Moved(s, c, cl.Answer(Ok), None);
    }
    hide WellFormed, Created;
  }

  lemma CreatedRest(s: State, c: ClientId)
    requires Sound(s, c) && Enabled(s, c, Run) && s.clients[c].task.CreateHeld?
    ensures Sound(Consults(s, c), c) && Rest(Consults(s, c), c) == Rest(s, c)
  {
  }

  lemma DirectoryRest(s: State, c: ClientId)
    requires Sound(s, c) && Enabled(s, c, Run) && OnDirectory(s.clients[c].task)
    ensures Sound(Consults(s, c), c) && Rest(Consults(s, c), c) == Rest(s, c)
  {
    match s.clients[c].task
    case FindLock(_) => FindRest(s, c);
    case FindHeld(_) => FindRest(s, c);
    case FindFound(_, _) => FoundRest(s, c);
    case CreateLock(_) => CreateRest(s, c);
    case CreateDone => CreateRest(s, c);
    case CreateHeld(_) => CreatedRest(s, c);
  }

  lemma TouchedCore(s: State, c: ClientId, t: TableId, tb: TableState, cl: Client)
    requires Sound(s, c) && t < |s.tables| && cl.locked <= s.clients[c].locked + {t} && Fits(cl.task, |s.tables|)
    ensures Sound(s.PutTable(t, tb).Put(c, cl), c)
    ensures CoreOf(s.PutTable(t, tb).Put(c, cl), c) == CoreOf(s, c).With(t, tb).(session := SessionOf(cl))
  {
  }

  lemma LockRest(s: State, c: ClientId, r: Request, t: TableId)
    requires Sound(s, c) && Enabled(s, c, Run) && s.clients[c].task == Locking(r, t)
    ensures Sound(Locks(s, c, r, t), c) && Rest(Locks(s, c, r, t), c) == Reach(CoreOf(s, c), c, r, t)
  {
    var cl, tb := s.clients[c], s.tables[t];
    var entered := cl.(task := Access(r, t));
    if !cl.inTxn {
      TouchedCore(s, c, t, tb.(owner := Some(c)), entered);
    } else if t in cl.locked {
      Moved(s, c, entered, s.dirOwner);
    } else if tb.owner.None? {
      TouchedCore(s, c, t, tb.(owner := Some(c)), entered.(locked := cl.locked + {t}));
    } else {
      Moved(s, c, cl.(task := Rolling(cl.locked, None), cmds := []), s.dirOwner);
    }
    hide Touch, WellFormed, RolledBackAll;
  }

  lemma AccessRest(s: State, c: ClientId, r: Request, t: TableId)
    requires Sound(s, c) && Enabled(s, c, Run) && s.clients[c].task == Access(r, t)
    ensures Sound(Accesses(s, c, r, t), c) && Rest(Accesses(s, c, r, t), c) == Touch(CoreOf(s, c), r, t)
  {
    if r.Get? { GetRest(s, c, r, t); } else { SetRest(s, c, r, t); }
    hide Accesses, Touch, Rest, Sound;
  }

  lemma GetRest(s: State, c: ClientId, r: Request, t: TableId)
    requires Sound(s, c) && Enabled(s, c, Run) && s.clients[c].task == Access(r, t) && r.Get?
    ensures Sound(Accesses(s, c, r, t), c) && Rest(Accesses(s, c, r, t), c) == Touch(CoreOf(s, c), r, t)
  {
  }

  lemma SetRest(s: State, c: ClientId, r: Request, t: TableId)
    requires Sound(s, c) && Enabled(s, c, Run) && s.clients[c].task == Access(r, t) && !r.Get?
    ensures Sound(Accesses(s, c, r, t), c) && Rest(Accesses(s, c, r, t), c) == Touch(CoreOf(s, c), r, t)
  {
  }

  lemma AllDone(tables: seq<TableState>)
    ensures CommittedAll(tables, {}) == tables && RolledBackAll(tables, {}) == tables
  {
  }

  lemma PickedOne(tables: seq<TableState>, todo: set<TableId>, t: TableId)
    requires t in todo
    ensures t < |tables| ==>
              && CommittedAll(Released(tables[t := tables[t].Commit()], Some(t)), todo - {t}) == CommittedAll(tables, todo)
              && RolledBackAll(Released(tables[t := tables[t].Rollback()], Some(t)), todo - {t}) == RolledBackAll(tables, todo)
    ensures t >= |tables| ==>
              && CommittedAll(Released(tables, Some(t)), todo - {t}) == CommittedAll(tables, todo)
              && RolledBackAll(Released(tables, Some(t)), todo - {t}) == RolledBackAll(tables, todo)
  {
  }

  lemma UnlockRest(s: State, c: ClientId, t: TableId)
    requires Sound(s, c) && Enabled(s, c, Run) && t < |s.tables|
    requires var task := s.clients[c].task; (task.Committing? || task.Rolling?) && task.cur == Some(t)
    ensures Sound(Runs(s, c), c) && Rest(Runs(s, c), c) == Rest(s, c)
  {
    var cl := s.clients[c];
    var on := if cl.task.Committing? then cl.(task := Committing(cl.task.todo, None)) else cl.(task := Rolling(cl.task.todo, None));
    TouchedCore(s, c, t, s.tables[t].(owner := None), on);
    assert Runs(s, c) == s.PutTable(t, s.tables[t].(owner := None)).Put(c, on);
    hide CommittedAll, RolledBackAll, WellFormed;
  }

  lemma CloseRest(s: State, c: ClientId)
    requires Sound(s, c) && Enabled(s, c, Run)
    requires var task := s.clients[c].task; (task.Committing? || task.Rolling?) && task.cur == None
    ensures Sound(Runs(s, c), c) && Rest(Runs(s, c), c) == Rest(s, c)
  {
    AllDone(s.tables);
    hide CommittedAll, RolledBackAll;
  }

  lemma LoopRest(s: State, c: ClientId)
    requires Sound(s, c) && Enabled(s, c, Run) && (s.clients[c].task.Committing? || s.clients[c].task.Rolling?)
    ensures Sound(Runs(s, c), c) && Rest(Runs(s, c), c) == Rest(s, c)
  {
    var cur := s.clients[c].task.cur;
    if cur.None? { CloseRest(s, c); } else { UnlockRest(s, c, cur.value); }
  }

  lemma PickRest(s: State, c: ClientId, t: TableId)
    requires Sound(s, c) && Enabled(s, c, Pick(t))
    ensures Sound(Picks(s, c, t), c) && Rest(Picks(s, c, t), c) == Rest(s, c)
  {
    var cl := s.clients[c];
    if t < |s.tables| {
      PickedOne(s.tables, cl.task.todo, t);
      if cl.task.Committing? {
        TouchedCore(s, c, t, s.tables[t].Commit(), cl.(task := Committing(cl.task.todo - {t}, Some(t))));
      } else {
        TouchedCore(s, c, t, s.tables[t].Rollback(), cl.(task := Rolling(cl.task.todo - {t}, Some(t))));
      }
    }
    hide CommittedAll, RolledBackAll, WellFormed;
  }

  lemma AutocommitRest(s: State, c: ClientId, t: TableId)
    requires Sound(s, c) && Enabled(s, c, Run) && (s.clients[c].task == Publish(t) || s.clients[c].task == Release(t))
    ensures Sound(Runs(s, c), c) && Rest(Runs(s, c), c) == Rest(s, c)
  {
    var cl := s.clients[c];
    if cl.task.Publish? {
      TouchedCore(s, c, t, s.tables[t].Commit(), cl.(task := Release(t), cmds := []));
    } else {
      TouchedCore(s, c, t, s.tables[t].(owner := None), cl.Answer(Ok));
    }
    hide WellFormed;
  }

  /** A step of a request in progress. */
  predicate GoesOn(l: Label) { l.Run? || l.Pick? }

  lemma StepRest(s: State, c: ClientId, l: Label)
    requires Sound(s, c) && Enabled(s, c, l) && GoesOn(l)
    ensures Sound(Next(s, c, l), c) && Rest(Next(s, c, l), c) == Rest(s, c)
  {
    if l.Pick? {
      PickRest(s, c, l.t);
    } else if OnDirectory(s.clients[c].task) {
      DirectoryRest(s, c);
    } else {
      match s.clients[c].task
      case Locking(r, t) => LockRest(s, c, r, t);
      case Access(r, t) => AccessRest(s, c, r, t);
      case Publish(t) => AutocommitRest(s, c, t);
      case Release(t) => AutocommitRest(s, c, t);
      case Committing(_, _) => LoopRest(s, c);
      case Rolling(_, _) => LoopRest(s, c);
    }
    hide Rest, Sound, Consults, Locks, Accesses, EndLoop, Picks, Runs;
  }

  // ---------------------------------------------------------------- whole requests

  predicate Local(r: Request) {
    r.Push? || r.Pop? || r.Top? || r.Arithmetic? || r.Begin?
  }

  lemma LocalRest(s: State, c: ClientId, r: Request)
    requires Sound(s, c) && Enabled(s, c, Receive(r)) && s.clients[c].loggedIn && Local(r)
    ensures Sound(Receives(s, c, r), c) && Rest(Receives(s, c, r), c) == Meaning(CoreOf(s, c), c, r)
  {
    if r.Arithmetic? { ComputedRest(s, c, r.op); } else { StackRest(s, c, r); }
  }

  lemma ComputedRest(s: State, c: ClientId, op: Operator)
    requires Sound(s, c) && Enabled(s, c, Receive(Arithmetic(op))) && s.clients[c].loggedIn
    ensures Sound(Receives(s, c, Arithmetic(op)), c)
    ensures Rest(Receives(s, c, Arithmetic(op)), c) == Meaning(CoreOf(s, c), c, Arithmetic(op))
  {
    hide Arith;
  }

  lemma StackRest(s: State, c: ClientId, r: Request)
    requires Sound(s, c) && Enabled(s, c, Receive(r)) && s.clients[c].loggedIn
    requires r.Push? || r.Pop? || r.Top? || r.Begin?
    ensures Sound(Receives(s, c, r), c) && Rest(Receives(s, c, r), c) == Meaning(CoreOf(s, c), c, r)
  {
  }

  lemma NamedRest(s: State, c: ClientId, r: Request)
    requires Sound(s, c) && Enabled(s, c, Receive(r)) && s.clients[c].loggedIn && NamesTable(r) && s.dirOwner.None?
    ensures Sound(Receives(s, c, r), c) && Rest(Receives(s, c, r), c) == Meaning(CoreOf(s, c), c, r)
  {
    var cl := s.clients[c].(received := s.clients[c].received + [r]);
    Moved(s, c, cl.(task := FindLock(r)), s.dirOwner);
    assert Receives(s, c, r) == s.Put(c, cl.(task := FindLock(r)));
    hide Receives, Sound, Named;
  }

  lemma CommitRest(s: State, c: ClientId)
    requires Sound(s, c) && Enabled(s, c, Receive(Commit)) && s.clients[c].loggedIn
    ensures Sound(Receives(s, c, Commit), c) && Rest(Receives(s, c, Commit), c) == Meaning(CoreOf(s, c), c, Commit)
  {
    hide CommittedAll;
  }

  lemma ReceiveRest(s: State, c: ClientId, r: Request)
    requires Sound(s, c) && Enabled(s, c, Receive(r)) && s.dirOwner.None?
    ensures Sound(Receives(s, c, r), c) && Rest(Receives(s, c, r), c) == Meaning(CoreOf(s, c), c, r)
  {
    if s.clients[c].loggedIn && Local(r) { LocalRest(s, c, r); }
    else if s.clients[c].loggedIn && NamesTable(r) { NamedRest(s, c, r); }
    else if s.clients[c].loggedIn && r.Commit? { CommitRest(s, c); }
    else { RefusedRest(s, c, r); }
  }

  lemma RefusedRest(s: State, c: ClientId, r: Request)
    requires Sound(s, c) && Enabled(s, c, Receive(r))
    requires !s.clients[c].loggedIn || !(Local(r) || NamesTable(r) || r.Commit?)
    ensures Sound(Receives(s, c, r), c) && Rest(Receives(s, c, r), c) == Meaning(CoreOf(s, c), c, r)
  {
    var cl := s.clients[c].(received := s.clients[c].received + [r]);
    var cl' := if r.Login? then cl.(loggedIn := true).Answer(Ok)
               else if r.Bad? || !cl.loggedIn then cl.Leave(Error)
               else cl.Leave(Ok);
    if !r.Garbled? {
      assert Receives(s, c, r) == s.Put(c, cl');
      Moved(s, c, cl', s.dirOwner);
      assert s.Put(c, cl').(dirOwner := s.dirOwner) == s.Put(c, cl');
      hide Receives, Sound;
    }
    hide Enabled, Named, WellFormed;
  }

  /** States that follow one another by steps of client c's thread inside a request. */
  ghost predicate Proceeds(states: seq<State>, c: ClientId) {
    && states != []
    && forall i :: 0 <= i < |states| - 1 ==> ProceedsTo(states[i], c, states[i + 1])
  }

  ghost predicate ProceedsTo(s: State, c: ClientId, s': State) {
    exists l :: GoesOn(l) && Enabled(s, c, l) && s' == Next(s, c, l)
  }

  predicate Over(s: State, c: ClientId)
    requires c in s.clients
  {
    s.down || s.clients[c].task.Idle? || s.clients[c].task.Gone?
  }

  lemma {:induction false} ProceedingKeepsRest(states: seq<State>, c: ClientId)
    requires Proceeds(states, c) && Sound(states[0], c)
    ensures var s := states[|states| - 1]; Sound(s, c) && Rest(s, c) == Rest(states[0], c)
    decreases |states|
  {
    if |states| > 1 {
      assert ProceedsTo(states[0], c, states[1]);
      var l :| GoesOn(l) && Enabled(states[0], c, l) && states[1] == Next(states[0], c, l);
      StepRest(states[0], c, l);
      hide Next, Rest, Enabled, Sound;
      var rest := states[1..];
      assert Proceeds(rest, c) by {
        forall i | 0 <= i < |rest| - 1 ensures ProceedsTo(rest[i], c, rest[i + 1]) {
          assert ProceedsTo(states[i + 1], c, states[i + 2]);
        }
      }
      ProceedingKeepsRest(rest, c);
    }
  }

  lemma ReachableSound(s: State, c: ClientId)
    requires Reachable(s) && c in s.clients && s.clients[c].task.Idle?
    ensures Sound(s, c)
  {
    ReachableInvariant(s);
    assert LocalOk(s, c);
    forall t | t in s.clients[c].locked ensures t < |s.tables| {
      assert t in Holding(s.clients[c]);
      assert Owns(s, c, t);
    }
  }

  /** However the loops over the locked tables were ordered, a request whose thread ran undisturbed
      has done, when it is over, what its meaning says. */
  lemma UndisturbedRequests(s: State, c: ClientId, r: Request, states: seq<State>)
    requires Reachable(s) && Enabled(s, c, Receive(r)) && s.dirOwner.None?
    requires Proceeds(states, c) && states[0] == Next(s, c, Receive(r))
    ensures Sound(s, c) && c in states[|states| - 1].clients
    ensures var end := states[|states| - 1];
            Over(end, c) ==>
              Meaning(CoreOf(s, c), c, r) ==
              if end.down then Dies else if end.clients[c].task.Idle? then Continues(CoreOf(end, c)) else Leaves(CoreOf(end, c))
  {
    ReachableSound(s, c);
    ReceiveRest(s, c, r);
    ProceedingKeepsRest(states, c);
    hide Meaning, Next, Named, Created, Reach, Touch, CommittedAll, RolledBackAll, Closed, Proceeds;
  }

  // ---------------------------------------------------------------- every request comes to an end

  function Phase(task: Task): nat {
    match task
    case FindLock(_) => 9
    case FindHeld(_) => 8
    case FindFound(_, _) => 7
    case CreateLock(_) => 6
    case CreateHeld(_) => 5
    case CreateDone => 4
    case Locking(_, _) => 6
    case Access(_, _) => 4
    case Publish(_) => 3
    case Release(_) => 2
    case Committing(_, _) => 1
    case Rolling(_, _) => 1
    case Idle => 0
    case Gone => 0
  }

  /** The steps a loop over the locked tables has left. */
  function LoopSize(task: Task): nat {
    if task.Committing? || task.Rolling? then 2 * |task.todo| + (if task.cur.Some? then 1 else 0) else 0
  }

  predicate Nearer(now: Task, was: Task) {
    Phase(now) < Phase(was) || (Phase(now) == Phase(was) && LoopSize(now) < LoopSize(was))
  }

  lemma LoopProgress(s: State, c: ClientId) returns (l: Label)
    requires Sound(s, c) && !s.down && (s.clients[c].task.Committing? || s.clients[c].task.Rolling?)
    ensures GoesOn(l) && Enabled(s, c, l) && c in Next(s, c, l).clients && Nearer(Next(s, c, l).clients[c].task, s.clients[c].task)
  {
    var task := s.clients[c].task;
    if task.cur.None? && task.todo != {} {
      var t :| t in task.todo;
      l := Pick(t);
      PickProgress(s, c, t);
    } else {
      l := Run;
      RunProgress(s, c);
    }
    hide Next, Nearer, Sound;
  }

  lemma PickProgress(s: State, c: ClientId, t: TableId)
    requires Sound(s, c) && Enabled(s, c, Pick(t))
    ensures c in Next(s, c, Pick(t)).clients && Nearer(Next(s, c, Pick(t)).clients[c].task, s.clients[c].task)
  {
    var task := s.clients[c].task;
    assert Next(s, c, Pick(t)) == Picks(s, c, t) && |task.todo - {t}| == |task.todo| - 1;
    hide Next, Enabled;
  }

  lemma RunProgress(s: State, c: ClientId)
    requires Sound(s, c) && Enabled(s, c, Run) && (s.clients[c].task.Committing? || s.clients[c].task.Rolling?)
    ensures c in Next(s, c, Run).clients && Nearer(Next(s, c, Run).clients[c].task, s.clients[c].task)
  {
    var cl := s.clients[c];
    var on := if cl.task.Committing? then cl.(task := Committing(cl.task.todo, None)) else cl.(task := Rolling(cl.task.todo, None));
    var r := if cl.task.Committing? then Ok else Failed;
    assert Next(s, c, Run) == EndLoop(s, c, on, cl.task.cur, r);
    hide Next, Enabled, Runs;
  }

  lemma DirectoryProgress(s: State, c: ClientId)
    requires c in s.clients && !s.down && OnDirectory(s.clients[c].task)
    requires s.clients[c].task.FindLock? || s.clients[c].task.CreateLock? ==> s.dirOwner.None?
    ensures Enabled(s, c, Run)
    ensures c in Consults(s, c).clients && Nearer(Consults(s, c).clients[c].task, s.clients[c].task)
  {
    assert Enabled(s, c, Run);
    hide Enabled;
    var cl := s.clients[c];
    match cl.task
    case FindFound(r, found) => FoundIsNearer(cl, r, found);
    case FindLock(_) =>
    case FindHeld(_) =>
    case CreateLock(_) =>
    case CreateHeld(_) =>
    case CreateDone =>
  }

  lemma FoundIsNearer(cl: Client, r: Request, found: Option<TableId>)
    ensures Nearer(AfterFind(cl, r, found).task, FindFound(r, found))
  {
  }

  lemma LockingProgress(s: State, c: ClientId, r: Request, t: TableId)
    requires Sound(s, c) && !s.down && s.clients[c].task == Locking(r, t)
    requires s.clients[c].inTxn || s.tables[t].owner.None?
    ensures Enabled(s, c, Run)
    ensures c in Locks(s, c, r, t).clients && Nearer(Locks(s, c, r, t).clients[c].task, s.clients[c].task)
  {
  }

  lemma AccessProgress(s: State, c: ClientId, r: Request, t: TableId)
    requires Sound(s, c) && !s.down && s.clients[c].task == Access(r, t)
    ensures Enabled(s, c, Run)
    ensures var s' := Accesses(s, c, r, t); c in s'.clients && (s'.down || Nearer(s'.clients[c].task, s.clients[c].task))
  {
  }

  /** A thread that neither waits nor is done can go on, and gets nearer to the end. */
  lemma Progress(s: State, c: ClientId) returns (l: Label)
    requires Sound(s, c) && !Over(s, c) && !Rest(s, c).Waits?
    ensures GoesOn(l) && Enabled(s, c, l)
    ensures var s' := Next(s, c, l); c in s'.clients && (s'.down || Nearer(s'.clients[c].task, s.clients[c].task))
  {
    l := Run;
    if OnDirectory(s.clients[c].task) {
      hide Named;
      DirectoryProgress(s, c);
    } else {
      match s.clients[c].task
      case Locking(r, t) =>
        hide Touch;
        LockingProgress(s, c, r, t);
      case Access(r, t) => AccessProgress(s, c, r, t);
      case Publish(_) =>
      case Release(_) =>
      case Committing(_, _) => l := LoopProgress(s, c);
      case Rolling(_, _) => l := LoopProgress(s, c);
    }
  }

  /** An undisturbed request that need not wait comes to an end. */
  lemma Finishes(s: State, c: ClientId) returns (states: seq<State>)
    requires Sound(s, c) && !Rest(s, c).Waits?
    ensures Proceeds(states, c) && states[0] == s
    ensures c in states[|states| - 1].clients && Over(states[|states| - 1], c)
    decreases if Over(s, c) then 0 else 1, Phase(s.clients[c].task), LoopSize(s.clients[c].task)
  {
    states := [s];
    if !Over(s, c) {
      var l := Progress(s, c);
      StepRest(s, c, l);
      hide Rest, Enabled, Next, Sound, Proceeds, ProceedsTo, Meaning;
      var s' := Next(s, c, l);
      var later := Finishes(s', c);
      OneProceeds(s, c, l);
      ProceedsBefore(s, c, later);
      states := [s] + later;
    }
  }

  lemma OneProceeds(s: State, c: ClientId, l: Label)
    requires GoesOn(l) && Enabled(s, c, l)
    ensures ProceedsTo(s, c, Next(s, c, l))
  {
    hide Next, Enabled;
  }

  lemma ProceedsBefore(s: State, c: ClientId, later: seq<State>)
    requires Proceeds(later, c) && ProceedsTo(s, c, later[0])
    ensures Proceeds([s] + later, c)
  {
    hide ProceedsTo;
    var states := [s] + later;
    assert forall i :: 1 <= i < |states| - 1 ==> states[i] == later[i - 1] && states[i + 1] == later[i];
  }

  /** Unless it must wait, a request whose thread runs undisturbed does what its meaning says. */
  lemma RequestsComplete(s: State, c: ClientId, r: Request) returns (states: seq<State>)
    requires Reachable(s) && Enabled(s, c, Receive(r)) && s.dirOwner.None?
    requires Sound(s, c) && !Meaning(CoreOf(s, c), c, r).Waits?
    ensures Proceeds(states, c) && states[0] == Next(s, c, Receive(r))
    ensures var end := states[|states| - 1];
            && c in end.clients && Over(end, c)
            && Meaning(CoreOf(s, c), c, r) ==
               if end.down then Dies else if end.clients[c].task.Idle? then Continues(CoreOf(end, c)) else Leaves(CoreOf(end, c))
  {
    ReceiveRest(s, c, r);
    assert Next(s, c, Receive(r)) == Receives(s, c, r);
    hide Meaning, Next, Receives, Rest, Proceeds, Sound;
    states := Finishes(Next(s, c, Receive(r)), c);
    UndisturbedRequests(s, c, r, states);
  }
}
