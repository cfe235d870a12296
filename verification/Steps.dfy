/** Every step of every client keeps the invariant, case by case along the code. */
module Steps {
  import opened Basics
  import opened Calculator
  import opened Tables
  import opened Protocol
  import opened SerialFacts
  import opened Invariant

  ghost predicate SameAbstractly(s: State, s': State, t: TableId) {
    forall k {:trigger Lookup(AbstractRow(s', t), k)} :: Lookup(AbstractRow(s', t), k) == Lookup(AbstractRow(s, t), k)
  }

  lemma NotHeld(s: State, c: ClientId, t: TableId)
    requires Inv(s) && c in s.clients && !Owns(s, c, t)
    ensures t !in Holding(s.clients[c])
  {
    assert LocalOk(s, c);
  }

  /** A step that appends nothing to the history keeps it right when it keeps the abstract rows
      of the tables of its own client. */
  lemma QuietHistory(s: State, c: ClientId, s': State)
    requires Inv(s) && Frame(s, c, s') && c in s'.clients && s'.history == s.history
    requires forall t: TableId :: Owns(s, c, t) ==> SameAbstractly(s, s', t)
    requires !s'.clients[c].task.Committing? || (c in s.clients && s'.clients[c].task.todo <= Holding(s.clients[c]))
    ensures HistoryOk(s')
  {
    QuietRows(s, c, s');
    hide Frame, LocalOk, AbstractRow, DirectoryOk;
    forall t, k ensures Read(Serial(s'.history).value, t, k) == Lookup(AbstractRow(s', t), k) {
      assert Read(Serial(s.history).value, t, k) == Lookup(AbstractRow(s, t), k);
      assert SameAbstractly(s, s', t);
    }
  }

  lemma QuietRows(s: State, c: ClientId, s': State)
    requires Inv(s) && Frame(s, c, s') && c in s'.clients
    requires forall t: TableId :: Owns(s, c, t) ==> SameAbstractly(s, s', t)
    requires !s'.clients[c].task.Committing? || (c in s.clients && s'.clients[c].task.todo <= Holding(s.clients[c]))
    ensures forall t: TableId :: SameAbstractly(s, s', t)
  {
    hide LocalOk, DirectoryOk, HistoryOk, Holding;
    forall t: TableId ensures SameAbstractly(s, s', t) {
      if t < |s.tables| {
        assert TableFrame(s.tables[t], c, s'.tables[t]);
        if !Owns(s, c, t) && c in s.clients { NotHeld(s, c, t); }
      } else if t < |s'.tables| {
        assert Blank(s'.tables[t]);
      }
    }
  }

  predicate DirectoryMove(c: ClientId, was: Option<ClientId>, now: Option<ClientId>) {
    now == was || (was.None? && now == Some(c)) || (was == Some(c) && now.None?)
  }

  /** What a client may change in a step that touches no table. */
  ghost predicate ClientMove(cl: Client, cl': Client) {
    && Holding(cl') == Holding(cl)
    && Writable(cl) <= Writable(cl')
    && cl'.locked == cl.locked
    && !cl.task.Committing? && !cl'.task.Committing?
  }

  ghost predicate Untouching(s: State, c: ClientId, cl': Client, dir: Option<ClientId>) {
    && c in s.clients && ClientMove(s.clients[c], cl')
    && ClientOk(cl', |s.tables|) && DirectoryMove(c, s.dirOwner, dir)
    && (dir == Some(c) <==> HoldsDirectory(cl'.task))
    && (Live(cl') ==> View(s, cl'))
  }

  lemma UntouchedLocal(s: State, c: ClientId, cl': Client, dir: Option<ClientId>)
    requires Inv(s) && Untouching(s, c, cl', dir)
    ensures LocalOk(s.Put(c, cl').(dirOwner := dir), c)
  {
    var cl, s' := s.clients[c], s.Put(c, cl').(dirOwner := dir);
    assert LocalOk(s, c);
    assert Committed(s') == Committed(s);
    forall t: TableId ensures Owns(s', c, t) <==> Owns(s, c, t) {}
    assert forall t: TableId :: Owns(s, c, t) && t !in Writable(cl) ==> s.tables[t].pending == map[];
  }

  lemma UntouchedFrame(s: State, c: ClientId, cl': Client, dir: Option<ClientId>)
    requires c in s.clients && DirectoryMove(c, s.dirOwner, dir)
    ensures Frame(s, c, s.Put(c, cl').(dirOwner := dir))
  {
  }

  lemma UntouchedRow(s: State, c: ClientId, cl': Client, dir: Option<ClientId>, t: TableId)
    requires c in s.clients && !s.clients[c].task.Committing? && !cl'.task.Committing?
    ensures AbstractRow(s.Put(c, cl').(dirOwner := dir), t) == AbstractRow(s, t)
  {
  }

  lemma UntouchedHistory(s: State, c: ClientId, cl': Client, dir: Option<ClientId>)
    requires HistoryOk(s) && Untouching(s, c, cl', dir)
    ensures HistoryOk(s.Put(c, cl').(dirOwner := dir))
  {
    var s' := s.Put(c, cl').(dirOwner := dir);
    forall t: TableId, k ensures Read(Serial(s'.history).value, t, k) == Lookup(AbstractRow(s', t), k) {
      UntouchedRow(s, c, cl', dir, t);
      assert Read(Serial(s.history).value, t, k) == Lookup(AbstractRow(s, t), k);
    }
  }

  /** A step that touches no table. */
  lemma TablesUntouched(s: State, c: ClientId, cl': Client, dir: Option<ClientId>)
    requires Inv(s) && Untouching(s, c, cl', dir)
    ensures Inv(s.Put(c, cl').(dirOwner := dir))
  {
    UntouchedLocal(s, c, cl', dir);
    UntouchedFrame(s, c, cl', dir);
    UntouchedHistory(s, c, cl', dir);
    Assemble(s, c, s.Put(c, cl').(dirOwner := dir));
  }

  /** Recording a command that touches no table keeps the view. */
  lemma ViewDid(s: State, cl: Client, cmd: Command, stack: seq<Value>, cl': Client)
    requires View(s, cl) && Within(cl.cmds, Scope(cl)) && !(cmd.CGet? || cmd.CSet?)
    requires cl'.before == cl.before && cl'.cmds == cl.cmds + [cmd] && cl'.stack == stack && Scope(cl') == Scope(cl)
    requires forall st: Store :: Do(st, cl.stack, cmd) == Done(st, stack)
    ensures View(s, cl') && Within(cl'.cmds, Scope(cl'))
  {
    ExecAppend(Committed(s), cl.before, cl.cmds, cmd);
    forall i | 0 <= i < |cl'.cmds| ensures Touches(cl'.cmds[i], Scope(cl')) {
      if i < |cl.cmds| { assert Touches(cl.cmds[i], Scope(cl)); }
    }
  }

  lemma StepConnect(s: State, c: ClientId, flag: bool)
    requires Inv(s) && Enabled(s, c, Connect(flag))
    ensures Inv(Next(s, c, Connect(flag)))
  {
    var s' := Next(s, c, Connect(flag));
    assert Frame(s, c, s');
    forall t: TableId | t < |s.tables| ensures AbstractRow(s', t) == AbstractRow(s, t) && !Owns(s, c, t) {
    }
    QuietHistory(s, c, s');
    assert LocalOk(s', c) by {
      assert forall t: TableId :: !Owns(s', c, t);
      assert Holding(s'.clients[c]) == {};
    }
    Assemble(s, c, s');
  }

  /** A request that completes on the client's own state and records one command, or none. */
  lemma LocalCommand(s: State, c: ClientId, cmd: Command, stack: seq<Value>, cl': Client)
    requires Inv(s) && c in s.clients && s.clients[c].task.Idle?
    requires !(cmd.CGet? || cmd.CSet?)
    requires forall st: Store :: Do(st, s.clients[c].stack, cmd) == Done(st, stack)
    requires var cl := s.clients[c];
             cl' == cl.(stack := stack, task := Idle, received := cl'.received, reply := cl'.reply,
                        cmds := if cl.inTxn then cl.cmds + [cmd] else cl.cmds)
    ensures Inv(s.Put(c, cl'))
  {
    var cl := s.clients[c];
    assert LocalOk(s, c);
    if cl.inTxn { ViewDid(s, cl, cmd, stack, cl'); }
    TablesUntouched(s, c, cl', s.dirOwner);
  }

  /** A step that changes only bookkeeping, mode and place. */
  lemma PlaceMove(s: State, c: ClientId, cl': Client, dir: Option<ClientId>)
    requires Inv(s) && c in s.clients && ClientMove(s.clients[c], cl')
    requires var cl := s.clients[c];
             && cl'.inTxn == cl.inTxn && cl'.leaked == cl.leaked
             && cl'.before == cl.before && cl'.cmds == cl.cmds && (cl.inTxn ==> cl'.stack == cl.stack)
             && (Live(cl') ==> Live(cl) && Scope(cl') == Scope(cl))
    requires TaskOk(cl', |s.tables|) && DirectoryMove(c, s.dirOwner, dir)
    requires dir == Some(c) <==> HoldsDirectory(cl'.task)
    requires s.clients[c].task.Publish? <==> cl'.task.Publish?
    requires cl'.task.Publish? ==> cl'.stack == s.clients[c].stack
    ensures Inv(s.Put(c, cl').(dirOwner := dir))
  {
    assert LocalOk(s, c);
    TablesUntouched(s, c, cl', dir);
  }

  /** Ending the process changes nothing that the invariant mentions. */
  lemma Downed(s: State, s': State)
    requires Inv(s) && (s' == s.(down := true) || s' == s.(down := true, missing := true))
    ensures Inv(s')
  {
    assert Committed(s') == Committed(s);
    forall c | c in s.clients ensures LocalOk(s', c) {
      assert LocalOk(s, c);
      forall t: TableId ensures Owns(s', c, t) <==> Owns(s, c, t) {}
    }
    forall t, k ensures Read(Serial(s'.history).value, t, k) == Lookup(AbstractRow(s', t), k) {
      assert AbstractRow(s', t) == AbstractRow(s, t);
    }
  }

  lemma OperationFailed(s: State, c: ClientId, cl': Client)
    requires Inv(s) && c in s.clients && s.clients[c].task.Idle?
    requires cl' == s.clients[c].(received := cl'.received, stack := cl'.stack)
    ensures Inv(OperationFails(s, c, cl'))
  {
    if cl'.inTxn { Downed(s, s.(down := true)); } else { PlaceMove(s, c, cl'.Answer(Failed), s.dirOwner); }
  }

  lemma StepBegin(s: State, c: ClientId, received: seq<Request>)
    requires Inv(s) && c in s.clients && s.clients[c].task.Idle?
    ensures var cl := s.clients[c].(received := received);
            var started := if cl.inTxn then cl else cl.(inTxn := true, before := cl.stack, cmds := []);
            Inv(s.Put(c, started.Answer(Ok)))
  {
    var cl := s.clients[c].(received := received);
    var started := (if cl.inTxn then cl else cl.(inTxn := true, before := cl.stack, cmds := [])).Answer(Ok);
    assert LocalOk(s, c);
    assert View(s, started);
    TablesUntouched(s, c, started, s.dirOwner);
  }

  function Told(s: State, c: ClientId, cl: Client): State {
    var told := s.Put(c, cl.(task := Committing(cl.locked, None), cmds := []));
    if cl.inTxn
    then told.(history := s.history + [Transaction(c, cl.before, cl.cmds, cl.stack)])
    else told
  }

  lemma HoldingAtCommit(cl: Client, cl': Client)
    requires cl.task.Idle? && cl' == cl.(task := Committing(cl.locked, None), received := cl'.received, cmds := [])
    ensures Holding(cl') == Holding(cl) && Writable(cl') == Writable(cl)
    ensures cl.locked * Holding(cl) == cl'.locked * Holding(cl')
    ensures forall n: nat :: ClientOk(cl, n) ==> ClientOk(cl', n)
  {
  }

  lemma CommitLocal(s: State, c: ClientId, cl: Client)
    requires Inv(s) && c in s.clients && s.clients[c].task.Idle? && cl == s.clients[c].(received := cl.received)
    ensures LocalOk(Told(s, c, cl), c)
  {
    var s' := Told(s, c, cl);
    assert LocalOk(s, c);
    HoldingAtCommit(s.clients[c], s'.clients[c]);
    forall t: TableId ensures Owns(s', c, t) <==> Owns(s, c, t) {}
  }

  lemma CommitHistory(s: State, c: ClientId, cl: Client)
    requires Inv(s) && c in s.clients && s.clients[c].task.Idle? && cl == s.clients[c].(received := cl.received)
    ensures HistoryOk(Told(s, c, cl))
  {
    var s' := Told(s, c, cl);
    assert LocalOk(s, c);
    CommitRows(s, c, cl);
    if cl.inTxn {
      Linearize(s, c, s', Transaction(c, cl.before, cl.cmds, cl.stack));
    } else {
      forall t, k ensures Read(Serial(s'.history).value, t, k) == Lookup(AbstractRow(s', t), k) {
        assert AbstractRow(s', t) == AbstractRow(s, t);
      }
    }
  }

  lemma StepCommit(s: State, c: ClientId, cl: Client)
    requires Inv(s) && c in s.clients && s.clients[c].task.Idle? && cl == s.clients[c].(received := cl.received)
    ensures Inv(Told(s, c, cl))
  {
    CommitLocal(s, c, cl);
    CommitHistory(s, c, cl);
    CommitFrame(s, c, cl);
    Assemble(s, c, Told(s, c, cl));
  }

  lemma CommitFrame(s: State, c: ClientId, cl: Client)
    requires c in s.clients
    ensures Frame(s, c, Told(s, c, cl)) && Told(s, c, cl).tables == s.tables
  {
  }

  lemma CommitRow(s: State, c: ClientId, cl: Client, t: TableId)
    requires c in s.clients && s.clients[c].task.Idle? && cl == s.clients[c].(received := cl.received)
    ensures t in cl.locked && Owns(s, c, t) ==> AbstractRow(Told(s, c, cl), t) == s.tables[t].Visible()
    ensures t !in cl.locked ==> AbstractRow(Told(s, c, cl), t) == AbstractRow(s, t)
  {
    var s' := Told(s, c, cl);
    if t < |s.tables| && s.tables[t].owner.Some? {
      var d := s.tables[t].owner.value;
      if d != c { assert d in s'.clients <==> d in s.clients; }
    }
  }

  lemma CommitRows(s: State, c: ClientId, cl: Client)
    requires c in s.clients && LocalOk(s, c)
    requires s.clients[c].task.Idle? && cl == s.clients[c].(received := cl.received)
    ensures forall t: TableId :: t in cl.locked ==> SeenRow(s, Told(s, c, cl), t)
    ensures forall t: TableId :: t !in cl.locked ==> AbstractRow(Told(s, c, cl), t) == AbstractRow(s, t)
  {
    forall t: TableId
      ensures t in cl.locked ==> SeenRow(s, Told(s, c, cl), t)
      ensures t !in cl.locked ==> AbstractRow(Told(s, c, cl), t) == AbstractRow(s, t)
    {
      CommitRow(s, c, cl, t);
      if t in cl.locked { assert t in Holding(s.clients[c]); assert Owns(s, c, t); }
    }
  }

  /** The serial store agrees with the committed one on the tables of a live client. */
  lemma SerialAgrees(s: State, c: ClientId)
    requires Inv(s) && c in s.clients && Live(s.clients[c])
    ensures Agree(Committed(s), Serial(s.history).value, Scope(s.clients[c]))
  {
    var cl := s.clients[c];
    assert LocalOk(s, c);
    forall t, k | t in Scope(cl) ensures Read(Committed(s), t, k) == Read(Serial(s.history).value, t, k) {
      assert Owns(s, c, t);
      assert AbstractRow(s, t) == s.tables[t].committed == RowOf(Committed(s), t);
      assert Read(Serial(s.history).value, t, k) == Lookup(AbstractRow(s, t), k);
    }
  }

  ghost predicate SeenRow(s: State, s': State, t: TableId) {
    t < |s.tables| && AbstractRow(s', t) == s.tables[t].Visible()
  }

  /** Appending a live client's commands to the history: the serial machine runs them on a store
      that agrees with what the client saw, and ends where the client's own view ends. */
  lemma Linearize(s: State, c: ClientId, s': State, x: Transaction)
    requires Inv(s) && c in s.clients && Live(s.clients[c])
    requires x == Transaction(c, s.clients[c].before, s.clients[c].cmds, s.clients[c].stack)
    requires s'.history == s.history + [x]
    requires forall t: TableId :: t in Scope(s.clients[c]) ==> SeenRow(s, s', t)
    requires forall t: TableId :: t !in Scope(s.clients[c]) ==> AbstractRow(s', t) == AbstractRow(s, t)
    ensures HistoryOk(s')
  {
    var cl := s.clients[c];
    assert View(s, cl) && Within(cl.cmds, Scope(cl)) by { assert LocalOk(s, c); }
    var st, T := Serial(s.history).value, Scope(cl);
    SerialAgrees(s, c);
    ExecAgrees(Committed(s), st, cl.before, cl.cmds, T);
    ExecAgrees(st, st, cl.before, cl.cmds, T);
    SerialAppend(s.history, x);
    var seen, st' := Exec(Committed(s), cl.before, cl.cmds).store, Exec(st, cl.before, cl.cmds).store;
    assert Serial(s'.history) == Some(st');
    LinearizedRows(s, s', st, seen, st', T);
  }

  lemma LinearizedRows(s: State, s': State, st: Store, seen: Store, st': Store, T: set<TableId>)
    requires Agree(seen, st', T) && AgreeOutside(st, st', T)
    requires forall t, k {:trigger Read(seen, t, k)} :: t in T ==> t < |s.tables| && Read(seen, t, k) == Lookup(s.tables[t].Visible(), k)
    requires forall t, k {:trigger Read(st, t, k)} :: Read(st, t, k) == Lookup(AbstractRow(s, t), k)
    requires forall t: TableId :: t in T ==> SeenRow(s, s', t)
    requires forall t: TableId :: t !in T ==> AbstractRow(s', t) == AbstractRow(s, t)
    ensures forall t, k {:trigger Read(st', t, k)} :: Read(st', t, k) == Lookup(AbstractRow(s', t), k)
  {
    forall t, k ensures Read(st', t, k) == Lookup(AbstractRow(s', t), k) {
      if t in T {
        assert Read(seen, t, k) == Read(st', t, k);
      } else {
        assert Read(st, t, k) == Read(st', t, k);
      }
    }
  }

  lemma ReceiveStackRequest(s: State, c: ClientId, r: Request)
    requires Inv(s) && Enabled(s, c, Receive(r)) && s.clients[c].loggedIn
    requires r.Push? || r.Pop? || r.Top?
    ensures Inv(Receives(s, c, r))
  {
    hide Inv;
    var cl := s.clients[c].(received := s.clients[c].received + [r]);
    var n := |cl.stack|;
    if r.Push? {
      LocalCommand(s, c, CPush(r.v), cl.stack + [r.v], cl.(stack := cl.stack + [r.v]).Did(CPush(r.v)).Answer(Ok));
    } else if n == 0 {
      OperationFailed(s, c, cl);
    } else if r.Pop? {
      LocalCommand(s, c, CPop, cl.stack[..n - 1], cl.(stack := cl.stack[..n - 1]).Did(CPop).Answer(Ok));
    } else {
      var v := cl.stack[n - 1];
      LocalCommand(s, c, CTop(v), cl.stack, cl.Did(CTop(v)).Answer(Data(v)));
    }
  }

  lemma ReceiveArithmetic(s: State, c: ClientId, op: Operator)
    requires Inv(s) && Enabled(s, c, Receive(Arithmetic(op))) && s.clients[c].loggedIn
    ensures Inv(Receives(s, c, Arithmetic(op)))
  {
    hide Inv, Arith;
    var cl := s.clients[c].(received := s.clients[c].received + [Arithmetic(op)]);
    match Arith(cl.stack, op)
    case Pushed(stack) => LocalCommand(s, c, CArith(op), stack, cl.(stack := stack).Did(CArith(op)).Answer(Ok));
    case Rejected(stack) => OperationFailed(s, c, cl.(stack := stack));
    case Trapped => Downed(s, s.(down := true));
  }

  /** A request that ends at once, or that goes on to look for a table. */
  lemma IdleMove(s: State, c: ClientId, cl': Client)
    requires Inv(s) && c in s.clients && s.clients[c].task.Idle?
    requires cl' == s.clients[c].(task := cl'.task, received := cl'.received, reply := cl'.reply, loggedIn := cl'.loggedIn)
    requires cl'.task.Idle? || cl'.task.Gone? || (cl'.task.FindLock? && NamesTable(cl'.task.r))
    ensures Inv(s.Put(c, cl'))
  {
    assert LocalOk(s, c);
    PlaceMove(s, c, cl', s.dirOwner);
    assert s.Put(c, cl').(dirOwner := s.dirOwner) == s.Put(c, cl');
  }

  lemma StepReceive(s: State, c: ClientId, r: Request)
    requires Inv(s) && Enabled(s, c, Receive(r))
    ensures Inv(Receives(s, c, r))
  {
    hide Inv;
    var cl := s.clients[c].(received := s.clients[c].received + [r]);
    if r.Garbled? { Downed(s, s.(down := true)); }
    else if r.Bad? || (!r.Login? && !cl.loggedIn) { IdleMove(s, c, cl.Leave(Error)); }
    else {
      match r
      case Login => IdleMove(s, c, cl.(loggedIn := true).Answer(Ok));
      case Push(_) => ReceiveStackRequest(s, c, r);
      case Pop => ReceiveStackRequest(s, c, r);
      case Top => ReceiveStackRequest(s, c, r);
      case Arithmetic(op) => ReceiveArithmetic(s, c, op);
      case Begin => StepBegin(s, c, cl.received);
      case Commit => StepCommit(s, c, cl); assert Receives(s, c, r) == Told(s, c, cl);
      case Bye => IdleMove(s, c, cl.Leave(Ok));
      case _ => IdleMove(s, c, cl.(task := FindLock(r)));
    }
  }
}
