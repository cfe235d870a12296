/** The steps of the commit and rollback loops, of the directory, and the invariant of whole runs. */
module LoopSteps {
  import opened Basics
  import opened Tables
  import opened Protocol
  import opened Invariant
  import opened Steps
  import opened TableSteps

  // ---------------------------------------------------------------- one table published or unlocked

  function Published(s: State, c: ClientId): State
    requires c in s.clients && s.clients[c].task.Publish? && s.clients[c].task.t < |s.tables|
  {
    var cl, t := s.clients[c], s.clients[c].task.t;
    Touched(s, c, t, s.tables[t].Commit(), cl.(task := Release(t), cmds := []), s.missing)
  }

  lemma PublishLocal(s: State, c: ClientId)
    requires Inv(s) && c in s.clients && s.clients[c].task.Publish?
    ensures s.clients[c].task.t < |s.tables| && Owns(s, c, s.clients[c].task.t)
    ensures LocalOk(Published(s, c), c) && Frame(s, c, Published(s, c))
  {
    var cl, t := s.clients[c], s.clients[c].task.t;
    var cl' := cl.(task := Release(t), cmds := []);
    assert LocalOk(s, c) && t in Holding(cl) && Owns(s, c, t);
    assert Holding(cl') == Holding(cl) && cl.locked == {};
    TouchedLocal(s, c, t, s.tables[t].Commit(), cl', s.missing);
    TouchedFrame(s, c, t, s.tables[t].Commit(), cl', s.missing);
  }

  /** An autocommit request takes effect when it commits. */
  lemma PublishHistory(s: State, c: ClientId, s': State)
    requires Inv(s) && c in s.clients && s.clients[c].task.Publish? && Owns(s, c, s.clients[c].task.t)
    requires var cl := s.clients[c];
             s' == Published(s, c).(history := s.history + [Transaction(c, cl.before, cl.cmds, cl.stack)])
    ensures HistoryOk(s')
  {
    var cl, t := s.clients[c], s.clients[c].task.t;
    TouchedRows(s, c, t, s.tables[t].Commit(), cl.(task := Release(t), cmds := []), s.missing);
    SameRows(Published(s, c), s');
    Linearize(s, c, s', Transaction(c, cl.before, cl.cmds, cl.stack));
  }

  lemma StepPublish(s: State, c: ClientId)
    requires Inv(s) && Enabled(s, c, Run) && s.clients[c].task.Publish?
    ensures Inv(Runs(s, c))
  {
    var s' := Runs(s, c);
    PublishLocal(s, c);
    PublishHistory(s, c, s');
    LocalOkKept(Published(s, c), s', c);
    Assemble(s, c, s');
  }

  lemma SameRows(s: State, s': State)
    requires s' == s.(history := s'.history)
    ensures forall t: TableId :: AbstractRow(s', t) == AbstractRow(s, t)
  {
  }

  lemma LocalOkKept(s: State, s': State, c: ClientId)
    requires s' == s.(history := s'.history) && c in s.clients && LocalOk(s, c)
    ensures LocalOk(s', c)
  {
    CommittedKept(s, s');
    forall t: TableId ensures Owns(s', c, t) <==> Owns(s, c, t) {}
  }

  lemma StepRelease(s: State, c: ClientId)
    requires Inv(s) && Enabled(s, c, Run) && s.clients[c].task.Release?
    ensures Inv(Runs(s, c))
  {
    var cl, t := s.clients[c], s.clients[c].task.t;
    var tb, cl' := s.tables[t].(owner := None), cl.Answer(Ok);
    assert LocalOk(s, c) && t in Holding(cl) && Owns(s, c, t);
    TouchedLocal(s, c, t, tb, cl', s.missing);
    TouchedInv(s, c, t, tb, cl', s.missing);
    assert Runs(s, c) == Touched(s, c, t, tb, cl', s.missing);
  }

  // ---------------------------------------------------------------- commit and rollback loops

  predicate Looping(task: Task) { task.Committing? || task.Rolling? }

  /** One move inside a loop over the locked tables, on a table the loop still holds. */
  ghost predicate LoopMove(s: State, c: ClientId, t: TableId, tb: TableState, cl: Client) {
    && c in s.clients && t < |s.tables|
    && var was := s.clients[c];
       && Looping(was.task)
       && cl == was.(task := cl.task) && (cl.task.Committing? <==> was.task.Committing?)
       && (if t in was.task.todo
           then was.task.cur.None? && cl.task == (if was.task.Committing? then Committing(was.task.todo - {t}, Some(t)) else Rolling(was.task.todo - {t}, Some(t)))
                && tb == (if was.task.Committing? then s.tables[t].Commit() else s.tables[t].Rollback())
           else was.task.cur == Some(t) && cl.task == (if was.task.Committing? then Committing(was.task.todo, None) else Rolling(was.task.todo, None))
                && tb == s.tables[t].(owner := None))
  }

  lemma LoopHolding(was: Client, cl: Client, t: TableId, n: nat)
    requires ClientOk(was, n) && Looping(was.task) && cl == was.(task := cl.task)
    requires Looping(cl.task) && (cl.task.Committing? <==> was.task.Committing?)
    requires if t in was.task.todo then was.task.cur.None? && cl.task.todo == was.task.todo - {t} && cl.task.cur == Some(t)
             else was.task.cur == Some(t) && cl.task.todo == was.task.todo && cl.task.cur.None?
    ensures t in Holding(was) && t in was.locked && t !in was.leaked && ClientOk(cl, n)
    ensures t in was.task.todo ==> Holding(cl) == Holding(was)
    ensures t !in was.task.todo ==> Holding(cl) == Holding(was) - {t}
    ensures !Live(cl) && Writable(was) - {t} <= Writable(cl) && t !in Writable(cl)
  {
    assert t in was.task.todo + Current(was.task.cur);
  }

  lemma LoopLocal(s: State, c: ClientId, t: TableId, tb: TableState, cl: Client)
    requires Inv(s) && LoopMove(s, c, t, tb, cl)
    ensures LocalOk(Touched(s, c, t, tb, cl, s.missing), c) && Owns(s, c, t)
    ensures t !in s.clients[c].task.todo ==> s.tables[t].pending == map[]
  {
    var was := s.clients[c];
    assert LocalOk(s, c);
    LoopHolding(was, cl, t, |s.tables|);
    assert Owns(s, c, t);
    TouchedLocal(s, c, t, tb, cl, s.missing);
  }

  /** The commit loop changes no abstract row: what it commits already counted as committed. */
  lemma LoopRow(s: State, c: ClientId, t: TableId, tb: TableState, cl: Client, u: TableId)
    requires LoopMove(s, c, t, tb, cl) && Owns(s, c, t) && (t !in s.clients[c].task.todo ==> s.tables[t].pending == map[])
    ensures AbstractRow(Touched(s, c, t, tb, cl, s.missing), u) == AbstractRow(s, u)
  {
    var was, s' := s.clients[c], Touched(s, c, t, tb, cl, s.missing);
    if u < |s.tables| && u != t {
      var owner := s.tables[u].owner;
      if owner == Some(c) { assert u in cl.task.todo <==> u in was.task.todo; }
      assert Publishing(s', owner, u) <==> Publishing(s, owner, u);
    }
  }

  lemma LoopInv(s: State, c: ClientId, t: TableId, tb: TableState, cl: Client)
    requires Inv(s) && LoopMove(s, c, t, tb, cl)
    ensures Inv(Touched(s, c, t, tb, cl, s.missing))
  {
    var s' := Touched(s, c, t, tb, cl, s.missing);
    LoopLocal(s, c, t, tb, cl);
    TouchedFrame(s, c, t, tb, cl, s.missing);
    forall t', k ensures Read(Serial(s'.history).value, t', k) == Lookup(AbstractRow(s', t'), k) {
      LoopRow(s, c, t, tb, cl, t');
    }
    Assemble(s, c, s');
  }

  lemma StepPicks(s: State, c: ClientId, t: TableId)
    requires Inv(s) && Enabled(s, c, Pick(t))
    ensures Inv(Picks(s, c, t))
  {
    var cl := s.clients[c];
    assert LocalOk(s, c) && t in Holding(cl) && Owns(s, c, t);
    if cl.task.Committing? {
      LoopInv(s, c, t, s.tables[t].Commit(), cl.(task := Committing(cl.task.todo - {t}, Some(t))));
    } else {
      LoopInv(s, c, t, s.tables[t].Rollback(), cl.(task := Rolling(cl.task.todo - {t}, Some(t))));
    }
  }

  function Left(s: State, c: ClientId, r: Reply): State
    requires c in s.clients
  {
    s.Put(c, s.clients[c].(locked := {}, inTxn := false).Answer(r))
  }

  lemma LeaveLocal(s: State, c: ClientId, r: Reply)
    requires Inv(s) && c in s.clients && Looping(s.clients[c].task)
    requires s.clients[c].task.cur.None? && s.clients[c].task.todo == {}
    ensures LocalOk(Left(s, c, r), c) && Frame(s, c, Left(s, c, r))
  {
    var was, s' := s.clients[c], Left(s, c, r);
    assert LocalOk(s, c);
    assert Holding(s'.clients[c]) == Holding(was) == was.leaked;
    forall t: TableId ensures Owns(s', c, t) <==> Owns(s, c, t) {}
  }

  lemma LeaveLoop(s: State, c: ClientId, r: Reply)
    requires Inv(s) && c in s.clients && Looping(s.clients[c].task)
    requires s.clients[c].task.cur.None? && s.clients[c].task.todo == {}
    ensures Inv(Left(s, c, r))
  {
    var s' := Left(s, c, r);
    LeaveLocal(s, c, r);
    forall t, k ensures Read(Serial(s'.history).value, t, k) == Lookup(AbstractRow(s', t), k) {
      assert AbstractRow(s', t) == AbstractRow(s, t);
    }
    Assemble(s, c, s');
  }

  lemma StepLoop(s: State, c: ClientId)
    requires Inv(s) && Enabled(s, c, Run) && Looping(s.clients[c].task)
    ensures Inv(Runs(s, c))
  {
    var cl := s.clients[c];
    if cl.task.cur.Some? {
      var t := cl.task.cur.value;
      assert LocalOk(s, c) && t in Holding(cl) && Owns(s, c, t);
      var tb := s.tables[t].(owner := None);
      LoopInv(s, c, t, tb, cl.(task := if cl.task.Committing? then Committing(cl.task.todo, None) else Rolling(cl.task.todo, None)));
    } else {
      LeaveLoop(s, c, if cl.task.Committing? then Ok else Failed);
    }
  }

  // ---------------------------------------------------------------- the directory

  lemma StepFind(s: State, c: ClientId)
    requires Inv(s) && Enabled(s, c, Run)
    requires s.clients[c].task.FindLock? || s.clients[c].task.CreateLock? || s.clients[c].task.CreateDone?
    ensures Inv(Runs(s, c))
  {
    var cl := s.clients[c];
    assert LocalOk(s, c);
    match cl.task
    case FindLock(r) => PlaceMove(s, c, cl.(task := FindHeld(r)), Some(c));
    case CreateLock(name) => PlaceMove(s, c, cl.(task := CreateHeld(name)), Some(c));
    case CreateDone => PlaceMove(s, c, cl.Answer(Ok), None);
  }

  lemma StepLookUp(s: State, c: ClientId)
    requires Inv(s) && Enabled(s, c, Run) && s.clients[c].task.FindHeld?
    ensures Inv(Runs(s, c))
  {
    var cl := s.clients[c];
    var name := RequestName(cl.task.r);
    var cl' := cl.(task := FindFound(cl.task.r, if name in s.directory then Some(s.directory[name]) else None));
    LookedUp(s, c, cl');
  }

  lemma LookedUp(s: State, c: ClientId, cl': Client)
    requires Inv(s) && c in s.clients && s.clients[c].task.FindHeld? && cl' == s.clients[c].(task := cl'.task)
    requires cl'.task.FindFound? && NamesTable(cl'.task.r) && (cl'.task.found.Some? ==> cl'.task.found.value < |s.tables|)
    ensures Inv(s.Put(c, cl'))
  {
    assert LocalOk(s, c);
    PlaceMove(s, c, cl', s.dirOwner);
    assert s.Put(c, cl').(dirOwner := s.dirOwner) == s.Put(c, cl');
  }

  lemma FoundMove(s: State, c: ClientId, task: Task, reply: Reply)
    requires Inv(s) && c in s.clients && s.clients[c].task.FindFound?
    requires task.Gone? || task.CreateLock? || (task.Locking? && Accessing(task.r) && task.t < |s.tables|)
    ensures Inv(s.Put(c, s.clients[c].(task := task, reply := reply)).(dirOwner := None))
  {
    assert LocalOk(s, c);
    PlaceMove(s, c, s.clients[c].(task := task, reply := reply), None);
  }

  lemma StepFound(s: State, c: ClientId)
    requires Inv(s) && Enabled(s, c, Run) && s.clients[c].task.FindFound?
    ensures Inv(Runs(s, c))
  {
    var cl := s.clients[c];
    assert TaskOk(cl, |s.tables|) by { assert LocalOk(s, c); }
    var after := AfterFind(cl, cl.task.r, cl.task.found);
    FoundMove(s, c, after.task, after.reply);
  }

  lemma CreateHistory(s: State, c: ClientId)
    requires Inv(s) && c in s.clients && s.clients[c].task.CreateHeld?
    ensures HistoryOk(Runs(s, c))
  {
    var s' := Runs(s, c);
    forall t: TableId, k ensures Read(Serial(s'.history).value, t, k) == Lookup(AbstractRow(s', t), k) {
      if t < |s.tables| {
        assert s'.tables[t] == s.tables[t];
        assert Publishing(s', s.tables[t].owner, t) <==> Publishing(s, s.tables[t].owner, t);
      }
      assert AbstractRow(s', t) == AbstractRow(s, t);
    }
  }

  lemma CreateFrame(s: State, c: ClientId)
    requires Inv(s) && c in s.clients && s.clients[c].task.CreateHeld?
    ensures Frame(s, c, Runs(s, c))
  {
    var s' := Runs(s, c);
    forall t: TableId | t < |s.tables| ensures s'.tables[t] == s.tables[t] {}
    forall n | n in s'.directory ensures s'.directory[n] < |s'.tables| && s'.tables[s'.directory[n]].name == n {
      if n != s.clients[c].task.name { assert s'.tables[s.directory[n]] == s.tables[s.directory[n]]; }
    }
  }

  lemma StepCreate(s: State, c: ClientId)
    requires Inv(s) && Enabled(s, c, Run) && s.clients[c].task.CreateHeld?
    ensures Inv(Runs(s, c))
  {
    CreateFrame(s, c);
    CreateLocal(s, c);
    CreateHistory(s, c);
    Assemble(s, c, Runs(s, c));
  }

  lemma CreateLocal(s: State, c: ClientId)
    requires Inv(s) && c in s.clients && s.clients[c].task.CreateHeld?
    ensures LocalOk(Runs(s, c), c)
  {
    var cl, s' := s.clients[c], Runs(s, c);
    var cl' := s'.clients[c];
    assert LocalOk(s, c);
    hide Exec, HistoryOk, DirectoryOk;
    assert Holding(cl') == Holding(cl) && Scope(cl') == Scope(cl);
    forall t: TableId ensures Owns(s', c, t) <==> Owns(s, c, t) {}
    if Live(cl) {
      assert forall t :: t in Scope(cl) ==> t in Holding(cl) && Owns(s, c, t);
      ViewFramed(s, s', cl);
    }
  }

  // ---------------------------------------------------------------- all steps, all runs

  /** Every step of every client keeps the invariant. */
  lemma StepKeepsInvariant(s: State, c: ClientId, l: Label)
    requires Inv(s) && Enabled(s, c, l)
    ensures Inv(Next(s, c, l))
  {
    match l
    case Connect(flag) => StepConnect(s, c, flag);
    case Receive(r) => StepReceive(s, c, r);
    case Pick(t) => StepPicks(s, c, t);
    case Throw => Downed(s, s.(down := true, missing := true));
    case Run =>
      match s.clients[c].task {
        case FindLock(_) => StepFind(s, c);
        case FindHeld(_) => StepLookUp(s, c);
        case FindFound(_, _) => StepFound(s, c);
        case CreateLock(_) => StepFind(s, c);
        case CreateHeld(_) => StepCreate(s, c);
        case CreateDone => StepFind(s, c);
        case Locking(_, _) => StepLocks(s, c);
        case Access(_, _) => StepAccess(s, c);
        case Publish(_) => StepPublish(s, c);
        case Release(_) => StepRelease(s, c);
        case Committing(_, _) => StepLoop(s, c);
        case Rolling(_, _) => StepLoop(s, c);
      }
  }

  lemma InitialInvariant()
    ensures Inv(INITIAL)
  {
  }

  /** The invariant holds in every state of every run. */
  lemma {:induction false} RunsKeepInvariant(states: seq<State>, moves: seq<Move>, i: nat)
    requires IsRun(states, moves) && states[0] == INITIAL && i < |states|
    ensures Inv(states[i])
  {
    if i == 0 {
      InitialInvariant();
    } else {
      RunsKeepInvariant(states, moves, i - 1);
      StepKeepsInvariant(states[i - 1], moves[i - 1].c, moves[i - 1].l);
    }
  }

  lemma ReachableInvariant(s: State)
    requires Reachable(s)
    ensures Inv(s)
  {
    var states, moves :| RunTo(states, moves, s);
    RunsKeepInvariant(states, moves, |moves|);
  }
}
