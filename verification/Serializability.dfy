/**
 What the invariant says about every run: the concurrent server refines an atomic store,
 live transactions see consistent data, rollback restores, and locks are respected.
 */
module Serializability {
  import opened Basics
  import opened Tables
  import opened Protocol
  import opened SerialFacts
  import opened Invariant
  import opened LoopSteps

  /** No client is between two tables of a commit loop. */
  predicate NobodyCommitting(s: State) {
    forall c :: c in s.clients ==> !s.clients[c].task.Committing?
  }

  /** Running the transactions of the history one after the other, each on the stack it started
      with, succeeds, gives every one of them the stack it ended with, and produces the store;
      while commit loops run, with the tables they still have to commit already committed. */
  lemma RunsAreSerializable(s: State)
    requires Reachable(s)
    ensures Serial(s.history).Some?
    ensures forall t: TableId, k {:trigger Read(Serial(s.history).value, t, k)} ::
              Read(Serial(s.history).value, t, k) == Lookup(AbstractRow(s, t), k)
    ensures NobodyCommitting(s) ==>
              forall t: TableId, k {:trigger Lookup(s.tables[t].committed, k)} ::
                t < |s.tables| ==> Read(Serial(s.history).value, t, k) == Lookup(s.tables[t].committed, k)
  {
    ReachableInvariant(s);
    if NobodyCommitting(s) {
      forall t: TableId, k | t < |s.tables|
        ensures Read(Serial(s.history).value, t, k) == Lookup(s.tables[t].committed, k)
      {
        assert AbstractRow(s, t) == s.tables[t].committed;
      }
    }
  }

  lemma {:induction false} SerialPrefix(h: seq<Transaction>, i: nat)
    requires Serial(h).Some? && i < |h|
    ensures Serial(h[..i]).Some? && SerialStep(Serial(h[..i]).value, h[i]).Some?
  {
    var n := |h| - 1;
    if i < n {
      SerialPrefix(h[..n], i);
      assert h[..n][..i] == h[..i] && h[..n][i] == h[i];
    }
  }

  lemma {:induction false} ExecPrefix(st: Store, stack: seq<Value>, cmds: seq<Command>, n: nat)
    requires Exec(st, stack, cmds).Done? && n < |cmds|
    ensures Exec(st, stack, cmds[..n]).Done?
    ensures var o := Exec(st, stack, cmds[..n]); Do(o.store, o.stack, cmds[n]).Done?
  {
    var m := |cmds| - 1;
    if n < m {
      ExecPrefix(st, stack, cmds[..m], n);
      assert cmds[..m][..n] == cmds[..n] && cmds[..m][n] == cmds[n];
    }
  }

  /** Every value that a GET of a committed transaction returned, whether it was kept, changed or thrown
      away afterwards, is the one the serial run reads at that point. */
  lemma ReadsAreSerial(s: State, i: nat, n: nat)
    requires Reachable(s) && i < |s.history| && n < |s.history[i].cmds| && s.history[i].cmds[n].CGet?
    ensures Serial(s.history[..i]).Some?
    ensures var x := s.history[i];
            var o := Exec(Serial(s.history[..i]).value, x.before, x.cmds[..n]);
            o.Done? && x.cmds[n].v == Read(o.store, x.cmds[n].t, x.cmds[n].k)
  {
    ReachableInvariant(s);
    SerialPrefix(s.history, i);
    ExecPrefix(Serial(s.history[..i]).value, s.history[i].before, s.history[i].cmds, n);
  }

  /** Every committed transaction, run at its place, does not get stuck and ends with the stack its client
      had; and each TOP in it answered the value on top at that point. */
  lemma StacksAreSerial(s: State, i: nat)
    requires Reachable(s) && i < |s.history|
    ensures Serial(s.history[..i]).Some?
    ensures var x, st := s.history[i], Serial(s.history[..i]).value;
            && Exec(st, x.before, x.cmds).Done? && Exec(st, x.before, x.cmds).stack == x.after
            && forall n :: 0 <= n < |x.cmds| && x.cmds[n].CTop? ==>
                 var o := Exec(st, x.before, x.cmds[..n]);
                 o.Done? && o.stack != [] && o.stack[|o.stack| - 1] == x.cmds[n].v
  {
    ReachableInvariant(s);
    SerialPrefix(s.history, i);
    var x, st := s.history[i], Serial(s.history[..i]).value;
    forall n | 0 <= n < |x.cmds| && x.cmds[n].CTop?
      ensures var o := Exec(st, x.before, x.cmds[..n]);
              o.Done? && o.stack != [] && o.stack[|o.stack| - 1] == x.cmds[n].v
    {
      ExecPrefix(st, x.before, x.cmds, n);
    }
  }

  /** The step at which a client's commands take effect: a COMMIT request inside a transaction,
      before any table is committed, or the commit_changes of an autocommit request. */
  predicate TakesEffect(s: State, c: ClientId, l: Label)
    requires Enabled(s, c, l)
  {
    || (l.Run? && s.clients[c].task.Publish?)
    || (l.Receive? && l.r.Commit? && s.clients[c].loggedIn && s.clients[c].inTxn)
  }

  lemma ReceiveHistory(s: State, c: ClientId, r: Request)
    requires c in s.clients
    ensures Receives(s, c, r).tables == s.tables
    ensures Receives(s, c, r).history ==
            if r.Commit? && s.clients[c].loggedIn && s.clients[c].inTxn
            then s.history + [Transaction(c, s.clients[c].before, s.clients[c].cmds, s.clients[c].stack)]
            else s.history
  {
  }

  lemma RunHistory(s: State, c: ClientId)
    requires c in s.clients && (s.clients[c].task.Publish? ==> s.clients[c].task.t < |s.tables|)
    ensures Runs(s, c).history ==
            if s.clients[c].task.Publish?
            then s.history + [Transaction(c, s.clients[c].before, s.clients[c].cmds, s.clients[c].stack)]
            else s.history
  {
  }

  lemma HistoryStep(s: State, c: ClientId, l: Label)
    requires Inv(s) && Enabled(s, c, l)
    ensures Next(s, c, l).history ==
            if TakesEffect(s, c, l)
            then s.history + [Transaction(c, s.clients[c].before, s.clients[c].cmds, s.clients[c].stack)]
            else s.history
  {
    match l
    case Receive(r) => ReceiveHistory(s, c, r);
    case Run =>
      assert TaskOk(s.clients[c], |s.tables|) by { assert LocalOk(s, c); }
      RunHistory(s, c);
    case _ =>
  }

  /** One step of the server is one step of the atomic store, or none. */
  lemma StepsRefineAtomicStore(s: State, c: ClientId, l: Label)
    requires Reachable(s) && Enabled(s, c, l)
    ensures var s' := Next(s, c, l);
            if TakesEffect(s, c, l)
            then var x := Transaction(c, s.clients[c].before, s.clients[c].cmds, s.clients[c].stack);
                 s'.history == s.history + [x] &&
                 Serial(s.history).Some? && Serial(s'.history) == SerialStep(Serial(s.history).value, x) && Serial(s'.history).Some?
            else s'.history == s.history
  {
    ReachableInvariant(s);
    StepKeepsInvariant(s, c, l);
    HistoryStep(s, c, l);
    if TakesEffect(s, c, l) {
      SerialAppend(s.history, Transaction(c, s.clients[c].before, s.clients[c].cmds, s.clients[c].stack));
    }
  }

  /** Replaying an unfinished transaction on the store committed now reproduces its stack and
      every value it can see in the tables it touched, and no command of it touched another
      table. It cannot have seen part of what another transaction is committing. */
  lemma LiveTransactionsSeeConsistentData(s: State, c: ClientId)
    requires Reachable(s) && c in s.clients && s.clients[c].inTxn
    requires !s.clients[c].task.Committing? && !s.clients[c].task.Rolling?
    ensures var cl := s.clients[c];
            var o := Exec(Committed(s), cl.before, cl.cmds);
            && o.Done? && o.stack == cl.stack && Within(cl.cmds, cl.locked)
            && (forall t: TableId, k {:trigger Read(o.store, t, k)} ::
                  t in cl.locked ==> t < |s.tables| && Read(o.store, t, k) == Lookup(s.tables[t].Visible(), k))
            && (forall t: TableId, k {:trigger Read(o.store, t, k)} ::
                  t !in cl.locked ==> Read(o.store, t, k) == Read(Committed(s), t, k))
  {
    ReachableInvariant(s);
    var cl := s.clients[c];
    assert LocalOk(s, c);
    assert Live(cl) && !cl.task.Publish?;
    ExecAgrees(Committed(s), Committed(s), cl.before, cl.cmds, cl.locked);
    forall t: TableId | t in cl.locked ensures t < |s.tables| { assert t in Holding(cl); }
  }

  // ---------------------------------------------------------------- locks

  /** The tables whose mutexes client c owns. */
  function Owned(s: State, c: ClientId): set<TableId> {
    set t: TableId | 0 <= t < |s.tables| && s.tables[t].owner == Some(c)
  }

  /** The change of one table by a step of client c. */
  ghost predicate Guarded(c: ClientId, tb: TableState, tb': TableState) {
    && (tb'.committed != tb.committed || tb'.pending != tb.pending ==> tb.owner == Some(c))
    && (tb'.owner != tb.owner ==>
          if tb.owner.None? then tb'.owner == Some(c)
          else tb.owner == Some(c) && tb'.owner.None? && tb'.pending == map[])
  }

  /** The table a running step works on. */
  function Target(task: Task): Option<TableId> {
    match task
    case Access(_, t) => Some(t)
    case Publish(t) => Some(t)
    case Release(t) => Some(t)
    case Committing(_, cur) => cur
    case Rolling(_, cur) => cur
    case _ => None
  }

  lemma LockGuards(s: State, c: ClientId, r: Request, u: TableId, t: TableId)
    requires c in s.clients && t < |s.tables| && u < |s.tables| && (s.clients[c].inTxn || s.tables[u].owner.None?)
    ensures |Locks(s, c, r, u).tables| == |s.tables| && Guarded(c, s.tables[t], Locks(s, c, r, u).tables[t])
  {
  }

  lemma AccessGuards(s: State, c: ClientId, r: Request, u: TableId, t: TableId)
    requires c in s.clients && t < |s.tables| && Owns(s, c, u)
    ensures |Accesses(s, c, r, u).tables| == |s.tables| && Guarded(c, s.tables[t], Accesses(s, c, r, u).tables[t])
  {
  }

  lemma LoopGuards(s: State, c: ClientId, on: Client, cur: Option<TableId>, r: Reply, t: TableId)
    requires t < |s.tables| && (cur.Some? ==> Owns(s, c, cur.value))
    requires EndLoop(s, c, on, cur, r).tables[t].owner.None? ==> EndLoop(s, c, on, cur, r).tables[t].pending == map[]
    ensures |EndLoop(s, c, on, cur, r).tables| == |s.tables| && Guarded(c, s.tables[t], EndLoop(s, c, on, cur, r).tables[t])
  {
  }

  lemma RunGuards(s: State, c: ClientId, t: TableId)
    requires Enabled(s, c, Run) && t < |s.tables|
    requires Target(s.clients[c].task).Some? ==> Owns(s, c, Target(s.clients[c].task).value)
    requires Runs(s, c).tables[t].owner.None? ==> Runs(s, c).tables[t].pending == map[]
    ensures t < |Runs(s, c).tables| && Guarded(c, s.tables[t], Runs(s, c).tables[t])
  {
    var cl := s.clients[c];
    if OnDirectory(cl.task) { ConsultsKeepTables(s, c); }
    hide Consults;
    match cl.task
    case Locking(r, u) => if u < |s.tables| { LockGuards(s, c, r, u, t); }
    case Access(r, u) => AccessGuards(s, c, r, u, t);
    case Committing(todo, cur) => LoopGuards(s, c, cl.(task := Committing(todo, None)), cur, Ok, t);
    case Rolling(todo, cur) => LoopGuards(s, c, cl.(task := Rolling(todo, None)), cur, Failed, t);
    case _ =>
  }

  lemma PickGuards(s: State, c: ClientId, t: TableId, u: TableId)
    requires Enabled(s, c, Pick(u)) && t < |s.tables| && Owns(s, c, u)
    ensures t < |Picks(s, c, u).tables| && Guarded(c, s.tables[t], Picks(s, c, u).tables[t])
  {
  }

  /** Whoever changes a table's maps owns its mutex, a mutex is taken only when free, and only
      its owner gives it back, with nothing pending. */
  lemma LocksGuardTables(s: State, c: ClientId, l: Label, t: TableId)
    requires Reachable(s) && Enabled(s, c, l) && t < |s.tables|
    ensures t < |Next(s, c, l).tables| && Guarded(c, s.tables[t], Next(s, c, l).tables[t])
  {
    ReachableInvariant(s);
    GuardStep(s, c, l, t);
  }

  lemma GuardStep(s: State, c: ClientId, l: Label, t: TableId)
    requires Inv(s) && Enabled(s, c, l) && t < |s.tables|
    ensures t < |Next(s, c, l).tables| && Guarded(c, s.tables[t], Next(s, c, l).tables[t])
  {
    match l
    case Connect(_) =>
    case Throw =>
    case Receive(r) => ReceiveHistory(s, c, r);
    case Pick(u) =>
      OwnTable(s, c, u);
      PickGuards(s, c, t, u);
    case Run =>
      FreeTablesAreClean(s, c, t);
      if Target(s.clients[c].task).Some? { OwnTarget(s, c); }
      RunGuards(s, c, t);
  }

  lemma FreeTablesAreClean(s: State, c: ClientId, t: TableId)
    requires Inv(s) && Enabled(s, c, Run) && t < |s.tables|
    ensures |Runs(s, c).tables| >= |s.tables|
    ensures Runs(s, c).tables[t].owner.None? ==> Runs(s, c).tables[t].pending == map[]
  {
    StepKeepsInvariant(s, c, Run);
    assert Next(s, c, Run) == Runs(s, c);
    RunKeepsTables(s, c);
    hide Runs, Enabled, LocalOk, HistoryOk, DirectoryOk;
  }

  lemma RunKeepsTables(s: State, c: ClientId)
    requires c in s.clients
    ensures |Runs(s, c).tables| >= |s.tables|
  {
    if OnDirectory(s.clients[c].task) { ConsultsKeepTables(s, c); }
    hide Consults;
  }

  lemma ConsultsKeepTables(s: State, c: ClientId)
    requires c in s.clients && OnDirectory(s.clients[c].task)
    ensures |Consults(s, c).tables| >= |s.tables|
    ensures forall t: TableId :: t < |s.tables| ==> Consults(s, c).tables[t] == s.tables[t]
  {
  }

  lemma OwnTable(s: State, c: ClientId, t: TableId)
    requires Inv(s) && c in s.clients && t in Holding(s.clients[c])
    ensures Owns(s, c, t)
  {
    assert LocalOk(s, c);
  }

  lemma OwnTarget(s: State, c: ClientId)
    requires Inv(s) && c in s.clients && Target(s.clients[c].task).Some?
    ensures Owns(s, c, Target(s.clients[c].task).value)
  {
    assert LocalOk(s, c);
    assert Target(s.clients[c].task).value in Holding(s.clients[c]);
  }

  /** The tables a loop over locked_tables has not unlocked yet. */
  function StillLocked(cl: Client): set<TableId> {
    if cl.task.Committing? || cl.task.Rolling? then cl.task.todo + Current(cl.task.cur) else cl.locked
  }

  /** Between requests a client owns its locked_tables and what failed autocommit SETs left
      locked; the two sets are equal exactly when none did. It owns all its locked_tables except
      while a loop has unlocked some and not yet cleared the set. Outside a transaction
      locked_tables is empty, and only a locked table has pending changes. */
  lemma LockedTablesAreOwned(s: State, c: ClientId)
    requires Reachable(s) && c in s.clients
    ensures var cl := s.clients[c];
            && (cl.task.Idle? ==> cl.locked <= Owned(s, c) && (Owned(s, c) == cl.locked <==> cl.leaked == {}))
            && (cl.locked <= Owned(s, c) <==> StillLocked(cl) == cl.locked)
            && (!cl.inTxn ==> cl.locked == {})
            && (forall t: TableId :: t < |s.tables| && s.tables[t].pending != map[] ==> s.tables[t].owner.Some?)
  {
    ReachableInvariant(s);
    var cl := s.clients[c];
    assert LocalOk(s, c);
    forall t: TableId ensures t in Owned(s, c) <==> t in Holding(cl) {
      assert t in Holding(cl) <==> Owns(s, c, t);
    }
    assert Owned(s, c) == Holding(cl);
    if cl.task.Idle? { assert Owned(s, c) == cl.locked + cl.leaked; }
  }
}
