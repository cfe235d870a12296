/** The steps that lock, read, write, commit, roll back and unlock tables keep the invariant. */
module TableSteps {
  import opened Basics
  import opened Tables
  import opened Protocol
  import opened SerialFacts
  import opened Invariant
  import opened Steps

  /** The state after client c has changed table t and its own state. */
  function Touched(s: State, c: ClientId, t: TableId, tb: TableState, cl: Client, m: bool): State
    requires t < |s.tables|
  {
    s.PutTable(t, tb).Put(c, cl).(missing := m)
  }

  lemma TouchedOwns(s: State, c: ClientId, t: TableId, tb: TableState, cl: Client, m: bool)
    requires t < |s.tables|
    ensures forall u: TableId :: Owns(Touched(s, c, t, tb, cl, m), c, u) <==> if u == t then tb.owner == Some(c) else Owns(s, c, u)
  {
  }

  /** Everything about client c except its view, after it touched table t. */
  lemma TouchedLocal(s: State, c: ClientId, t: TableId, tb: TableState, cl: Client, m: bool)
    requires Inv(s) && c in s.clients && t < |s.tables|
    requires ClientOk(cl, |s.tables|)
    requires forall u: TableId :: u in Holding(cl) <==> if u == t then tb.owner == Some(c) else u in Holding(s.clients[c])
    requires tb.owner == Some(c) && t !in Writable(cl) ==> tb.pending == map[]
    requires Writable(s.clients[c]) - {t} <= Writable(cl)
    requires HoldsDirectory(cl.task) <==> HoldsDirectory(s.clients[c].task)
    requires Live(cl) ==> View(Touched(s, c, t, tb, cl, m), cl)
    ensures LocalOk(Touched(s, c, t, tb, cl, m), c)
  {
    assert LocalOk(s, c);
    TouchedOwns(s, c, t, tb, cl, m);
    var s' := Touched(s, c, t, tb, cl, m);
    forall u: TableId
      ensures u in Holding(cl) <==> Owns(s', c, u)
      ensures Owns(s', c, u) && u !in Writable(cl) ==> s'.tables[u].pending == map[]
    {
    }
  }

  lemma TouchedFrame(s: State, c: ClientId, t: TableId, tb: TableState, cl: Client, m: bool)
    requires Inv(s) && c in s.clients && t < |s.tables| && TableFrame(s.tables[t], c, tb)
    ensures Frame(s, c, Touched(s, c, t, tb, cl, m))
  {
  }

  /** No abstract row but that of t can change, and none does if t keeps its own. */
  lemma TouchedRows(s: State, c: ClientId, t: TableId, tb: TableState, cl: Client, m: bool)
    requires c in s.clients && t < |s.tables|
    requires !s.clients[c].task.Committing? && !cl.task.Committing?
    ensures var s' := Touched(s, c, t, tb, cl, m);
            && (forall u: TableId :: u != t ==> AbstractRow(s', u) == AbstractRow(s, u))
            && (tb.owner == s.tables[t].owner == Some(c) ==>
                  AbstractRow(s', t) == tb.committed && AbstractRow(s, t) == s.tables[t].committed)
  {
    var s' := Touched(s, c, t, tb, cl, m);
    forall u: TableId | u != t ensures AbstractRow(s', u) == AbstractRow(s, u) {
    }
  }

  /** A step on one table that leaves the history alone. */
  lemma TouchedInv(s: State, c: ClientId, t: TableId, tb: TableState, cl: Client, m: bool)
    requires Inv(s) && c in s.clients && t < |s.tables| && TableFrame(s.tables[t], c, tb)
    requires LocalOk(Touched(s, c, t, tb, cl, m), c)
    requires !s.clients[c].task.Committing? && !cl.task.Committing?
    requires s.tables[t].owner == Some(c) ==> forall k {:trigger Lookup(tb.committed, k)} :: Lookup(tb.committed, k) == Lookup(s.tables[t].committed, k)
    requires tb.owner.None? ==> tb.pending == map[]
    ensures Inv(Touched(s, c, t, tb, cl, m))
  {
    var s' := Touched(s, c, t, tb, cl, m);
    TouchedFrame(s, c, t, tb, cl, m);
    TouchedRows(s, c, t, tb, cl, m);
    forall u: TableId | Owns(s, c, u) ensures SameAbstractly(s, s', u) {
      if u == t {
        assert AbstractRow(s, t) == s.tables[t].committed;
        assert AbstractRow(s', t) == tb.committed;
      }
    }
    QuietHistory(s, c, s');
    Assemble(s, c, s');
  }

  /** Taking a free mutex. */
  lemma Take(s: State, c: ClientId, t: TableId, cl: Client)
    requires Inv(s) && c in s.clients && t < |s.tables| && s.tables[t].owner.None?
    requires s.clients[c].task.Locking? && cl.task.Access? && cl.task.t == t && Accessing(cl.task.r)
    requires var was := s.clients[c];
             cl == (if was.inTxn
                    then was.(task := cl.task, locked := was.locked + {t})
                    else was.(task := cl.task))
    ensures Inv(Touched(s, c, t, s.tables[t].(owner := Some(c)), cl, s.missing))
  {
    var was, tb, m := s.clients[c], s.tables[t].(owner := Some(c)), s.missing;
    assert LocalOk(s, c);
    assert !Owns(s, c, t) && t !in Holding(was);
    var s' := Touched(s, c, t, tb, cl, m);
    if was.inTxn {
      WithinMore(was.cmds, Scope(was), Scope(cl));
      TakenView(s, s', was, cl, t);
    }
    hide View;
    TouchedLocal(s, c, t, tb, cl, m);
    TouchedInv(s, c, t, tb, cl, m);
  }

  lemma CommittedKept(s: State, s': State)
    requires |s'.tables| == |s.tables|
    requires forall t: TableId :: t < |s.tables| ==> s'.tables[t].committed == s.tables[t].committed
    ensures Committed(s') == Committed(s)
  {
  }

  /** A newly locked table reads in the replayed store as it does in the committed one. */
  lemma TakenView(s: State, s': State, was: Client, cl: Client, t: TableId)
    requires View(s, was) && Within(was.cmds, was.locked) && Scope(was) == was.locked
    requires t < |s.tables| == |s'.tables| && t !in was.locked && s.tables[t].pending == map[]
    requires forall u: TableId :: u < |s.tables| ==> s'.tables[u] == s.tables[u].(owner := s'.tables[u].owner)
    requires cl == was.(task := cl.task, locked := was.locked + {t}) && Scope(cl) == cl.locked
    ensures View(s', cl)
  {
    CommittedKept(s, s');
    var o := Exec(Committed(s), was.before, was.cmds);
    ExecAgrees(Committed(s), Committed(s), was.before, was.cmds, was.locked);
    forall u, k {:trigger Read(o.store, u, k)} | u in Scope(cl) && u < |s'.tables|
      ensures Read(o.store, u, k) == Lookup(s'.tables[u].Visible(), k)
    {
      if u == t {
        assert Read(Committed(s), t, k) == Read(o.store, t, k);
        assert s.tables[t].Visible() == s.tables[t].committed == RowOf(Committed(s), t);
      } else {
        assert s'.tables[u].Visible() == s.tables[u].Visible() && u in Scope(was);
      }
    }
  }

  lemma FailToTake(s: State, c: ClientId)
    requires Inv(s) && c in s.clients && s.clients[c].task.Locking? && s.clients[c].inTxn
    ensures Inv(s.Put(c, s.clients[c].(task := Rolling(s.clients[c].locked, None), cmds := [])))
  {
    var cl := s.clients[c];
    var cl' := cl.(task := Rolling(cl.locked, None), cmds := []);
    assert LocalOk(s, c);
    hide Exec, View, HistoryOk;
    assert Holding(cl') == Holding(cl);
    TablesUntouched(s, c, cl', s.dirOwner);
    assert s.Put(c, cl').(dirOwner := s.dirOwner) == s.Put(c, cl');
  }

  lemma Reenter(s: State, c: ClientId)
    requires Inv(s) && c in s.clients && s.clients[c].task.Locking? && s.clients[c].inTxn
    requires s.clients[c].task.t in s.clients[c].locked
    ensures Inv(s.Put(c, s.clients[c].(task := Access(s.clients[c].task.r, s.clients[c].task.t))))
  {
    var cl := s.clients[c];
    var cl' := cl.(task := Access(cl.task.r, cl.task.t));
    assert LocalOk(s, c);
    PlaceMove(s, c, cl', s.dirOwner);
    assert s.Put(c, cl').(dirOwner := s.dirOwner) == s.Put(c, cl');
  }

  lemma StepLocks(s: State, c: ClientId)
    requires Inv(s) && Enabled(s, c, Run) && s.clients[c].task.Locking?
    ensures Inv(Runs(s, c))
  {
    var cl := s.clients[c];
    var r, t := cl.task.r, cl.task.t;
    assert ClientOk(cl, |s.tables|) by { assert LocalOk(s, c); }
    var entered := cl.(task := Access(r, t));
    if !cl.inTxn {
      Take(s, c, t, entered);
    } else if t in cl.locked {
      Reenter(s, c);
    } else if s.tables[t].owner.None? {
      Take(s, c, t, entered.(locked := cl.locked + {t}));
    } else {
      FailToTake(s, c);
    }
  }

  // ---------------------------------------------------------------- get and set

  ghost predicate Rereads(now: Row, was: Row) {
    forall k {:trigger Lookup(now, k)} :: Lookup(now, k) == Lookup(was, k)
  }

  /** What a get or a set does to its table, apart from pending changes. */
  ghost predicate TableChange(s: State, t: TableId, tb: TableState) {
    && t < |s.tables|
    && tb.owner == s.tables[t].owner && tb.name == s.tables[t].name
    && Rereads(tb.committed, s.tables[t].committed)
  }

  /** What the command does to the stack and to what its table shows. */
  ghost predicate Effect(cmd: Command, t: TableId, stack: seq<Value>, tb: TableState, stack': seq<Value>, tb': TableState) {
    match cmd
    case CGet(u, k, v) => u == t && v == Lookup(tb.Visible(), k) && stack' == stack + [v] && Rereads(tb'.Visible(), tb.Visible())
    case CSet(u, k) => u == t && |stack| > 0 && stack' == stack[..|stack| - 1] && tb' == tb.Set(k, stack[|stack| - 1])
    case _ => false
  }

  /** Recording a get or a set extends the replayed store as the table changed. */
  lemma AccessView(s: State, s': State, was: Client, cl: Client, cmd: Command, t: TableId)
    requires View(s, was) && Within(was.cmds, Scope(was)) && t in Scope(was) && Scope(cl) == Scope(was)
    requires |s.tables| == |s'.tables| && t < |s.tables| && Rereads(s'.tables[t].committed, s.tables[t].committed)
    requires forall u: TableId :: u < |s.tables| && u != t ==> s'.tables[u] == s.tables[u]
    requires cl.before == was.before && cl.cmds == was.cmds + [cmd]
    requires Effect(cmd, t, was.stack, s.tables[t], cl.stack, s'.tables[t])
    ensures View(s', cl) && Within(cl.cmds, Scope(cl))
  {
    var T := Scope(was);
    var a, b := Committed(s), Committed(s');
    forall u, k | u in T ensures Read(a, u, k) == Read(b, u, k) {
      if u < |s.tables| {
        assert RowOf(a, u) == s.tables[u].committed;
        assert RowOf(b, u) == s'.tables[u].committed;
      }
    }
    ExecAgrees(a, b, was.before, was.cmds, T);
    ExecAppend(b, was.before, was.cmds, cmd);
    var o, p := Exec(a, was.before, was.cmds), Exec(b, was.before, was.cmds);
    forall u, k | u in T && u < |s.tables| ensures Read(p.store, u, k) == Lookup(s.tables[u].Visible(), k) {
      assert Read(o.store, u, k) == Read(p.store, u, k);
    }
    AccessedRows(s, s', p.store, was.stack, cl.stack, cmd, t, T);
    forall i | 0 <= i < |cl.cmds| ensures Touches(cl.cmds[i], T) {
      if i < |was.cmds| { assert Touches(was.cmds[i], T); }
    }
  }

  lemma AccessedRows(s: State, s': State, st: Store, stack: seq<Value>, stack': seq<Value>, cmd: Command, t: TableId, T: set<TableId>)
    requires t in T && |s.tables| == |s'.tables| && t < |s.tables|
    requires forall u: TableId :: u < |s.tables| && u != t ==> s'.tables[u] == s.tables[u]
    requires forall u, k {:trigger Read(st, u, k)} :: u in T && u < |s.tables| ==> Read(st, u, k) == Lookup(s.tables[u].Visible(), k)
    requires Effect(cmd, t, stack, s.tables[t], stack', s'.tables[t])
    ensures Do(st, stack, cmd).Done? && Do(st, stack, cmd).stack == stack'
    ensures forall u, k {:trigger Read(Do(st, stack, cmd).store, u, k)} ::
              u in T && u < |s.tables| ==> Read(Do(st, stack, cmd).store, u, k) == Lookup(s'.tables[u].Visible(), k)
  {
    var after := Do(st, stack, cmd).store;
    forall u, k | u in T && u < |s.tables| ensures Read(after, u, k) == Lookup(s'.tables[u].Visible(), k) {
      assert Read(st, u, k) == Lookup(s.tables[u].Visible(), k);
      if cmd.CSet? { ReadWritten(st, t, cmd.k, stack[|stack| - 1], u, k); }
    }
  }

  /** The client a get or set handler works on: outside a transaction the request stands alone. */
  function Started(cl: Client, t: TableId): Client {
    if cl.inTxn then cl else cl.(before := cl.stack, cmds := [], task := Publish(t))
  }

  /** An autocommit request starts from the committed row of a table with nothing pending. */
  lemma FreshView(s: State, cl: Client, t: TableId)
    requires t < |s.tables| && s.tables[t].pending == map[]
    ensures View(s, cl.(before := cl.stack, cmds := [], task := Publish(t)))
  {
    forall k ensures Read(Committed(s), t, k) == Lookup(s.tables[t].Visible(), k) {
      assert RowOf(Committed(s), t) == s.tables[t].committed == s.tables[t].Visible();
    }
  }

  lemma StartedView(s: State, c: ClientId)
    requires Inv(s) && c in s.clients && s.clients[c].task.Access?
    ensures var cl, t := s.clients[c], s.clients[c].task.t;
            View(s, Started(cl, t)) && Within(Started(cl, t).cmds, Scope(Started(cl, t))) && t in Scope(Started(cl, t)) &&
            Owns(s, c, t)
  {
    var cl, t := s.clients[c], s.clients[c].task.t;
    assert LocalOk(s, c);
    assert t in Holding(cl) && Owns(s, c, t);
    if !cl.inTxn { FreshView(s, cl, t); }
  }

  /** A get or a set, inside or outside a transaction. */
  lemma AccessStep(s: State, c: ClientId, t: TableId, tb: TableState, now: Client, cmd: Command, m: bool)
    requires Inv(s) && c in s.clients && s.clients[c].task.Access? && s.clients[c].task.t == t && TableChange(s, t, tb)
    requires now == s.clients[c].(stack := now.stack)
    requires Effect(cmd, t, s.clients[c].stack, s.tables[t], now.stack, tb)
    ensures Inv(Touched(s, c, t, tb, Finish(s.clients[c], now, cmd, t), m))
  {
    var was := s.clients[c];
    var cl := Finish(was, now, cmd, t);
    StartedView(s, c);
    AccessView(s, Touched(s, c, t, tb, cl, m), Started(was, t), cl, cmd, t);
    AccessLocal(s, c, t, tb, cl, m);
    TouchedInv(s, c, t, tb, cl, m);
  }

  lemma AccessHolding(was: Client, cl: Client, t: TableId)
    requires was.task.Access? && was.task.t == t && cl.inTxn == was.inTxn && cl.leaked == was.leaked && cl.locked == was.locked
    requires !was.inTxn ==> was.locked == {}
    requires cl.task == if was.inTxn then Idle else Publish(t)
    ensures Holding(cl) == Holding(was) && Writable(was) <= Writable(cl)
    ensures forall n: nat :: ClientOk(was, n) && Within(cl.cmds, Scope(cl)) ==> ClientOk(cl, n)
  {
  }

  lemma AccessLocal(s: State, c: ClientId, t: TableId, tb: TableState, cl: Client, m: bool)
    requires Inv(s) && c in s.clients && s.clients[c].task.Access? && s.clients[c].task.t == t && TableChange(s, t, tb)
    requires var was := s.clients[c];
             cl == was.(stack := cl.stack, cmds := cl.cmds, before := cl.before, reply := cl.reply,
                        task := if was.inTxn then Idle else Publish(t))
    requires View(Touched(s, c, t, tb, cl, m), cl) && Within(cl.cmds, Scope(cl))
    ensures LocalOk(Touched(s, c, t, tb, cl, m), c)
  {
    var was := s.clients[c];
    assert LocalOk(s, c);
    AccessHolding(was, cl, t);
    assert t in Holding(was) && Owns(s, c, t);
    TouchedLocal(s, c, t, tb, cl, m);
  }

  /** An autocommit SET on an empty stack keeps its mutex for good. */
  lemma Leak(s: State, c: ClientId, t: TableId)
    requires Inv(s) && c in s.clients && s.clients[c].task.Access? && s.clients[c].task.t == t && !s.clients[c].inTxn
    ensures Inv(s.Put(c, s.clients[c].(leaked := s.clients[c].leaked + {t}).Answer(Failed)))
  {
    var cl := s.clients[c];
    var cl' := cl.(leaked := cl.leaked + {t}).Answer(Failed);
    assert LocalOk(s, c);
    assert Holding(cl') == Holding(cl);
    TablesUntouched(s, c, cl', s.dirOwner);
    assert s.Put(c, cl').(dirOwner := s.dirOwner) == s.Put(c, cl');
  }

  lemma StepGet(s: State, c: ClientId, t: TableId, k: Key)
    requires Inv(s) && c in s.clients && s.clients[c].task.Access? && s.clients[c].task.t == t && t < |s.tables|
    ensures var cl, tb := s.clients[c], s.tables[t];
            var got := cl.(stack := cl.stack + [Lookup(tb.Visible(), k)]);
            Inv(Touched(s, c, t, tb.AfterGet(k), Finish(cl, got, CGet(t, k, Lookup(tb.Visible(), k)), t), s.missing || !tb.HasKey(k)))
  {
    var cl, tb := s.clients[c], s.tables[t];
    AccessStep(s, c, t, tb.AfterGet(k), cl.(stack := cl.stack + [Lookup(tb.Visible(), k)]), CGet(t, k, Lookup(tb.Visible(), k)), s.missing || !tb.HasKey(k));
  }

  lemma StepSet(s: State, c: ClientId, t: TableId, k: Key)
    requires Inv(s) && c in s.clients && s.clients[c].task.Access? && s.clients[c].task.t == t && t < |s.tables|
    requires |s.clients[c].stack| > 0
    ensures var cl, tb, n := s.clients[c], s.tables[t], |s.clients[c].stack|;
            var popped := cl.(stack := cl.stack[..n - 1]);
            Inv(Touched(s, c, t, tb.Set(k, cl.stack[n - 1]), Finish(cl, popped, CSet(t, k), t), s.missing))
  {
    var cl, tb, n := s.clients[c], s.tables[t], |s.clients[c].stack|;
    AccessStep(s, c, t, tb.Set(k, cl.stack[n - 1]), cl.(stack := cl.stack[..n - 1]), CSet(t, k), s.missing);
  }

  lemma StepAccess(s: State, c: ClientId)
    requires Inv(s) && Enabled(s, c, Run) && s.clients[c].task.Access?
    ensures Inv(Runs(s, c))
  {
    var cl := s.clients[c];
    var r, t := cl.task.r, cl.task.t;
    assert ClientOk(cl, |s.tables|) by { assert LocalOk(s, c); }
    if r.Get? {
      StepGet(s, c, t, r.key);
    } else if |cl.stack| > 0 {
      StepSet(s, c, t, r.key);
    } else if cl.inTxn {
      Downed(s, s.(down := true));
    } else {
      Leak(s, c, t);
    }
  }
}
