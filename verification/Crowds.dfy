/**
 Many clients at once: everyone may connect and send, only a held mutex makes a thread wait, and
 transactions of different clients really overlap.
 */
module Crowds {
  import opened Basics
  import opened Tables
  import opened Protocol
  import opened Invariant
  import opened LoopSteps
  import opened Serializability
  import opened Rollback
  import Deadlock
  import opened BigStep
  import opened Witnesses
  import opened Transcripts

  // ---------------------------------------------------------------- who can move

  /** While the server is up anyone not connected can connect, and starts with nothing; a client without
      a request in progress can send any; a client that has left does nothing. */
  lemma EveryoneMayCome(s: State, c: ClientId)
    requires !s.down
    ensures c !in s.clients ==> forall flag :: Enabled(s, c, Connect(flag))
    ensures c !in s.clients ==>
              forall flag {:trigger Connect(flag)} ::
                Next(s, c, Connect(flag)) == s.Put(c, Client(Idle, flag, [], false, {}, Silent, [], {}, [], []))
    ensures c in s.clients && s.clients[c].task.Idle? ==> forall r :: Enabled(s, c, Receive(r))
    ensures c in s.clients && s.clients[c].task.Gone? ==> forall l :: !Enabled(s, c, l)
  {
  }

  /** The thread of c can take its next step, but for an exception of get. */
  ghost predicate CanGoOn(s: State, c: ClientId) {
    exists l :: GoesOn(l) && Enabled(s, c, l)
  }

  /** The thread of a request in progress can go on exactly when it does not wait for a mutex; what the
      other clients do makes no difference otherwise. A loop may go on with any of its tables, and a GET may throw
      exactly when its table has no such key. */
  lemma OnlyHeldMutexesBlock(s: State, c: ClientId)
    requires Reachable(s) && !s.down && c in s.clients && !s.clients[c].task.Idle? && !s.clients[c].task.Gone?
    ensures s.clients[c].task.Access? ==> s.clients[c].task.t < |s.tables|
    ensures CanGoOn(s, c) <==> !Deadlock.Waits(s, c)
    ensures var task := s.clients[c].task;
            (task.Committing? || task.Rolling?) && task.cur.None? ==> forall t :: t in task.todo ==> Enabled(s, c, Pick(t))
    ensures var task := s.clients[c].task;
            Enabled(s, c, Throw) <==>
              && task.Access? && task.r.Get?
              && task.r.key !in s.tables[task.t].committed && task.r.key !in s.tables[task.t].pending
  {
    ReachableInvariant(s);
    ClientIsOk(s, c);
    hide Inv;
    var task := s.clients[c].task;
    if (task.Committing? || task.Rolling?) && task.cur.None? && task.todo != {} {
      var t :| t in task.todo;
      assert GoesOn(Pick(t)) && Enabled(s, c, Pick(t));
    } else if !Deadlock.Waits(s, c) {
      assert GoesOn(Run) && Enabled(s, c, Run);
    } else {
      forall l | GoesOn(l) ensures !Enabled(s, c, l) {}
    }
  }

  // ---------------------------------------------------------------- everybody is there

  /** The client may send, and has nothing yet. */
  predicate Starting(s: State, c: ClientId) {
    MaySend(s, c) && !s.clients[c].inTxn && s.clients[c].stack == [] && s.clients[c].locked == {}
  }

  /** All the clients of C, and nobody else, have logged in to a server without tables. */
  predicate Gathered(s: State, C: set<ClientId>) {
    s.clients.Keys == C && s.tables == [] && s.directory == map[] && !s.down && s.dirOwner.None? && forall c :: c in C ==> Starting(s, c)
  }

  lemma OneMore(s: State, C: set<ClientId>, c: ClientId, flag: bool) returns (s': State)
    requires Reachable(s) && Gathered(s, C) && c !in C
    ensures Reachable(s') && Gathered(s', C + {c})
  {
    ReachableStep(s, c, Connect(flag));
    var s1 := Next(s, c, Connect(flag));
    ReachableStep(s1, c, Receive(Login));
    s' := Next(s1, c, Receive(Login));
    assert s'.clients == s.clients[c := s'.clients[c]];
    forall d | d in C + {c} ensures Starting(s', d) {
      if d != c { assert Starting(s, d); }
    }
    hide Reachable;
  }

  /** Any number of clients can be connected and logged in at the same time. */
  lemma {:induction false} EverybodyConnects(C: set<ClientId>) returns (s: State)
    ensures Reachable(s) && Gathered(s, C)
  {
    if C == {} {
      s := INITIAL;
      assert RunTo([INITIAL], [], INITIAL);
    } else {
      var c :| c in C;
      s := EverybodyConnects(C - {c});
      s := OneMore(s, C - {c}, c, false);
      assert C - {c} + {c} == C;
    }
  }

  // ---------------------------------------------------------------- requests served alone

  lemma ReachableIsLed(s: State)
    ensures Reachable(s) <==> Leads(INITIAL, s)
  {
    if Reachable(s) {
      var states, moves :| RunTo(states, moves, s);
      assert Path(states, moves, INITIAL, s);
    }
    if Leads(INITIAL, s) {
      var states, moves :| Path(states, moves, INITIAL, s);
      assert RunTo(states, moves, s);
    }
  }

  /** What a thread that goes on alone cannot change. */
  ghost predicate Alone(s: State, c: ClientId, s': State) {
    && s'.clients.Keys == s.clients.Keys && s.history <= s'.history
    && forall d :: d in s.clients && d != c ==> s'.clients[d] == s.clients[d]
  }

  lemma AloneStep(s: State, c: ClientId, l: Label)
    requires Reachable(s) && Enabled(s, c, l) && c in s.clients
    ensures Reachable(Next(s, c, l)) && Alone(s, c, Next(s, c, l))
  {
    ReachableStep(s, c, l);
    ReachableInvariant(s);
    HistoryStep(s, c, l);
    forall d | d != c
      ensures d in Next(s, c, l).clients <==> d in s.clients
      ensures d in s.clients ==> Next(s, c, l).clients[d] == s.clients[d]
    {
      OtherClients(s, c, l, d);
    }
    StepKeepsClient(s, c, l);
    hide Next, Reachable, Inv, TakesEffect;
  }

  lemma StepKeepsClient(s: State, c: ClientId, l: Label)
    requires Enabled(s, c, l)
    ensures c in Next(s, c, l).clients
  {
    match l
    case Run => RunsMovesOne(s, c);
    case Receive(r) => ReceivesMovesOne(s, c, r);
    case _ =>
  }

  lemma {:induction false} AloneAll(z: State, states: seq<State>, c: ClientId)
    requires Proceeds(states, c) && Leads(z, states[0]) && Reachable(states[0]) && c in states[0].clients
    ensures var end := states[|states| - 1]; Leads(z, end) && Reachable(end) && Alone(states[0], c, end)
    decreases |states|
  {
    hide Next, Enabled, Reachable, Leads;
    if |states| > 1 {
      assert ProceedsTo(states[0], c, states[1]);
      var l :| GoesOn(l) && Enabled(states[0], c, l) && states[1] == Next(states[0], c, l);
      AloneStep(states[0], c, l);
      LeadsOn(z, states[0], c, l);
      var rest := states[1..];
      assert Proceeds(rest, c) by {
        forall i | 0 <= i < |rest| - 1 ensures ProceedsTo(rest[i], c, rest[i + 1]) {
          assert ProceedsTo(states[i + 1], c, states[i + 2]);
        }
      }
      AloneAll(z, rest, c);
    }
  }

  lemma DirectoryStaysFree(s: State, c: ClientId, s': State)
    requires Inv(s) && Inv(s') && s.dirOwner.None? && Alone(s, c, s') && c in s'.clients && s'.clients[c].task.Idle?
    ensures s'.dirOwner.None?
  {
    if s'.dirOwner.Some? {
      var d := s'.dirOwner.value;
      DirectoryHolder(s', d);
      DirectoryHolder(s, d);
    }
  }

  /** A request that its meaning lets go on can be served while the others pause. */
  lemma Serve(z: State, s: State, c: ClientId, r: Request, k: Core) returns (s': State)
    requires Reachable(s) && Leads(z, s) && MaySend(s, c) && WellFormed(CoreOf(s, c)) && Meaning(CoreOf(s, c), c, r) == Continues(k)
    ensures Reachable(s') && Leads(z, s') && Alone(s, c, s') && !s'.down && s'.dirOwner.None?
    ensures c in s'.clients && s'.clients[c].task.Idle? && CoreOf(s', c) == k
  {
    hide Meaning, Reachable, Leads;
    BigStep.ReachableSound(s, c);
    assert Enabled(s, c, Receive(r));
    var states := RequestsComplete(s, c, r);
    AloneStep(s, c, Receive(r));
    LeadsOn(z, s, c, Receive(r));
    hide Next, Enabled, WellFormed, CoreOf, Sound, Proceeds, Inv;
    AloneAll(z, states, c);
    s' := states[|states| - 1];
    AloneTwice(s, c, states[0], s');
    ReachableInvariant(s);
    ReachableInvariant(s');
    DirectoryStaysFree(s, c, s');
  }

  lemma AloneTwice(s: State, c: ClientId, s1: State, s2: State)
    requires Alone(s, c, s1) && Alone(s1, c, s2)
    ensures Alone(s, c, s2)
  {
  }

  // ---------------------------------------------------------------- two transactions at the same time

  lemma CoresAreFormed(s: State, c: ClientId)
    requires Reachable(s) && c in s.clients && s.clients[c].task.Idle?
    ensures WellFormed(CoreOf(s, c))
  {
    BigStep.ReachableSound(s, c);
  }

  lemma ServeCreate(z: State, s: State, c: ClientId, n: string) returns (s': State)
    requires Reachable(s) && Leads(z, s) && MaySend(s, c) && n !in s.directory
    ensures Reachable(s') && Leads(z, s') && Alone(s, c, s') && MaySend(s', c)
    ensures s'.tables == s.tables + [TableState(n, None, map[], map[])] && s'.directory == s.directory[n := |s.tables|]
    ensures SessionOf(s'.clients[c]) == SessionOf(s.clients[c]).(reply := Ok)
  {
    CoresAreFormed(s, c);
    s' := Serve(z, s, c, Create(n), Created(CoreOf(s, c), n));
    hide Reachable, Leads, WellFormed, Alone;
  }

  /** What a client has after BEGIN, PUSH v and SET n k, with n bound to the free table t. */
  ghost predicate HasOpened(s: State, c: ClientId, t: TableId, k: Key, v: Value, s': State) {
    && c in s.clients && MaySend(s', c) && t < |s.tables| && s'.directory == s.directory
    && s'.tables == s.tables[t := s.tables[t].Set(k, v).(owner := Some(c))]
    && SessionOf(s'.clients[c]) == Session(true, [], true, {t}, Ok)
  }

  lemma Opens(z: State, s: State, c: ClientId, n: string, t: TableId, k: Key, v: Value) returns (s': State)
    requires Reachable(s) && Leads(z, s) && Starting(s, c)
    requires n in s.directory && s.directory[n] == t && t < |s.tables| && s.tables[t].owner.None?
    ensures Reachable(s') && Leads(z, s') && Alone(s, c, s') && HasOpened(s, c, t, k, v, s')
  {
    CoresAreFormed(s, c);
    var a := CoreOf(s, c);
    var a1 := a.(session := a.session.(inTxn := true, reply := Ok));
    var a2 := a1.Stacked([v]).Replied(Ok);
    var a3 := Used(a2, c, t, a2.tables[t].Set(k, v)).Stacked([]).Replied(Ok);
    assert AtHand(a2, n, t);
    SetMeans(a2, c, n, k, t, [], v);
    assert [] + [v] == [v];
    OpensMeanings(a, c, v, a1, a2);
    hide Meaning, WellFormed, Reachable, Leads;
    var s1 := Serve(z, s, c, Begin, a1);
    CoresAreFormed(s1, c);
    var s2 := Serve(z, s1, c, Push(v), a2);
    AloneTwice(s, c, s1, s2);
    CoresAreFormed(s2, c);
    s' := Serve(z, s2, c, Protocol.Set(n, k), a3);
    AloneTwice(s, c, s2, s');
    hide Alone;
  }

  lemma OpensMeanings(a: Core, c: ClientId, v: Value, a1: Core, a2: Core)
    requires WellFormed(a) && a.session.loggedIn && a.session.stack == []
    requires a1 == a.(session := a.session.(inTxn := true, reply := Ok)) && a2 == a1.Stacked([v]).Replied(Ok)
    ensures WellFormed(a1) && Meaning(a, c, Begin) == Continues(a1) && Meaning(a1, c, Push(v)) == Continues(a2)
  {
    assert [] + [v] == [v];
  }

  /** An accepted COMMIT: its entry is in the history, and the loop over the locked tables is still to run. */
  lemma Accepted(z: State, s: State, c: ClientId) returns (s': State)
    requires Reachable(s) && Leads(z, s) && c in s.clients && s.clients[c].task.Idle? && s.clients[c].loggedIn
    requires s.clients[c].inTxn && !s.down
    ensures Reachable(s') && Leads(z, s') && Alone(s, c, s') && !s'.down
    ensures exists x: Transaction :: x.client == c && s'.history == s.history + [x]
    ensures s'.tables == s.tables && s'.clients[c].task == Committing(s.clients[c].locked, None)
    ensures SessionOf(s'.clients[c]) == SessionOf(s.clients[c]) && s'.directory == s.directory
  {
    assert Enabled(s, c, Receive(Commit));
    AloneStep(s, c, Receive(Commit));
    LeadsOn(z, s, c, Receive(Commit));
    s' := Next(s, c, Receive(Commit));
    ReceiveHistory(s, c, Commit);
    var x := Transaction(c, s.clients[c].before, s.clients[c].cmds, s.clients[c].stack);
    assert x.client == c && s'.history == s.history + [x];
    hide Reachable, Leads, Alone;
  }

  /** And it does run, while the others pause. */
  lemma Commits(z: State, s: State, c: ClientId, todo: set<TableId>) returns (s': State)
    requires Reachable(s) && Leads(z, s) && c in s.clients && !s.down && s.clients[c].task == Committing(todo, None)
    requires WellFormed(CoreOf(s, c)) && forall t :: t in todo ==> t < |s.tables|
    ensures Reachable(s') && Leads(z, s') && Alone(s, c, s') && !s'.down
    ensures c in s'.clients && s'.clients[c].task.Idle?
    ensures CoreOf(s', c) == Closed(CoreOf(s, c), CommittedAll(s.tables, todo), Ok)
  {
    assert Sound(s, c) && Rest(s, c) == Continues(Closed(CoreOf(s, c), CommittedAll(s.tables, todo), Ok));
    hide CommittedAll, WellFormed, Reachable, Leads;
    var states := Finishes(s, c);
    AloneAll(z, states, c);
    ProceedingKeepsRest(states, c);
    s' := states[|states| - 1];
    hide Sound, Proceeds;
  }

  function Blank(n: string): TableState { TableState(n, None, map[], map[]) }

  function Held(n: string, c: ClientId, k: Key, v: Value): TableState { TableState(n, Some(c), map[], map[k := v]) }

  function Kept(n: string, k: Key, v: Value): TableState { TableState(n, None, map[k := v], map[]) }

  /** Two clients and two tables, with a value set in each table by an open transaction of its own. */
  ghost predicate BothOpen(s: State, c: ClientId, d: ClientId, n: string, m: string, k: Key, v: Value) {
    && s.clients.Keys == {c, d} && MaySend(s, c) && MaySend(s, d)
    && s.directory == map[n := 0, m := 1] && s.tables == [Held(n, c, k, v), Held(m, d, k, v)]
    && SessionOf(s.clients[c]) == Session(true, [], true, {0}, Ok)
    && SessionOf(s.clients[d]) == Session(true, [], true, {1}, Ok)
  }

  lemma TwoTables(c: ClientId, d: ClientId, n: string, m: string) returns (s: State)
    requires c != d && n != m
    ensures Reachable(s) && s.clients.Keys == {c, d} && Starting(s, c) && Starting(s, d)
    ensures s.tables == [Blank(n), Blank(m)] && s.directory == map[n := 0, m := 1]
  {
    var s0 := EverybodyConnects({c, d});
    assert Starting(s0, c) && Starting(s0, d);
    ReachableIsLed(s0);
    var s1 := ServeCreate(INITIAL, s0, c, n);
    s := ServeCreate(INITIAL, s1, c, m);
    AloneTwice(s0, c, s1, s);
    assert s.tables == [Blank(n)] + [Blank(m)] == [Blank(n), Blank(m)];
    assert s.directory == (map[n := 0])[m := 1] == map[n := 0, m := 1];
    hide Reachable, Leads;
  }

  lemma BothOpened(c: ClientId, d: ClientId, n: string, m: string, k: Key, v: Value) returns (s: State)
    requires c != d && n != m
    ensures Reachable(s) && BothOpen(s, c, d, n, m, k, v)
  {
    var s0 := TwoTables(c, d, n, m);
    ReachableIsLed(s0);
    hide Reachable, Leads;
    var s1 := Opens(INITIAL, s0, c, n, 0, k, v);
    assert s1.tables == [Held(n, c, k, v), Blank(m)] by { assert (map[])[k := v] == map[k := v]; }
    assert Starting(s1, d);
    s := Opens(INITIAL, s1, d, m, 1, k, v);
    assert s.tables == [Held(n, c, k, v), Held(m, d, k, v)] by { assert (map[])[k := v] == map[k := v]; }
  }

  /** Both COMMITs have been accepted, and no table is committed yet. */
  ghost predicate BothAccepted(s: State, q: State, c: ClientId, d: ClientId) {
    && q.clients.Keys == {c, d} && !q.down && q.tables == s.tables && q.directory == s.directory
    && (exists x: Transaction, y: Transaction :: x.client == c && y.client == d && q.history == s.history + [x] + [y])
    && q.clients[c].task == Committing({0}, None) && SessionOf(q.clients[c]) == Session(true, [], true, {0}, Ok)
    && q.clients[d].task == Committing({1}, None) && SessionOf(q.clients[d]) == Session(true, [], true, {1}, Ok)
  }

  lemma AcceptsBoth(s: State, c: ClientId, d: ClientId, n: string, m: string, k: Key, v: Value) returns (q: State)
    requires c != d && Reachable(s) && BothOpen(s, c, d, n, m, k, v)
    ensures Reachable(q) && Leads(s, q) && BothAccepted(s, q, c, d)
  {
    LeadsToItself(s);
    hide Reachable, Leads;
    var p := Accepted(s, s, c);
    var x: Transaction :| x.client == c && p.history == s.history + [x];
    q := Accepted(s, p, d);
    var y: Transaction :| y.client == d && q.history == p.history + [y];
    assert q.history == s.history + [x] + [y];
  }

  /** Both COMMITs are accepted one right after the other, before any table is committed, and then both
      loops run to their end: both entries are in the history, both values in their tables, both clients
      have been answered OK. */
  lemma TransactionsOverlap(c: ClientId, d: ClientId, n: string, m: string, k: Key, v: Value) returns (s: State, s': State)
    requires c != d && n != m
    ensures Reachable(s) && BothOpen(s, c, d, n, m, k, v) && Leads(s, s') && Reachable(s')
    ensures exists x: Transaction, y: Transaction :: x.client == c && y.client == d && s.history + [x] + [y] <= s'.history
    ensures s'.tables == [Kept(n, k, v), Kept(m, k, v)] && !s'.down && s'.clients.Keys == {c, d}
    ensures forall e :: e in s'.clients ==>
              s'.clients[e].task.Idle? && SessionOf(s'.clients[e]) == Session(true, [], false, {}, Ok)
  {
    s := BothOpened(c, d, n, m, k, v);
    var q := AcceptsBoth(s, c, d, n, m, k, v);
    s' := CommitsBoth(s, q, c, d, n, m, k, v);
    var x: Transaction, y: Transaction :| x.client == c && y.client == d && q.history == s.history + [x] + [y];
    assert s.history + [x] + [y] <= s'.history;
    hide Reachable, Leads, BothOpen;
  }

  lemma CommitsBoth(s: State, q: State, c: ClientId, d: ClientId, n: string, m: string, k: Key, v: Value) returns (s': State)
    requires c != d && BothOpen(s, c, d, n, m, k, v) && Reachable(q) && Leads(s, q) && BothAccepted(s, q, c, d)
    ensures Reachable(s') && Leads(s, s') && q.history <= s'.history
    ensures s'.tables == [Kept(n, k, v), Kept(m, k, v)] && !s'.down && s'.clients.Keys == {c, d}
    ensures forall e :: e in s'.clients ==>
              s'.clients[e].task.Idle? && SessionOf(s'.clients[e]) == Session(true, [], false, {}, Ok)
  {
    FirstCommitted(n, m, c, d, k, v);
    hide Reachable, Leads, CommittedAll, WellFormed, MaySend;
    TwoFormed(CoreOf(q, c), n, m);
    var q1 := Commits(s, q, c, {0});
    assert d in q1.clients && q1.clients[d] == q.clients[d];
    TwoFormed(CoreOf(q1, d), n, m);
    s' := Commits(s, q1, d, {1});
    assert c in s'.clients && s'.clients[c] == q1.clients[c];
  }

  lemma TwoFormed(a: Core, n: string, m: string)
    requires |a.tables| == 2 && a.directory == map[n := 0, m := 1] && a.session.locked <= {0, 1}
    ensures WellFormed(a)
  {
  }

  lemma FirstCommitted(n: string, m: string, c: ClientId, d: ClientId, k: Key, v: Value)
    ensures CommittedAll([Held(n, c, k, v), Held(m, d, k, v)], {0}) == [Kept(n, k, v), Held(m, d, k, v)]
    ensures CommittedAll([Kept(n, k, v), Held(m, d, k, v)], {1}) == [Kept(n, k, v), Kept(m, k, v)]
  {
    var none: Row := map[];
    assert none + map[k := v] == map[k := v];
  }
}
