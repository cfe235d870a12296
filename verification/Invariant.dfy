/** The inductive invariant of the server, and the proof that every step keeps it. */
module Invariant {
  import opened Basics
  import opened Tables
  import opened Protocol
  import opened SerialFacts

  function Current(cur: Option<TableId>): set<TableId> {
    match cur case Some(t) => {t} case None => {}
  }

  /** The tables whose mutexes a client owns. */
  function Holding(cl: Client): set<TableId> {
    cl.leaked +
    match cl.task
    case Committing(todo, cur) => todo + Current(cur)
    case Rolling(todo, cur) => todo + Current(cur)
    case Access(_, t) => if cl.inTxn then cl.locked else {t}
    case Publish(t) => {t}
    case Release(t) => {t}
    case _ => cl.locked
  }

  predicate HoldsDirectory(task: Task) {
    task.FindHeld? || task.FindFound? || task.CreateHeld? || task.CreateDone?
  }

  /** The tables in which a client may have pending changes. */
  function Writable(cl: Client): set<TableId> {
    match cl.task
    case Committing(todo, _) => todo
    case Rolling(todo, _) => todo
    case Publish(t) => {t}
    case _ => cl.locked
  }

  /** The tables a client's recorded commands touch. */
  function Scope(cl: Client): set<TableId> {
    if cl.task.Publish? then {cl.task.t} else cl.locked
  }

  /** The client has commands in progress that are not yet part of the history. */
  predicate Live(cl: Client) {
    cl.task.Publish? || (cl.inTxn && !cl.task.Committing? && !cl.task.Rolling?)
  }

  predicate NamesTable(r: Request) { r.Create? || r.Set? || r.Get? }

  predicate Accessing(r: Request) { r.Set? || r.Get? }

  predicate TaskOk(cl: Client, n: nat) {
    match cl.task
    case FindLock(r) => NamesTable(r)
    case FindHeld(r) => NamesTable(r)
    case FindFound(r, found) => NamesTable(r) && (found.Some? ==> found.value < n)
    case Locking(r, t) => Accessing(r) && t < n
    case Access(r, t) => Accessing(r) && t < n && (if cl.inTxn then t in cl.locked else t !in cl.leaked)
    case Publish(t) => t < n && !cl.inTxn && t !in cl.leaked
    case Release(t) => t < n && !cl.inTxn && t !in cl.leaked
    case Committing(todo, cur) => todo + Current(cur) <= cl.locked && todo !! Current(cur)
    case Rolling(todo, cur) => todo + Current(cur) <= cl.locked && todo !! Current(cur) && cl.inTxn
    case _ => true
  }

  predicate ClientOk(cl: Client, n: nat) {
    && TaskOk(cl, n)
    && cl.locked !! cl.leaked
    && (!cl.inTxn ==> cl.locked == {})
    && (Live(cl) ==> Within(cl.cmds, Scope(cl)))
  }

  function Committed(s: State): Store {
    map t: TableId | 0 <= t < |s.tables| :: s.tables[t].committed
  }

  /** Executing a live client's commands on the committed store reproduces its stack and the
      contents it sees in the tables it touched. */
  ghost predicate View(s: State, cl: Client) {
    var o := Exec(Committed(s), cl.before, cl.cmds);
    && o.Done?
    && o.stack == cl.stack
    && forall t, k {:trigger Read(o.store, t, k)} ::
         t in Scope(cl) && t < |s.tables| ==> Read(o.store, t, k) == Lookup(s.tables[t].Visible(), k)
  }

  ghost predicate Owns(s: State, c: ClientId, t: TableId) {
    t < |s.tables| && s.tables[t].owner == Some(c)
  }

  ghost predicate LocalOk(s: State, c: ClientId)
    requires c in s.clients
  {
    var cl := s.clients[c];
    && ClientOk(cl, |s.tables|)
    && (forall t: TableId :: t in Holding(cl) <==> Owns(s, c, t))
    && (forall t: TableId :: Owns(s, c, t) && t !in Writable(cl) ==> s.tables[t].pending == map[])
    && (s.dirOwner == Some(c) <==> HoldsDirectory(cl.task))
    && (Live(cl) ==> View(s, cl))
  }

  /** The row the serial store has for a table: a table still to be committed by a running
      commit loop already counts as committed. */
  function AbstractRow(s: State, t: TableId): Row {
    if t >= |s.tables| then map[]
    else if Publishing(s, s.tables[t].owner, t) then s.tables[t].Visible()
    else s.tables[t].committed
  }

  predicate Publishing(s: State, owner: Option<ClientId>, t: TableId) {
    owner.Some? && owner.value in s.clients && s.clients[owner.value].task.Committing? &&
    t in s.clients[owner.value].task.todo
  }

  /** The serial execution of the history reproduces the store. */
  ghost predicate HistoryOk(s: State) {
    && Serial(s.history).Some?
    && forall t, k {:trigger Read(Serial(s.history).value, t, k)} {:trigger Lookup(AbstractRow(s, t), k)} ::
         Read(Serial(s.history).value, t, k) == Lookup(AbstractRow(s, t), k)
  }

  /** A bound name leads to a table created under that name. */
  ghost predicate DirectoryOk(s: State) {
    forall n :: n in s.directory ==> s.directory[n] < |s.tables| && s.tables[s.directory[n]].name == n
  }

  ghost predicate Inv(s: State) {
    && (forall c :: c in s.clients ==> LocalOk(s, c))
    && (forall t: TableId :: t < |s.tables| && s.tables[t].owner.Some? ==> s.tables[t].owner.value in s.clients)
    && (forall t: TableId :: t < |s.tables| && s.tables[t].owner.None? ==> s.tables[t].pending == map[])
    && (s.dirOwner.Some? ==> s.dirOwner.value in s.clients)
    && DirectoryOk(s)
    && HistoryOk(s)
  }

  // ---------------------------------------------------------------- what a step leaves alone

  /** A step of c touches the tables it owns, a free table whose mutex it takes, and new tables. */
  ghost predicate Frame(s: State, c: ClientId, s': State) {
    && |s.tables| <= |s'.tables|
    && s'.clients.Keys == s.clients.Keys + {c}
    && (forall d :: d in s.clients && d != c ==> s'.clients[d] == s.clients[d])
    && (forall t: TableId :: t < |s.tables| ==> TableFrame(s.tables[t], c, s'.tables[t]))
    && (forall t: TableId :: |s.tables| <= t < |s'.tables| ==> Blank(s'.tables[t]))
    && (s'.dirOwner == s.dirOwner || (s.dirOwner.None? && s'.dirOwner == Some(c)) || (s.dirOwner == Some(c) && s'.dirOwner.None?))
    && (s'.directory == s.directory || DirectoryOk(s'))
  }

  ghost predicate TableFrame(tb: TableState, c: ClientId, tb': TableState) {
    match tb.owner
    case None => tb' == tb || tb' == tb.(owner := Some(c))
    case Some(d) => if d == c then tb'.name == tb.name && (tb'.owner == tb.owner || tb'.owner.None?) else tb' == tb
  }

  predicate Blank(tb: TableState) {
    tb.owner.None? && tb.committed == map[] && tb.pending == map[]
  }

  lemma ViewFramed(s: State, s': State, cl: Client)
    requires Live(cl) && View(s, cl) && ClientOk(cl, |s.tables|)
    requires |s.tables| <= |s'.tables|
    requires forall t :: t in Scope(cl) ==> t < |s.tables| && s'.tables[t].pending == s.tables[t].pending
    requires forall t, k :: t in Scope(cl) ==> Lookup(s'.tables[t].committed, k) == Lookup(s.tables[t].committed, k)
    ensures View(s', cl)
  {
    var a, b := Committed(s), Committed(s');
    forall t, k | t in Scope(cl) ensures Read(a, t, k) == Read(b, t, k) {
      assert RowOf(a, t) == s.tables[t].committed;
      assert RowOf(b, t) == s'.tables[t].committed;
    }
    ExecAgrees(a, b, cl.before, cl.cmds, Scope(cl));
    var o, o' := Exec(a, cl.before, cl.cmds), Exec(b, cl.before, cl.cmds);
    forall t, k | t in Scope(cl)
      ensures Read(o'.store, t, k) == Lookup(s'.tables[t].Visible(), k)
    {
      assert Read(o.store, t, k) == Lookup(s.tables[t].Visible(), k);
      assert Lookup(s'.tables[t].committed, k) == Lookup(s.tables[t].committed, k);
    }
  }

  lemma OthersOwn(s: State, c: ClientId, s': State, d: ClientId)
    requires Frame(s, c, s') && d != c
    ensures forall t: TableId :: Owns(s', d, t) <==> Owns(s, d, t)
    ensures forall t: TableId :: Owns(s, d, t) ==> s'.tables[t] == s.tables[t]
  {
    forall t: TableId
      ensures Owns(s', d, t) <==> Owns(s, d, t)
      ensures Owns(s, d, t) ==> s'.tables[t] == s.tables[t]
    {
      if t < |s.tables| { assert TableFrame(s.tables[t], c, s'.tables[t]); }
      else if t < |s'.tables| { assert Blank(s'.tables[t]); }
    }
  }

  lemma ClientOkGrows(cl: Client, n: nat, m: nat)
    requires ClientOk(cl, n) && n <= m
    ensures ClientOk(cl, m)
  {
  }

  lemma OthersView(s: State, s': State, d: ClientId)
    requires d in s.clients && LocalOk(s, d) && Live(s.clients[d]) && |s.tables| <= |s'.tables|
    requires forall t: TableId :: Owns(s, d, t) ==> s'.tables[t] == s.tables[t]
    ensures View(s', s.clients[d])
  {
    hide View;
    var cl := s.clients[d];
    forall t | t in Scope(cl) ensures Owns(s, d, t) {
      assert t in Holding(cl);
    }
    ViewFramed(s, s', cl);
  }

  /** The other clients do not notice a framed step. */
  lemma OthersFramed(s: State, c: ClientId, s': State, d: ClientId)
    requires Inv(s) && Frame(s, c, s') && d in s.clients && d != c
    ensures LocalOk(s', d)
  {
    var cl := s.clients[d];
    assert LocalOk(s, d);
    OthersOwn(s, c, s', d);
    ClientOkGrows(cl, |s.tables|, |s'.tables|);
    if Live(cl) { OthersView(s, s', d); }
    hide Inv, TableFrame, Blank, View, ClientOk, Live, Holding, Writable;
  }

  lemma Assemble(s: State, c: ClientId, s': State)
    requires Inv(s) && Frame(s, c, s') && LocalOk(s', c) && HistoryOk(s')
    requires forall t: TableId :: t < |s.tables| && s'.tables[t].owner.None? ==> s'.tables[t].pending == map[]
    ensures Inv(s')
  {
    hide LocalOk, HistoryOk;
    forall d | d in s'.clients ensures LocalOk(s', d) {
      if d != c { OthersFramed(s, c, s', d); }
    }
    forall t: TableId | t < |s'.tables|
      ensures s'.tables[t].owner.Some? ==> s'.tables[t].owner.value in s'.clients
      ensures s'.tables[t].owner.None? ==> s'.tables[t].pending == map[]
    {
      if t < |s.tables| { assert TableFrame(s.tables[t], c, s'.tables[t]); }
      else { assert Blank(s'.tables[t]); }
    }
    forall n | n in s'.directory
      ensures s'.directory[n] < |s'.tables| && s'.tables[s'.directory[n]].name == n
    {
      if s'.directory == s.directory { assert TableFrame(s.tables[s.directory[n]], c, s'.tables[s.directory[n]]); }
    }
  }
}
