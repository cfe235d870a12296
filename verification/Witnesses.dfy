/**
 The departures of the code from its intent happen: from an ordinary state, requests any client may
 send leak a lock and block their sender for ever, or bind one name to two tables.
 */
module Witnesses {
  import opened Basics
  import opened Tables
  import opened Protocol
  import opened Invariant
  import opened LoopSteps
  import opened Serializability
  import opened Directory
  import opened BigStep

  lemma ReachableStep(s: State, c: ClientId, l: Label)
    requires Reachable(s) && Enabled(s, c, l)
    ensures Reachable(Next(s, c, l))
  {
    hide Next, Enabled;
    var states, moves :| RunTo(states, moves, s);
    var states', moves' := states + [Next(s, c, l)], moves + [Move(c, l)];
    forall i | 0 <= i < |moves'|
      ensures Enabled(states'[i], moves'[i].c, moves'[i].l) && states'[i + 1] == Next(states'[i], moves'[i].c, moves'[i].l)
    {
      if i < |moves| {
        assert states'[i] == states[i] && states'[i + 1] == states[i + 1] && moves'[i] == moves[i];
      }
    }
    assert RunTo(states', moves', Next(s, c, l));
  }

  /** The client may send a request, and no thread is using the directory. */
  predicate MaySend(s: State, c: ClientId) {
    !s.down && s.dirOwner.None? && c in s.clients && s.clients[c].task.Idle? && s.clients[c].loggedIn
  }

  function Asking(s: State, c: ClientId, r: Request): Client
    requires c in s.clients
  {
    s.clients[c].(received := s.clients[c].received + [r])
  }

  lemma Asks(s: State, c: ClientId, r: Request)
    requires Reachable(s) && MaySend(s, c) && NamesTable(r)
    ensures var s1 := s.Put(c, Asking(s, c, r).(task := FindLock(r))); Reachable(s1) && Enabled(s1, c, Run)
  {
    ReachableStep(s, c, Receive(r));
    assert Next(s, c, Receive(r)) == s.Put(c, Asking(s, c, r).(task := FindLock(r)));
  }

  /** One step of client c in the directory. */
  lemma Consulting(s: State, c: ClientId, cl: Client, cl': Client, dir: Option<ClientId>, dir': Option<ClientId>)
    requires var s1 := s.Put(c, cl).(dirOwner := dir);
             Reachable(s1) && OnDirectory(cl.task) && Enabled(s1, c, Run) && Consults(s1, c) == s1.Put(c, cl').(dirOwner := dir')
    ensures Reachable(s.Put(c, cl').(dirOwner := dir'))
  {
    var s1 := s.Put(c, cl).(dirOwner := dir);
    ReachableStep(s1, c, Run);
    assert Next(s1, c, Run) == Consults(s1, c);
    hide Consults, Enabled, Runs, Next;
    assert s1.Put(c, cl').(dirOwner := dir') == s.Put(c, cl').(dirOwner := dir');
  }

  lemma AfterFindForgets(cl: Client, task: Task, r: Request, found: Option<TableId>)
    ensures AfterFind(cl.(task := task), r, found) == AfterFind(cl, r, found)
  {
  }

  function Bound(s: State, r: Request): Option<TableId> {
    if RequestName(r) in s.directory then Some(s.directory[RequestName(r)]) else None
  }

  lemma LocksDirectory(s: State, c: ClientId, cl: Client, r: Request)
    requires !s.down && Reachable(s.Put(c, cl.(task := FindLock(r))).(dirOwner := None))
    ensures Reachable(s.Put(c, cl.(task := FindHeld(r))).(dirOwner := Some(c)))
  {
    hide Reachable;
    Consulting(s, c, cl.(task := FindLock(r)), cl.(task := FindHeld(r)), None, Some(c));
  }

  lemma LooksUp(s: State, c: ClientId, cl: Client, r: Request)
    requires !s.down && Reachable(s.Put(c, cl.(task := FindHeld(r))).(dirOwner := Some(c)))
    ensures Reachable(s.Put(c, cl.(task := FindFound(r, Bound(s, r)))).(dirOwner := Some(c)))
  {
    hide Reachable;
    Consulting(s, c, cl.(task := FindHeld(r)), cl.(task := FindFound(r, Bound(s, r))), Some(c), Some(c));
  }

  lemma UnlocksDirectory(s: State, c: ClientId, cl: Client, r: Request)
    requires !s.down && Reachable(s.Put(c, cl.(task := FindFound(r, Bound(s, r)))).(dirOwner := Some(c)))
    ensures Reachable(s.Put(c, AfterFind(cl, r, Bound(s, r))).(dirOwner := None))
  {
    AfterFindForgets(cl, FindFound(r, Bound(s, r)), r, Bound(s, r));
    hide Reachable, AfterFind;
    Consulting(s, c, cl.(task := FindFound(r, Bound(s, r))), AfterFind(cl, r, Bound(s, r)), Some(c), None);
  }

  /** A request that names a table gets as far as what find_table returned. */
  lemma Finds(s: State, c: ClientId, r: Request) returns (s': State)
    requires Reachable(s) && MaySend(s, c) && NamesTable(r)
    ensures Reachable(s') && s' == s.Put(c, AfterFind(Asking(s, c, r), r, Bound(s, r))).(dirOwner := None)
  {
    var cl := Asking(s, c, r);
    Asks(s, c, r);
    assert s.Put(c, cl.(task := FindLock(r))).(dirOwner := None) == s.Put(c, cl.(task := FindLock(r)));
    LocksDirectory(s, c, cl, r);
    LooksUp(s, c, cl, r);
    UnlocksDirectory(s, c, cl, r);
    hide Reachable, AfterFind, Bound;
    s' := s.Put(c, AfterFind(cl, r, Bound(s, r))).(dirOwner := None);
  }

  // ---------------------------------------------------------------- a leaked lock

  /** A SET outside a transaction on an empty stack and a free table fails and keeps the lock. */
  lemma LeakArises(s: State, c: ClientId, name: string, key: Key) returns (s': State)
    requires Reachable(s) && MaySend(s, c) && !s.clients[c].inTxn && s.clients[c].stack == []
    requires name in s.directory && s.directory[name] < |s.tables| && s.tables[s.directory[name]].owner.None?
    ensures Reachable(s') && MaySend(s', c) && !s'.clients[c].inTxn && s'.clients[c].reply == Failed
    ensures s'.directory == s.directory && s.directory[name] in s'.clients[c].leaked
  {
    var r, t := Set(name, key), s.directory[name];
    var s4 := Finds(s, c, r);
    ReachableStep(s4, c, Run);
    var s5 := Next(s4, c, Run);
    assert s5.clients[c] == Asking(s, c, r).(task := Access(r, t));
    ReachableStep(s5, c, Run);
    s' := Next(s5, c, Run);
  }

  /** A client inside the blocking lock on a table it owns. */
  ghost predicate SelfBlocked(s: State, c: ClientId) {
    c in s.clients && s.clients[c].task.Locking? && !s.clients[c].inTxn && Owns(s, c, s.clients[c].task.t)
  }

  lemma SelfBlockedStep(s: State, c: ClientId, d: ClientId, l: Label)
    requires Inv(s) && SelfBlocked(s, c) && Enabled(s, d, l)
    ensures d != c && SelfBlocked(Next(s, d, l), c)
  {
    OtherClients(s, d, l, c);
    GuardStep(s, d, l, s.clients[c].task.t);
    hide Next, Inv;
  }

  /** No step of anybody ever frees it. */
  lemma {:induction false} SelfBlockedForever(states: seq<State>, moves: seq<Move>, i: nat, j: nat, c: ClientId)
    requires IsRun(states, moves) && states[0] == INITIAL && i <= j < |states| && SelfBlocked(states[i], c)
    ensures SelfBlocked(states[j], c) && (j < |moves| ==> moves[j].c != c)
    decreases j
  {
    hide Next, Enabled, Inv;
    if i < j {
      SelfBlockedForever(states, moves, i, j - 1, c);
      RunsKeepInvariant(states, moves, j - 1);
      SelfBlockedStep(states[j - 1], c, moves[j - 1].c, moves[j - 1].l);
    }
    if j < |moves| {
      RunsKeepInvariant(states, moves, j);
      SelfBlockedStep(states[j], c, moves[j].c, moves[j].l);
    }
  }

  /** The next GET of the leaked table blocks its client in that way. */
  lemma LeakBlocksItsClient(s: State, c: ClientId, name: string, key: Key) returns (s': State)
    requires Reachable(s) && MaySend(s, c) && !s.clients[c].inTxn
    requires name in s.directory && s.directory[name] in s.clients[c].leaked
    ensures Reachable(s') && SelfBlocked(s', c)
  {
    ReachableInvariant(s);
    OwnTable(s, c, s.directory[name]);
    s' := Finds(s, c, Get(name, key));
  }

  // ---------------------------------------------------------------- overlapping CREATEs

  /** Two clients can both find a name unbound before either creates its table. */
  lemma OverlapArises(s: State, c: ClientId, d: ClientId, name: string) returns (s': State)
    requires Reachable(s) && MaySend(s, c) && MaySend(s, d) && c != d && name !in s.directory
    ensures Reachable(s') && !s'.down && s'.dirOwner.None?
    ensures Between(s', c, name) && Between(s', d, name)
    ensures s'.clients[c].task.CreateLock? && s'.clients[d].task.CreateLock?
  {
    var s1 := Finds(s, c, Create(name));
    s' := Finds(s1, d, Create(name));
  }

  /** Some run leads from s to s'. */
  ghost predicate Leads(s: State, s': State) {
    exists states, moves :: Path(states, moves, s, s')
  }

  ghost predicate Path(states: seq<State>, moves: seq<Move>, s: State, s': State) {
    IsRun(states, moves) && states[0] == s && states[|moves|] == s'
  }

  lemma LeadsToItself(s: State)
    ensures Leads(s, s)
  {
    assert Path([s], [], s, s);
  }

  lemma LeadsOn(s: State, s': State, c: ClientId, l: Label)
    requires Leads(s, s') && Enabled(s', c, l)
    ensures Leads(s, Next(s', c, l))
  {
    hide Next, Enabled;
    var states, moves :| Path(states, moves, s, s');
    var states', moves' := states + [Next(s', c, l)], moves + [Move(c, l)];
    forall i | 0 <= i < |moves'|
      ensures Enabled(states'[i], moves'[i].c, moves'[i].l) && states'[i + 1] == Next(states'[i], moves'[i].c, moves'[i].l)
    {
      if i < |moves| {
        assert states'[i] == states[i] && states'[i + 1] == states[i + 1] && moves'[i] == moves[i];
      }
    }
    assert Path(states', moves', s, Next(s', c, l));
  }

  /** From s, which is up, one gets to s', which is up as well; every client of D is where it was. */
  ghost predicate Advances(s: State, s': State, D: set<ClientId>) {
    && Leads(s, s') && Inv(s') && !s'.down
    && (forall d :: d in D && d in s.clients ==> d in s'.clients && s'.clients[d] == s.clients[d])
    && |s.tables| <= |s'.tables|
    && (forall n :: n in s.directory ==> n in s'.directory)
  }

  lemma AdvancesToItself(s: State, D: set<ClientId>)
    requires Inv(s) && !s.down
    ensures Advances(s, s, D)
  {
    LeadsToItself(s);
    hide Inv;
  }

  lemma ConsultsGrow(s: State, c: ClientId)
    requires c in s.clients && OnDirectory(s.clients[c].task) && (HoldsDirectory(s.clients[c].task) ==> s.dirOwner == Some(c))
    ensures var s' := Consults(s, c);
            && s'.down == s.down && |s.tables| <= |s'.tables|
            && c in s'.clients && s'.dirOwner == (if HoldsDirectory(s'.clients[c].task) then Some(c) else None)
            && s'.directory == if s.clients[c].task.CreateHeld? then s.directory[s.clients[c].task.name := |s.tables|] else s.directory
  {
    ConsultsOwner(s, c);
    DirectoryMovesOne(s, c);
    hide HoldsDirectory, AfterFind;
  }

  lemma ConsultsOwner(s: State, c: ClientId)
    requires c in s.clients && OnDirectory(s.clients[c].task) && (HoldsDirectory(s.clients[c].task) ==> s.dirOwner == Some(c))
    ensures var s' := Consults(s, c);
            c in s'.clients && s'.dirOwner == (if HoldsDirectory(s'.clients[c].task) then Some(c) else None)
  {
    var cl := s.clients[c];
    if cl.task.FindFound? {
      AfterFindReleases(cl, cl.task.r, cl.task.found);
      hide AfterFind;
    }
  }

  lemma AfterFindReleases(cl: Client, r: Request, found: Option<TableId>)
    ensures !HoldsDirectory(AfterFind(cl, r, found).task)
  {
  }

  lemma DirectoryHolder(s: State, c: ClientId)
    requires Inv(s) && c in s.clients
    ensures s.dirOwner == Some(c) <==> HoldsDirectory(s.clients[c].task)
  {
    assert LocalOk(s, c);
  }

  /** A step in the directory changes only its own client's place, and never ends the process. */
  lemma ConsultsAdvances(s: State, s1: State, D: set<ClientId>, c: ClientId) returns (s2: State)
    requires Advances(s, s1, D) && c !in D && Enabled(s1, c, Run) && OnDirectory(s1.clients[c].task)
    ensures Advances(s, s2, D)
    ensures c in s2.clients && s2.clients[c].task == Onward(s1, s1.clients[c]) && |s1.tables| <= |s2.tables|
    ensures s2.dirOwner == if HoldsDirectory(s2.clients[c].task) then Some(c) else None
    ensures var task := s1.clients[c].task;
            s2.directory == if task.CreateHeld? then s1.directory[task.name := |s1.tables|] else s1.directory
  {
    s2 := Consults(s1, c);
    assert Next(s1, c, Run) == s2;
    StepKeepsInvariant(s1, c, Run);
    LeadsOn(s, s1, c, Run);
    ConsultsOnward(s1, c);
    DirectoryMovesOne(s1, c);
    DirectoryHolder(s1, c);
    ConsultsGrow(s1, c);
    hide Inv, Next, Enabled, Consults, Onward, Leads;
  }

  /** Whoever holds the directory soon gives it back. */
  lemma {:induction false} Release(s: State, s1: State, D: set<ClientId>, e: ClientId) returns (s2: State)
    requires Advances(s, s1, D) && e !in D && e in s1.clients && HoldsDirectory(s1.clients[e].task)
    ensures Advances(s, s2, D) && s2.dirOwner.None?
    decreases Phase(s1.clients[e].task)
  {
    s2 := ConsultsAdvances(s, s1, D, e);
    if HoldsDirectory(s2.clients[e].task) { s2 := Release(s, s2, D, e); }
    hide Advances;
  }

  /** A client between its find and its create binds the name to a new table. */
  lemma {:induction false} Creates(s: State, s1: State, D: set<ClientId>, c: ClientId, name: string) returns (s2: State)
    requires Advances(s, s1, D) && c !in D && Between(s1, c, name) && (s1.dirOwner.None? || s1.dirOwner == Some(c))
    ensures Advances(s, s2, D) && s2.dirOwner.None?
    ensures name in s2.directory && s2.directory[name] >= |s1.tables|
    decreases Phase(s1.clients[c].task)
  {
    hide Leads, Inv, Reachable;
    DirectoryHolder(s1, c);
    s2 := ConsultsAdvances(s, s1, D, c);
    if s1.clients[c].task.CreateHeld? {
      s2 := ConsultsAdvances(s, s2, D, c);
    } else {
      s2 := Creates(s, s2, D, c, name);
    }
    hide Advances;
  }

  /** And an overlap is all it takes: from any reachable one, as long as the server is up, some run binds
      the name and binds it again to another table. */
  lemma OverlapRebinds(s: State, c: ClientId, d: ClientId, name: string) returns (s1: State, s2: State)
    requires Reachable(s) && !s.down && c != d && Between(s, c, name) && Between(s, d, name)
    ensures Leads(s, s1) && Leads(s1, s2)
    ensures name in s1.directory && name in s2.directory && s1.directory[name] != s2.directory[name]
  {
    ReachableInvariant(s);
    AdvancesToItself(s, {c, d});
    var h := s;
    if s.dirOwner.Some? && s.dirOwner.value != c && s.dirOwner.value != d {
      var e := s.dirOwner.value;
      DirectoryHolder(s, e);
      h := Release(s, s, {c, d}, e);
    }
    var a, b := if h.dirOwner == Some(d) then d else c, if h.dirOwner == Some(d) then c else d;
    s1 := Creates(s, h, {b}, a, name);
    assert DirectoryOk(s1) && s1.directory[name] < |s1.tables|;
    AdvancesToItself(s1, {});
    s2 := Creates(s1, s1, {}, b, name);
    hide Leads;
  }
}
