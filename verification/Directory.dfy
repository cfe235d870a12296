/** What a name in the directory leads to, and when it can change. */
module Directory {
  import opened Basics
  import opened Calculator
  import opened Tables
  import opened Protocol
  import opened Invariant
  import opened LoopSteps

  // ---------------------------------------------------------------- names lead to their tables

  /** A request that has resolved its name works on a table created under that name. */
  predicate Resolved(s: State, task: Task) {
    match task
    case FindFound(r, found) => found.Some? ==> Named(s, found.value, RequestName(r))
    case Locking(r, t) => Named(s, t, RequestName(r))
    case Access(r, t) => Named(s, t, RequestName(r))
    case _ => true
  }

  predicate Named(s: State, t: TableId, name: string) {
    t < |s.tables| && s.tables[t].name == name
  }

  /** Tables never disappear, keep their names, and bound names stay bound. */
  ghost predicate Grows(s: State, s': State) {
    && |s.tables| <= |s'.tables|
    && (forall t: TableId :: t < |s.tables| ==> s'.tables[t].name == s.tables[t].name)
    && s.directory.Keys <= s'.directory.Keys
  }

  lemma LocksGrow(s: State, c: ClientId, r: Request, t: TableId)
    requires c in s.clients && t < |s.tables|
    ensures Grows(s, Locks(s, c, r, t)) && Locks(s, c, r, t).directory == s.directory
    ensures c in Locks(s, c, r, t).clients && !Locks(s, c, r, t).clients[c].task.Locking?
    ensures Locks(s, c, r, t).clients[c].task.Access? ==> Locks(s, c, r, t).clients[c].task == Access(r, t)
    ensures Locks(s, c, r, t).clients[c].task.Access? || Locks(s, c, r, t).clients[c].task.Rolling?
  {
  }

  lemma AccessesGrow(s: State, c: ClientId, r: Request, t: TableId)
    requires c in s.clients && t < |s.tables|
    ensures Grows(s, Accesses(s, c, r, t)) && Accesses(s, c, r, t).directory == s.directory
    ensures c in Accesses(s, c, r, t).clients
    ensures var task := Accesses(s, c, r, t).clients[c].task; task == s.clients[c].task || task.Idle? || task.Publish?
  {
  }

  lemma LoopGrows(s: State, c: ClientId, on: Client, cur: Option<TableId>, r: Reply)
    requires c in s.clients
    ensures Grows(s, EndLoop(s, c, on, cur, r)) && EndLoop(s, c, on, cur, r).directory == s.directory
    ensures c in EndLoop(s, c, on, cur, r).clients
    ensures var task := EndLoop(s, c, on, cur, r).clients[c].task;
            task == on.task || task == s.clients[c].task || task.Idle?
  {
  }

  lemma RunGrows(s: State, c: ClientId)
    requires Enabled(s, c, Run)
    ensures c in s.clients && c in Runs(s, c).clients
    ensures Grows(s, Runs(s, c))
    ensures Runs(s, c).directory ==
            if s.clients[c].task.CreateHeld? then s.directory[s.clients[c].task.name := |s.tables|] else s.directory
  {
    var cl := s.clients[c];
    match cl.task
    case Locking(r, t) => if t < |s.tables| { LocksGrow(s, c, r, t); }
    case Access(r, t) => if t < |s.tables| { AccessesGrow(s, c, r, t); }
    case Committing(todo, cur) => LoopGrows(s, c, cl.(task := Committing(todo, None)), cur, Ok);
    case Rolling(todo, cur) => LoopGrows(s, c, cl.(task := Rolling(todo, None)), cur, Failed);
    case _ =>
  }

  predicate Creating(s: State, c: ClientId, l: Label, name: string) {
    l.Run? && c in s.clients && s.clients[c].task == CreateHeld(name)
  }

  lemma ReceiveGrows(s: State, c: ClientId, r: Request)
    requires c in s.clients && s.clients[c].task.Idle?
    ensures var s' := Receives(s, c, r); s'.tables == s.tables && s'.directory == s.directory && c in s'.clients
    ensures var task := Receives(s, c, r).clients[c].task; task.Idle? || task.Gone? || task.FindLock? || task.Committing?
  {
    ReceivesMovesOne(s, c, r);
    var cl := s.clients[c].(received := s.clients[c].received + [r]);
    if r.Arithmetic? {
      match Arith(cl.stack, r.op)
      case Rejected(stack) => FailureGrows(s, c, cl.(stack := stack));
      case _ =>
    } else {
      FailureGrows(s, c, cl);
    }
  }

  lemma FailureGrows(s: State, c: ClientId, cl: Client)
    requires c in s.clients && cl.task == s.clients[c].task
    ensures var s' := OperationFails(s, c, cl);
            && s'.tables == s.tables && s'.directory == s.directory && c in s'.clients
            && (s'.clients[c].task.Idle? || s'.clients[c].task == cl.task)
  {
  }

  /** In any step: a bound name stays bound, and its binding changes only in a CREATE of that name,
      which always changes it. */
  lemma BindingChanges(s: State, c: ClientId, l: Label, name: string)
    requires Reachable(s) && Enabled(s, c, l) && name in s.directory
    ensures Grows(s, Next(s, c, l))
    ensures Next(s, c, l).directory[name] != s.directory[name] <==> Creating(s, c, l, name)
  {
    ReachableInvariant(s);
    hide Inv;
    BindingStep(s, c, l, name);
  }

  lemma BindingStep(s: State, c: ClientId, l: Label, name: string)
    requires Enabled(s, c, l) && name in s.directory && s.directory[name] < |s.tables|
    ensures Grows(s, Next(s, c, l))
    ensures Next(s, c, l).directory[name] != s.directory[name] <==> Creating(s, c, l, name)
  {
    match l
    case Receive(r) =>
      ReceiveGrows(s, c, r);
      assert Next(s, c, l) == Receives(s, c, r);
      hide Receives;
    case Run =>
      RunGrows(s, c);
      assert Next(s, c, l) == Runs(s, c);
      hide Runs;
    case _ =>
  }

  ghost predicate AllResolved(s: State) {
    forall d :: d in s.clients ==> Resolved(s, s.clients[d].task)
  }

  lemma OwnResolved(s: State, c: ClientId, l: Label)
    requires Inv(s) && AllResolved(s) && Enabled(s, c, l)
    ensures c in Next(s, c, l).clients ==> Resolved(Next(s, c, l), Next(s, c, l).clients[c].task)
    ensures Grows(s, Next(s, c, l))
  {
    match l
    case Receive(r) => ReceiveGrows(s, c, r);
    case Run =>
      RunGrows(s, c);
      assert Resolved(s, s.clients[c].task);
      RunResolved(s, c);
    case _ =>
  }

  /** Where the code goes on from a place that is neither a table access nor a loop. */
  function Onward(s: State, cl: Client): Task {
    match cl.task
    case FindLock(r) => FindHeld(r)
    case FindHeld(r) =>
      FindFound(r, if RequestName(r) in s.directory then Some(s.directory[RequestName(r)]) else None)
    case FindFound(r, found) =>
      if r.Create? then (if found.None? then CreateLock(r.name) else Gone)
      else (match found case None => Gone case Some(t) => Locking(r, t))
    case CreateLock(name) => CreateHeld(name)
    case CreateHeld(_) => CreateDone
    case CreateDone => Idle
    case _ => cl.task
  }

  lemma RunsOnward(s: State, c: ClientId)
    requires c in s.clients && OnDirectory(s.clients[c].task)
    ensures c in Runs(s, c).clients && Runs(s, c).clients[c].task == Onward(s, s.clients[c])
  {
    ConsultsOnward(s, c);
    hide Consults, Onward;
  }

  lemma ConsultsOnward(s: State, c: ClientId)
    requires c in s.clients && OnDirectory(s.clients[c].task)
    ensures c in Consults(s, c).clients && Consults(s, c).clients[c].task == Onward(s, s.clients[c])
  {
    if s.clients[c].task.FindFound? {
      FoundClient(s, c);
      hide Consults;
    }
  }

  lemma RunsElsewhere(s: State, c: ClientId)
    requires c in s.clients && !OnDirectory(s.clients[c].task)
    ensures c in Runs(s, c).clients
    ensures var task := Runs(s, c).clients[c].task;
            !OnDirectory(task) && !(task.Locking? && task != s.clients[c].task)
            && (task.Access? ==> task == s.clients[c].task || s.clients[c].task == Locking(task.r, task.t))
  {
    var cl := s.clients[c];
    match cl.task
    case Locking(r, t) => if t < |s.tables| { LocksGrow(s, c, r, t); }
    case Access(r, t) => if t < |s.tables| { AccessesGrow(s, c, r, t); }
    case Committing(todo, cur) => LoopGrows(s, c, cl.(task := Committing(todo, None)), cur, Ok);
    case Rolling(todo, cur) => LoopGrows(s, c, cl.(task := Rolling(todo, None)), cur, Failed);
    case _ =>
  }

  lemma RunResolved(s: State, c: ClientId)
    requires Enabled(s, c, Run) && c in s.clients && DirectoryOk(s) && Resolved(s, s.clients[c].task)
    requires Grows(s, Runs(s, c))
    ensures c in Runs(s, c).clients && Resolved(Runs(s, c), Runs(s, c).clients[c].task)
  {
    if OnDirectory(s.clients[c].task) { RunsOnward(s, c); } else { RunsElsewhere(s, c); }
  }

  lemma {:induction false} RunsResolve(states: seq<State>, moves: seq<Move>, i: nat)
    requires IsRun(states, moves) && states[0] == INITIAL && i < |states|
    ensures AllResolved(states[i])
  {
    if i > 0 {
      var s, mv := states[i - 1], moves[i - 1];
      RunsResolve(states, moves, i - 1);
      RunsKeepInvariant(states, moves, i - 1);
      OwnResolved(s, mv.c, mv.l);
      forall d | d in states[i].clients ensures Resolved(states[i], states[i].clients[d].task) {
        if d != mv.c {
          OtherClients(s, mv.c, mv.l, d);
          assert Resolved(s, s.clients[d].task);
        }
      }
    }
  }

  /** find_table hands out only tables that were created under the requested name. */
  lemma FoundTablesBearTheirName(s: State, c: ClientId)
    requires Reachable(s) && c in s.clients
    ensures Resolved(s, s.clients[c].task)
  {
    var states, moves :| RunTo(states, moves, s);
    RunsResolve(states, moves, |moves|);
  }

  // ---------------------------------------------------------------- overlapping CREATEs

  /** The client has found the name unbound and has not created its table yet. */
  predicate Between(s: State, c: ClientId, name: string) {
    c in s.clients &&
    (s.clients[c].task == FindFound(Create(name), None) || s.clients[c].task == CreateLock(name) || s.clients[c].task == CreateHeld(name))
  }

  ghost predicate Overlap(s: State, name: string) {
    exists c, d :: c != d && Between(s, c, name) && Between(s, d, name)
  }

  ghost predicate UnboundWhileBetween(s: State, name: string) {
    forall c :: Between(s, c, name) ==> name !in s.directory
  }

  lemma BetweenStep(s: State, c: ClientId, l: Label, name: string)
    requires Inv(s) && Enabled(s, c, l) && Between(Next(s, c, l), c, name) && UnboundWhileBetween(s, name)
    ensures name !in Next(s, c, l).directory
  {
    match l
    case Receive(r) => ReceiveGrows(s, c, r);
    case Run =>
      RunGrows(s, c);
      BetweenRun(s, c, name);
    case _ =>
  }

  lemma BetweenRun(s: State, c: ClientId, name: string)
    requires Enabled(s, c, Run) && c in s.clients && Between(Runs(s, c), c, name)
    ensures !s.clients[c].task.CreateHeld?
    ensures Between(s, c, name) || (s.clients[c].task == FindHeld(Create(name)) && name !in s.directory)
  {
    if OnDirectory(s.clients[c].task) { RunsOnward(s, c); } else { RunsElsewhere(s, c); }
  }

  lemma {:induction false} UnboundWithoutOverlap(states: seq<State>, moves: seq<Move>, i: nat, name: string)
    requires IsRun(states, moves) && states[0] == INITIAL && i < |states|
    requires forall m :: 0 <= m < i ==> !Overlap(states[m], name)
    ensures UnboundWhileBetween(states[i], name)
  {
    if i > 0 {
      var s, s', mv := states[i - 1], states[i], moves[i - 1];
      UnboundWithoutOverlap(states, moves, i - 1, name);
      RunsKeepInvariant(states, moves, i - 1);
      forall c | Between(s', c, name) ensures name !in s'.directory {
        if c == mv.c {
          BetweenStep(s, c, mv.l, name);
        } else {
          OtherClients(s, mv.c, mv.l, c);
          assert Between(s, c, name);
          DirectoryStep(s, mv.c, mv.l, name);
          if Creating(s, mv.c, mv.l, name) { assert Between(s, mv.c, name); }
        }
      }
    }
  }

  lemma DirectoryStep(s: State, c: ClientId, l: Label, name: string)
    requires Enabled(s, c, l)
    ensures s.directory.Keys <= Next(s, c, l).directory.Keys
    ensures name in Next(s, c, l).directory && name !in s.directory ==> Creating(s, c, l, name)
    ensures name in s.directory && !Creating(s, c, l, name) ==> Next(s, c, l).directory[name] == s.directory[name]
  {
    match l
    case Receive(r) => ReceiveGrows(s, c, r);
    case Run => RunGrows(s, c);
    case _ =>
  }

  /** If no two CREATEs of a name are ever between their find and their create at the same time,
      the binding of the name never changes. */
  lemma {:induction false} BindingIsStable(states: seq<State>, moves: seq<Move>, j: nat, i: nat, name: string)
    requires IsRun(states, moves) && states[0] == INITIAL && j <= i < |states|
    requires forall m :: 0 <= m < i ==> !Overlap(states[m], name)
    requires name in states[j].directory
    ensures name in states[i].directory && states[i].directory[name] == states[j].directory[name]
  {
    if j < i {
      var s, mv := states[i - 1], moves[i - 1];
      BindingIsStable(states, moves, j, i - 1, name);
      UnboundWithoutOverlap(states, moves, i - 1, name);
      assert Creating(s, mv.c, mv.l, name) ==> Between(s, mv.c, name);
      DirectoryStep(s, mv.c, mv.l, name);
    }
  }
}
