/** Rolling back a failed transaction leaves the store as it found it. */
module Rollback {
  import opened Basics
  import opened Calculator
  import opened Tables
  import opened Protocol
  import opened Invariant
  import opened LoopSteps
  import opened Serializability

  /** Client c took the free mutex of t right after state j, inside a transaction, and has owned it
      for that transaction up to state i. */
  ghost predicate HeldSince(states: seq<State>, j: nat, i: nat, c: ClientId, t: TableId) {
    && j < i < |states|
    && t < |states[j].tables| && states[j].tables[t].owner.None?
    && forall m :: j < m <= i ==> Owns(states[m], c, t) && Keeps(states[m], c, t)
  }

  /** The table is one a transaction has locked and still holds. */
  predicate Keeps(s: State, c: ClientId, t: TableId) {
    c in s.clients && !s.clients[c].task.Committing? && t in s.clients[c].locked && t in Holding(s.clients[c])
  }

  /** The move is a GET by client c that finds its key missing in table t. */
  predicate Misses(s: State, mv: Move, c: ClientId, t: TableId) {
    mv == Move(c, Run) && c in s.clients && MissingGet(s, s.clients[c].task) && s.clients[c].task.t == t
  }

  /** The committed map of t after a move, when client c keeps t. */
  function AfterMove(s: State, mv: Move, c: ClientId, t: TableId): Row
    requires t < |s.tables|
  {
    if Misses(s, mv, c, t) then s.tables[t].committed[s.clients[c].task.r.key := ""] else s.tables[t].committed
  }

  /** The keys that GETs of client c found missing in table t between states j and i. */
  ghost function MissedKeys(states: seq<State>, moves: seq<Move>, c: ClientId, t: TableId, j: nat, i: nat): set<Key>
    requires i <= |moves| < |states|
  {
    if i <= j then {}
    else
      MissedKeys(states, moves, c, t, j, i - 1) +
      if Misses(states[i - 1], moves[i - 1], c, t) then {states[i - 1].clients[c].task.r.key} else {}
  }

  /** A map with empty values added under the keys of lost, and nothing else changed. */
  predicate Extends(now: Row, was: Row, lost: set<Key>) {
    && now.Keys == was.Keys + lost && was.Keys !! lost
    && forall k :: k in now ==> now[k] == Lookup(was, k)
  }

  /** A move that ends with t kept either kept it before, or took its free mutex. */
  ghost predicate KeepingMove(s: State, mv: Move, s': State, c: ClientId, t: TableId) {
    Keeps(s', c, t) ==>
      && t < |s.tables| && t < |s'.tables|
      && s'.tables[t].committed == AfterMove(s, mv, c, t)
      && (Keeps(s, c, t) || (s.tables[t].owner.None? && !Misses(s, mv, c, t)))
  }

  ghost predicate SameLocks(cl: Client, cl': Client) {
    cl'.locked == cl.locked && cl'.leaked == cl.leaked
  }

  lemma FailureKeepsLocks(s: State, c: ClientId, cl: Client)
    requires c in s.clients && SameLocks(s.clients[c], cl)
    ensures c in OperationFails(s, c, cl).clients && SameLocks(s.clients[c], OperationFails(s, c, cl).clients[c])
  {
  }

  lemma StackRequestKeepsLocks(s: State, c: ClientId, r: Request)
    requires c in s.clients && (r.Push? || r.Pop? || r.Top? || r.Arithmetic?)
    ensures c in Receives(s, c, r).clients && SameLocks(s.clients[c], Receives(s, c, r).clients[c])
  {
    var cl := s.clients[c].(received := s.clients[c].received + [r]);
    if r.Arithmetic? {
      match Arith(cl.stack, r.op)
      case Rejected(stack) => FailureKeepsLocks(s, c, cl.(stack := stack));
      case _ =>
    } else {
      FailureKeepsLocks(s, c, cl);
    }
  }

  lemma ReceiveKeepsLocks(s: State, c: ClientId, r: Request)
    requires c in s.clients
    ensures c in Receives(s, c, r).clients && SameLocks(s.clients[c], Receives(s, c, r).clients[c])
  {
    if r.Push? || r.Pop? || r.Top? || r.Arithmetic? { StackRequestKeepsLocks(s, c, r); }
  }

  lemma ReceiveKeeps(s: State, c: ClientId, r: Request, t: TableId)
    requires Enabled(s, c, Receive(r)) && c in s.clients
    requires t in s.clients[c].locked ==> t < |s.tables|
    ensures KeepingMove(s, Move(c, Receive(r)), Receives(s, c, r), c, t)
  {
    ReceiveKeepsLocks(s, c, r);
    ReceiveHistory(s, c, r);
    hide Receives;
  }

  lemma LockKeeps(s: State, c: ClientId, r: Request, u: TableId, t: TableId)
    requires c in s.clients && u < |s.tables| && s.clients[c].task == Locking(r, u)
    requires t in s.clients[c].locked ==> t < |s.tables| && s.clients[c].inTxn
    ensures KeepingMove(s, Move(c, Run), Locks(s, c, r, u), c, t)
  {
  }

  lemma AccessKeeps(s: State, c: ClientId, r: Request, u: TableId, t: TableId)
    requires c in s.clients && u < |s.tables| && s.clients[c].task == Access(r, u)
    requires t in s.clients[c].locked ==> t < |s.tables| && s.clients[c].inTxn
    ensures KeepingMove(s, Move(c, Run), Accesses(s, c, r, u), c, t)
  {
  }

  lemma LoopKeeps(s: State, c: ClientId, l: Label, t: TableId)
    requires Enabled(s, c, l) && c in s.clients && Looping(s.clients[c].task) && (l.Run? || l.Pick?)
    requires t in Holding(s.clients[c]) ==> t < |s.tables|
    ensures KeepingMove(s, Move(c, l), Next(s, c, l), c, t)
  {
    if l.Pick? {
      PickKeeps(s, c, l.t, t);
      assert Next(s, c, l) == Picks(s, c, l.t);
    } else {
      var cl := s.clients[c];
      var on := if cl.task.Committing? then cl.(task := Committing(cl.task.todo, None)) else cl.(task := Rolling(cl.task.todo, None));
      EndKeeps(s, c, on, if cl.task.Committing? then Ok else Failed, t);
      assert Next(s, c, l) == EndLoop(s, c, on, cl.task.cur, if cl.task.Committing? then Ok else Failed);
    }
    hide Next, KeepingMove, Enabled;
  }

  lemma PickKeeps(s: State, c: ClientId, u: TableId, t: TableId)
    requires Enabled(s, c, Pick(u)) && (t in Holding(s.clients[c]) ==> t < |s.tables|)
    ensures KeepingMove(s, Move(c, Pick(u)), Picks(s, c, u), c, t)
  {
  }

  lemma EndKeeps(s: State, c: ClientId, on: Client, r: Reply, t: TableId)
    requires c in s.clients && Looping(s.clients[c].task) && (t in Holding(s.clients[c]) ==> t < |s.tables|)
    requires var task := s.clients[c].task;
             on == s.clients[c].(task := if task.Committing? then Committing(task.todo, None) else Rolling(task.todo, None))
    ensures KeepingMove(s, Move(c, Run), EndLoop(s, c, on, s.clients[c].task.cur, r), c, t)
  {
    LoopMovesOne(s, c, on, s.clients[c].task.cur, r);
    EndLoopTables(s, c, on, s.clients[c].task.cur, r, t);
    EndLoopClient(s, c, on, s.clients[c].task.cur, r);
    hide EndLoop;
  }

  lemma EndLoopTables(s: State, c: ClientId, on: Client, cur: Option<TableId>, r: Reply, t: TableId)
    ensures var s' := EndLoop(s, c, on, cur, r);
            |s'.tables| == |s.tables| && (t < |s.tables| ==> s'.tables[t].committed == s.tables[t].committed)
  {
  }

  lemma EndLoopClient(s: State, c: ClientId, on: Client, cur: Option<TableId>, r: Reply)
    requires c in s.clients
    ensures c in EndLoop(s, c, on, cur, r).clients
    ensures var cl := EndLoop(s, c, on, cur, r).clients[c]; cl == on || cl == s.clients[c] || cl.locked == {}
  {
  }

  lemma ConsultsKeeps(s: State, c: ClientId, t: TableId)
    requires c in s.clients && OnDirectory(s.clients[c].task)
    requires t in s.clients[c].locked ==> t < |s.tables|
    ensures KeepingMove(s, Move(c, Run), Consults(s, c), c, t)
  {
    ConsultsClient(s, c);
    ConsultsKeepTables(s, c);
    hide Consults;
  }

  lemma RunKeeps(s: State, c: ClientId, t: TableId)
    requires c in s.clients && Enabled(s, c, Run) && ClientOk(s.clients[c], |s.tables|)
    requires t in Holding(s.clients[c]) ==> t < |s.tables|
    ensures KeepingMove(s, Move(c, Run), Runs(s, c), c, t)
  {
    if OnDirectory(s.clients[c].task) {
      ConsultsKeeps(s, c, t);
      hide KeepingMove;
    } else {
      match s.clients[c].task
      case Locking(r, u) => LockKeeps(s, c, r, u, t);
      case Access(r, u) => AccessKeeps(s, c, r, u, t);
      case Committing(_, _) => LoopKeeps(s, c, Run, t);
      case Rolling(_, _) => LoopKeeps(s, c, Run, t);
      case Publish(_) =>
      case Release(_) =>
    }
  }

  lemma OtherKeepingStep(s: State, mv: Move, c: ClientId, t: TableId)
    requires Inv(s) && Enabled(s, mv.c, mv.l) && c != mv.c
    ensures KeepingMove(s, mv, Next(s, mv.c, mv.l), c, t)
  {
    hide Next, Inv, Enabled, Holding;
    OtherClients(s, mv.c, mv.l, c);
    if Keeps(s, c, t) {
      OwnTable(s, c, t);
      GuardStep(s, mv.c, mv.l, t);
    }
  }

  lemma ClientIsOk(s: State, c: ClientId)
    requires Inv(s) && c in s.clients
    ensures ClientOk(s.clients[c], |s.tables|)
  {
    assert LocalOk(s, c);
  }

  lemma KeepingSteps(s: State, mv: Move, c: ClientId, t: TableId)
    requires Inv(s) && Enabled(s, mv.c, mv.l)
    ensures KeepingMove(s, mv, Next(s, mv.c, mv.l), c, t)
  {
    hide Next, Inv, KeepingMove, Enabled;
    if c != mv.c {
      OtherKeepingStep(s, mv, c, t);
    } else {
      if c in s.clients {
        ClientIsOk(s, c);
        if t in Holding(s.clients[c]) { OwnTable(s, c, t); }
      }
      OwnKeepingStep(s, c, mv.l, t);
    }
  }

  lemma OwnKeepingStep(s: State, c: ClientId, l: Label, t: TableId)
    requires Enabled(s, c, l)
    requires c in s.clients ==> ClientOk(s.clients[c], |s.tables|) && (t in Holding(s.clients[c]) ==> t < |s.tables|)
    ensures KeepingMove(s, Move(c, l), Next(s, c, l), c, t)
  {
    match l
    case Connect(_) =>
    case Receive(r) => ReceiveKeeps(s, c, r, t);
    case Pick(_) => LoopKeeps(s, c, l, t);
    case Throw =>
    case Run => RunKeeps(s, c, t);
  }

  /** While a transaction keeps a table, the committed map changes only by the empty values that its
      own GETs of missing keys leave behind. */
  lemma {:induction false} KeptSince(states: seq<State>, moves: seq<Move>, i: nat, c: ClientId, t: TableId) returns (j: nat)
    requires IsRun(states, moves) && states[0] == INITIAL && i < |states| && Keeps(states[i], c, t)
    ensures HeldSince(states, j, i, c, t)
    ensures t < |states[i].tables| &&
            Extends(states[i].tables[t].committed, states[j].tables[t].committed, MissedKeys(states, moves, c, t, j, i))
  {
    hide Next, Enabled, Inv;
    KeptBefore(states, moves, i, c, t);
    if Keeps(states[i - 1], c, t) {
      j := KeptSince(states, moves, i - 1, c, t);
      KeptLonger(states, moves, j, i, c, t);
    } else {
      j := i - 1;
      assert MissedKeys(states, moves, c, t, j, j) == {};
    }
    hide Keeps;
  }

  lemma KeptBefore(states: seq<State>, moves: seq<Move>, i: nat, c: ClientId, t: TableId)
    requires IsRun(states, moves) && states[0] == INITIAL && i < |states| && Keeps(states[i], c, t)
    ensures i > 0 && Owns(states[i], c, t) && KeepingMove(states[i - 1], moves[i - 1], states[i], c, t)
  {
    hide Next, Enabled;
    RunsKeepInvariant(states, moves, i);
    OwnTable(states[i], c, t);
    assert i > 0;
    RunsKeepInvariant(states, moves, i - 1);
    KeepingSteps(states[i - 1], moves[i - 1], c, t);
    hide Inv, KeepingMove;
  }

  lemma KeptLonger(states: seq<State>, moves: seq<Move>, j: nat, i: nat, c: ClientId, t: TableId)
    requires j < i < |states| == |moves| + 1 && HeldSince(states, j, i - 1, c, t)
    requires Owns(states[i], c, t) && Keeps(states[i], c, t) && KeepingMove(states[i - 1], moves[i - 1], states[i], c, t)
    requires Extends(states[i - 1].tables[t].committed, states[j].tables[t].committed, MissedKeys(states, moves, c, t, j, i - 1))
    ensures HeldSince(states, j, i, c, t)
    ensures Extends(states[i].tables[t].committed, states[j].tables[t].committed, MissedKeys(states, moves, c, t, j, i))
  {
    hide Keeps, Owns;
    assert Owns(states[i - 1], c, t) && Keeps(states[i - 1], c, t);
  }

  /** When a rollback is about to unlock a table, nothing is pending in it, and its committed map is
      the one it had when the transaction took its mutex, except for empty values under keys that
      GETs of this transaction found missing. */
  lemma RollbackRestores(states: seq<State>, moves: seq<Move>, i: nat, c: ClientId, t: TableId)
    requires IsRun(states, moves) && states[0] == INITIAL && i < |states|
    requires c in states[i].clients && states[i].clients[c].task.Rolling? && states[i].clients[c].task.cur == Some(t)
    ensures exists j: nat :: HeldSince(states, j, i, c, t) &&
                             Extends(states[i].tables[t].committed, states[j].tables[t].committed, MissedKeys(states, moves, c, t, j, i))
    ensures t < |states[i].tables| && states[i].tables[t].pending == map[]
  {
    var s := states[i];
    RunsKeepInvariant(states, moves, i);
    assert LocalOk(s, c);
    assert t in Holding(s.clients[c]) && Owns(s, c, t) && t in s.clients[c].locked && t !in Writable(s.clients[c]);
    var j := KeptSince(states, moves, i, c, t);
  }

  /** A lock attempt that fails inside a transaction, and every step of the rollback it starts,
      leave the client's stack alone; the last step frees the client with nothing locked. */
  lemma FailedLockKeepsStack(s: State, c: ClientId, l: Label)
    requires Reachable(s) && Enabled(s, c, l) && c in s.clients
    requires s.clients[c].task.Rolling? || s.clients[c].task.Locking?
    ensures c in Next(s, c, l).clients
    ensures var cl, cl' := s.clients[c], Next(s, c, l).clients[c];
            && cl'.stack == cl.stack
            && (cl.task.Locking? ==>
                  cl.task.t < |s.tables| &&
                  (cl'.task.Rolling? <==> cl.inTxn && cl.task.t !in cl.locked && s.tables[cl.task.t].owner.Some?))
            && (cl.task.Rolling? && !cl'.task.Rolling? ==>
                  cl'.task.Idle? && cl'.reply == Failed && !cl'.inTxn && Owned(Next(s, c, l), c) == cl'.leaked)
  {
    ReachableInvariant(s);
    assert ClientOk(s.clients[c], |s.tables|) by { assert LocalOk(s, c); }
    StackKept(s, c, l);
    if s.clients[c].task.Rolling? && l.Run? && s.clients[c].task.cur.None? {
      StepKeepsInvariant(s, c, l);
      IdleOwns(Next(s, c, l), c);
    }
  }

  lemma StackKept(s: State, c: ClientId, l: Label)
    requires Enabled(s, c, l) && c in s.clients && ClientOk(s.clients[c], |s.tables|)
    requires s.clients[c].task.Rolling? || s.clients[c].task.Locking?
    ensures c in Next(s, c, l).clients
    ensures var cl, cl' := s.clients[c], Next(s, c, l).clients[c];
            && cl'.stack == cl.stack
            && (cl.task.Locking? ==>
                  (cl'.task.Rolling? <==> cl.inTxn && cl.task.t !in cl.locked && s.tables[cl.task.t].owner.Some?))
            && (cl.task.Rolling? ==>
                  if l.Run? && cl.task.cur.None? then cl'.task.Idle? && cl'.reply == Failed && !cl'.inTxn && cl'.locked == {}
                  else cl'.task.Rolling?)
  {
  }

  lemma IdleOwns(s: State, c: ClientId)
    requires Inv(s) && c in s.clients && s.clients[c].task.Idle?
    ensures Owned(s, c) == s.clients[c].locked + s.clients[c].leaked
  {
    assert LocalOk(s, c);
    forall t: TableId ensures t in Owned(s, c) <==> t in Holding(s.clients[c]) {
      assert t in Holding(s.clients[c]) <==> Owns(s, c, t);
    }
  }
}
