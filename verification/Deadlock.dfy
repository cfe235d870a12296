/** Which client waits for which, and when a chain of waits can close. */
module Deadlock {
  import opened Basics
  import opened Tables
  import opened Protocol
  import opened Invariant
  import opened LoopSteps
  import opened Serializability
  import opened Rollback

  /** c is inside pthread_mutex_lock on a table somebody owns; only autocommit requests block. */
  predicate WaitsOnTable(s: State, c: ClientId) {
    c in s.clients && s.clients[c].task.Locking? && !s.clients[c].inTxn
    && s.clients[c].task.t < |s.tables| && s.tables[s.clients[c].task.t].owner.Some?
  }

  predicate WaitsOnDirectory(s: State, c: ClientId) {
    c in s.clients && (s.clients[c].task.FindLock? || s.clients[c].task.CreateLock?) && s.dirOwner.Some?
  }

  predicate Waits(s: State, c: ClientId) { WaitsOnTable(s, c) || WaitsOnDirectory(s, c) }

  /** c waits for a mutex that d owns. */
  predicate WaitsFor(s: State, c: ClientId, d: ClientId) {
    || (WaitsOnTable(s, c) && s.tables[s.clients[c].task.t].owner == Some(d))
    || (WaitsOnDirectory(s, c) && s.dirOwner == Some(d))
  }

  predicate NobodyLeaked(s: State) {
    forall c :: c in s.clients ==> s.clients[c].leaked == {}
  }

  /** A client waiting on a table owns exactly what its failed autocommit SETs left locked, and not
      the directory; whoever owns the directory is not waiting, and its thread can move. */
  lemma WaitingClientsOwnWhatTheyLeaked(s: State, c: ClientId)
    requires Reachable(s) && c in s.clients
    ensures WaitsOnTable(s, c) ==> Owned(s, c) == s.clients[c].leaked && s.dirOwner != Some(c)
    ensures s.dirOwner == Some(c) ==> !Waits(s, c) && (s.down || Enabled(s, c, Run))
  {
    ReachableInvariant(s);
    assert LocalOk(s, c);
    if WaitsOnTable(s, c) {
      forall t: TableId ensures t in Owned(s, c) <==> t in s.clients[c].leaked {
        assert t in Holding(s.clients[c]) <==> Owns(s, c, t);
      }
    }
  }

  /** What a client waits for belongs to a connected client. */
  lemma OwnersAreClients(s: State, c: ClientId, d: ClientId)
    requires Reachable(s) && WaitsFor(s, c, d)
    ensures d in s.clients && (WaitsOnTable(s, c) ==> Owned(s, d) != {})
  {
    ReachableInvariant(s);
    if WaitsOnTable(s, c) { assert s.clients[c].task.t in Owned(s, d); }
  }

  ghost predicate WaitChain(s: State, path: seq<ClientId>) {
    forall i :: 0 <= i < |path| - 1 ==> WaitsFor(s, path[i], path[i + 1])
  }

  /** While no autocommit SET has failed after locking, a chain of waits has at most two links. */
  lemma WaitChainsAreShort(s: State, path: seq<ClientId>)
    requires Reachable(s) && NobodyLeaked(s) && WaitChain(s, path)
    ensures |path| <= 3
  {
    if |path| > 3 {
      var a, b, c, d := path[0], path[1], path[2], path[3];
      assert WaitsFor(s, path[0], path[1]) && WaitsFor(s, path[1], path[2]) && WaitsFor(s, path[2], path[3]);
      OwnersAreClients(s, a, b);
      OwnersAreClients(s, b, c);
      OwnersAreClients(s, c, d);
      WaitingClientsOwnWhatTheyLeaked(s, b);
      WaitingClientsOwnWhatTheyLeaked(s, c);
      assert false;
    }
  }

  ghost predicate WaitCycle(s: State, path: seq<ClientId>) {
    |path| >= 2 && WaitChain(s, path) && path[0] == path[|path| - 1]
  }

  /** After a link on the directory comes a client that does not wait. */
  lemma DirectoryEndsChain(s: State, c: ClientId, d: ClientId)
    requires Reachable(s) && WaitsFor(s, c, d) && WaitsOnDirectory(s, c)
    ensures !Waits(s, d)
  {
    OwnersAreClients(s, c, d);
    WaitingClientsOwnWhatTheyLeaked(s, d);
  }

  /** Every client on a cycle of waits waits on a table while it owns one that a failed
      autocommit SET of its own left locked. */
  lemma CyclesNeedLeaks(s: State, path: seq<ClientId>, i: nat)
    requires Reachable(s) && WaitCycle(s, path) && i < |path|
    ensures WaitsOnTable(s, path[i]) && s.clients[path[i]].leaked != {}
  {
    var n := |path| - 1;
    var k := if i == n then 0 else i;
    var p := if k == 0 then n - 1 else k - 1;     // the link into path[k]
    var q := if k + 1 == n then 0 else k + 1;     // the link out of the next client
    assert path[k] == path[i] && path[p + 1] == path[k] && path[q] == path[k + 1];
    assert WaitsFor(s, path[p], path[p + 1]) && WaitsFor(s, path[k], path[k + 1]) && WaitsFor(s, path[q], path[q + 1]);
    if WaitsOnDirectory(s, path[k]) { DirectoryEndsChain(s, path[k], path[k + 1]); }
    if WaitsOnDirectory(s, path[p]) { DirectoryEndsChain(s, path[p], path[p + 1]); }
    OwnersAreClients(s, path[p], path[k]);
    WaitingClientsOwnWhatTheyLeaked(s, path[k]);
  }

  /** c waits for a table whose lock a failed autocommit SET of d left behind. */
  predicate WaitsOnLeak(s: State, c: ClientId, d: ClientId) {
    WaitsOnTable(s, c) && d in s.clients && s.clients[c].task.t in s.clients[d].leaked
  }

  /** A closed path of clients is a cycle of waits exactly when each waits for what the next one leaked. */
  lemma CyclesAreLeaks(s: State, path: seq<ClientId>)
    requires Reachable(s) && |path| >= 2 && path[0] == path[|path| - 1]
    ensures WaitCycle(s, path) <==> forall i :: 0 <= i < |path| - 1 ==> WaitsOnLeak(s, path[i], path[i + 1])
  {
    ReachableInvariant(s);
    if WaitCycle(s, path) {
      forall i | 0 <= i < |path| - 1 ensures WaitsOnLeak(s, path[i], path[i + 1]) {
        CyclesNeedLeaks(s, path, i);
        CyclesNeedLeaks(s, path, i + 1);
        assert WaitsFor(s, path[i], path[i + 1]);
        WaitingClientsOwnWhatTheyLeaked(s, path[i + 1]);
        assert s.clients[path[i]].task.t in Owned(s, path[i + 1]);
      }
    }
    if forall i :: 0 <= i < |path| - 1 ==> WaitsOnLeak(s, path[i], path[i + 1]) {
      forall i | 0 <= i < |path| - 1 ensures WaitsFor(s, path[i], path[i + 1]) {
        assert WaitsOnLeak(s, path[i], path[i + 1]);
        OwnTable(s, path[i + 1], s.clients[path[i]].task.t);
      }
    }
    hide Inv;
  }

  // ---------------------------------------------------------------- where leaks come from

  /** The move is a SET outside a transaction on an empty stack, with its table just locked. */
  predicate Leaks(s: State, c: ClientId, l: Label) {
    && l.Run? && c in s.clients && s.clients[c].task.Access? && s.clients[c].task.r.Set?
    && !s.clients[c].inTxn && s.clients[c].stack == []
  }

  function LeakedAfter(s: State, c: ClientId, l: Label, d: ClientId): set<TableId> {
    (if d in s.clients then s.clients[d].leaked else {}) + (if d == c && Leaks(s, c, l) then {s.clients[c].task.t} else {})
  }

  lemma AccessLeaks(s: State, c: ClientId, r: Request, t: TableId)
    requires c in s.clients && t < |s.tables| && s.clients[c].task == Access(r, t) && Accessing(r)
    ensures c in Accesses(s, c, r, t).clients && Accesses(s, c, r, t).clients[c].leaked == LeakedAfter(s, c, Run, c)
  {
  }

  lemma LockLeaks(s: State, c: ClientId, r: Request, t: TableId)
    requires c in s.clients && t < |s.tables|
    ensures c in Locks(s, c, r, t).clients && Locks(s, c, r, t).clients[c].leaked == s.clients[c].leaked
  {
  }

  lemma LoopLeaks(s: State, c: ClientId, l: Label)
    requires Enabled(s, c, l) && c in s.clients && (l.Run? || l.Pick?) && !OnDirectory(s.clients[c].task)
    requires !s.clients[c].task.Locking? && !s.clients[c].task.Access?
    ensures c in Next(s, c, l).clients && Next(s, c, l).clients[c].leaked == s.clients[c].leaked
  {
  }

  lemma OwnLeaks(s: State, c: ClientId, l: Label)
    requires Enabled(s, c, l) && c in s.clients && ClientOk(s.clients[c], |s.tables|)
    ensures c in Next(s, c, l).clients && Next(s, c, l).clients[c].leaked == LeakedAfter(s, c, l, c)
  {
    match l
    case Receive(r) =>
      ReceiveKeepsLocks(s, c, r);
      hide Receives;
    case Throw =>
    case Pick(_) => LoopLeaks(s, c, l);
    case Run =>
      assert Next(s, c, Run) == Runs(s, c);
      var task := s.clients[c].task;
      if OnDirectory(task) {
        ConsultsClient(s, c);
        hide Consults;
      } else {
        match task
        case Locking(r, t) => LockLeaks(s, c, r, t);
        case Access(r, t) => AccessLeaks(s, c, r, t);
        case _ => LoopLeaks(s, c, l);
      }
  }

  /** A step leaves a lock behind exactly at a SET outside a transaction on an empty stack. */
  lemma LeaksComeFromEmptyStacks(s: State, c: ClientId, l: Label, d: ClientId)
    requires Reachable(s) && Enabled(s, c, l) && d in Next(s, c, l).clients
    ensures Next(s, c, l).clients[d].leaked == LeakedAfter(s, c, l, d)
  {
    ReachableInvariant(s);
    if d != c {
      OtherClients(s, c, l, d);
    } else if c in s.clients {
      ClientIsOk(s, c);
      OwnLeaks(s, c, l);
    }
    hide Inv, LeakedAfter;
  }

  /** So while nobody leaked a lock no cycle of waits is reachable. */
  lemma NoDeadlockWithoutLeaks(s: State, path: seq<ClientId>)
    requires Reachable(s) && NobodyLeaked(s)
    ensures !WaitCycle(s, path)
  {
    if WaitCycle(s, path) { CyclesNeedLeaks(s, path, 0); }
  }

  /** And one leak is enough: the next request of the same client on the same table blocks it
      on itself. */
  lemma LeakDeadlocks(s: State, c: ClientId, name: string, key: Key)
    requires Reachable(s) && !s.down && s.dirOwner.None?
    requires c in s.clients && s.clients[c].task.Idle? && s.clients[c].loggedIn && !s.clients[c].inTxn
    requires name in s.directory && s.directory[name] in s.clients[c].leaked
    ensures var s1 := Receives(s, c, Get(name, key));
            var s2 := Runs(s1, c);
            var s3 := Runs(s2, c);
            var s4 := Runs(s3, c);
            && Enabled(s, c, Receive(Get(name, key))) && Enabled(s1, c, Run) && Enabled(s2, c, Run) && Enabled(s3, c, Run)
            && WaitCycle(s4, [c, c]) && (forall l :: !Enabled(s4, c, l))
  {
    ReachableInvariant(s);
    var t := s.directory[name];
    OwnTable(s, c, t);
    FindBlocks(s, c, Get(name, key), t);
  }

  lemma FindBlocks(s: State, c: ClientId, r: Request, t: TableId)
    requires !s.down && s.dirOwner.None? && r.Get? && r.name in s.directory && s.directory[r.name] == t && Owns(s, c, t)
    requires c in s.clients && s.clients[c].task.Idle? && s.clients[c].loggedIn && !s.clients[c].inTxn
    ensures var s1 := Receives(s, c, r);
            var s2 := Runs(s1, c);
            var s3 := Runs(s2, c);
            var s4 := Runs(s3, c);
            && Enabled(s, c, Receive(r)) && Enabled(s1, c, Run) && Enabled(s2, c, Run) && Enabled(s3, c, Run)
            && WaitCycle(s4, [c, c]) && (forall l :: !Enabled(s4, c, l))
  {
    var cl := s.clients[c].(received := s.clients[c].received + [r]);
    var s1 := Receives(s, c, r);
    assert s1 == s.Put(c, cl.(task := FindLock(r)));
    var s2 := Runs(s1, c);
    assert s2 == s.Put(c, cl.(task := FindHeld(r))).(dirOwner := Some(c));
    var s3 := Runs(s2, c);
    assert s3 == s.Put(c, cl.(task := FindFound(r, Some(t)))).(dirOwner := Some(c));
    var s4 := Runs(s3, c);
    assert s4 == s.Put(c, cl.(task := Locking(r, t))).(dirOwner := None);
    assert WaitsFor(s4, c, c);
  }
}
