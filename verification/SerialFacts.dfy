/** What executing commands on the store depends on, and what it changes. */
module SerialFacts {
  import opened Basics
  import opened Tables
  import opened Protocol

  /** The commands touch only tables of T. */
  predicate Within(cmds: seq<Command>, T: set<TableId>) {
    forall i :: 0 <= i < |cmds| ==> Touches(cmds[i], T)
  }

  predicate Touches(cmd: Command, T: set<TableId>) {
    match cmd
    case CGet(t, _, _) => t in T
    case CSet(t, _) => t in T
    case _ => true
  }

  /** Two stores read the same on the tables of T. */
  ghost predicate Agree(a: Store, b: Store, T: set<TableId>) {
    forall t, k {:trigger Read(a, t, k)} {:trigger Read(b, t, k)} :: t in T ==> Read(a, t, k) == Read(b, t, k)
  }

  ghost predicate AgreeOutside(a: Store, b: Store, T: set<TableId>) {
    forall t, k {:trigger Read(a, t, k)} {:trigger Read(b, t, k)} :: t !in T ==> Read(a, t, k) == Read(b, t, k)
  }

  lemma WithinMore(cmds: seq<Command>, T: set<TableId>, U: set<TableId>)
    requires Within(cmds, T) && T <= U
    ensures Within(cmds, U)
  {
    forall i | 0 <= i < |cmds| ensures Touches(cmds[i], U) {
      assert Touches(cmds[i], T);
    }
  }

  lemma ReadWritten(st: Store, t: TableId, k: Key, v: Value, u: TableId, j: Key)
    ensures Read(Write(st, t, k, v), u, j) == if u == t && j == k then v else Read(st, u, j)
  {
  }

  lemma DoAgrees(a: Store, b: Store, stack: seq<Value>, cmd: Command, T: set<TableId>)
    requires Touches(cmd, T) && Agree(a, b, T)
    ensures Do(a, stack, cmd).Done? <==> Do(b, stack, cmd).Done?
    ensures Do(a, stack, cmd).Done? ==>
              Do(a, stack, cmd).stack == Do(b, stack, cmd).stack &&
              Agree(Do(a, stack, cmd).store, Do(b, stack, cmd).store, T) &&
              AgreeOutside(a, Do(a, stack, cmd).store, T)
  {
    if cmd.CSet? && |stack| > 0 {
      var v := stack[|stack| - 1];
      forall u, j
        ensures u in T ==> Read(Write(a, cmd.t, cmd.k, v), u, j) == Read(Write(b, cmd.t, cmd.k, v), u, j)
        ensures u !in T ==> Read(Write(a, cmd.t, cmd.k, v), u, j) == Read(a, u, j)
      {
        ReadWritten(a, cmd.t, cmd.k, v, u, j);
        ReadWritten(b, cmd.t, cmd.k, v, u, j);
      }
    }
  }

  /** Commands give the same results on stores that agree on the tables they touch, and leave
      every other table alone. */
  lemma {:induction false} ExecAgrees(a: Store, b: Store, stack: seq<Value>, cmds: seq<Command>, T: set<TableId>)
    requires Within(cmds, T) && Agree(a, b, T)
    ensures Exec(a, stack, cmds).Done? <==> Exec(b, stack, cmds).Done?
    ensures Exec(a, stack, cmds).Done? ==>
              Exec(a, stack, cmds).stack == Exec(b, stack, cmds).stack &&
              Agree(Exec(a, stack, cmds).store, Exec(b, stack, cmds).store, T) &&
              AgreeOutside(a, Exec(a, stack, cmds).store, T)
  {
    if cmds != [] {
      var prefix, last := cmds[..|cmds| - 1], cmds[|cmds| - 1];
      ExecAgrees(a, b, stack, prefix, T);
      if Exec(a, stack, prefix).Done? {
        var a1, b1 := Exec(a, stack, prefix), Exec(b, stack, prefix);
        assert Touches(last, T);
        DoAgrees(a1.store, b1.store, a1.stack, last, T);
      }
    }
  }

  lemma ExecAppend(st: Store, stack: seq<Value>, cmds: seq<Command>, cmd: Command)
    ensures Exec(st, stack, cmds + [cmd]) ==
            match Exec(st, stack, cmds)
            case Done(st1, stack1) => Do(st1, stack1, cmd)
            case Stuck => Stuck
  {
    assert (cmds + [cmd])[..|cmds|] == cmds;
  }

  lemma SerialAppend(h: seq<Transaction>, x: Transaction)
    ensures Serial(h + [x]) ==
            match Serial(h)
            case None => None
            case Some(st) => SerialStep(st, x)
  {
    assert (h + [x])[..|h|] == h;
  }
}
