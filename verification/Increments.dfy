/**
 Clients that run the transactional increment script on one key lose no update, however
 their requests interleave with each other and with clients that do not write the key.
 */
module Increments {
  import opened Basics
  import opened Numerals
  import opened Calculator
  import opened Tables
  import opened Protocol
  import opened SerialFacts

  // ---------------------------------------------------------------- on the serial store

  /** What the script does to the store: read v, add one, write back. */
  function Increment(t: TableId, k: Key, v: Value): seq<Command> {
    [CGet(t, k, v), CPush("1"), CArith(Add), CSet(t, k)]
  }

  predicate IsIncrement(cmds: seq<Command>, t: TableId, k: Key) {
    |cmds| == 4 && cmds[0].CGet? && cmds == Increment(t, k, cmds[0].v)
  }

  predicate NeverSets(cmds: seq<Command>, t: TableId, k: Key) {
    forall i :: 0 <= i < |cmds| ==> cmds[i] != CSet(t, k)
  }

  function Count(h: seq<Transaction>, t: TableId, k: Key): nat {
    if h == [] then 0
    else Count(h[..|h| - 1], t, k) + if IsIncrement(h[|h| - 1].cmds, t, k) then 1 else 0
  }

  predicate Increasing(h: seq<Transaction>, t: TableId, k: Key) {
    forall i :: 0 <= i < |h| ==> IsIncrement(h[i].cmds, t, k) || NeverSets(h[i].cmds, t, k)
  }

  lemma {:induction false} ExecNeverSets(st: Store, stack: seq<Value>, cmds: seq<Command>, t: TableId, k: Key)
    requires NeverSets(cmds, t, k) && Exec(st, stack, cmds).Done?
    ensures Read(Exec(st, stack, cmds).store, t, k) == Read(st, t, k)
  {
    if cmds != [] {
      var prefix, last := cmds[..|cmds| - 1], cmds[|cmds| - 1];
      ExecNeverSets(st, stack, prefix, t, k);
      var o := Exec(st, stack, prefix);
      if last.CSet? { ReadWritten(o.store, last.t, last.k, o.stack[|o.stack| - 1], t, k); }
    }
  }

  lemma StoiOne()
    ensures Stoi("1") == Some(1)
  {
    StoiOfToString(1);
    assert ToString(1) == "1" by { assert Digits(1, 10) == [Digit(1)]; }
  }

  lemma ExecIncrement(st: Store, stack: seq<Value>, cmds: seq<Command>, t: TableId, k: Key)
    requires IsIncrement(cmds, t, k) && Exec(st, stack, cmds).Done?
    ensures Stoi(Read(st, t, k)).Some?
    ensures Read(Exec(st, stack, cmds).store, t, k) == ToString(Stoi(Read(st, t, k)).value + 1)
  {
    var v := cmds[0].v;
    var s1 := stack + [v];
    var s2 := s1 + ["1"];
    var c1: seq<Command> := [CGet(t, k, v)];
    var c2 := c1 + [CPush("1")];
    var c3 := c2 + [CArith(Add)];
    assert cmds == c3 + [CSet(t, k)] && c1 == [] + [CGet(t, k, v)];
    ExecAppend(st, stack, [], CGet(t, k, v));
    ExecAppend(st, stack, c1, CPush("1"));
    ExecAppend(st, stack, c2, CArith(Add));
    ExecAppend(st, stack, c3, CSet(t, k));
    assert Exec(st, stack, c2) == Done(st, s2) && v == Read(st, t, k);
    StoiOne();
    assert s2[|s2| - 1] == "1" && s2[|s2| - 2] == v && s2[..|s2| - 2] == stack;
    assert Exec(st, stack, c3).Done?;
    var s3 := stack + [ToString(Stoi(v).value + 1)];
    assert Exec(st, stack, c3) == Done(st, s3);
    ReadWritten(st, t, k, s3[|s3| - 1], t, k);
  }

  /** The number a cell holds after n increments of a cell that held v. */
  predicate Counted(v: Value, n: nat, now: Value) {
    if n == 0 then now == v else Stoi(v).Some? && now == ToString(Stoi(v).value + n)
  }

  /** Serially, every increment counts. */
  lemma {:induction false} SerialIncrements(h: seq<Transaction>, rest: seq<Transaction>, t: TableId, k: Key)
    requires Serial(h + rest).Some? && Increasing(rest, t, k)
    ensures Serial(h).Some?
    ensures Counted(Read(Serial(h).value, t, k), Count(rest, t, k), Read(Serial(h + rest).value, t, k))
    decreases |rest|
  {
    hide Exec, Stoi, ToString, Read;
    if rest == [] {
      assert h + rest == h;
      hide Serial;
    } else {
      var prefix, x := rest[..|rest| - 1], rest[|rest| - 1];
      assert h + rest == (h + prefix) + [x];
      hide Serial;
      SerialAppend(h + prefix, x);
      SerialIncrements(h, prefix, t, k);
      SerialIncrement(Serial(h + prefix).value, x, t, k, Read(Serial(h).value, t, k), Count(prefix, t, k));
    }
  }

  /** One transaction more. */
  lemma SerialIncrement(st: Store, x: Transaction, t: TableId, k: Key, v: Value, n: nat)
    requires SerialStep(st, x).Some? && (IsIncrement(x.cmds, t, k) || NeverSets(x.cmds, t, k))
    requires Counted(v, n, Read(st, t, k))
    ensures Counted(v, if IsIncrement(x.cmds, t, k) then n + 1 else n, Read(SerialStep(st, x).value, t, k))
  {
    if IsIncrement(x.cmds, t, k) {
      ExecIncrement(st, x.before, x.cmds, t, k);
      if n > 0 { StoiOfToString(Stoi(v).value + n); }
    } else {
      ExecNeverSets(st, x.before, x.cmds, t, k);
    }
    hide Exec, Stoi, ToString, Read, IsIncrement, NeverSets;
  }
}
