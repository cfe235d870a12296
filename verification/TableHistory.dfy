/** A table agrees with its history. */
module TableHistory {
  import opened Basics
  import opened Tables

  datatype Operation = Sets(k: Key, v: Value) | Gets(k: Key) | Commits | RollsBack

  function Apply(tb: TableState, op: Operation): TableState {
    match op
    case Sets(k, v) => tb.Set(k, v)
    case Gets(k) => tb.AfterGet(k)
    case Commits => tb.Commit()
    case RollsBack => tb.Rollback()
  }

  /** The table after a history, starting empty. */
  function After(name: string, h: seq<Operation>): TableState {
    if h == [] then TableState(name, None, map[], map[])
    else Apply(After(name, h[..|h| - 1]), h[|h| - 1])
  }

  // ---------------------------------------------------------------- what a history says

  /** Operation i is undone: a rollback comes after it, and no commit in between. With `end` the
      history is read as if a rollback followed it. */
  ghost predicate Undone(h: seq<Operation>, end: bool, i: nat) {
    || (exists j :: i < j < |h| && h[j].RollsBack? && CommitFree(h, i, j))
    || (end && CommitFree(h, i, |h|))
  }

  ghost predicate CommitFree(h: seq<Operation>, i: nat, j: nat) {
    forall m :: i < m < j && m < |h| ==> !h[m].Commits?
  }

  /** Operation i stores a value under k and is not undone. */
  ghost predicate Lasting(h: seq<Operation>, end: bool, k: Key, i: nat) {
    i < |h| && h[i].Sets? && h[i].k == k && !Undone(h, end, i)
  }

  /** Operation i is the last that counts for k. */
  ghost predicate Decides(h: seq<Operation>, end: bool, k: Key, i: nat) {
    Lasting(h, end, k, i) && forall j: nat :: i < j ==> !Lasting(h, end, k, j)
  }

  /** Some value set for k was not undone. */
  ghost predicate HoldsSome(h: seq<Operation>, end: bool, k: Key) {
    exists i: nat :: Lasting(h, end, k, i)
  }

  /** Some get of k came when the table held no such key. */
  ghost predicate GotMissing(name: string, h: seq<Operation>, k: Key) {
    exists i :: 0 <= i < |h| && h[i] == Gets(k) && !After(name, h[..i]).HasKey(k)
  }

  // ---------------------------------------------------------------- one more operation

  function Ends(op: Operation, end: bool): bool {
    match op
    case Commits => false
    case RollsBack => true
    case _ => end
  }

  lemma UndoneStep(g: seq<Operation>, op: Operation, end: bool, i: nat)
    requires i < |g|
    ensures Undone(g + [op], end, i) <==> Undone(g, Ends(op, end), i)
  {
    var h := g + [op];
    assert forall j :: 0 <= j < |g| ==> h[j] == g[j];
    forall j: nat | j <= |g| ensures CommitFree(h, i, j) <==> CommitFree(g, i, j) {}
    assert h[|g|] == op;
    assert CommitFree(h, i, |h|) <==> CommitFree(g, i, |g|) && !op.Commits?;
    if op.RollsBack? && CommitFree(g, i, |g|) {
      assert CommitFree(h, i, |g|);
    }
    if exists j :: i < j < |g| && g[j].RollsBack? && CommitFree(g, i, j) {
      var j :| i < j < |g| && g[j].RollsBack? && CommitFree(g, i, j);
      assert h[j].RollsBack? && CommitFree(h, i, j);
    }
  }

  lemma LastingStep(g: seq<Operation>, op: Operation, end: bool, k: Key, i: nat)
    ensures Lasting(g + [op], end, k, i) <==>
              || Lasting(g, Ends(op, end), k, i)
              || (i == |g| && op.Sets? && op.k == k && !end)
  {
    if i < |g| { UndoneStep(g, op, end, i); }
  }

  /** What the history says of a key: the value of the operation that decides it. */
  ghost predicate Says(h: seq<Operation>, end: bool, k: Key, v: Option<Value>) {
    match v
    case None => !HoldsSome(h, end, k)
    case Some(x) => exists i: nat :: Decides(h, end, k, i) && h[i].v == x
  }

  lemma SaysStep(g: seq<Operation>, op: Operation, end: bool, k: Key, v: Option<Value>)
    requires Says(g, Ends(op, end), k, v)
    ensures Says(g + [op], end, k, if op.Sets? && op.k == k && !end then Some(op.v) else v)
  {
    forall i: nat
      ensures Lasting(g + [op], end, k, i) <==>
                || Lasting(g, Ends(op, end), k, i)
                || (i == |g| && op.Sets? && op.k == k && !end)
    {
      LastingStep(g, op, end, k, i);
    }
    if op.Sets? && op.k == k && !end {
      assert Decides(g + [op], end, k, |g|) && (g + [op])[|g|].v == op.v;
    } else if v.Some? {
      var i: nat :| Decides(g, Ends(op, end), k, i) && g[i].v == v.value;
      assert Decides(g + [op], end, k, i) && (g + [op])[i].v == v.value;
    }
  }

  /** What a map holds: a value stored, or the empty string an absent key's get left behind. */
  ghost predicate Agrees(name: string, h: seq<Operation>, end: bool, k: Key, m: Row, v: Option<Value>) {
    && Says(h, end, k, v)
    && Lookup(m, k) == (if v.Some? then v.value else "")
    && (k in m <==> v.Some? || GotMissing(name, h, k))
  }

  lemma GotMissingStep(name: string, g: seq<Operation>, op: Operation, k: Key)
    ensures GotMissing(name, g + [op], k) <==> GotMissing(name, g, k) || (op == Gets(k) && !After(name, g).HasKey(k))
  {
    var h := g + [op];
    assert forall i :: 0 <= i < |g| ==> h[..i] == g[..i] && h[i] == g[i];
    assert h[..|g|] == g && h[|g|] == op;
    if GotMissing(name, g, k) {
      var i :| 0 <= i < |g| && g[i] == Gets(k) && !After(name, g[..i]).HasKey(k);
      assert h[i] == Gets(k) && !After(name, h[..i]).HasKey(k);
    }
  }

  lemma CommittedStep(name: string, g: seq<Operation>, op: Operation, k: Key, v: Option<Value>, x: Option<Value>)
    requires Agrees(name, g, true, k, After(name, g).committed, v)
    requires Agrees(name, g, false, k, After(name, g).Visible(), x)
    ensures Agrees(name, g + [op], true, k, After(name, g + [op]).committed, if op.Commits? then x else v)
  {
    assert After(name, g + [op]) == Apply(After(name, g), op) by { assert (g + [op])[..|g|] == g; }
    GotMissingStep(name, g, op, k);
    SaysStep(g, op, true, k, if op.Commits? then x else v);
    hide After, Says, GotMissing;
  }

  lemma VisibleStep(name: string, g: seq<Operation>, op: Operation, k: Key, v: Option<Value>, x: Option<Value>)
    requires Agrees(name, g, true, k, After(name, g).committed, v)
    requires Agrees(name, g, false, k, After(name, g).Visible(), x)
    ensures Agrees(name, g + [op], false, k, After(name, g + [op]).Visible(),
                   if op.Sets? && op.k == k then Some(op.v) else if op.RollsBack? then v else x)
  {
    assert After(name, g + [op]) == Apply(After(name, g), op) by { assert (g + [op])[..|g|] == g; }
    GotMissingStep(name, g, op, k);
    SaysStep(g, op, false, k, if op.RollsBack? then v else x);
    hide After, Says, GotMissing;
  }

  /** The committed map agrees with the history cut off by a rollback, the visible one with the
      history as it is. */
  lemma {:induction false} MapsAgree(name: string, h: seq<Operation>, k: Key) returns (v: Option<Value>, x: Option<Value>)
    ensures Agrees(name, h, true, k, After(name, h).committed, v)
    ensures Agrees(name, h, false, k, After(name, h).Visible(), x)
    decreases |h|
  {
    if h == [] {
      v, x := None, None;
    } else {
      var g, op := h[..|h| - 1], h[|h| - 1];
      assert h == g + [op];
      v, x := MapsAgree(name, g, k);
      CommittedStep(name, g, op, k, v, x);
      VisibleStep(name, g, op, k, v, x);
      v, x := if op.Commits? then x else v, if op.Sets? && op.k == k then Some(op.v) else if op.RollsBack? then v else x;
      hide Agrees;
    }
  }

  /** The decided value is unique. */
  lemma SaysOne(h: seq<Operation>, end: bool, k: Key, v: Option<Value>, x: Option<Value>)
    requires Says(h, end, k, v) && Says(h, end, k, x)
    ensures v == x
  {
    if v.Some? && x.Some? {
      var i: nat :| Decides(h, end, k, i) && h[i].v == v.value;
      var j: nat :| Decides(h, end, k, j) && h[j].v == x.value;
      assert !(i < j) && !(j < i);
    }
  }

  /** get returns the last value set for the key and not undone by a rollback, or the empty string
      when there is none. */
  lemma GetAgreesWithHistory(name: string, h: seq<Operation>, k: Key, v: Value)
    ensures Lookup(After(name, h).Visible(), k) == v <==>
              || (exists i: nat :: Decides(h, false, k, i) && h[i].v == v)
              || (v == "" && !HoldsSome(h, false, k))
  {
    var _, x := MapsAgree(name, h, k);
    if exists i: nat :: Decides(h, false, k, i) && h[i].v == v {
      SaysOne(h, false, k, x, Some(v));
    }
    if !HoldsSome(h, false, k) {
      SaysOne(h, false, k, x, None);
    }
  }

  /** has_key is true exactly when some set of the key was not undone, or a get found it missing. */
  lemma HasKeyAgreesWithHistory(name: string, h: seq<Operation>, k: Key)
    ensures After(name, h).HasKey(k) <==> HoldsSome(h, false, k) || GotMissing(name, h, k)
  {
    var _, x := MapsAgree(name, h, k);
    if x.Some? {
      var i: nat :| Decides(h, false, k, i) && h[i].v == x.value;
      assert Lasting(h, false, k, i);
    }
  }

  ghost predicate Honest(name: string, h: seq<Operation>, k: Key) {
    After(name, h).HasKey(k) <==> HoldsSome(h, false, k)
  }

  /** has_key reports exactly the keys set and not undone, after every prefix of a history, if and
      only if every get named a key the table held. */
  lemma HasKeyIsHonest(name: string, h: seq<Operation>)
    ensures (forall i :: 0 <= i < |h| && h[i].Gets? ==> After(name, h[..i]).HasKey(h[i].k)) <==>
            (forall n, k :: 0 <= n <= |h| ==> Honest(name, h[..n], k))
  {
    if forall i :: 0 <= i < |h| && h[i].Gets? ==> After(name, h[..i]).HasKey(h[i].k) {
      forall n, k | 0 <= n <= |h| ensures Honest(name, h[..n], k) {
        HasKeyAgreesWithHistory(name, h[..n], k);
        assert forall i :: 0 <= i < n ==> h[..n][..i] == h[..i] && h[..n][i] == h[i];
        assert !GotMissing(name, h[..n], k);
      }
    } else {
      var i :| 0 <= i < |h| && h[i].Gets? && !After(name, h[..i]).HasKey(h[i].k);
      MissingGetIsDishonest(name, h, i);
    }
  }

  /** A get of a missing key makes has_key true of a key that was never set. */
  lemma MissingGetIsDishonest(name: string, h: seq<Operation>, i: nat)
    requires i < |h| && h[i].Gets? && !After(name, h[..i]).HasKey(h[i].k)
    ensures !Honest(name, h[..i + 1], h[i].k)
  {
    var g, k := h[..i], h[i].k;
    assert h[..i + 1] == g + [h[i]];
    assert After(name, g + [h[i]]) == After(name, g).AfterGet(k) by { assert (g + [h[i]])[..|g|] == g; }
    HasKeyAgreesWithHistory(name, g, k);
    if HoldsSome(g + [h[i]], false, k) {
      var j: nat :| Lasting(g + [h[i]], false, k, j);
      LastingStep(g, h[i], false, k, j);
      assert HoldsSome(g, false, k);
    }
  }

  /** Committing shows nothing new, and a rollback right after it undoes nothing. */
  lemma CommitIsInvisible(name: string, h: seq<Operation>, k: Key)
    ensures Lookup(After(name, h + [Commits]).Visible(), k) == Lookup(After(name, h).Visible(), k)
    ensures After(name, h + [Commits, RollsBack]) == After(name, h + [Commits])
  {
    assert (h + [Commits, RollsBack])[..|h| + 1] == h + [Commits];
    assert (h + [Commits])[..|h|] == h;
    var tb := After(name, h);
    assert tb.Commit().Visible() == tb.Visible();
  }
}
