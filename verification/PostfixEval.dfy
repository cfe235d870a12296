/** The server as a postfix calculator: an expression sent as its postorder of requests. */
module PostfixEval {
  import opened Numerals
  import opened Calculator
  import opened Tables
  import opened Protocol

  datatype Expr = Literal(n: int) | Apply(op: Operator, left: Expr, right: Expr)

  /** TooWide: some operand did not fit 32 bits. */
  datatype Evaluated = Number(v: int) | TooWide | DividedByZero

  ghost function Combine(op: Operator, a: int, b: int): Evaluated {
    if !IsInt32(a) || !IsInt32(b) then TooWide
    else
      match op
      case Add => Number(a + b)
      case Sub => Number(a - b)
      case Mul => Number(a * b)
      case Div =>
        if b == 0 then DividedByZero
        else
          QuotientTruncates(a, b);
          var q :| Truncates(a, b, q);
          Number(q)
  }

  /** The meaning of an expression, left operand first. */
  ghost function Eval(e: Expr): Evaluated {
    match e
    case Literal(n) => Number(n)
    case Apply(op, left, right) =>
      if !Eval(left).Number? then Eval(left)
      else if !Eval(right).Number? then Eval(right)
      else Combine(op, Eval(left).v, Eval(right).v)
  }

  function Postorder(e: Expr): (rs: seq<Request>)
    ensures rs != []
  {
    match e
    case Literal(n) => [Push(ToString(n))]
    case Apply(op, left, right) => Postorder(left) + Postorder(right) + [Arithmetic(op)]
  }

  /** What the postorder does inside a transaction. */
  function Commands(e: Expr): seq<Command> {
    match e
    case Literal(n) => [CPush(ToString(n))]
    case Apply(op, left, right) => Commands(left) + Commands(right) + [CArith(op)]
  }

  predicate Ready(s: State, c: ClientId) {
    !s.down && c in s.clients && s.clients[c].task.Idle? && s.clients[c].loggedIn
  }

  predicate Stopped(s: State, c: ClientId) {
    s.down || c !in s.clients || s.clients[c].reply != Ok
  }

  /** A client sends requests one by one until an answer is not OK. */
  function Session(s: State, c: ClientId, rs: seq<Request>): State
    decreases |rs|
  {
    if rs == [] || !Enabled(s, c, Receive(rs[0])) then s
    else
      var s' := Next(s, c, Receive(rs[0]));
      if Stopped(s', c) then s' else Session(s', c, rs[1..])
  }

  /** The client after its expression was evaluated to v. */
  function After(cl: Client, rs: seq<Request>, cmds: seq<Command>, v: int): Client {
    cl.(received := cl.received + rs,
        stack := cl.stack + [ToString(v)],
        cmds := if cl.inTxn then cl.cmds + cmds else cl.cmds,
        reply := Ok)
  }

  // ---------------------------------------------------------------- one request

  lemma PushStep(s: State, c: ClientId, n: int)
    requires Ready(s, c)
    ensures Session(s, c, [Push(ToString(n))])
         == s.Put(c, After(s.clients[c], [Push(ToString(n))], [CPush(ToString(n))], n))
  {
  }

  lemma SessionOfOne(s: State, c: ClientId, r: Request)
    requires Ready(s, c)
    ensures Session(s, c, [r]) == Receives(s, c, r)
  {
    assert [r][1..] == [];
    hide Receives;
  }

  /** What the requests rs gave, from state s to s', for a value or a fault x. */
  ghost predicate Gave(s: State, c: ClientId, s': State, x: Evaluated, rs: seq<Request>, cmds: seq<Command>)
    requires c in s.clients
  {
    match x
    case Number(v) => s' == s.Put(c, After(s.clients[c], rs, cmds, v))
    case TooWide => if s.clients[c].inTxn then s'.down else !s'.down && c in s'.clients && s'.clients[c].reply == Failed
    case DividedByZero => s'.down
  }

  /** The operator's operands are the two numerals on top, the right one uppermost. */
  lemma ArithmeticStep(s: State, c: ClientId, op: Operator, base: seq<Value>, a: int, b: int)
    requires Ready(s, c) && s.clients[c].stack == base + [ToString(a)] + [ToString(b)]
    ensures var cl := s.clients[c].(stack := base);
            Gave(s.Put(c, cl), c, Session(s, c, [Arithmetic(op)]), Combine(op, a, b), [Arithmetic(op)], [CArith(op)])
  {
    StoiOfToString(a);
    StoiOfToString(b);
    ArithOfNumerals(base, op, a, b);
    SessionOfOne(s, c, Arithmetic(op));
    hide Arith, ToString, Session, Stoi, Combine;
  }

  lemma ArithOfNumerals(base: seq<Value>, op: Operator, a: int, b: int)
    ensures Arith(base + [ToString(a)] + [ToString(b)], op) ==
            match Combine(op, a, b)
            case Number(v) => Pushed(base + [ToString(v)])
            case TooWide => Rejected(base)
            case DividedByZero => Trapped
  {
    var stack := base + [ToString(a)] + [ToString(b)];
    StoiOfToString(a);
    StoiOfToString(b);
    assert stack[..|stack| - 2] == base;
    if op.Div? && Combine(op, a, b).Number? {
      QuotientTruncates(a, b);
      QuotientIsUnique(a, b, TruncDiv(a, b), Combine(op, a, b).v);
    }
    hide ToString, Stoi, Truncates;
  }

  // ---------------------------------------------------------------- many requests

  lemma {:induction false} SessionAppend(s: State, c: ClientId, first: seq<Request>, later: seq<Request>)
    requires first != []
    ensures var mid := Session(s, c, first);
            Session(s, c, first + later) == if Stopped(mid, c) then mid else Session(mid, c, later)
    decreases |first|
  {
    assert (first + later)[1..] == first[1..] + later && (first + later)[0] == first[0];
    hide Next;
    hide Stopped;
    if Enabled(s, c, Receive(first[0])) {
      var s' := Next(s, c, Receive(first[0]));
      if |first| == 1 {
        assert first[1..] == [] && [] + later == later;
      } else if !Stopped(s', c) {
        SessionAppend(s', c, first[1..], later);
      }
    }
  }

  lemma StacksUp(s: State, c: ClientId, rs: seq<Request>, cs: seq<Command>, a: int,
                 rs': seq<Request>, cs': seq<Command>, b: int, op: Operator, x: Evaluated, end: State)
    requires Ready(s, c)
    requires var one := After(s.clients[c], rs, cs, a);
             var two := After(one, rs', cs', b);
             Gave(s.Put(c, two.(stack := s.clients[c].stack)), c, end, x, [Arithmetic(op)], [CArith(op)])
    ensures Gave(s, c, end, x, rs + rs' + [Arithmetic(op)], cs + cs' + [CArith(op)])
  {
    hide ToString;
    var cl := s.clients[c];
    assert cl.received + rs + rs' + [Arithmetic(op)] == cl.received + (rs + rs' + [Arithmetic(op)]);
    assert cl.cmds + cs + cs' + [CArith(op)] == cl.cmds + (cs + cs' + [CArith(op)]);
    if x.Number? {
      var two := After(After(cl, rs, cs, a), rs', cs', b).(stack := cl.stack);
      assert After(two, [Arithmetic(op)], [CArith(op)], x.v)
          == After(cl, rs + rs' + [Arithmetic(op)], cs + cs' + [CArith(op)], x.v);
      assert s.Put(c, two).Put(c, After(two, [Arithmetic(op)], [CArith(op)], x.v)).clients
          == s.Put(c, After(two, [Arithmetic(op)], [CArith(op)], x.v)).clients;
    }
  }

  /** The server evaluates the expression: its value ends up on the client's stack with everything
      below unchanged, and nothing else in the server changes. If an operand does not fit 32 bits the
      client is told of a failure, and inside a transaction, or when dividing by zero, the process ends. */
  lemma {:induction false} ServerEvaluates(s: State, c: ClientId, e: Expr)
    requires Ready(s, c)
    ensures Gave(s, c, Session(s, c, Postorder(e)), Eval(e), Postorder(e), Commands(e))
    decreases e
  {
    match e
    case Literal(n) => PushStep(s, c, n);
    case Apply(op, left, right) =>
      var l, r := Postorder(left), Postorder(right);
      ServerEvaluates(s, c, left);
      SessionAppend(s, c, l + r, [Arithmetic(op)]);
      SessionAppend(s, c, l, r);
      if Eval(left).Number? {
        var s1 := Session(s, c, l);
        ServerEvaluates(s1, c, right);
        if Eval(right).Number? {
          var s2 := Session(s1, c, r);
          ArithmeticStep(s2, c, op, s.clients[c].stack, Eval(left).v, Eval(right).v);
          TwoPuts(s, c, l, Commands(left), Eval(left).v, r, Commands(right), Eval(right).v);
          StacksUp(s, c, l, Commands(left), Eval(left).v, r, Commands(right), Eval(right).v, op, Eval(e),
                   Session(s2, c, [Arithmetic(op)]));
        }
      }
  }

  lemma TwoPuts(s: State, c: ClientId, rs: seq<Request>, cs: seq<Command>, a: int,
                rs': seq<Request>, cs': seq<Command>, b: int)
    requires Ready(s, c)
    ensures var one := After(s.clients[c], rs, cs, a);
            var two := After(one, rs', cs', b);
            var base := two.(stack := s.clients[c].stack);
            s.Put(c, one).Put(c, two).Put(c, base) == s.Put(c, base)
  {
  }
}
