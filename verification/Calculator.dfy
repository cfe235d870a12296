/** The arithmetic requests on a client's stack of strings (the last element is the top). */
module Calculator {
  import opened Basics
  import opened Numerals

  datatype Operator = Add | Sub | Mul | Div

  /** What the four operators compute from the popped top and the value below it.
      None is the division trap that ends the process. */
  function Compute(op: Operator, top: int, below: int): Option<int> {
    match op
    case Add => Some(top + below)
    case Mul => Some(top * below)
    case Sub => Some(below - top)
    case Div => if top == 0 then None else Some(TruncDiv(below, top))
  }

  datatype Arithmetic = Pushed(stack: seq<string>) | Rejected(stack: seq<string>) | Trapped

  /** One arithmetic request. Both operands are popped before either is converted, and a
      rejected request does not put them back. */
  function Arith(stack: seq<string>, op: Operator): Arithmetic {
    var n := |stack|;
    if n < 2 then Rejected([])
    else
      match (Stoi(stack[n - 1]), Stoi(stack[n - 2]))
      case (Some(top), Some(below)) =>
        (match Compute(op, top, below)
         case Some(v) => Pushed(stack[..n - 2] + [ToString(v)])
         case None => Trapped)
      case _ => Rejected(stack[..n - 2])
  }

  /** A request needs two values and loses them both when it fails; with fewer it loses all there is. */
  lemma ArithmeticOutcome(rest: seq<string>, below: string, top: string, op: Operator)
    ensures Arith([], op) == Rejected([]) && Arith([top], op) == Rejected([])
    ensures Arith(rest + [below] + [top], op) ==
            if Stoi(below).None? || Stoi(top).None? then Rejected(rest)
            else if op.Div? && Stoi(top).value == 0 then Trapped
            else Pushed(rest + [ToString(Compute(op, Stoi(top).value, Stoi(below).value).value)])
  {
    var stack := rest + [below] + [top];
    assert stack[..|stack| - 2] == rest;
    hide Stoi, ToString, TruncDiv;
  }

  lemma ProductBound(a: int, b: int, m: int)
    requires -m <= a <= m && -m <= b <= m
    ensures -(m * m) <= a * b <= m * m
  {
    assert (m - a) * (m + b) >= 0;
    assert (m + a) * (m - b) >= 0;
    assert (m - a) * (m - b) >= 0;
    assert (m + a) * (m + b) >= 0;
  }

  lemma QuotientAtMost(x: nat, y: nat)
    requires y > 0
    ensures x / y <= x
  {
    DivMod(x, y);
    assert x / y * y >= x / y;
  }

  /** Operands come from 32-bit parsing, so no operator can leave 64 bits. */
  lemma ArithmeticFits(op: Operator, top: int, below: int)
    requires IsInt32(top) && IsInt32(below)
    ensures Compute(op, top, below).Some? ==> IsInt64(Compute(op, top, below).value)
    ensures Compute(op, top, below).None? <==> op.Div? && top == 0
  {
    match op
    case Mul => ProductBound(top, below, 0x8000_0000);
    case Div => if top != 0 { QuotientAtMost(Abs(below), Abs(top)); }
    case _ =>
  }

  /** A request whose pushed result left 32 bits makes every arithmetic request that pops it fail. */
  lemma OversizedResultIsRejected(stack: seq<string>, op: Operator, next: Operator, v: int)
    requires |stack| >= 1
    ensures Arith(stack + [ToString(v)], next).Rejected? <==> Stoi(stack[|stack| - 1]).None? || !IsInt32(v)
  {
    StoiOfToString(v);
  }
}
