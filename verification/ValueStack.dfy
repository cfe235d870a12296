/** A client's operand stack, with the element count value_stack.cpp keeps beside it. */
module ValueStacks {
  import opened Basics
  import opened Tables

  class ValueStack {
    var stk: seq<Value>
    var total: int

    constructor ()
      ensures Valid() && Contents() == []
    {
      stk, total := [], 0;
    }

    ghost predicate Valid()
      reads this
    {
      total == |stk|
    }

    function Contents(): seq<Value>
      reads this
    {
      stk
    }

    method IsEmpty() returns (empty: bool)
      requires Valid()
      ensures empty <==> Contents() == []
    {
      return total == 0;
    }

    method Push(value: Value)
      requires Valid()
      modifies this
      ensures Valid() && Contents() == old(Contents()) + [value]
    {
      stk := stk + [value];
      total := total + 1;
    }

    /** None stands for the OperationException on an empty stack. */
    method GetTop() returns (value: Option<Value>)
      requires Valid()
      ensures value == if Contents() == [] then None else Some(Contents()[|Contents()| - 1])
    {
      if total == 0 {
        return None;
      }
      return Some(stk[|stk| - 1]);
    }

    /** False stands for the OperationException on an empty stack. */
    method Pop() returns (ok: bool)
      requires Valid()
      modifies this
      ensures Valid() && (ok <==> old(Contents()) != [])
      ensures Contents() == if ok then old(Contents())[..|old(Contents())| - 1] else old(Contents())
    {
      if total == 0 {
        return false;
      }
      stk := stk[..|stk| - 1];
      total := total - 1;
      return true;
    }
  }
}
