/** The bounded stack that the pool keeps slots in. */
module PointerStack {

  class Stack<T(0)> {
    var top: int
    var stack: array<T>

    ghost predicate Valid()
      reads this
    {
      0 <= top <= stack.Length
    }

    ghost function Contents(): (s: seq<T>)
      requires Valid()
      reads this, stack
    {
      stack[..top]
    }

    constructor (capacity: nat)
      ensures Valid() && fresh(stack) && stack.Length == capacity && Contents() == []
    {
      top := 0;
      stack := new T[capacity];
    }

    method Push(x: T) returns (ok: bool)
      requires Valid()
      modifies this`top, stack
      ensures Valid() && ok == (|old(Contents())| < stack.Length)
      ensures Contents() == if ok then old(Contents()) + [x] else old(Contents())
    {
      if top > stack.Length - 1 {
        return false;
      }
      stack[top] := x;
      top := top + 1;
      assert stack[..top - 1] == old(stack[..top]);
      return true;
    }

    /** null becomes "not ok". */
    method Pop(default: T) returns (ok: bool, x: T)
      requires Valid()
      modifies this`top
      ensures Valid() && ok == (old(Contents()) != [])
      ensures ok ==> old(Contents()) == Contents() + [x]
      ensures !ok ==> Contents() == [] && x == default
    {
      if top - 1 < 0 {
        return false, default;
      }
      top := top - 1;
      return true, stack[top];
    }
  }
}
