/** The operand stack (index.js:129-155): an array of integers mutated in place,
    where reading an empty stack gives 0 instead of failing. */
module Stacks {

  /** What `peek` and `pop` return: the last value pushed, or 0 on an empty stack. */
  function Top(s: seq<int>): int
  {
    if |s| == 0 then 0 else s[|s| - 1]
  }

  /** What `pop` leaves: everything but the last value pushed; an empty stack stays empty. */
  function Drop(s: seq<int>): seq<int>
  {
    if |s| == 0 then [] else s[..|s| - 1]
  }

  /** `pop` after `push(v)` returns v and restores the stack as it was. */
  lemma PopAfterPush(s: seq<int>, v: int)
    ensures Top(s + [v]) == v && Drop(s + [v]) == s
  {
  }

  /** On an empty stack `pop` and `peek` give 0 and the stack stays empty. */
  lemma EmptyReadsZero()
    ensures Top([]) == 0 && Drop([]) == []
  {
  }

  /** On a non-empty stack, pushing back what `pop` returned undoes the pop. */
  lemma PushAfterPop(s: seq<int>)
    requires s != []
    ensures Drop(s) + [Top(s)] == s
  {
  }

  /** `pop` removes exactly one value when there is one, and none otherwise. */
  lemma DropLength(s: seq<int>)
    ensures |Drop(s)| == if s == [] then 0 else |s| - 1
  {
  }

  /** A stack: `items` is the JavaScript array `_stack`, bottom first. */
  class Stack {
    var items: seq<int>

    constructor ()
      ensures items == []
    {
      items := [];
    }

    /** `empty`: true exactly when nothing has been pushed that was not popped. */
    method Empty() returns (b: bool)
      ensures b <==> |items| == 0
    {
      b := |items| == 0;
    }

    /** `peek`: the top value without removing it; 0 on an empty stack. */
    method Peek() returns (v: int)
      ensures v == Top(items)
    {
      var isEmpty := Empty();
      if isEmpty {
        return 0;
      }
      v := items[|items| - 1];
    }

    /** `pop`: removes and returns the top value; returns 0 and changes nothing on an empty stack. */
    method Pop() returns (v: int)
      modifies this
      ensures v == Top(old(items)) && items == Drop(old(items))
    {
      var isEmpty := Empty();
      if isEmpty {
        return 0;
      }
      v := items[|items| - 1];
      items := items[..|items| - 1];
    }

    /** `push`: appends v on top. */
    method Push(v: int)
      modifies this
      ensures items == old(items) + [v]
    {
      items := items + [v];
    }
  }
}
