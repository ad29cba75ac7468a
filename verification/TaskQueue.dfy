/** `TaskQueue` of `src/taskstealing.h` as one thread at a time sees it: the methods update `top`, `bottom`
    and the circular array in place, and each is proved to perform one operation of the deque that the
    concurrent model in `WorkStealing` refines. */
module TaskQueues {
  import opened WorkStealing

  datatype Answer = EMPTY | ABORT | Got(task: Item)

  class TaskQueue {
    var wsq: array<Item>
    var top: int
    var bottom: int

    ghost predicate Valid()
      reads this
    {
      0 <= top <= bottom && 2 <= wsq.Length && bottom - top <= wsq.Length - 1
    }

    /** The queued tasks, oldest first. */
    ghost function Contents(): (d: seq<Item>)
      requires Valid()
      reads this, wsq
      ensures |d| == bottom - top
    {
      seq(bottom - top, k requires 0 <= k < bottom - top && Valid() reads this, wsq =>
        wsq[Wrap(top + k, wsq.Length)])
    }

    constructor (zero: Item)
      ensures Valid() && Contents() == [] && fresh(wsq)
    {
      wsq := new Item[16](_ => zero);
      top, bottom := 0, 0;
    }

    method Expand(zero: Item)
      requires Valid()
      modifies this`wsq
      ensures Valid() && fresh(wsq) && wsq.Length == 2 * old(wsq.Length)
      ensures Contents() == old(Contents())
    {
      var newsize := wsq.Length * 2;
      var newitems := new Item[newsize](_ => zero);
      var i := top;
      while i < bottom
        invariant top <= i <= bottom
        invariant forall j :: top <= j < i ==> newitems[Wrap(j, newsize)] == wsq[Wrap(j, wsq.Length)]
        modifies newitems
      {
        WrapIsMod(i, newsize);
        WrapIsMod(i, wsq.Length);
        forall j | top <= j < i ensures Wrap(j, newsize) != Wrap(i, newsize) { SlotsDiffer(j, i, newsize); }
        newitems[i % newsize] := wsq[i % wsq.Length];
        i := i + 1;
      }
      wsq := newitems;
    }

    method Push(task: Item, zero: Item)
      requires Valid()
      modifies this, wsq
      ensures Valid() && (wsq == old(wsq) || fresh(wsq))
      ensures Spec(old(Contents()), PushBack(task), Contents())
    {
      var b := bottom;
      if b - top >= wsq.Length - 1 {
        Expand(zero);
      }
      ghost var before := Contents();
      WrapIsMod(b, wsq.Length);
      forall j | top <= j < b ensures Wrap(j, wsq.Length) != Wrap(b, wsq.Length) { SlotsDiffer(j, b, wsq.Length); }
      wsq[b % wsq.Length] := task;
      bottom := b + 1;
      assert Contents() == before + [task];
    }

    method Take() returns (r: Answer)
      requires Valid()
      modifies this
      ensures Valid() && wsq == old(wsq)
      ensures match r
              case EMPTY => Spec(old(Contents()), SawEmpty, Contents())
              case ABORT => false
              case Got(x) => Spec(old(Contents()), PopBack(x), Contents())
    {
      var b := bottom - 1;
      bottom := b;
      var t := top;
      if b < t {
        bottom := t;
        return EMPTY;
      }
      WrapIsMod(b, wsq.Length);
      var task := wsq[b % wsq.Length];
      if b > t {
        assert old(Contents()) == Contents() + [task];
        return Got(task);
      }
      // The compare-and-swap on top cannot fail when no thief runs.
      top := t + 1;
      bottom := t + 1;
      return Got(task);
    }

    method Steal() returns (r: Answer)
      requires Valid()
      modifies this`top
      ensures Valid()
      ensures match r
              case EMPTY => Spec(old(Contents()), SawEmpty, Contents())
              case ABORT => false
              case Got(x) => Spec(old(Contents()), PopFront(x), Contents())
    {
      var t := top;
      var b := bottom;
      if t >= b {
        return EMPTY;
      }
      WrapIsMod(t, wsq.Length);
      var task := wsq[t % wsq.Length];
      top := t + 1;
      assert old(Contents()) == [task] + Contents();
      return Got(task);
    }
  }
}
