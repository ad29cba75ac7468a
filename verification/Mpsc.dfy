/** `MPSC` of `src/mpsc.h` as one thread at a time sees it: `push` and `pop` update `head`, `tail` and the
    `next` pointers in place, and the stub node is put back whenever the last closure is popped.  What happens
    between the steps of several threads is the subject of `Delegation`. */
module Mpsc {

  class Node {
    var next: Node?
    var value: int

    constructor (value: int)
      ensures this.next == null && this.value == value
    {
      this.next := null;
      this.value := value;
    }
  }

  datatype Popped = Null | Got(value: int)

  class Queue {
    var head: Node
    var tail: Node
    const stub: Node
    ghost var chain: seq<Node>  // the nodes from tail to head

    ghost predicate Valid()
      reads this, chain
    {
      && |chain| >= 1 && chain[0] == tail && chain[|chain| - 1] == head && head.next == null
      && (forall i, j :: 0 <= i < j < |chain| ==> chain[i] != chain[j])
      && (forall i {:trigger chain[i].next} :: 0 <= i < |chain| - 1 ==> chain[i].next == chain[i + 1])
      && stub !in chain[1..]
    }

    /** The values queued, oldest first. */
    ghost function Contents(): seq<int>
      requires Valid()
      reads this, chain
    {
      Values(if tail == stub then chain[1..] else chain)
    }

    constructor ()
      ensures Valid() && Contents() == [] && fresh(chain) && fresh(stub)
    {
      var s := new Node(0);
      stub := s;
      head := s;
      tail := s;
      chain := [s];
    }

    method PushNode(n: Node)
      requires Valid() && n !in chain && (n == stub ==> tail != stub)
      modifies this`head, this`chain, head, n
      ensures head == n && tail == old(tail) && n.next == null && n.value == old(n.value)
      ensures chain == old(chain) + [n]
      ensures forall m: Node | m in chain :: m.value == old(m.value)
      ensures forall i {:trigger chain[i].next} :: 0 <= i < |chain| - 1 ==> chain[i].next == chain[i + 1]
      ensures forall i, j :: 0 <= i < j < |chain| ==> chain[i] != chain[j]
    {
      n.next := null;
      var prev := head;
      head := n;
      prev.next := n;
      chain := chain + [n];
    }

    method Push(v: int)
      requires Valid()
      modifies this`head, this`chain, head
      ensures Valid() && Contents() == old(Contents()) + [v]
      ensures fresh(set n | n in chain && n !in old(chain))
    {
      var n := new Node(v);
      ghost var before := if tail == stub then chain[1..] else chain;
      ghost var values := Contents();
      PushNode(n);
      Joined(old(chain), n);
      assert (if tail == stub then chain[1..] else chain) == before + [n];
      ValuesSnoc(before, n);
      assert Values(before) == values;
    }

    static lemma Joined(chain: seq<Node>, n: Node)
      requires chain != []
      ensures (chain + [n])[1..] == chain[1..] + [n]
    {
    }

    /** `tail` moves to the next node. */
    method Advance()
      requires Valid() && |chain| >= 2
      modifies this`tail, this`chain
      ensures Valid() && chain == old(chain[1..]) && tail != stub && unchanged(old(chain))
    {
      assert chain[0].next == chain[1];
      tail := tail.next;
      chain := chain[1..];
      assert forall i {:trigger chain[i].next} :: 0 <= i < |chain| - 1 ==> chain[i].next == chain[i + 1] by {
        forall i {:trigger chain[i].next} | 0 <= i < |chain| - 1 ensures chain[i].next == chain[i + 1] {
          assert old(chain)[i + 1].next == old(chain)[i + 2];
        }
      }
    }

    /** The node popped is not deleted here; the queue merely forgets it. */
    method Pop() returns (r: Popped)
      requires Valid()
      modifies this`head, this`tail, this`chain, head, stub
      ensures Valid() && forall n :: n in chain ==> n in old(chain) || n == stub
      ensures r == Null ==> old(Contents()) == [] && Contents() == []
      ensures r.Got? ==> old(Contents()) == [r.value] + Contents()
    {
      var t := tail;
      var next := t.next;
      NextAtTail();
      if t == stub {
        if next == null {
          return Null;
        }
        Advance();
        t := next;
        next := t.next;
        NextAtTail();
      }
      assert Contents() == old(Contents());
      if next != null {
        Advance();
        return Got(t.value);
      }
      // Only a half-linked push of another thread makes tail and head differ here.
      if t != head {
        return Null;
      }
      PushNode(stub);
      next := t.next;
      assert chain[0].next == chain[1];
      if next != null {
        tail := next;
        chain := chain[1..];
        return Got(t.value);
      }
      return Null;
    }

    lemma NextAtTail()
      requires Valid()
      ensures tail.next == null <==> |chain| == 1
      ensures tail.next == null <==> tail == head
    {
      if |chain| > 1 { assert chain[0].next == chain[1]; }
    }
  }

  ghost function Values(nodes: seq<Node>): (vs: seq<int>)
    reads nodes
    ensures |vs| == |nodes|
  {
    seq(|nodes|, i requires 0 <= i < |nodes| reads nodes => nodes[i].value)
  }

  lemma ValuesSnoc(nodes: seq<Node>, n: Node)
    ensures Values(nodes + [n]) == Values(nodes) + [n.value]
  {
  }
}
