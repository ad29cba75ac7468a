/** `Delegator` of `src/delegator.hpp` as one thread sees it between the steps of others: it takes a ticket, and
    with ticket zero it combines until the counter is back to zero.  `Delegation` has the steps of several threads. */
module DelegationLocks {
  import Mpsc

  class Delegator {
    const delegations: Mpsc.Queue
    var counter: int
    var inDelegator: bool
    /** The closures that have run, by name, in order. */
    var ran: seq<int>

    constructor ()
      ensures Valid() && counter == 0 && !inDelegator && ran == [] && delegations.Contents() == []
      ensures fresh(delegations) && fresh(delegations.chain) && fresh(delegations.stub)
    {
      delegations := new Mpsc.Queue();
      counter, inDelegator, ran := 0, false, [];
    }

    /** Each queued closure has its ticket. */
    ghost predicate Valid()
      reads this, delegations, delegations.chain
    {
      delegations.Valid() && counter == |delegations.Contents()|
    }

    /** The body of a closure. */
    method Run(c: int)
      modifies this`ran
      ensures ran == old(ran) + [c]
    {
      ran := ran + [c];
    }

    /** Every node of the chain was there before, or is the stub. */
    ghost predicate OldNodes(before: seq<Mpsc.Node>)
      reads delegations
    {
      forall n :: n in delegations.chain ==> n in before || n == delegations.stub
    }

    /** The spin on `pop`, and the closure it finds. */
    method DoDelegation() returns (c: int)
      requires delegations.Valid() && delegations.Contents() != []
      modifies this`ran, delegations, delegations.head, delegations.stub
      ensures delegations.Valid() && old(delegations.Contents()) == [c] + delegations.Contents()
      ensures ran == old(ran) + [c] && OldNodes(old(delegations.chain))
    {
      var r := Mpsc.Null;
      while r.Null?
        invariant delegations.Valid() && ran == old(ran) && OldNodes(old(delegations.chain))
        invariant r.Null? ==>
          delegations.Contents() == old(delegations.Contents()) && delegations.head == old(delegations.head)
        invariant r.Got? ==> old(delegations.Contents()) == [r.value] + delegations.Contents()
        decreases if r.Null? then 1 else 0
      {
        r := delegations.Pop();
      }
      c := r.value;
      Run(c);
    }

    /** Inside the delegator the closure runs at once.  Outside, ticket zero runs everything queued before it and
        then the closure itself; with any other ticket the closure is left to the thread that combines. */
    method Delegate(c: int)
      requires Valid()
      modifies this, delegations, delegations.chain, delegations.stub
      ensures Valid() && inDelegator == old(inDelegator)
      ensures old(inDelegator) ==>
        ran == old(ran) + [c] && counter == old(counter) && delegations.Contents() == old(delegations.Contents())
      ensures !old(inDelegator) && old(counter) == 0 ==>
        ran == old(ran) + old(delegations.Contents()) + [c] && counter == 0 && delegations.Contents() == []
      ensures !old(inDelegator) && old(counter) != 0 ==>
        ran == old(ran) && counter == old(counter) + 1 && delegations.Contents() == old(delegations.Contents()) + [c]
    {
      if inDelegator {
        Run(c);
        return;
      }
      delegations.Push(c);
      var ticket := counter;
      counter := counter + 1;
      if ticket == 0 {
        inDelegator := true;
        Combine();
        inDelegator := false;
      }
    }

    /** One turn of the loop. */
    method Turn()
      requires Valid() && counter > 0
      modifies this`counter, this`ran, delegations, delegations.head, delegations.stub
      ensures Valid() && counter == old(counter) - 1 && OldNodes(old(delegations.chain))
      ensures ran + delegations.Contents() == old(ran) + old(delegations.Contents())
    {
      ghost var before := ran;
      var c := DoDelegation();
      Shift(before, c, delegations.Contents());
      counter := counter - 1;
    }

    static lemma Shift(xs: seq<int>, x: int, ys: seq<int>)
      ensures (xs + [x]) + ys == xs + ([x] + ys)
    {
    }

    /** The do-while loop. */
    method Combine()
      requires Valid() && counter > 0
      modifies this`counter, this`ran, delegations, delegations.chain, delegations.stub
      ensures Valid() && counter == 0
      ensures ran == old(ran) + old(delegations.Contents())
    {
      ghost var nodes, goal := delegations.chain, ran + delegations.Contents();
      var more := true;
      while more
        invariant Valid() && (more <==> counter > 0) && OldNodes(nodes)
        invariant ran + delegations.Contents() == goal
        decreases counter
      {
        assert delegations.head in delegations.chain;
        Turn();
        more := counter != 0;
      }
      assert delegations.Contents() == [];
    }
  }
}
