/** `Closure` of `src/delegator.hpp` and `TaskMapper` of `src/mappable_event.hpp`: counted closures that wait under
    keys, and run when the last event they wait for is signalled.  The event map is an ordered collection: closures
    under one key are signalled in the order they were registered.  Registration from inside a signal (the `busy`
    path) is not modelled. */
module EventMaps {

  class Closure {
    var sc: int
    /** How often the body has run. */
    var runs: nat

    constructor (sc: int)
      ensures this.sc == sc && runs == 0
    {
      this.sc, runs := sc, 0;
    }

    method Run()
      modifies this`runs
      ensures runs == old(runs) + 1
    {
      runs := runs + 1;
    }

    /** The body runs exactly when the counter comes to zero. */
    method TDec()
      modifies this
      ensures sc == old(sc) - 1 && runs == old(runs) + (if old(sc) == 1 then 1 else 0)
    {
      sc := sc - 1;
      if sc == 0 { Run(); }
    }
  }

  function Times(cs: seq<Closure>, c: Closure): nat { multiset(cs)[c] }

  /** The body runs once if the events signalled include the last one waited for. */
  function RunsAfter(sc: int, times: nat): nat { if 0 < sc <= times then 1 else 0 }

  lemma OneMore(cs: seq<Closure>, i: nat, c: Closure)
    requires i < |cs|
    ensures Times(cs[..i + 1], c) == Times(cs[..i], c) + (if cs[i] == c then 1 else 0)
  {
    assert cs[..i + 1] == cs[..i] + [cs[i]];
  }

  /** The closures whose last event is among these, in the order in which their bodies run: each when its own count of
      occurrences reaches what it was waiting for. */
  ghost function RunOrder(cs: seq<Closure>, sc: map<Closure, int>): seq<Closure> {
    if cs == [] then []
    else
      var c := cs[|cs| - 1];
      RunOrder(cs[..|cs| - 1], sc) + (if c in sc && sc[c] == Times(cs, c) then [c] else [])
  }

  /** What each closure waits for. */
  ghost function Counters(cs: seq<Closure>): map<Closure, int>
    reads cs
  {
    map c: Closure | c in cs :: c.sc
  }

  lemma RunsNext(cs: seq<Closure>, i: nat, sc: map<Closure, int>)
    requires i < |cs|
    ensures RunOrder(cs[..i + 1], sc) ==
      RunOrder(cs[..i], sc) + (if cs[i] in sc && sc[cs[i]] == Times(cs[..i + 1], cs[i]) then [cs[i]] else [])
  {
    assert cs[..i + 1][..i] == cs[..i];
  }

  class TaskMapper<Key(==, !new)> {
    /** The closures registered under each key, in registration order. */
    var events: map<Key, seq<Closure>>
    /** The closures whose bodies `signal_evt` has run, in order. */
    ghost var ran: seq<Closure>

    constructor ()
      ensures events == map[] && ran == []
    {
      events, ran := map[], [];
    }

    function Under(k: Key): seq<Closure>
      reads this
    {
      if k in events then events[k] else []
    }

    method RegisterEvt(k: Key, t: Closure)
      modifies this`events
      ensures Under(k) == old(Under(k)) + [t] && events == old(events)[k := old(Under(k)) + [t]]
    {
      events := events[k := Under(k) + [t]];
    }

    /** The loop: every closure counts one event for each of its occurrences, and those whose last event this was run,
        in order. */
    method TDecEach(cs: seq<Closure>) returns (ghost fired: seq<Closure>)
      modifies cs
      ensures fired == RunOrder(cs, old(Counters(cs)))
      ensures forall c :: c in cs ==>
        && c.sc == old(c.sc) - Times(cs, c) && c.runs == old(c.runs) + RunsAfter(old(c.sc), Times(cs, c))
    {
      ghost var sc := Counters(cs);
      var i := 0;
      fired := [];
      while i < |cs|
        invariant 0 <= i <= |cs| && fired == RunOrder(cs[..i], sc)
        invariant forall c :: c in cs ==> c.sc == old(c.sc) - Times(cs[..i], c)
        invariant forall c :: c in cs ==> c.runs == old(c.runs) + RunsAfter(old(c.sc), Times(cs[..i], c))
      {
        forall c | c in cs ensures Times(cs[..i + 1], c) == Times(cs[..i], c) + (if cs[i] == c then 1 else 0) {
          OneMore(cs, i, c);
        }
        RunsNext(cs, i, sc);
        cs[i].TDec();
        fired := if cs[i].sc == 0 then fired + [cs[i]] else fired;
        i := i + 1;
      }
      assert cs[..i] == cs;
    }

    /** Every closure under k counts one event for each time it is registered there, and runs if that was its
        last, in registration order; then the key is empty and every other key is as before. */
    method SignalEvt(k: Key)
      modifies this, Under(k)
      ensures events == old(events) - {k}
      ensures ran == old(ran) + RunOrder(old(Under(k)), old(Counters(Under(k))))
      ensures forall c :: c in old(Under(k)) ==>
        && c.sc == old(c.sc) - Times(old(Under(k)), c)
        && c.runs == old(c.runs) + RunsAfter(old(c.sc), Times(old(Under(k)), c))
    {
      ghost var fired := TDecEach(Under(k));
      ran := ran + fired;
      events := events - {k};
    }
  }
}
