/** Where stolen tasks go: from the end of the victim's external list, in one StolenMessage, to a thread of the node
    that asked, and nowhere else on the way. */
module Stealing {
  import opened Tasks
  import opened TaskSafety
  import opened Schedulers

  /** Node i is as it was. */
  ghost predicate SameNode(s: State, s': State, i: nat) {
    i < |s.nodes| == |s'.nodes| && s'.nodes[i] == s.nodes[i]
  }

  // ---------------------------------------------------------------- the two steps

  /** How many tasks a thief gets. */
  ghost function Loot(external: seq<Task>, amount: nat): nat {
    if amount <= |external| then amount else |external|
  }

  /** A steal message takes the last tasks of the victim's external list, last ones first, and sends them to the thief
      in one message, even when there are none; nothing else changes. */
  lemma StealTakesFromTheEnd(c: Config, s: State, i: nat, thief: nat, amount: nat)
    requires !s.negative
    ensures var s' := Step(c, s, Steal(i, thief, amount));
      if i < |s.nodes| && thief < |s.nodes| then
        var external := s.nodes[i].external;
        var k := Loot(external, amount);
        && |s'.nodes| == |s.nodes| && s'.nodes[i] == s.nodes[i].(external := external[..|external| - k])
        && s'.net == s.net + [Mail(thief, LastFirst(external, k))]
        && (forall x :: 0 <= x < |s.nodes| && x != i ==> SameNode(s, s', x))
        && s'.given == s.given && s'.frames == s.frames && s'.tdecs == s.tdecs
      else s' == s
  {
    if i < |s.nodes| && thief < |s.nodes| {
      var external := s.nodes[i].external;
      LootIsTheTail(external, amount);
      assert StealTasks(external, amount).0 == LastFirst(external, Loot(external, amount));
    }
  }

  /** What thread j is giving and has yet to give. */
  ghost function ToGive(th: Thread): seq<Task> {
    (if th.call.NoCall? then [] else [th.call.t]) + th.buffer
  }

  /** The loot of message k has gone to thread j of the node that the message is addressed to, in order: each task
      occurs there as much more often as it is in the message, every other node is as it was, and the message is
      gone. */
  ghost predicate Received(s: State, s': State, k: nat, j: nat)
    requires k < |s.net| && s.net[k].to < |s.nodes|
  {
    var m := s.net[k];
    && |s'.nodes| == |s.nodes| && j < |s'.nodes[m.to].threads| && ToGive(s'.nodes[m.to].threads[j]) == m.tasks
    && s'.net == s.net[..k] + s.net[k + 1..]
    && (forall t :: Occ(s'.nodes[m.to], t) == Occ(s.nodes[m.to], t) + In(m.tasks, t))
    && (forall x :: 0 <= x < |s.nodes| && x != m.to ==> SameNode(s, s', x))
    && s'.given == s.given && s'.frames == s.frames && s'.tdecs == s.tdecs
  }

  /** A thread of the thief takes the loot when it is free, and otherwise nothing happens. */
  lemma LootGoesToThief(c: Config, s: State, k: nat, j: nat)
    requires !s.negative && k < |s.net|
    ensures var s' := Step(c, s, TakeLoot(k, j));
      if Free(s, s.net[k].to, j) then Received(s, s', k, j) else s' == s
  {
    if Free(s, s.net[k].to, j) {
      var m, s' := s.net[k], Step(c, s, TakeLoot(k, j));
      var n := s.nodes[m.to];
      forall t ensures Occ(s'.nodes[m.to], t) == Occ(n, t) + In(m.tasks, t) {
        ThreadSet(n.threads, j, Thread(NoCall, m.tasks), t);
      }
    }
  }

  // ---------------------------------------------------------------- on the way

  /** A message to the thief holds t. */
  ghost predicate Carries(m: Mail, t: Task, thief: nat) { m.to == thief && t in m.tasks }

  /** The task is in a message to the thief, and at no node. */
  ghost predicate OnItsWay(s: State, t: Task, thief: nat) {
    && (exists m :: m in s.net && Carries(m, t, thief))
    && forall i :: 0 <= i < |s.nodes| ==> Occ(s.nodes[i], t) == 0
  }

  lemma {:induction false} NetAtLeast(net: seq<Mail>, m: Mail, t: Task)
    requires m in net
    ensures In(m.tasks, t) <= NetOcc(net, t)
  {
    if m != net[|net| - 1] {
      assert net == net[..|net| - 1] + [net[|net| - 1]];
      NetAtLeast(net[..|net| - 1], m, t);
    }
  }

  /** There is only one of it. */
  lemma NowhereElse(c: Config, s: State, m: Mail, t: Task, thief: nat)
    requires Inv(c, s) && m in s.net && Carries(m, t, thief)
    ensures OnItsWay(s, t, thief)
  {
    GivenOnce(c, s, t);
    NetAtLeast(s.net, m, t);
    assert NodesOcc(s.nodes, t) + NetOcc(s.net, t) == s.given[t];
    forall i | 0 <= i < |s.nodes| ensures Occ(s.nodes[i], t) == 0 { NodesAtLeast(s.nodes, i, t); }
  }

  /** The choice takes the loot of this message. */
  ghost predicate Takes(s: State, ch: Choice, m: Mail) {
    ch.TakeLoot? && !s.negative && ch.k < |s.net| && s.net[ch.k] == m && Free(s, m.to, ch.j)
  }

  /** A message stays until its loot is taken. */
  lemma MailStays(c: Config, s: State, ch: Choice, m: Mail)
    requires m in s.net && !Takes(s, ch, m)
    ensures m in Step(c, s, ch).net
  {
    if ch.TakeLoot? && ch.k < |s.net| {
      assert s.net == s.net[..ch.k] + [s.net[ch.k]] + s.net[ch.k + 1..];
    }
  }

  ghost predicate AtThief(s: State, t: Task, thief: nat) {
    thief < |s.nodes| && Occ(s.nodes[thief], t) == 1 && NodesOcc(s.nodes, t) + NetOcc(s.net, t) == 1
  }

  lemma ComesToThief(c: Config, s: State, ch: Choice, m: Mail, t: Task)
    requires Takes(s, ch, m) && t in m.tasks
    ensures var s' := Step(c, s, ch); m.to < |s'.nodes| && Occ(s'.nodes[m.to], t) >= 1
  {
    LootGoesToThief(c, s, ch.k, ch.j);
  }

  lemma OnlyThere(c: Config, s: State, t: Task, thief: nat)
    requires Inv(c, s) && thief < |s.nodes| && Occ(s.nodes[thief], t) >= 1
    ensures AtThief(s, t, thief)
  {
    GivenOnce(c, s, t);
    NodesAtLeast(s.nodes, thief, t);
    assert NodesOcc(s.nodes, t) + NetOcc(s.net, t) == s.given[t];
  }

  /** A step leaves the task on its way, or brings it to the thief. */
  lemma StaysOrArrives(c: Config, s: State, ch: Choice, s': State, t: Task, thief: nat)
    requires s' == Step(c, s, ch) && Inv(c, s') && OnItsWay(s, t, thief)
    ensures OnItsWay(s', t, thief) || AtThief(s', t, thief)
  {
    var m :| m in s.net && Carries(m, t, thief);
    if Takes(s, ch, m) {
      ComesToThief(c, s, ch, m, t);
      OnlyThere(c, s', t, thief);
    } else {
      MailStays(c, s, ch, m);
      NowhereElse(c, s', m, t, thief);
    }
  }

  /** At the end of the run, t is among the last tasks of node i's external list, those that the thief would get. */
  ghost predicate WouldSteal(s: State, i: nat, thief: nat, amount: nat, t: Task) {
    && !s.negative && i < |s.nodes| && thief < |s.nodes|
    && t in s.nodes[i].external[|s.nodes[i].external| - Loot(s.nodes[i].external, amount)..]
  }

  lemma LastFirstHas(external: seq<Task>, k: nat, t: Task)
    requires k <= |external| && t in external[|external| - k..]
    ensures t in LastFirst(external, k)
  {
    var e :| 0 <= e < k && external[|external| - k..][e] == t;
    assert LastFirst(external, k)[k - 1 - e] == t;
  }

  lemma StolenIsOnItsWay(c: Config, s: State, i: nat, thief: nat, amount: nat, s': State, t: Task)
    requires WouldSteal(s, i, thief, amount, t) && s' == Step(c, s, Steal(i, thief, amount)) && Inv(c, s')
    ensures OnItsWay(s', t, thief)
  {
    var external := s.nodes[i].external;
    var loot := LastFirst(external, Loot(external, amount));
    StealTakesFromTheEnd(c, s, i, thief, amount);
    LastFirstHas(external, Loot(external, amount), t);
    assert s'.net[|s.net|] == Mail(thief, loot);
    NowhereElse(c, s', Mail(thief, loot), t, thief);
  }

  /** The states from s on. */
  ghost function Trace(c: Config, s: State, more: seq<Choice>): (r: seq<State>)
    ensures |r| == |more| + 1
  {
    if more == [] then [s]
    else
      var before := Trace(c, s, more[..|more| - 1]);
      before + [Step(c, before[|more| - 1], more[|more| - 1])]
  }

  lemma JoinedLast(run: seq<Choice>, more: seq<Choice>)
    requires more != []
    ensures var all, m := run + more, |more| - 1; all[..|all| - 1] == run + more[..m] && all[|all| - 1] == more[m]
  {
  }

  lemma AfterLast(c: Config, all: seq<Choice>, before: seq<Choice>, ch: Choice)
    requires all != [] && all[..|all| - 1] == before && all[|all| - 1] == ch
    ensures After(c, all) == Step(c, After(c, before), ch)
  {
  }

  lemma {:induction false} TraceEnds(c: Config, run: seq<Choice>, more: seq<Choice>)
    ensures Trace(c, After(c, run), more)[|more|] == After(c, run + more)
    decreases |more|
  {
    if more == [] {
      assert run + more == run;
    } else {
      TraceEnds(c, run, more[..|more| - 1]);
      JoinedLast(run, more);
      AfterLast(c, run + more, run + more[..|more| - 1], more[|more| - 1]);
    }
  }

  lemma {:induction false} TraceStarts(c: Config, s: State, more: seq<Choice>, p: nat)
    requires p <= |more|
    ensures Trace(c, s, more)[p] == Trace(c, s, more[..p])[p]
    decreases |more|
  {
    if p == |more| {
      assert more[..p] == more;
    } else {
      TraceStarts(c, s, more[..|more| - 1], p);
      assert more[..|more| - 1][..p] == more[..p];
    }
  }

  /** They are the states of the longer runs. */
  lemma TraceIsRun(c: Config, run: seq<Choice>, more: seq<Choice>, p: nat)
    requires p <= |more|
    ensures Trace(c, After(c, run), more)[p] == After(c, run + more[..p])
  {
    TraceStarts(c, After(c, run), more, p);
    TraceEnds(c, run, more[..p]);
  }

  /** The task is on its way in the first q states after the first, and in the next one, if there is one, at the
      thief. */
  ghost predicate ArrivesAfter(states: seq<State>, t: Task, thief: nat, q: nat) {
    && q < |states|
    && (forall p :: 0 <= p <= q ==> OnItsWay(states[p], t, thief))
    && (q + 1 < |states| ==> AtThief(states[q + 1], t, thief))
  }

  lemma OneLater(states: seq<State>, s: State, t: Task, thief: nat, q0: nat) returns (q: nat)
    requires ArrivesAfter(states, t, thief, q0)
    requires q0 == |states| - 1 ==> OnItsWay(s, t, thief) || AtThief(s, t, thief)
    ensures ArrivesAfter(states + [s], t, thief, q)
  {
    q := if q0 == |states| - 1 && OnItsWay(s, t, thief) then |states| else q0;
    forall p | 0 <= p <= q ensures OnItsWay((states + [s])[p], t, thief) {
      if p < |states| { assert OnItsWay(states[p], t, thief); }
    }
  }

  lemma StepSafe(c: Config, s: State, ch: Choice)
    requires Inv(c, s)
    ensures Inv(c, Step(c, s, ch))
  {
    if !s.negative { StepKeeps(c, s, ch); }
  }

  lemma {:induction false} OnItsWayUntilThere(c: Config, s: State, more: seq<Choice>, t: Task, thief: nat)
      returns (q: nat)
    requires Inv(c, s) && OnItsWay(s, t, thief)
    ensures ArrivesAfter(Trace(c, s, more), t, thief, q) && Inv(c, Trace(c, s, more)[|more|])
    decreases |more|
  {
    if more == [] {
      return 0;
    }
    var m := |more| - 1;
    var states := Trace(c, s, more[..m]);
    q := OnItsWayUntilThere(c, s, more[..m], t, thief);
    var s1 := Step(c, states[m], more[m]);
    StepSafe(c, states[m], more[m]);
    if q == m { StaysOrArrives(c, states[m], more[m], s1, t, thief); }
    q := OneLater(states, s1, t, thief, q);
  }

  /** In every run, whatever happens after a steal: a stolen task is in a message to the thief, and at no node, until it
      is at the thief and nowhere else. */
  lemma StolenReachesOnlyThief(
    c: Config, run: seq<Choice>, i: nat, thief: nat, amount: nat, t: Task, more: seq<Choice>) returns (q: nat)
    requires c.threads > 0 && WouldSteal(After(c, run), i, thief, amount, t)
    ensures ArrivesAfter(Trace(c, After(c, run + [Steal(i, thief, amount)]), more), t, thief, q)
  {
    var longer := run + [Steal(i, thief, amount)];
    assert longer[..|run|] == run;
    Safe(c, longer);
    StolenIsOnItsWay(c, After(c, run), i, thief, amount, After(c, longer), t);
    q := OnItsWayUntilThere(c, After(c, longer), more, t, thief);
  }

  // ---------------------------------------------------------------- giving the loot

  /** A node that takes back its own external tasks gives the last ones to a free thread, last ones first, as a thief
      would get them, and keeps the others in order. */
  lemma OwnLoot(n: Node, j: nat, amount: nat)
    requires j < |n.threads| && n.threads[j] == Thread(NoCall, [])
    ensures var k := Loot(n.external, amount); var n' := StealFromSelf(n, j, amount);
      && |n'.threads| == |n.threads| && ToGive(n'.threads[j]) == LastFirst(n.external, k)
      && n' == n.(external := n.external[..|n.external| - k], threads := n.threads[j := n'.threads[j]])
  {
    LootIsTheTail(n.external, amount);
    assert StealTasks(n.external, amount).0 == LastFirst(n.external, Loot(n.external, amount));
  }

  /** A thread gives its tasks in order: a step leaves what it has to give, or takes off the first, which is then the
      newest of the admitted or the newest of the refused. */
  lemma GivesInOrder(n: Node, j: nat, threshold: int)
    requires j < |n.threads|
    ensures var n' := ThreadStep(n, j, threshold);
      |n'.threads| == |n.threads| &&
      var before, after := ToGive(n.threads[j]), ToGive(n'.threads[j]);
      || (after == before && n'.admitted == n.admitted && n'.refused == n.refused)
      || (before != [] && after == before[1..]
          && ((n'.admitted == n.admitted + [before[0]] && n'.refused == n.refused)
              || (n'.refused == n.refused + [before[0]] && n'.admitted == n.admitted)))
  {
    var th := n.threads[j];
    if th.call.NoCall? && th.buffer != [] { assert th.buffer == [th.buffer[0]] + th.buffer[1..]; }
  }
}
