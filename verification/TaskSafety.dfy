/** Every run of `Tasks`: each frame is given to `schedule_global` once, no task is ever lost or doubled, the two task
    counters count what they are named for, and a node never admits more than its threshold and its threads. */
module TaskSafety {
  import opened Tasks

  // ---------------------------------------------------------------- counting a task

  function In(xs: seq<Task>, t: Task): nat { multiset(xs)[t] }

  function CallOcc(c: Call, t: Task): nat { if !c.NoCall? && c.t == t then 1 else 0 }

  function ThreadOcc(ths: seq<Thread>, t: Task): nat {
    if ths == [] then 0
    else ThreadOcc(ths[..|ths| - 1], t) + CallOcc(ths[|ths| - 1].call, t) + In(ths[|ths| - 1].buffer, t)
  }

  /** Threads that have passed the check but not yet incremented the count, and those that have just done so. */
  function Admits(ths: seq<Thread>): nat {
    if ths == [] then 0 else Admits(ths[..|ths| - 1]) + (if ths[|ths| - 1].call.Admitting? then 1 else 0)
  }

  function Posts(ths: seq<Thread>): nat {
    if ths == [] then 0 else Posts(ths[..|ths| - 1]) + (if ths[|ths| - 1].call.Posting? then 1 else 0)
  }

  /** How often a task occurs at a node: waiting to be prepared, preparing, queued, running, done, or in between. */
  function Occ(n: Node, t: Task): nat {
    In(n.external, t) + In(n.refused, t) + In(n.admitted, t) + In(n.waitingPage, t) + (if t in n.awaiting then 1 else 0)
    + In(n.inner, t) + In(n.dropped, t) + In(n.running, t) + In(n.ending, t) + In(n.done, t) + ThreadOcc(n.threads, t)
  }

  function NodesOcc(nodes: seq<Node>, t: Task): nat {
    if nodes == [] then 0 else NodesOcc(nodes[..|nodes| - 1], t) + Occ(nodes[|nodes| - 1], t)
  }

  function NetOcc(net: seq<Mail>, t: Task): nat {
    if net == [] then 0 else NetOcc(net[..|net| - 1], t) + In(net[|net| - 1].tasks, t)
  }

  lemma InPush(xs: seq<Task>, x: Task, t: Task)
    ensures In(xs + [x], t) == In(xs, t) + (if x == t then 1 else 0)
    ensures In([x] + xs, t) == In(xs, t) + (if x == t then 1 else 0)
  {
  }

  lemma InWithout(xs: seq<Task>, k: nat, t: Task)
    requires k < |xs|
    ensures In(Without(xs, k), t) == In(xs, t) - (if xs[k] == t then 1 else 0)
  {
    assert xs == xs[..k] + [xs[k]] + xs[k + 1..];
  }

  lemma {:induction false} ThreadSet(ths: seq<Thread>, j: nat, x: Thread, t: Task)
    requires j < |ths|
    ensures ThreadOcc(ths[j := x], t) ==
      ThreadOcc(ths, t) - CallOcc(ths[j].call, t) - In(ths[j].buffer, t) + CallOcc(x.call, t) + In(x.buffer, t)
  {
    var n := |ths| - 1;
    if j < n {
      assert ths[j := x][..n] == ths[..n][j := x];
      ThreadSet(ths[..n], j, x, t);
    } else {
      assert ths[j := x][..n] == ths[..n];
    }
  }

  lemma {:induction false} CallsSet(ths: seq<Thread>, j: nat, x: Thread)
    requires j < |ths|
    ensures Admits(ths[j := x]) ==
      Admits(ths) - (if ths[j].call.Admitting? then 1 else 0) + (if x.call.Admitting? then 1 else 0)
    ensures Posts(ths[j := x]) ==
      Posts(ths) - (if ths[j].call.Posting? then 1 else 0) + (if x.call.Posting? then 1 else 0)
  {
    var n := |ths| - 1;
    if j < n {
      assert ths[j := x][..n] == ths[..n][j := x];
      CallsSet(ths[..n], j, x);
    } else {
      assert ths[j := x][..n] == ths[..n];
    }
  }

  lemma {:induction false} AdmitsBound(ths: seq<Thread>)
    ensures Admits(ths) <= |ths|
  {
    if ths != [] { AdmitsBound(ths[..|ths| - 1]); }
  }

  lemma {:induction false} NodesSet(nodes: seq<Node>, i: nat, n: Node, t: Task)
    requires i < |nodes|
    ensures NodesOcc(nodes[i := n], t) == NodesOcc(nodes, t) - Occ(nodes[i], t) + Occ(n, t)
  {
    var m := |nodes| - 1;
    if i < m {
      assert nodes[i := n][..m] == nodes[..m][i := n];
      NodesSet(nodes[..m], i, n, t);
    } else {
      assert nodes[i := n][..m] == nodes[..m];
    }
  }

  lemma {:induction false} NodesAtLeast(nodes: seq<Node>, i: nat, t: Task)
    requires i < |nodes|
    ensures Occ(nodes[i], t) <= NodesOcc(nodes, t)
  {
    if i < |nodes| - 1 { NodesAtLeast(nodes[..|nodes| - 1], i, t); }
  }

  lemma NetPush(net: seq<Mail>, m: Mail, t: Task)
    ensures NetOcc(net + [m], t) == NetOcc(net, t) + In(m.tasks, t)
  {
    assert (net + [m])[..|net|] == net;
  }

  lemma {:induction false} NetWithout(net: seq<Mail>, k: nat, t: Task)
    requires k < |net|
    ensures NetOcc(Without(net, k), t) == NetOcc(net, t) - In(net[k].tasks, t)
  {
    var n := |net| - 1;
    if k < n {
      assert Without(net, k) == Without(net[..n], k) + [net[n]];
      NetPush(Without(net[..n], k), net[n], t);
      NetWithout(net[..n], k, t);
    } else {
      assert Without(net, k) == net[..n];
    }
  }

  // ---------------------------------------------------------------- one node

  function RegTasks(regs: seq<Reg>): seq<Task> {
    if regs == [] then [] else RegTasks(regs[..|regs| - 1]) + [regs[|regs| - 1].task]
  }

  /** A task that awaits pages has a closure whose counter is the number of its registrations. */
  ghost predicate AwaitOk(n: Node, pending: seq<Task>) {
    forall t :: AwaitAt(n, pending, t)
  }

  ghost predicate AwaitAt(n: Node, pending: seq<Task>, t: Task) {
    var k := In(RegTasks(n.regs), t) + In(pending, t);
    (t in n.awaiting <==> k > 0) && (t in n.awaiting ==> n.awaiting[t] == k)
  }

  /** The first counter counts the tasks being prepared, queued and running; the second those queued and running.
      A task that the deque drops is counted for ever. */
  ghost predicate Counts(n: Node) {
    && n.prep == |n.admitted| + |n.waitingPage| + |n.awaiting| + |n.inner| + |n.dropped|
         + |n.running| + Posts(n.threads)
    && n.omp == |n.inner| + |n.dropped| + |n.running| + |n.ending|
  }

  ghost predicate Bounded(c: Config, n: Node) {
    |n.threads| == c.threads && n.prep + Admits(n.threads) <= c.threshold + c.threads
  }

  ghost predicate NodeOk(c: Config, n: Node) {
    AwaitOk(n, []) && Counts(n) && Bounded(c, n) && (c.exact ==> n.dropped == [])
  }

  ghost predicate AtMostOnce(n: Node) { forall t :: Occ(n, t) <= 1 }

  /** A step that only moves tasks about. */
  ghost predicate Moves(n: Node, n': Node) { forall t :: Occ(n', t) == Occ(n, t) }

  /** A step of one node keeps its invariant and only moves tasks about. */
  ghost predicate Kept(c: Config, n: Node, n': Node) { NodeOk(c, n') && Moves(n, n') }

  lemma {:induction false} StealCounts(external: seq<Task>, amount: nat, t: Task)
    ensures var r := StealTasks(external, amount); In(r.0, t) + In(r.1, t) == In(external, t)
    decreases amount
  {
    if amount > 0 && external != [] {
      var m := |external| - 1;
      StealCounts(external[..m], amount - 1, t);
      assert external == external[..m] + [external[m]];
      InPush(external[..m], external[m], t);
      InPush(StealTasks(external[..m], amount - 1).0, external[m], t);
    }
  }

  // ---------------------------------------------------------------- preparation and arrival

  lemma RegTasksPush(regs: seq<Reg>, r: Reg)
    ensures RegTasks(regs + [r]) == RegTasks(regs) + [r.task]
  {
    assert (regs + [r])[..|regs|] == regs;
  }

  lemma {:induction false} RegistrationsCount(regs: seq<Reg>, wants: seq<Want>, t: Task, x: Task)
    ensures In(RegTasks(regs + Registrations(wants, t)), x) == In(RegTasks(regs), x) + (if x == t then |wants| else 0)
    decreases |wants|
  {
    if wants == [] {
      assert regs + Registrations(wants, t) == regs;
    } else {
      var m := |wants| - 1;
      var all := Registrations(wants, t);
      assert all == Registrations(wants[..m], t) + [all[m]];
      assert regs + all == (regs + Registrations(wants[..m], t)) + [all[m]];
      RegistrationsCount(regs, wants[..m], t, x);
      RegTasksPush(regs + Registrations(wants[..m], t), all[m]);
      InPush(RegTasks(regs + Registrations(wants[..m], t)), t, x);
    }
  }

  /** The registrations under a key and the others are all of them. */
  lemma {:induction false} KeySplits(regs: seq<Reg>, w: Want, t: Task)
    ensures In(Under(regs, w), t) + In(RegTasks(Others(regs, w)), t) == In(RegTasks(regs), t)
    decreases |regs|
  {
    if regs != [] {
      KeySplits(regs[..|regs| - 1], w, t);
      KeySplitsLast(regs, w, t);
    }
  }

  /** What the last registration adds to each of the three counts. */
  lemma KeySplitsLast(regs: seq<Reg>, w: Want, t: Task)
    requires regs != []
    ensures var m := |regs| - 1; var here := regs[m].want == w; var one := if regs[m].task == t then 1 else 0;
      && In(RegTasks(regs), t) == In(RegTasks(regs[..m]), t) + one
      && In(Under(regs, w), t) == In(Under(regs[..m], w), t) + (if here then one else 0)
      && In(RegTasks(Others(regs, w)), t) == In(RegTasks(Others(regs[..m], w)), t) + (if here then 0 else one)
  {
    var m := |regs| - 1;
    InPush(RegTasks(regs[..m]), regs[m].task, t);
    if regs[m].want == w {
      InPush(Under(regs[..m], w), regs[m].task, t);
      assert Others(regs, w) == Others(regs[..m], w);
    } else {
      RegTasksPush(Others(regs[..m], w), regs[m]);
      InPush(RegTasks(Others(regs[..m], w)), regs[m].task, t);
      assert Under(regs, w) == Under(regs[..m], w);
    }
  }

  /** Taking one key out leaves the registrations under another. */
  lemma {:induction false} OtherKey(regs: seq<Reg>, w: Want, v: Want)
    requires v != w
    ensures Under(Others(regs, w), v) == Under(regs, v)
  {
    if regs != [] {
      var m := |regs| - 1;
      OtherKey(regs[..m], w, v);
      if regs[m].want == w {
        assert Others(regs, w) == Others(regs[..m], w);
      } else {
        assert Others(regs, w)[..|Others(regs[..m], w)|] == Others(regs[..m], w);
      }
    }
  }

  lemma SmallerMap(m: map<Task, nat>, t: Task)
    requires t in m
    ensures |m - {t}| == |m| - 1
  {
    assert (m - {t}).Keys == m.Keys - {t};
    assert |(m - {t}).Keys| == |m - {t}| && |m.Keys| == |m|;
  }

  lemma LargerMap(m: map<Task, nat>, t: Task, x: nat)
    ensures |m[t := x]| == |m| + (if t in m then 0 else 1)
  {
    assert m[t := x].Keys == m.Keys + {t};
    assert |m[t := x].Keys| == |m[t := x]| && |m.Keys| == |m|;
  }

  lemma InnerCounts(n: Node, t: Task, x: Task)
    ensures Occ(ScheduleInner(n, t), x) == Occ(n, x) + (if x == t then 1 else 0)
  {
    InPush(n.inner, t, x);
  }

  lemma PendingHead(n: Node, pending: seq<Task>, x: Task)
    requires pending != [] && AwaitOk(n, pending)
    ensures var t := pending[0]; var k := In(RegTasks(n.regs), x) + In(pending[1..], x) + (if x == t then 1 else 0);
      && t in n.awaiting && n.awaiting[t] > 0
      && (x in n.awaiting <==> k > 0) && (x in n.awaiting ==> n.awaiting[x] == k)
  {
    var t := pending[0];
    BufferShrinks(pending, x);
    BufferShrinks(pending, t);
    assert AwaitAt(n, pending, x) && AwaitAt(n, pending, t);
  }

  lemma ArrivedCounts(n: Node, t: Task)
    requires Counts(n) && t in n.awaiting && n.awaiting[t] > 0
    ensures Counts(Arrived(n, t)) && Moves(n, Arrived(n, t))
  {
    if n.awaiting[t] == 1 {
      SmallerMap(n.awaiting, t);
      forall x ensures Occ(Arrived(n, t), x) == Occ(n, x) { InnerCounts(n.(awaiting := n.awaiting - {t}), t, x); }
    } else {
      LargerMap(n.awaiting, t, n.awaiting[t] - 1);
    }
  }

  /** One event for a task that awaits it. */
  lemma ArrivedKeeps(n: Node, pending: seq<Task>)
    requires pending != [] && AwaitOk(n, pending) && Counts(n)
    ensures AwaitOk(Arrived(n, pending[0]), pending[1..]) && Counts(Arrived(n, pending[0]))
    ensures Moves(n, Arrived(n, pending[0])) && Arrived(n, pending[0]).regs == n.regs
    ensures Arrived(n, pending[0]).threads == n.threads && Arrived(n, pending[0]).prep == n.prep
    ensures Arrived(n, pending[0]).dropped == n.dropped
  {
    var t := pending[0];
    PendingHead(n, pending, t);
    ArrivedCounts(n, t);
    forall x ensures AwaitAt(Arrived(n, t), pending[1..], x) { PendingHead(n, pending, x); }
  }

  lemma {:induction false} ArrivedAllKeeps(n: Node, pending: seq<Task>)
    requires AwaitOk(n, pending) && Counts(n)
    ensures var n' := ArrivedAll(n, pending);
      && AwaitOk(n', []) && Counts(n') && Moves(n, n') && n'.threads == n.threads && n'.prep == n.prep
      && n'.regs == n.regs && n'.dropped == n.dropped
    decreases |pending|
  {
    if pending != [] {
      ArrivedKeeps(n, pending);
      ArrivedAllKeeps(Arrived(n, pending[0]), pending[1..]);
    }
  }

  lemma SignalKeeps(c: Config, n: Node, w: Want)
    requires NodeOk(c, n)
    ensures Kept(c, n, Signal(n, w)) && Signal(n, w).regs == Others(n.regs, w)
  {
    var n1 := n.(regs := Others(n.regs, w));
    forall t ensures AwaitAt(n1, Under(n.regs, w), t) && Occ(n1, t) == Occ(n, t) {
      KeySplits(n.regs, w, t);
      assert AwaitAt(n, [], t);
    }
    ArrivedAllKeeps(n1, Under(n.regs, w));
  }

  lemma RespArrivesKeeps(c: Config, n: Node, p: nat)
    requires NodeOk(c, n)
    ensures Kept(c, n, RespArrives(n, p))
  {
    SignalKeeps(c, n, Want(ForData, p));
    SignalKeeps(c, Signal(n, Want(ForData, p)), Want(ForWrite, p));
  }

  lemma PrepareAwait(n: Node, t: Task, available: bool, args: seq<Arg>)
    requires AwaitOk(n, []) && t !in n.awaiting
    ensures AwaitOk(Prepare(n, t, available, args), [])
  {
    forall x ensures AwaitAt(Prepare(n, t, available, args), [], x) {
      assert AwaitAt(n, [], x) && AwaitAt(n, [], t);
      RegistrationsCount(n.regs, Awaited(args), t, x);
    }
  }

  lemma PrepareCounts(c: Config, n: Node, t: Task, available: bool, args: seq<Arg>)
    requires Bounded(c, n) && Counts(n.(prep := n.prep - 1)) && t !in n.awaiting
    ensures Counts(Prepare(n, t, available, args)) && Bounded(c, Prepare(n, t, available, args))
    ensures Prepare(n, t, available, args).dropped == n.dropped
  {
    LargerMap(n.awaiting, t, |Awaited(args)|);
  }

  lemma PrepareMoves(n: Node, t: Task, available: bool, args: seq<Arg>, x: Task)
    requires t !in n.awaiting
    ensures Occ(Prepare(n, t, available, args), x) == Occ(n, x) + (if x == t then 1 else 0)
  {
    InPush(n.waitingPage, t, x);
    InnerCounts(n, t, x);
  }

  /** A task that has left one list is prepared: `prepare_ressources` puts it in exactly one other place. */
  lemma PrepareKeeps(c: Config, n: Node, t: Task, available: bool, args: seq<Arg>)
    requires AwaitOk(n, []) && Bounded(c, n) && Counts(n.(prep := n.prep - 1)) && t !in n.awaiting
    requires c.exact ==> n.dropped == []
    ensures NodeOk(c, Prepare(n, t, available, args))
    ensures forall x :: Occ(Prepare(n, t, available, args), x) == Occ(n, x) + (if x == t then 1 else 0)
  {
    PrepareAwait(n, t, available, args);
    PrepareCounts(c, n, t, available, args);
    forall x ensures Occ(Prepare(n, t, available, args), x) == Occ(n, x) + (if x == t then 1 else 0) {
      PrepareMoves(n, t, available, args, x);
    }
  }

  // ---------------------------------------------------------------- every step of one node

  lemma ThreadStepKeeps(c: Config, n: Node, j: nat)
    requires NodeOk(c, n)
    ensures Kept(c, n, ThreadStep(n, j, c.threshold))
  {
    if j < |n.threads| {
      var n' := ThreadStep(n, j, c.threshold);
      ThreadCounts(c, n, j);
      AwaitFrame(n, n');
      ThreadMovesAll(n, j, c.threshold);
    }
  }

  lemma AwaitFrame(n: Node, n': Node)
    requires AwaitOk(n, []) && n'.awaiting == n.awaiting && n'.regs == n.regs
    ensures AwaitOk(n', [])
  {
    forall t ensures AwaitAt(n', [], t) { assert AwaitAt(n, [], t); }
  }

  lemma ThreadMovesAll(n: Node, j: nat, threshold: int)
    requires j < |n.threads|
    ensures Moves(n, ThreadStep(n, j, threshold))
  {
    forall t ensures Occ(ThreadStep(n, j, threshold), t) == Occ(n, t) { ThreadMoves(n, j, threshold, t); }
  }

  lemma ThreadCounts(c: Config, n: Node, j: nat)
    requires Counts(n) && Bounded(c, n) && j < |n.threads|
    ensures var n' := ThreadStep(n, j, c.threshold); Counts(n') && Bounded(c, n')
  {
    var n' := ThreadStep(n, j, c.threshold);
    var x := n'.threads[j];
    assert n'.threads == n.threads[j := x];
    CallsSet(n.threads, j, x);
    AdmitsBound(n'.threads);
  }

  /** Only a thread and the two lists of posted closures have changed. */
  lemma OccFrame(n: Node, n': Node, t: Task)
    requires n' == n.(prep := n'.prep, admitted := n'.admitted, refused := n'.refused, threads := n'.threads)
    requires In(n'.admitted, t) + In(n'.refused, t) + ThreadOcc(n'.threads, t) ==
      In(n.admitted, t) + In(n.refused, t) + ThreadOcc(n.threads, t)
    ensures Occ(n', t) == Occ(n, t)
  {
  }

  lemma CallBalance(n: Node, j: nat, threshold: int, t: Task)
    requires j < |n.threads|
    ensures var n' := ThreadStep(n, j, threshold); var x := n'.threads[j]; var th := n.threads[j];
      In(n'.admitted, t) + In(n'.refused, t) + CallOcc(x.call, t) + In(x.buffer, t) ==
      In(n.admitted, t) + In(n.refused, t) + CallOcc(th.call, t) + In(th.buffer, t)
  {
    var th := n.threads[j];
    if th.call.NoCall? && th.buffer != [] { BufferShrinks(th.buffer, t); }
    if th.call.Posting? { InPush(n.admitted, th.call.t, t); }
    if th.call.Refusing? { InPush(n.refused, th.call.t, t); }
  }

  lemma ThreadChanges(n: Node, j: nat, threshold: int)
    requires j < |n.threads|
    ensures var n' := ThreadStep(n, j, threshold);
      && |n'.threads| == |n.threads| && n'.threads == n.threads[j := n'.threads[j]]
      && n' == n.(prep := n'.prep, admitted := n'.admitted, refused := n'.refused, threads := n'.threads)
  {
  }

  lemma ThreadMoves(n: Node, j: nat, threshold: int, t: Task)
    requires j < |n.threads|
    ensures Occ(ThreadStep(n, j, threshold), t) == Occ(n, t)
  {
    ThreadChanges(n, j, threshold);
    CallBalance(n, j, threshold, t);
    Balanced(n, ThreadStep(n, j, threshold), j, t);
  }

  lemma Balanced(n: Node, n': Node, j: nat, t: Task)
    requires j < |n.threads| == |n'.threads| && n'.threads == n.threads[j := n'.threads[j]]
    requires n' == n.(prep := n'.prep, admitted := n'.admitted, refused := n'.refused, threads := n'.threads)
    requires var x, th := n'.threads[j], n.threads[j];
      In(n'.admitted, t) + In(n'.refused, t) + CallOcc(x.call, t) + In(x.buffer, t) ==
      In(n.admitted, t) + In(n.refused, t) + CallOcc(th.call, t) + In(th.buffer, t)
    ensures Occ(n', t) == Occ(n, t)
  {
    ThreadSet(n.threads, j, n'.threads[j], t);
    OccFrame(n, n', t);
  }

  lemma BufferShrinks(buffer: seq<Task>, t: Task)
    requires buffer != []
    ensures In(buffer, t) == In(buffer[1..], t) + (if buffer[0] == t then 1 else 0)
  {
    assert buffer == [buffer[0]] + buffer[1..];
  }

  lemma ExternalKeeps(c: Config, n: Node, k: nat)
    requires NodeOk(c, n)
    ensures Kept(c, n, GoExternal(n, k))
  {
    if k < |n.refused| {
      var n' := GoExternal(n, k);
      AwaitFrame(n, n');
      forall t ensures Occ(n', t) == Occ(n, t) {
        InWithout(n.refused, k, t);
        InPush(n.external, n.refused[k], t);
      }
    }
  }

  /** A task has left one of the lists of tasks to be prepared. */
  lemma LeftList(c: Config, n: Node, n1: Node, t: Task, available: bool, args: seq<Arg>)
    requires NodeOk(c, n) && n1.awaiting == n.awaiting && n1.regs == n.regs && t !in n.awaiting
    requires n1.threads == n.threads && n1.prep == n.prep && n1.dropped == n.dropped && Counts(n1.(prep := n.prep - 1))
    requires forall x :: Occ(n1, x) == Occ(n, x) - (if x == t then 1 else 0)
    ensures Kept(c, n, Prepare(n1, t, available, args))
  {
    AwaitFrame(n, n1);
    PrepareKeeps(c, n1, t, available, args);
    forall x ensures Occ(Prepare(n1, t, available, args), x) == Occ(n, x) {
      assert Occ(n1, x) == Occ(n, x) - (if x == t then 1 else 0);
    }
  }

  lemma NotAwaiting(n: Node, t: Task)
    requires AtMostOnce(n) && (In(n.admitted, t) > 0 || In(n.waitingPage, t) > 0)
    ensures t !in n.awaiting
  {
    assert Occ(n, t) <= 1;
  }

  lemma RunPrepareKeeps(c: Config, n: Node, k: nat, available: bool, args: seq<Arg>)
    requires NodeOk(c, n) && AtMostOnce(n)
    ensures Kept(c, n, GoPrepare(n, k, available, args))
  {
    if k < |n.admitted| {
      var t := n.admitted[k];
      var n1 := n.(admitted := Without(n.admitted, k));
      forall x ensures Occ(n1, x) == Occ(n, x) - (if x == t then 1 else 0) { InWithout(n.admitted, k, x); }
      assert t in multiset(n.admitted);
      NotAwaiting(n, t);
      LeftList(c, n, n1, t, available, args);
    }
  }

  lemma OwnPageKeeps(c: Config, n: Node, k: nat, available: bool, args: seq<Arg>)
    requires NodeOk(c, n) && AtMostOnce(n)
    ensures Kept(c, n, PrepareAgain(n, k, available, args))
  {
    if k < |n.waitingPage| {
      var t := n.waitingPage[k];
      var n1 := n.(waitingPage := Without(n.waitingPage, k));
      forall x ensures Occ(n1, x) == Occ(n, x) - (if x == t then 1 else 0) { InWithout(n.waitingPage, k, x); }
      assert t in multiset(n.waitingPage);
      NotAwaiting(n, t);
      LeftList(c, n, n1, t, available, args);
    }
  }

  lemma StartKeeps(c: Config, n: Node, k: nat)
    requires NodeOk(c, n)
    ensures Kept(c, n, StartTask(n, k))
  {
    if k < |n.inner| {
      var n' := StartTask(n, k);
      AwaitFrame(n, n');
      forall t ensures Occ(n', t) == Occ(n, t) {
        InWithout(n.inner, k, t);
        InPush(n.running, n.inner[k], t);
      }
    }
  }

  lemma DropKeeps(c: Config, n: Node, k: nat)
    requires NodeOk(c, n)
    ensures Kept(c, n, if c.exact then n else DropTask(n, k))
  {
    if k < |n.inner| && !c.exact {
      var n' := DropTask(n, k);
      AwaitFrame(n, n');
      forall t ensures Occ(n', t) == Occ(n, t) {
        InWithout(n.inner, k, t);
        InPush(n.dropped, n.inner[k], t);
      }
    }
  }

  lemma LeavePrepKeeps(c: Config, n: Node, k: nat)
    requires NodeOk(c, n)
    ensures Kept(c, n, LeaveFirst(n, k))
  {
    if k < |n.running| {
      var n' := LeaveFirst(n, k);
      AwaitFrame(n, n');
      forall t ensures Occ(n', t) == Occ(n, t) {
        InWithout(n.running, k, t);
        InPush(n.ending, n.running[k], t);
      }
    }
  }

  lemma LeaveOmpKeeps(c: Config, n: Node, k: nat)
    requires NodeOk(c, n)
    ensures Kept(c, n, LeaveSecond(n, k))
  {
    if k < |n.ending| {
      var n' := LeaveSecond(n, k);
      AwaitFrame(n, n');
      forall t ensures Occ(n', t) == Occ(n, t) {
        InWithout(n.ending, k, t);
        InPush(n.done, n.ending[k], t);
      }
    }
  }

  /** A free thread receives tasks to give. */
  lemma FillKeeps(c: Config, n: Node, n': Node, j: nat, ts: seq<Task>)
    requires NodeOk(c, n) && j < |n.threads| && n.threads[j] == Thread(NoCall, [])
    requires n' == n.(external := n'.external, threads := n.threads[j := Thread(NoCall, ts)])
    ensures NodeOk(c, n')
    ensures forall t :: Occ(n', t) == Occ(n, t) - In(n.external, t) + In(n'.external, t) + In(ts, t)
  {
    CallsSet(n.threads, j, Thread(NoCall, ts));
    forall t
      ensures AwaitAt(n', [], t) && Occ(n', t) == Occ(n, t) - In(n.external, t) + In(n'.external, t) + In(ts, t)
    {
      assert AwaitAt(n, [], t);
      ThreadSet(n.threads, j, Thread(NoCall, ts), t);
    }
  }

  lemma StealOwnKeeps(c: Config, n: Node, j: nat, amount: nat)
    requires NodeOk(c, n)
    ensures Kept(c, n, StealFromSelf(n, j, amount))
  {
    if j < |n.threads| && n.threads[j] == Thread(NoCall, []) {
      var n' := StealFromSelf(n, j, amount);
      FillKeeps(c, n, n', j, StealTasks(n.external, amount).0);
      forall t ensures Occ(n', t) == Occ(n, t) { StealCounts(n.external, amount, t); }
    }
  }

  predicate BeforeQueue(ch: Choice) {
    ch.Move? || ch.RunExternal? || ch.RunPrepare? || ch.OwnPageArrives? || ch.DataArrival? || ch.RespArrival?
  }

  lemma BeforeQueueIs(c: Config, n: Node, ch: Choice)
    ensures ch.Move? ==> NodeStep(c, n, ch) == ThreadStep(n, ch.j, c.threshold)
    ensures ch.RunExternal? ==> NodeStep(c, n, ch) == GoExternal(n, ch.k)
    ensures ch.RunPrepare? ==> NodeStep(c, n, ch) == GoPrepare(n, ch.k, ch.available, ch.args)
    ensures ch.OwnPageArrives? ==> NodeStep(c, n, ch) == PrepareAgain(n, ch.k, ch.available, ch.args)
    ensures ch.DataArrival? ==> NodeStep(c, n, ch) == Signal(n, Want(ForData, ch.p))
    ensures ch.RespArrival? ==> NodeStep(c, n, ch) == RespArrives(n, ch.p)
  {
  }

  lemma BeforeQueueKeeps(c: Config, n: Node, ch: Choice)
    requires NodeOk(c, n) && AtMostOnce(n) && BeforeQueue(ch)
    ensures Kept(c, n, NodeStep(c, n, ch))
  {
    BeforeQueueIs(c, n, ch);
    match ch
    case Move(_, j) => ThreadStepKeeps(c, n, j);
    case RunExternal(_, k) => ExternalKeeps(c, n, k);
    case RunPrepare(_, k, available, args) => RunPrepareKeeps(c, n, k, available, args);
    case OwnPageArrives(_, k, available, args) => OwnPageKeeps(c, n, k, available, args);
    case DataArrival(_, p) => SignalKeeps(c, n, Want(ForData, p));
    case RespArrival(_, p) => RespArrivesKeeps(c, n, p);
  }

  /** Which function a choice stands for. */
  lemma QueueStepIs(c: Config, n: Node, ch: Choice)
    ensures ch.Start? ==> NodeStep(c, n, ch) == StartTask(n, ch.k)
    ensures ch.Drop? ==> NodeStep(c, n, ch) == if c.exact then n else DropTask(n, ch.k)
    ensures ch.LeavePrep? ==> NodeStep(c, n, ch) == LeaveFirst(n, ch.k)
    ensures ch.LeaveOmp? ==> NodeStep(c, n, ch) == LeaveSecond(n, ch.k)
    ensures ch.StealOwn? ==> NodeStep(c, n, ch) == StealFromSelf(n, ch.j, ch.amount)
    ensures ch.Create? || ch.TDecHere? || ch.TDecAway? || ch.ApplyTDec? || ch.Steal? || ch.TakeLoot? ==>
      NodeStep(c, n, ch) == n
  {
  }

  lemma FromQueueKeeps(c: Config, n: Node, ch: Choice)
    requires NodeOk(c, n) && !BeforeQueue(ch)
    ensures Kept(c, n, NodeStep(c, n, ch))
  {
    QueueStepIs(c, n, ch);
    match ch
    case Start(_, k) => StartKeeps(c, n, k);
    case Drop(_, k) => DropKeeps(c, n, k);
    case LeavePrep(_, k) => LeavePrepKeeps(c, n, k);
    case LeaveOmp(_, k) => LeaveOmpKeeps(c, n, k);
    case StealOwn(_, j, amount) => StealOwnKeeps(c, n, j, amount);
    case _ =>
  }

  lemma NodeStepKeeps(c: Config, n: Node, ch: Choice)
    requires NodeOk(c, n) && AtMostOnce(n)
    ensures Kept(c, n, NodeStep(c, n, ch))
  {
    if BeforeQueue(ch) { BeforeQueueKeeps(c, n, ch); } else { FromQueueKeeps(c, n, ch); }
  }

  // ---------------------------------------------------------------- the system

  /** A frame's counter is what it began with less the tdecs applied; each tdec issued is applied or in flight. */
  ghost predicate FrameOk(s: State, f: nat)
    requires f in s.frames
  {
    var x := s.frames[f];
    && 0 <= x.applied && 0 <= x.initial && x.sc == x.initial - x.applied && x.issued == x.applied + s.tdecs[f]
    && s.given[Frame(f)] == (if 0 < x.initial <= x.applied then 1 else 0)
  }

  ghost predicate FramesOk(c: Config, s: State) {
    && (forall f :: f in s.frames ==> FrameOk(s, f))
    && (forall f: nat :: f !in s.frames ==> s.given[Frame(f)] == 0 && s.tdecs[f] == 0)
    && (forall i: nat :: s.given[Root(i)] == if i < c.numNodes then 1 else 0)
    && (!s.negative ==> forall f :: f in s.frames ==> s.frames[f].sc >= 0)
    && (s.negative ==> exists f :: f in s.frames && s.frames[f].sc < 0)
  }

  /** Every task given is somewhere, as often as it was given. */
  ghost predicate Conserved(s: State) {
    forall t :: NodesOcc(s.nodes, t) + NetOcc(s.net, t) == s.given[t]
  }

  ghost predicate Inv(c: Config, s: State) {
    && |s.nodes| == c.numNodes && Conserved(s) && FramesOk(c, s)
    && forall i :: 0 <= i < |s.nodes| ==> NodeOk(c, s.nodes[i])
  }

  lemma GivenOnce(c: Config, s: State, t: Task)
    requires FramesOk(c, s)
    ensures s.given[t] <= 1
  {
    match t
    case Root(i) =>
    case Frame(f) => assert f in s.frames ==> FrameOk(s, f);
  }

  lemma EveryNodeOnce(c: Config, s: State, i: nat)
    requires Inv(c, s) && i < |s.nodes|
    ensures AtMostOnce(s.nodes[i])
  {
    forall t ensures Occ(s.nodes[i], t) <= 1 {
      NodesAtLeast(s.nodes, i, t);
      GivenOnce(c, s, t);
      assert NodesOcc(s.nodes, t) + NetOcc(s.net, t) == s.given[t];
    }
  }

  lemma WithinNode(c: Config, s: State, i: nat, ch: Choice)
    requires Inv(c, s) && i < |s.nodes|
    ensures Inv(c, Put(s, i, NodeStep(c, s.nodes[i], ch)))
  {
    var n' := NodeStep(c, s.nodes[i], ch);
    EveryNodeOnce(c, s, i);
    NodeStepKeeps(c, s.nodes[i], ch);
    var s' := Put(s, i, n');
    forall t ensures NodesOcc(s'.nodes, t) + NetOcc(s'.net, t) == s'.given[t] {
      NodesSet(s.nodes, i, n', t);
      assert NodesOcc(s.nodes, t) + NetOcc(s.net, t) == s.given[t] && Occ(n', t) == Occ(s.nodes[i], t);
    }
    SameFrames(c, s, s');
  }

  lemma SameFrames(c: Config, s: State, s': State)
    requires FramesOk(c, s) && s'.frames == s.frames && s'.tdecs == s.tdecs && s'.given == s.given
      && s'.negative == s.negative
    ensures FramesOk(c, s')
  {
    forall f | f in s'.frames ensures FrameOk(s', f) { assert FrameOk(s, f); }
  }

  lemma SamePlaces(s: State, s': State)
    requires Conserved(s) && s'.nodes == s.nodes && s'.net == s.net && s'.given == s.given
    ensures Conserved(s')
  {
    forall t ensures NodesOcc(s'.nodes, t) + NetOcc(s'.net, t) == s'.given[t] {
      assert NodesOcc(s.nodes, t) + NetOcc(s.net, t) == s.given[t];
    }
  }

  lemma StealPlaces(s: State, i: nat, thief: nat, amount: nat, t: Task)
    requires i < |s.nodes| && Conserved(s)
    ensures var r := StealTasks(s.nodes[i].external, amount);
      NodesOcc(s.nodes[i := s.nodes[i].(external := r.1)], t) + NetOcc(s.net + [Mail(thief, r.0)], t) == s.given[t]
  {
    var r := StealTasks(s.nodes[i].external, amount);
    assert NodesOcc(s.nodes, t) + NetOcc(s.net, t) == s.given[t];
    NodesSet(s.nodes, i, s.nodes[i].(external := r.1), t);
    NetPush(s.net, Mail(thief, r.0), t);
    StealCounts(s.nodes[i].external, amount, t);
  }

  function Stolen(s: State, i: nat, thief: nat, amount: nat): State
    requires i < |s.nodes|
  {
    var r := StealTasks(s.nodes[i].external, amount);
    Put(s, i, s.nodes[i].(external := r.1)).(net := s.net + [Mail(thief, r.0)])
  }

  lemma StolenKeeps(c: Config, s: State, i: nat, thief: nat, amount: nat)
    requires Inv(c, s) && i < |s.nodes|
    ensures Inv(c, Stolen(s, i, thief, amount))
  {
    var s' := Stolen(s, i, thief, amount);
    forall t ensures NodesOcc(s'.nodes, t) + NetOcc(s'.net, t) == s'.given[t] { StealPlaces(s, i, thief, amount, t); }
    ExternalChanges(c, s.nodes[i], s'.nodes[i]);
    SameFrames(c, s, s');
  }

  lemma ExternalChanges(c: Config, n: Node, n': Node)
    requires NodeOk(c, n) && n' == n.(external := n'.external)
    ensures NodeOk(c, n')
  {
    AwaitFrame(n, n');
  }

  lemma StealKeeps(c: Config, s: State, i: nat, thief: nat, amount: nat)
    requires Inv(c, s) && !s.negative
    ensures Inv(c, Step(c, s, Steal(i, thief, amount)))
  {
    if i < |s.nodes| && thief < |s.nodes| {
      StepSteals(c, s, i, thief, amount);
      StolenKeeps(c, s, i, thief, amount);
    } else {
      assert Step(c, s, Steal(i, thief, amount)) == s;
    }
  }

  lemma StepSteals(c: Config, s: State, i: nat, thief: nat, amount: nat)
    requires !s.negative && i < |s.nodes| && thief < |s.nodes|
    ensures Step(c, s, Steal(i, thief, amount)) == Stolen(s, i, thief, amount)
  {
  }

  lemma TakeLootKeeps(c: Config, s: State, k: nat, j: nat)
    requires Inv(c, s) && !s.negative
    ensures Inv(c, Step(c, s, TakeLoot(k, j)))
  {
    if k < |s.net| && Free(s, s.net[k].to, j) {
      var m := s.net[k];
      var n := s.nodes[m.to];
      var n' := n.(threads := n.threads[j := Thread(NoCall, m.tasks)]);
      var s' := Step(c, s, TakeLoot(k, j));
      FillKeeps(c, n, n', j, m.tasks);
      forall t ensures NodesOcc(s'.nodes, t) + NetOcc(s'.net, t) == s'.given[t] {
        assert NodesOcc(s.nodes, t) + NetOcc(s.net, t) == s.given[t];
        NodesSet(s.nodes, m.to, n', t);
        NetWithout(s.net, k, t);
      }
      SameFrames(c, s, s');
    }
  }

  // ---------------------------------------------------------------- tdecs

  /** All but the count of issued tdecs of one frame, which is one ahead (limbo) until the tdec is somewhere. */
  ghost predicate FramesBut(c: Config, s: State, f: nat) {
    && f in s.frames && !s.negative
    && (forall g :: g in s.frames && g != f ==> FrameOk(s, g))
    && FrameOk(s.(tdecs := s.tdecs + multiset{f}), f)
    && (forall g: nat :: g !in s.frames ==> s.given[Frame(g)] == 0 && s.tdecs[g] == 0)
    && (forall i: nat :: s.given[Root(i)] == if i < c.numNodes then 1 else 0)
    && (forall g :: g in s.frames ==> s.frames[g].sc >= 0)
  }

  ghost predicate InvBut(c: Config, s: State, f: nat) {
    && |s.nodes| == c.numNodes && Conserved(s) && FramesBut(c, s, f)
    && forall i :: 0 <= i < |s.nodes| ==> NodeOk(c, s.nodes[i])
  }

  lemma ApplyFrames(c: Config, s: State, f: nat, i: nat, j: nat)
    requires FramesBut(c, s, f) && Free(s, i, j)
    ensures FramesOk(c, Apply(s, f, i, j))
  {
    var s' := Apply(s, f, i, j);
    forall g | g in s'.frames ensures FrameOk(s', g) {
      if g != f { assert FrameOk(s, g); }
    }
    if s'.negative { assert s'.frames[f].sc < 0; }
  }

  lemma CallKeeps(c: Config, n: Node, j: nat, t: Task)
    requires NodeOk(c, n) && j < |n.threads| && n.threads[j] == Thread(NoCall, [])
    ensures var n' := n.(threads := n.threads[j := Thread(Checking(t), [])]);
      NodeOk(c, n') && forall x :: Occ(n', x) == Occ(n, x) + (if x == t then 1 else 0)
  {
    var th := Thread(Checking(t), []);
    var n' := n.(threads := n.threads[j := th]);
    CallsSet(n.threads, j, th);
    AwaitFrame(n, n');
    forall x ensures Occ(n', x) == Occ(n, x) + (if x == t then 1 else 0) { ThreadSet(n.threads, j, th, x); }
  }

  lemma GiveKeeps(c: Config, s: State, s': State, i: nat, j: nat, t: Task)
    requires Conserved(s) && Free(s, i, j) && NodeOk(c, s.nodes[i])
    requires var n := s.nodes[i];
      && s'.nodes == s.nodes[i := n.(threads := n.threads[j := Thread(Checking(t), [])])]
      && s'.net == s.net && s'.given == s.given + multiset{t}
    ensures Conserved(s') && NodeOk(c, s'.nodes[i])
  {
    CallKeeps(c, s.nodes[i], j, t);
    forall x ensures NodesOcc(s'.nodes, x) + NetOcc(s'.net, x) == s'.given[x] {
      assert NodesOcc(s.nodes, x) + NetOcc(s.net, x) == s.given[x];
      NodesSet(s.nodes, i, s'.nodes[i], x);
    }
  }

  lemma ApplyKeeps(c: Config, s: State, f: nat, i: nat, j: nat)
    requires InvBut(c, s, f) && Free(s, i, j)
    ensures Inv(c, Apply(s, f, i, j))
  {
    ApplyFrames(c, s, f, i, j);
    var s' := Apply(s, f, i, j);
    if s.frames[f].sc == 1 {
      GiveKeeps(c, s, s', i, j, Frame(f));
    } else {
      SamePlaces(s, s');
    }
  }

  lemma IssueBut(c: Config, s: State, f: nat)
    requires Inv(c, s) && f in s.frames && !s.negative
    ensures InvBut(c, Issue(s, f), f)
  {
    var s1 := Issue(s, f);
    forall g | g in s1.frames && g != f ensures FrameOk(s1, g) { assert FrameOk(s, g); }
    assert FrameOk(s, f);
    SamePlaces(s, s1);
  }

  lemma PickUpBut(c: Config, s: State, f: nat)
    requires Inv(c, s) && f in s.tdecs && !s.negative
    ensures InvBut(c, s.(tdecs := s.tdecs - multiset{f}), f)
  {
    var s1 := s.(tdecs := s.tdecs - multiset{f});
    assert s1.tdecs + multiset{f} == s.tdecs;
    assert s.tdecs[f] > 0;
    forall g | g in s1.frames && g != f ensures FrameOk(s1, g) { assert FrameOk(s, g); }
    assert FrameOk(s, f);
    SamePlaces(s, s1);
  }

  lemma SendTDecKeeps(c: Config, s: State, f: nat)
    requires InvBut(c, s, f)
    ensures Inv(c, s.(tdecs := s.tdecs + multiset{f}))
  {
    var s' := s.(tdecs := s.tdecs + multiset{f});
    forall g | g in s'.frames ensures FrameOk(s', g) {
      if g != f { assert FrameOk(s, g); }
    }
    SamePlaces(s, s');
  }

  lemma CreateFrames(c: Config, s: State, s': State, f: nat, sc: nat)
    requires FramesOk(c, s) && f !in s.frames && !s.negative && s' == s.(frames := s.frames[f := Counter(sc, sc, 0, 0)])
    ensures FramesOk(c, s')
  {
    forall g | g in s'.frames ensures FrameOk(s', g) {
      if g != f { assert FrameOk(s, g); }
    }
  }

  lemma CreateKeeps(c: Config, s: State, f: nat, sc: nat)
    requires Inv(c, s) && f !in s.frames && !s.negative
    ensures Inv(c, s.(frames := s.frames[f := Counter(sc, sc, 0, 0)]))
  {
    var s' := s.(frames := s.frames[f := Counter(sc, sc, 0, 0)]);
    CreateFrames(c, s, s', f, sc);
    SamePlaces(s, s');
  }

  // ---------------------------------------------------------------- every run

  /** A tdec is issued, applied, or both. */
  lemma TDecKeeps(c: Config, s: State, ch: Choice)
    requires Inv(c, s) && !s.negative && (ch.TDecHere? || ch.TDecAway? || ch.ApplyTDec?)
    ensures Inv(c, Step(c, s, ch))
  {
    match ch
    case TDecHere(f, i, j) =>
      if f in s.frames && Free(s, i, j) {
        IssueBut(c, s, f);
        ApplyKeeps(c, Issue(s, f), f, i, j);
      }
    case TDecAway(f) =>
      if f in s.frames {
        IssueBut(c, s, f);
        SendTDecKeeps(c, Issue(s, f), f);
      }
    case ApplyTDec(f, i, j) =>
      if f in s.tdecs && f in s.frames && Free(s, i, j) {
        PickUpBut(c, s, f);
        ApplyKeeps(c, s.(tdecs := s.tdecs - multiset{f}), f, i, j);
      }
  }

  lemma StepKeeps(c: Config, s: State, ch: Choice)
    requires Inv(c, s) && !s.negative
    ensures Inv(c, Step(c, s, ch))
  {
    match ch
    case Create(f, sc) => if f !in s.frames { CreateKeeps(c, s, f, sc); }
    case TDecHere(_, _, _) => TDecKeeps(c, s, ch);
    case TDecAway(_) => TDecKeeps(c, s, ch);
    case ApplyTDec(_, _, _) => TDecKeeps(c, s, ch);
    case Steal(i, thief, amount) => StealKeeps(c, s, i, thief, amount);
    case TakeLoot(k, j) => TakeLootKeeps(c, s, k, j);
    case _ => if ch.i < |s.nodes| { WithinNode(c, s, ch.i, ch); }
  }

  lemma {:induction false} InitThreads(k: nat, t: Task)
    ensures var ths := seq(k, _ => Thread(NoCall, [])); ThreadOcc(ths, t) == 0 && Admits(ths) == 0 && Posts(ths) == 0
  {
    if k > 0 {
      InitThreads(k - 1, t);
      assert seq(k, _ => Thread(NoCall, []))[..k - 1] == seq(k - 1, _ => Thread(NoCall, []));
    }
  }

  lemma InitNodeOcc(c: Config, i: nat, t: Task)
    ensures Occ(InitNode(c, i), t) == if t == Root(i) then 1 else 0
  {
    InitThreads(c.threads, t);
  }

  lemma InitNodeOk(c: Config, i: nat)
    requires c.threads > 0
    ensures NodeOk(c, InitNode(c, i))
  {
    InitThreads(c.threads, Root(i));
    forall t ensures AwaitAt(InitNode(c, i), [], t) { }
  }

  ghost predicate OneRootEach(nodes: seq<Node>, t: Task) {
    forall i :: 0 <= i < |nodes| ==> Occ(nodes[i], t) == if t == Root(i) then 1 else 0
  }

  lemma {:induction false} InitOcc(nodes: seq<Node>, t: Task)
    requires OneRootEach(nodes, t)
    ensures NodesOcc(nodes, t) == Roots(|nodes|)[t]
  {
    if nodes != [] { InitOcc(nodes[..|nodes| - 1], t); }
  }

  lemma {:induction false} RootsAre(k: nat)
    ensures forall i: nat :: Roots(k)[Root(i)] == if i < k then 1 else 0
    ensures forall f: nat :: Roots(k)[Frame(f)] == 0
  {
    if k > 0 { RootsAre(k - 1); }
  }

  lemma InitInv(c: Config)
    requires c.threads > 0
    ensures Inv(c, Init(c))
  {
    var s := Init(c);
    RootsAre(c.numNodes);
    forall t ensures NodesOcc(s.nodes, t) + NetOcc(s.net, t) == s.given[t] {
      forall i | 0 <= i < |s.nodes| ensures Occ(s.nodes[i], t) == if t == Root(i) then 1 else 0 {
        InitNodeOcc(c, i, t);
      }
      InitOcc(s.nodes, t);
    }
    forall i | 0 <= i < |s.nodes| ensures NodeOk(c, s.nodes[i]) { InitNodeOk(c, i); }
  }

  lemma {:induction false} Safe(c: Config, run: seq<Choice>)
    requires c.threads > 0
    ensures Inv(c, After(c, run))
  {
    if run == [] {
      InitInv(c);
    } else {
      var s := After(c, run[..|run| - 1]);
      Safe(c, run[..|run| - 1]);
      if !s.negative { StepKeeps(c, s, run[|run| - 1]); }
    }
  }

  // ---------------------------------------------------------------- theorems

  /** No task is lost and none is doubled: every task given to `schedule_global` is in exactly one place, on one
      node (where the deque may have dropped it) or in one StolenMessage, and no other task is anywhere. */
  lemma TasksConserved(c: Config, run: seq<Choice>, t: Task)
    requires c.threads > 0
    ensures var s := After(c, run);
      NodesOcc(s.nodes, t) + NetOcc(s.net, t) == s.given[t] && s.given[t] <= 1
  {
    Safe(c, run);
    GivenOnce(c, After(c, run), t);
    assert NodesOcc(After(c, run).nodes, t) + NetOcc(After(c, run).net, t) == After(c, run).given[t];
  }

  /** Unless the deque drops tasks, none is ever dropped. */
  lemma ExactDropsNothing(c: Config, run: seq<Choice>, i: nat)
    requires c.threads > 0 && i < c.numNodes && c.exact
    ensures |After(c, run).nodes| == c.numNodes && After(c, run).nodes[i].dropped == []
  {
    Safe(c, run);
    assert NodeOk(c, After(c, run).nodes[i]);
  }

  /** A frame is given to `schedule_global` exactly once, when the tdecs applied to it have used up its initial count,
      however many of them came as messages; and every tdec issued has been applied or is in flight. */
  lemma FrameScheduledOnce(c: Config, run: seq<Choice>, f: nat)
    requires c.threads > 0 && f in After(c, run).frames
    ensures var s := After(c, run); var x := s.frames[f];
      && x.sc + x.applied == x.initial && x.issued == x.applied + s.tdecs[f]
      && s.given[Frame(f)] == if 0 < x.initial <= x.applied then 1 else 0
  {
    Safe(c, run);
    assert FrameOk(After(c, run), f);
  }

  /** The "Negative TDec" check fires only if more tdecs were issued to some frame than it waits for. */
  lemma NegativeMeansTooMany(c: Config, run: seq<Choice>)
    requires c.threads > 0 && After(c, run).negative
    ensures var s := After(c, run); exists f :: f in s.frames && s.frames[f].issued > s.frames[f].initial
  {
    Safe(c, run);
    var s := After(c, run);
    var f :| f in s.frames && s.frames[f].sc < 0;
    assert FrameOk(s, f);
  }

  lemma {:induction false} HandsOn(n: Node, pending: seq<Task>, t: Task)
    requires AwaitOk(n, pending) && Counts(n)
    ensures In(ArrivedAll(n, pending).inner, t) ==
      In(n.inner, t) + (if In(pending, t) > 0 && In(RegTasks(n.regs), t) == 0 then 1 else 0)
    decreases |pending|
  {
    if pending != [] {
      var x := pending[0];
      ArrivedKeeps(n, pending);
      PendingHead(n, pending, t);
      BufferShrinks(pending, t);
      InPush(n.inner, x, t);
      HandsOn(Arrived(n, x), pending[1..], t);
    }
  }

  /** Signalling one key queues a task, once, if and only if the task awaits something and all its registrations are
      under this key. */
  lemma SignalHandsOn(c: Config, n: Node, w: Want, t: Task)
    requires NodeOk(c, n)
    ensures In(Signal(n, w).inner, t) ==
      In(n.inner, t) + (if 0 < In(RegTasks(n.regs), t) == In(Under(n.regs, w), t) then 1 else 0)
  {
    var n1 := n.(regs := Others(n.regs, w));
    forall x ensures AwaitAt(n1, Under(n.regs, w), x) {
      KeySplits(n.regs, w, x);
      assert AwaitAt(n, [], x);
    }
    KeySplits(n.regs, w, t);
    HandsOn(n1, Under(n.regs, w), t);
  }

  lemma RespHandsOn(c: Config, n: Node, p: nat, t: Task)
    requires NodeOk(c, n)
    ensures var all := In(RegTasks(n.regs), t);
      var here := In(Under(n.regs, Want(ForData, p)), t) + In(Under(n.regs, Want(ForWrite, p)), t);
      In(RespArrives(n, p).inner, t) == In(n.inner, t) + (if 0 < all == here then 1 else 0)
  {
    var d, w := Want(ForData, p), Want(ForWrite, p);
    SignalKeeps(c, n, d);
    SignalHandsOn(c, n, d, t);
    SignalHandsOn(c, Signal(n, d), w, t);
    KeySplits(n.regs, d, t);
    KeySplits(Others(n.regs, d), w, t);
    OtherKey(n.regs, d, w);
  }

  /** A task is handed on exactly at its last awaited arrival.  A DataMessage queues it, once, if and only if it awaits
      something and all its registrations are for this page's data; a RespTransfer does if and only if they all are
      for this page, for data or for write access. */
  lemma HandedOnAtLastArrival(c: Config, run: seq<Choice>, i: nat, p: nat, t: Task)
    requires c.threads > 0 && i < c.numNodes
    ensures |After(c, run).nodes| == c.numNodes
    ensures var n := After(c, run).nodes[i]; var all := In(RegTasks(n.regs), t);
      var data := In(Under(n.regs, Want(ForData, p)), t); var write := In(Under(n.regs, Want(ForWrite, p)), t);
      && In(DataArrives(n, p).inner, t) == In(n.inner, t) + (if 0 < all == data then 1 else 0)
      && In(RespArrives(n, p).inner, t) == In(n.inner, t) + (if 0 < all == data + write then 1 else 0)
  {
    Safe(c, run);
    var n := After(c, run).nodes[i];
    assert NodeOk(c, n);
    SignalHandsOn(c, n, Want(ForData, p), t);
    RespHandsOn(c, n, p, t);
  }

  // ---------------------------------------------------------------- in which order tasks are queued

  /** The last place where x is. */
  ghost predicate LastIn(xs: seq<Task>, x: Task, a: nat) {
    a < |xs| && xs[a] == x && x !in xs[a + 1..]
  }

  /** These tasks are among `pending`, and in the order of their last events there. */
  ghost predicate InEventOrder(tasks: seq<Task>, pending: seq<Task>) {
    && (forall u :: 0 <= u < |tasks| ==> tasks[u] in pending)
    && forall u, v, a: nat, b: nat ::
         0 <= u < v < |tasks| && LastIn(pending, tasks[u], a) && LastIn(pending, tasks[v], b) ==> a < b
  }

  lemma LastBehind(xs: seq<Task>, x: Task, a: nat)
    requires xs != [] && LastIn(xs, x, a) && x in xs[1..]
    ensures a > 0 && LastIn(xs[1..], x, a - 1)
  {
    assert xs[1..][a..] == xs[a + 1..];
  }

  lemma LaterInOrder(tasks: seq<Task>, pending: seq<Task>)
    requires pending != [] && InEventOrder(tasks, pending[1..])
    ensures InEventOrder(tasks, pending)
  {
    forall u | 0 <= u < |tasks| ensures tasks[u] in pending { assert tasks[u] in pending[1..]; }
    forall u, v, a: nat, b: nat | 0 <= u < v < |tasks| && LastIn(pending, tasks[u], a) && LastIn(pending, tasks[v], b)
      ensures a < b
    {
      LastBehind(pending, tasks[u], a);
      LastBehind(pending, tasks[v], b);
    }
  }

  lemma LastOrBehind(xs: seq<Task>, x: Task, a: nat)
    requires LastIn(xs, x, a)
    ensures a == 0 || x in xs[1..]
  {
    if a > 0 { assert xs[1..][a - 1] == x; }
  }

  lemma FirstInOrder(tasks: seq<Task>, pending: seq<Task>)
    requires pending != [] && InEventOrder(tasks, pending[1..]) && pending[0] !in pending[1..]
    ensures InEventOrder([pending[0]] + tasks, pending)
  {
    LaterInOrder(tasks, pending);
    var all := [pending[0]] + tasks;
    forall u, v, a: nat, b: nat | 0 <= u < v < |all| && LastIn(pending, all[u], a) && LastIn(pending, all[v], b)
      ensures a < b
    {
      assert all[v] == tasks[v - 1];
      LastBehind(pending, all[v], b);
      LastOrBehind(pending, all[u], a);
      assert u > 0 ==> all[u] == tasks[u - 1];
    }
  }

  /** The closures are called in order, and each queues its task at its last event. */
  lemma {:induction false} QueuesInOrder(n: Node, pending: seq<Task>) returns (queued: seq<Task>)
    requires AwaitOk(n, pending) && Counts(n)
    ensures ArrivedAll(n, pending).inner == n.inner + queued && InEventOrder(queued, pending)
    decreases |pending|
  {
    if pending == [] {
      return [];
    }
    var t := pending[0];
    var n1 := Arrived(n, t);
    ArrivedKeeps(n, pending);
    queued := QueuesInOrder(n1, pending[1..]);
    PendingHead(n, pending, t);
    if n.awaiting[t] == 1 {
      assert In(pending[1..], t) == 0;
      FirstInOrder(queued, pending);
      queued := [t] + queued;
    } else {
      LaterInOrder(queued, pending);
    }
  }

  /** The last registration of t under this key. */
  ghost predicate LastReg(regs: seq<Reg>, w: Want, t: Task, j: nat) {
    j < |regs| && regs[j] == Reg(w, t) && Reg(w, t) !in regs[j + 1..]
  }

  lemma LastRegBefore(regs: seq<Reg>, w: Want, t: Task, j: nat)
    requires LastReg(regs, w, t, j) && j < |regs| - 1
    ensures LastReg(regs[..|regs| - 1], w, t, j) && regs[|regs| - 1] != Reg(w, t)
  {
    var m := |regs| - 1;
    assert regs[j + 1..][m - j - 1] == regs[m];
    assert regs[..m][j + 1..] == regs[j + 1..][..m - j - 1];
  }

  lemma UnderPush(xs: seq<Task>, last: Task, t: Task, a: nat)
    requires LastIn(xs, t, a) && t != last
    ensures LastIn(xs + [last], t, a)
  {
    assert (xs + [last])[a + 1..] == xs[a + 1..] + [last];
  }

  /** `Under` keeps the order of registration. */
  lemma {:induction false} UnderAt(regs: seq<Reg>, w: Want, t: Task, j: nat) returns (a: nat)
    requires LastReg(regs, w, t, j)
    ensures LastIn(Under(regs, w), t, a) && a == |Under(regs[..j], w)|
    decreases |regs|
  {
    var m := |regs| - 1;
    if j == m {
      a := |Under(regs[..m], w)|;
    } else {
      LastRegBefore(regs, w, t, j);
      a := UnderAt(regs[..m], w, t, j);
      assert regs[..m][..j] == regs[..j];
      if regs[m].want == w { UnderPush(Under(regs[..m], w), regs[m].task, t, a); }
    }
  }

  lemma {:induction false} UnderGrows(regs: seq<Reg>, w: Want, k: nat, j: nat)
    requires k <= j <= |regs|
    ensures |Under(regs[..k], w)| <= |Under(regs[..j], w)|
    decreases j
  {
    if k < j {
      UnderGrows(regs, w, k, j - 1);
      assert regs[..j][..j - 1] == regs[..j - 1];
    }
  }

  lemma {:induction false} UnderHas(regs: seq<Reg>, w: Want, t: Task)
    requires t in Under(regs, w)
    ensures Reg(w, t) in regs
    decreases |regs|
  {
    var m := |regs| - 1;
    if regs[m] != Reg(w, t) {
      assert t in Under(regs[..m], w);
      UnderHas(regs[..m], w, t);
    }
  }

  /** These tasks were registered under the key, and are in the order of their last registrations. */
  ghost predicate InRegistrationOrder(tasks: seq<Task>, regs: seq<Reg>, w: Want) {
    && (forall u :: 0 <= u < |tasks| ==> Reg(w, tasks[u]) in regs)
    && forall u, v, j: nat, k: nat ::
         0 <= u < v < |tasks| && LastReg(regs, w, tasks[u], j) && LastReg(regs, w, tasks[v], k) ==> j < k
  }

  lemma EventsAreRegistrations(tasks: seq<Task>, regs: seq<Reg>, w: Want)
    requires InEventOrder(tasks, Under(regs, w))
    ensures InRegistrationOrder(tasks, regs, w)
  {
    forall u | 0 <= u < |tasks| ensures Reg(w, tasks[u]) in regs { UnderHas(regs, w, tasks[u]); }
    forall u, v, j: nat, k: nat
      | 0 <= u < v < |tasks| && LastReg(regs, w, tasks[u], j) && LastReg(regs, w, tasks[v], k)
      ensures j < k
    {
      var a := UnderAt(regs, w, tasks[u], j);
      var b := UnderAt(regs, w, tasks[v], k);
      if k <= j { UnderGrows(regs, w, k, j); }
    }
  }

  lemma SignalInOrder(c: Config, n: Node, w: Want) returns (queued: seq<Task>)
    requires NodeOk(c, n)
    ensures Signal(n, w).inner == n.inner + queued && InEventOrder(queued, Under(n.regs, w))
  {
    var n1 := n.(regs := Others(n.regs, w));
    forall x ensures AwaitAt(n1, Under(n.regs, w), x) {
      KeySplits(n.regs, w, x);
      assert AwaitAt(n, [], x);
    }
    queued := QueuesInOrder(n1, Under(n.regs, w));
  }

  /** In which order an arrival queues the tasks that it completes, at the end of the inner queue: that of their last
      registrations for the page; a RespTransfer those of its data first, then those of the write access. */
  lemma QueuedInRegistrationOrder(c: Config, run: seq<Choice>, i: nat, p: nat)
      returns (data: seq<Task>, write: seq<Task>)
    requires c.threads > 0 && i < c.numNodes
    ensures |After(c, run).nodes| == c.numNodes
    ensures var n := After(c, run).nodes[i];
      && DataArrives(n, p).inner == n.inner + data && InRegistrationOrder(data, n.regs, Want(ForData, p))
      && RespArrives(n, p).inner == n.inner + data + write && InRegistrationOrder(write, n.regs, Want(ForWrite, p))
  {
    Safe(c, run);
    var n := After(c, run).nodes[i];
    var d, w := Want(ForData, p), Want(ForWrite, p);
    assert NodeOk(c, n);
    data := SignalInOrder(c, n, d);
    SignalKeeps(c, n, d);
    write := SignalInOrder(c, Signal(n, d), w);
    OtherKey(n.regs, d, w);
    EventsAreRegistrations(data, n.regs, d);
    EventsAreRegistrations(write, n.regs, w);
  }

  /** What the two counters of a node count: `prep_task_count` the tasks admitted, being prepared, queued or running,
      `omp_task_count` those queued or running, and those between the two decrements of `after_code`.  Both go on
      counting a task that the deque has dropped. */
  lemma CountersCount(c: Config, run: seq<Choice>, i: nat)
    requires c.threads > 0 && i < c.numNodes
    ensures |After(c, run).nodes| == c.numNodes && Counts(After(c, run).nodes[i])
  {
    Safe(c, run);
    assert NodeOk(c, After(c, run).nodes[i]);
  }

  /** The admission bound, for any interleaving of the check and the increment; `Admission` has the bound for a check
      that reads the counters one by one. */
  lemma AdmissionBound(c: Config, run: seq<Choice>, i: nat)
    requires c.threads > 0 && i < c.numNodes
    ensures |After(c, run).nodes| == c.numNodes && After(c, run).nodes[i].prep <= c.threshold + c.threads
  {
    Safe(c, run);
    assert NodeOk(c, After(c, run).nodes[i]);
  }
}
