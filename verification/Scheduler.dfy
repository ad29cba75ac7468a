/** `Scheduler` of `src/scheduler.cpp` as it is written: methods that update the external list, the two task counts,
    the inner queue and the registrations, with loops over the arguments of a task and over the stolen tasks.  Each
    is proved to do what the function of the same purpose in `Tasks` says.

    The counts are the values of the `GlobalCounters` objects.  What `PAGE_IS_AVAILABLE` and `PAGE_IS_RESP` answer
    for a task comes with the call: whether the task's own page is there, and its arguments. */
module Schedulers {
  import opened Tasks
  import opened Preparation

  /** What the node knows of a task when it prepares it. */
  datatype Sight = Sight(available: bool, args: seq<Arg>)

  /** `schedule_global`, run through by one thread in the delegator. */
  function Give(n: Node, t: Task, sight: Sight, threshold: int): Node {
    if n.prep > threshold then n.(external := [t] + n.external)
    else Prepare(n.(prep := n.prep + 1), t, sight.available, sight.args)
  }

  function GiveAll(n: Node, ts: seq<Task>, sights: Task -> Sight, threshold: int): Node {
    if ts == [] then n
    else Give(GiveAll(n, ts[..|ts| - 1], sights, threshold), ts[|ts| - 1], sights(ts[|ts| - 1]), threshold)
  }

  /** One task after the other, in order. */
  lemma {:induction false} GiveAllJoins(n: Node, a: seq<Task>, b: seq<Task>, sights: Task -> Sight, threshold: int)
    ensures GiveAll(n, a + b, sights, threshold) == GiveAll(GiveAll(n, a, sights, threshold), b, sights, threshold)
    decreases |b|
  {
    if b == [] {
      assert a + b == a;
    } else {
      var m := |b| - 1;
      assert (a + b)[..|a| + m] == a + b[..m];
      GiveAllJoins(n, a, b[..m], sights, threshold);
    }
  }

  // ---------------------------------------------------------------- which tasks are admitted, and in which order

  /** How many of so many tasks are admitted: the count may pass the threshold by one. */
  ghost function Room(prep: int, threshold: int, tasks: nat): nat {
    if prep > threshold then 0 else if tasks <= threshold + 1 - prep then tasks else threshold + 1 - prep
  }

  /** The last k, the last one first. */
  ghost function LastFirst(ts: seq<Task>, k: nat): seq<Task>
    requires k <= |ts|
  {
    seq(k, i requires 0 <= i < k => ts[|ts| - 1 - i])
  }

  /** What becomes of an admitted task. */
  datatype Fate = Runs | AwaitsPage | AwaitsArguments

  ghost function FateOf(sight: Sight): Fate {
    if !sight.available then AwaitsPage else if Unready(sight.args) == {} then Runs else AwaitsArguments
  }

  ghost predicate Meets(ts: seq<Task>, sights: Task -> Sight, fate: Fate, i: nat) {
    i < |ts| && FateOf(sights(ts[i])) == fate
  }

  /** The tasks with this fate, at the increasing positions `at`. */
  ghost predicate Picks(at: seq<nat>, ts: seq<Task>, sights: Task -> Sight, fate: Fate, picked: seq<Task>) {
    && |at| == |picked|
    && (forall u :: 0 <= u < |at| ==> Meets(ts, sights, fate, at[u]) && picked[u] == ts[at[u]])
    && (forall u, v :: 0 <= u < v < |at| ==> at[u] < at[v])
    && (forall i: nat :: Meets(ts, sights, fate, i) ==> i in at)
  }

  /** `picked` is all tasks with this fate, in their order. */
  ghost predicate Chosen(ts: seq<Task>, sights: Task -> Sight, fate: Fate, picked: seq<Task>) {
    exists at :: Picks(at, ts, sights, fate, picked)
  }

  ghost predicate Stays(ts: seq<Task>, sights: Task -> Sight, t: Task) {
    t in ts && FateOf(sights(t)) == AwaitsArguments
  }

  /** From n to n', exactly these tasks have been admitted, in this order: those ready to run are queued, those without
      their page wait for it. */
  ghost predicate Placed(n: Node, ts: seq<Task>, sights: Task -> Sight, n': Node) {
    && n'.prep == n.prep + |ts|
    && n.inner <= n'.inner && Chosen(ts, sights, Runs, n'.inner[|n.inner|..])
    && n'.omp - n.omp == |n'.inner| - |n.inner|
    && n.waitingPage <= n'.waitingPage && Chosen(ts, sights, AwaitsPage, n'.waitingPage[|n.waitingPage|..])
  }

  /** The others have their closures, which count what they await. */
  ghost predicate Counted(n: Node, ts: seq<Task>, sights: Task -> Sight, n': Node) {
    && (forall t :: t in n'.awaiting <==> t in n.awaiting || Stays(ts, sights, t))
    && (forall t :: t in n'.awaiting ==>
          n'.awaiting[t] == if Stays(ts, sights, t) then |Unready(sights(t).args)| else n.awaiting[t])
  }

  ghost predicate Admitted(n: Node, ts: seq<Task>, sights: Task -> Sight, n': Node) {
    Placed(n, ts, sights, n') && Counted(n, ts, sights, n')
  }

  lemma PicksMore(at: seq<nat>, ts: seq<Task>, t: Task, sights: Task -> Sight, fate: Fate, picked: seq<Task>)
    requires Picks(at, ts, sights, fate, picked) && FateOf(sights(t)) == fate
    ensures Picks(at + [|ts|], ts + [t], sights, fate, picked + [t])
  {
    var more, all := at + [|ts|], ts + [t];
    forall u | 0 <= u < |more| ensures Meets(all, sights, fate, more[u]) && (picked + [t])[u] == all[more[u]] {
      if u < |at| { assert Meets(ts, sights, fate, at[u]); }
    }
    forall u, v | 0 <= u < v < |more| ensures more[u] < more[v] {
      assert Meets(ts, sights, fate, at[u]);
    }
    forall i: nat | Meets(all, sights, fate, i) ensures i in more {
      if i < |ts| { assert Meets(ts, sights, fate, i); } else { assert more[|at|] == i; }
    }
  }

  lemma PicksSame(at: seq<nat>, ts: seq<Task>, t: Task, sights: Task -> Sight, fate: Fate, picked: seq<Task>)
    requires Picks(at, ts, sights, fate, picked) && FateOf(sights(t)) != fate
    ensures Picks(at, ts + [t], sights, fate, picked)
  {
    var all := ts + [t];
    forall u | 0 <= u < |at| ensures Meets(all, sights, fate, at[u]) && picked[u] == all[at[u]] {
      assert Meets(ts, sights, fate, at[u]);
    }
    forall i: nat | Meets(all, sights, fate, i) ensures i in at { assert Meets(ts, sights, fate, i); }
  }

  lemma ChosenSnoc(ts: seq<Task>, t: Task, sights: Task -> Sight, fate: Fate, picked: seq<Task>)
    requires Chosen(ts, sights, fate, picked)
    ensures Chosen(ts + [t], sights, fate, if FateOf(sights(t)) == fate then picked + [t] else picked)
  {
    var at :| Picks(at, ts, sights, fate, picked);
    if FateOf(sights(t)) == fate {
      PicksMore(at, ts, t, sights, fate, picked);
    } else {
      PicksSame(at, ts, t, sights, fate, picked);
    }
  }

  lemma AdmitNone(n: Node, sights: Task -> Sight)
    ensures Admitted(n, [], sights, n)
  {
    assert Picks([], [], sights, Runs, n.inner[|n.inner|..]);
    assert Picks([], [], sights, AwaitsPage, n.waitingPage[|n.waitingPage|..]);
  }

  /** A list that has grown by the tasks with this fate grows by one more, or stays. */
  lemma ListOneMore(xs: seq<Task>, ts: seq<Task>, sights: Task -> Sight, fate: Fate, xs1: seq<Task>, t: Task,
                    xs2: seq<Task>)
    requires xs <= xs1 && Chosen(ts, sights, fate, xs1[|xs|..])
    requires xs2 == if FateOf(sights(t)) == fate then xs1 + [t] else xs1
    ensures xs <= xs2 && Chosen(ts + [t], sights, fate, xs2[|xs|..])
  {
    ChosenSnoc(ts, t, sights, fate, xs1[|xs|..]);
    if FateOf(sights(t)) == fate { assert xs2[|xs|..] == xs1[|xs|..] + [t]; }
  }

  lemma PlaceOneMore(n: Node, ts: seq<Task>, sights: Task -> Sight, n1: Node, t: Task, n2: Node)
    requires Placed(n, ts, sights, n1) && n2.prep == n1.prep + 1
    requires n2.inner == (if FateOf(sights(t)) == Runs then n1.inner + [t] else n1.inner)
    requires n2.omp == (if FateOf(sights(t)) == Runs then n1.omp + 1 else n1.omp)
    requires n2.waitingPage == (if FateOf(sights(t)) == AwaitsPage then n1.waitingPage + [t] else n1.waitingPage)
    ensures Placed(n, ts + [t], sights, n2)
  {
    ListOneMore(n.inner, ts, sights, Runs, n1.inner, t, n2.inner);
    ListOneMore(n.waitingPage, ts, sights, AwaitsPage, n1.waitingPage, t, n2.waitingPage);
  }

  lemma CountOneMore(n: Node, ts: seq<Task>, sights: Task -> Sight, n1: Node, t: Task, n2: Node)
    requires Counted(n, ts, sights, n1)
    requires n2.awaiting ==
      if FateOf(sights(t)) == AwaitsArguments then n1.awaiting[t := |Unready(sights(t).args)|] else n1.awaiting
    ensures Counted(n, ts + [t], sights, n2)
  {
    forall x
      ensures Stays(ts + [t], sights, x) <==> Stays(ts, sights, x) || (x == t && FateOf(sights(t)) == AwaitsArguments)
    {
    }
  }

  lemma AdmitOneMore(n: Node, ts: seq<Task>, sights: Task -> Sight, n1: Node, t: Task, n2: Node)
    requires Admitted(n, ts, sights, n1)
    requires Prepared(n1.(prep := n1.prep + 1), t, sights(t).available, sights(t).args, n2)
    ensures Admitted(n, ts + [t], sights, n2)
  {
    PlaceOneMore(n, ts, sights, n1, t, n2);
    CountOneMore(n, ts, sights, n1, t, n2);
  }

  lemma LastFirstSnoc(ts: seq<Task>, t: Task, k: nat)
    requires k <= |ts|
    ensures LastFirst(ts + [t], k + 1) == [t] + LastFirst(ts, k)
  {
  }

  /** What giving so many tasks of ts, and the others, has done. */
  ghost predicate Given(n: Node, ts: seq<Task>, sights: Task -> Sight, k: nat, n': Node) {
    k <= |ts| && Admitted(n, ts[..k], sights, n') && n'.external == LastFirst(ts, |ts| - k) + n.external
  }

  lemma GiveExternal(n: Node, ts: seq<Task>, sights: Task -> Sight, k: nat, n1: Node, t: Task, n2: Node)
    requires Given(n, ts, sights, k, n1) && n2 == n1.(external := [t] + n1.external)
    ensures Given(n, ts + [t], sights, k, n2)
  {
    assert (ts + [t])[..k] == ts[..k];
    LastFirstSnoc(ts, t, |ts| - k);
  }

  lemma GiveAdmitted(n: Node, ts: seq<Task>, sights: Task -> Sight, n1: Node, t: Task, n2: Node)
    requires Given(n, ts, sights, |ts|, n1) && n2.external == n1.external
    requires Prepared(n1.(prep := n1.prep + 1), t, sights(t).available, sights(t).args, n2)
    ensures Given(n, ts + [t], sights, |ts| + 1, n2)
  {
    assert ts[..|ts|] == ts && (ts + [t])[..|ts| + 1] == ts + [t];
    AdmitOneMore(n, ts, sights, n1, t, n2);
  }

  /** As many tasks as there is room for are admitted, first ones first; the others go in front of the external list,
      one before the other. */
  lemma {:induction false} FirstAreAdmitted(n: Node, ts: seq<Task>, sights: Task -> Sight, threshold: int)
    ensures Given(n, ts, sights, Room(n.prep, threshold, |ts|), GiveAll(n, ts, sights, threshold))
    decreases |ts|
  {
    if ts == [] {
      AdmitNone(n, sights);
    } else {
      var m := |ts| - 1;
      var t, n1 := ts[m], GiveAll(n, ts[..m], sights, threshold);
      FirstAreAdmitted(n, ts[..m], sights, threshold);
      assert n1.prep == n.prep + Room(n.prep, threshold, m);
      assert ts == ts[..m] + [t];
      if n1.prep > threshold {
        GiveExternal(n, ts[..m], sights, Room(n.prep, threshold, m), n1, t, Give(n1, t, sights(t), threshold));
      } else {
        PrepareMeans(n1.(prep := n1.prep + 1), t, sights(t).available, sights(t).args);
        GiveAdmitted(n, ts[..m], sights, n1, t, Give(n1, t, sights(t), threshold));
      }
    }
  }

  /** Stealing takes from the back, last first, and leaves the rest in order. */
  lemma {:induction false} LootIsTheTail(external: seq<Task>, amount: nat)
    ensures var r := StealTasks(external, amount); var k := if amount < |external| then amount else |external|;
      && |r.0| == k && r.1 == external[..|external| - k]
      && forall i :: 0 <= i < k ==> r.0[i] == external[|external| - 1 - i]
    decreases amount
  {
    if amount > 0 && external != [] { LootIsTheTail(external[..|external| - 1], amount - 1); }
  }

  /** Of the last tasks of the external list, last ones first, as many as there is room for have been admitted; the
      others have been put back in front. */
  ghost predicate TookBack(n: Node, amount: nat, sights: Task -> Sight, threshold: int, n': Node) {
    var all := |n.external|;
    var m := if amount <= all then amount else all;
    var k := Room(n.prep, threshold, m);
    && Admitted(n, LastFirst(n.external, k), sights, n')
    && n'.external == n.external[all - m..all - k] + n.external[..all - m]
  }

  ghost predicate IsLoot(external: seq<Task>, loot: seq<Task>) {
    |loot| <= |external| && forall i :: 0 <= i < |loot| ==> loot[i] == external[|external| - 1 - i]
  }

  /** What `steal_and_process` does. */
  lemma StolenAreAdmitted(n: Node, amount: nat, sights: Task -> Sight, threshold: int)
    ensures var r := StealTasks(n.external, amount);
      TookBack(n, amount, sights, threshold, GiveAll(n.(external := r.1), r.0, sights, threshold))
  {
    var r := StealTasks(n.external, amount);
    LootIsTheTail(n.external, amount);
    FirstAreAdmitted(n.(external := r.1), r.0, sights, threshold);
    GivenBack(n, amount, r.0, r.1, sights, threshold, GiveAll(n.(external := r.1), r.0, sights, threshold));
  }

  lemma GivenBack(n: Node, amount: nat, loot: seq<Task>, rest: seq<Task>, sights: Task -> Sight, threshold: int,
                  n': Node)
    requires IsLoot(n.external, loot) && |loot| == (if amount <= |n.external| then amount else |n.external|)
    requires rest == n.external[..|n.external| - |loot|]
    requires Given(n.(external := rest), loot, sights, Room(n.prep, threshold, |loot|), n')
    ensures TookBack(n, amount, sights, threshold, n')
  {
    var k := Room(n.prep, threshold, |loot|);
    LootFirst(n.external, loot, k);
    LootLast(n.external, loot, k);
    AdmittedFrame(n, n.(external := rest), loot[..k], sights, n');
  }

  /** Admission does not look at the external list. */
  lemma AdmittedFrame(n: Node, n1: Node, ts: seq<Task>, sights: Task -> Sight, n': Node)
    requires Admitted(n1, ts, sights, n') && n1 == n.(external := n1.external)
    ensures Admitted(n, ts, sights, n')
  {
  }

  lemma LootFirst(external: seq<Task>, loot: seq<Task>, k: nat)
    requires IsLoot(external, loot) && k <= |loot|
    ensures loot[..k] == LastFirst(external, k)
  {
    forall i | 0 <= i < k ensures loot[..k][i] == LastFirst(external, k)[i] { assert loot[..k][i] == loot[i]; }
  }

  lemma LootLast(external: seq<Task>, loot: seq<Task>, k: nat)
    requires IsLoot(external, loot) && k <= |loot|
    ensures LastFirst(loot, |loot| - k) == external[|external| - |loot|..|external| - k]
  {
    var rest := external[|external| - |loot|..|external| - k];
    forall i | 0 <= i < |loot| - k ensures LastFirst(loot, |loot| - k)[i] == rest[i] {
      assert loot[|loot| - 1 - i] == external[|external| - |loot| + i];
    }
  }

  /** The call of `schedule_global` that thread j makes for t, one access after the other, with the posted closure run
      last: nothing comes between. */
  function Uninterrupted(n: Node, j: nat, t: Task, sight: Sight, threshold: int): Node
    requires j < |n.threads|
  {
    var n0 := n.(threads := n.threads[j := Thread(Checking(t), [])]);
    if n.prep > threshold then
      var n2 := ThreadStep(ThreadStep(n0, j, threshold), j, threshold);
      GoExternal(n2, |n.refused|)
    else
      var n3 := ThreadStep(ThreadStep(ThreadStep(n0, j, threshold), j, threshold), j, threshold);
      GoPrepare(n3, |n.admitted|, sight.available, sight.args)
  }

  lemma DropLast<T>(xs: seq<T>, x: T)
    ensures Without(xs + [x], |xs|) == xs
  {
  }

  /** `Give` is what the accesses of `Tasks.ThreadStep` do when nothing comes between them. */
  lemma GiveIsUninterrupted(n: Node, j: nat, t: Task, sight: Sight, threshold: int)
    requires j < |n.threads| && n.threads[j] == Thread(NoCall, [])
    ensures Uninterrupted(n, j, t, sight, threshold) == Give(n, t, sight, threshold)
  {
    var n0 := n.(threads := n.threads[j := Thread(Checking(t), [])]);
    var n1 := ThreadStep(n0, j, threshold);
    var n2 := ThreadStep(n1, j, threshold);
    if n.prep > threshold {
      DropLast(n.refused, t);
      assert n2 == n.(refused := n.refused + [t], threads := n2.threads);
      assert n2.threads == n.threads;
    } else {
      var n3 := ThreadStep(n2, j, threshold);
      DropLast(n.admitted, t);
      assert n3.threads == n.threads;
      assert n3 == n.(prep := n.prep + 1, admitted := n.admitted + [t]);
      assert n3.(admitted := Without(n3.admitted, |n.admitted|)) == n.(prep := n.prep + 1);
    }
  }

  /** The closures do not look at the registrations, so these may be erased after the loop. */
  lemma {:induction false} EraseLater(n: Node, ts: seq<Task>, regs: seq<Reg>)
    ensures ArrivedAll(n.(regs := regs), ts) == ArrivedAll(n, ts).(regs := regs)
    decreases |ts|
  {
    if ts != [] {
      assert Arrived(n.(regs := regs), ts[0]) == Arrived(n, ts[0]).(regs := regs);
      EraseLater(Arrived(n, ts[0]), ts[1..], regs);
    }
  }

  /** The newest external task is the last one stolen: unless the thief wants all there are, `push_front` of another
      task changes neither what it gets nor in which order. */
  lemma NewestStolenLast(external: seq<Task>, t: Task, amount: nat)
    ensures var r, r' := StealTasks(external, amount), StealTasks([t] + external, amount);
      if amount <= |external| then r'.0 == r.0 && r'.1 == [t] + r.1 else r'.0 == r.0 + [t] && r'.1 == r.1 == []
  {
    LootIsTheTail(external, amount);
    LootIsTheTail([t] + external, amount);
  }

  class Scheduler {
    const threshold: int
    /** The parts of the node that the scheduler does not touch. */
    ghost const rest: Node

    var external: seq<Task>
    var prepCount: int
    var ompCount: int
    var waitingPage: seq<Task>
    var awaiting: map<Task, nat>
    var regs: seq<Reg>
    var asked: seq<Request>
    var inner: seq<Task>

    constructor (n: Node, threshold: int)
      ensures State() == n && this.threshold == threshold
    {
      this.threshold, rest := threshold, n;
      external, prepCount, ompCount := n.external, n.prep, n.omp;
      waitingPage, awaiting, regs, asked, inner := n.waitingPage, n.awaiting, n.regs, n.asked, n.inner;
    }

    ghost function State(): Node
      reads this
    {
      rest.(external := external, prep := prepCount, omp := ompCount, waitingPage := waitingPage,
            awaiting := awaiting, regs := regs, asked := asked, inner := inner)
    }

    method ScheduleExternal(t: Task)
      modifies this`external
      ensures external == [t] + old(external)
    {
      external := [t] + external;
    }

    method ScheduleInnerTask(t: Task)
      modifies this`ompCount, this`inner
      ensures ompCount == old(ompCount) + 1 && inner == old(inner) + [t]
    {
      ompCount := ompCount + 1;
      inner := inner + [t];
    }

    /** The loop of `steal_tasks`. */
    method StealInto(amount: nat) returns (buffer: seq<Task>)
      modifies this`external
      ensures var r := StealTasks(old(external), amount); buffer == r.0 && external == r.1
    {
      buffer := [];
      var i := 0;
      while i < amount
        invariant 0 <= i <= amount
        invariant buffer + StealTasks(external, amount - i).0 == StealTasks(old(external), amount).0
        invariant StealTasks(external, amount - i).1 == StealTasks(old(external), amount).1
      {
        if external == [] {
          assert StealTasks(external, amount - i).0 == [] && buffer + [] == buffer;
          return;
        }
        ghost var r := StealTasks(external, amount - i);
        buffer := buffer + [external[|external| - 1]];
        external := external[..|external| - 1];
        i := i + 1;
        assert buffer + StealTasks(external, amount - i).0 == buffer[..|buffer| - 1] + r.0;
      }
    }

    /** The first loop of `prepare_ressources`: how many arguments the task must wait for. */
    static method CountWork(args: seq<Arg>) returns (work: nat)
      ensures work == |Unready(args)|
    {
      AwaitedIsUnready(args);
      work := 0;
      var i := 0;
      while i < |args|
        invariant 0 <= i <= |args| && work == |Awaited(args[..i])|
      {
        assert args[..i + 1][..i] == args[..i];
        if args[i].kind == RFrame {
          if !args[i].ready { work := work + 1; }
        } else if args[i].kind == RWFrame {
          if !args[i].ready { work := work + 1; }
        }
        i := i + 1;
      }
      assert args[..i] == args;
    }

    /** The second loop: for each of them a request and a registration, counted again. */
    method RegisterWork(args: seq<Arg>, t: Task) returns (recount: nat)
      modifies this`regs, this`asked
      ensures regs == old(regs) + Registrations(Awaited(args), t) && asked == old(asked) + Requests(Awaited(args))
      ensures AsksFor(args, t, regs[|old(regs)|..], asked[|old(asked)|..]) && recount == |Unready(args)|
    {
      recount := 0;
      var i := 0;
      while i < |args|
        invariant 0 <= i <= |args| && recount == |Awaited(args[..i])|
        invariant regs == old(regs) + Registrations(Awaited(args[..i]), t)
        invariant asked == old(asked) + Requests(Awaited(args[..i]))
      {
        assert args[..i + 1][..i] == args[..i];
        ghost var before := Awaited(args[..i]);
        if args[i].kind == RFrame {
          if !args[i].ready {
            WorkSnoc(before, Want(ForData, args[i].page), t);
            RequestPageData(args[i].page);
            RegisterForArrival(Want(ForData, args[i].page), t);
            recount := recount + 1;
          }
        }
        if args[i].kind == RWFrame {
          if !args[i].ready {
            WorkSnoc(before, Want(ForWrite, args[i].page), t);
            RequestPageResp(args[i].page);
            RegisterForArrival(Want(ForWrite, args[i].page), t);
            recount := recount + 1;
          }
        }
        i := i + 1;
      }
      assert args[..i] == args;
      AwaitedIsUnready(args);
      WorkAsksFor(args, t);
      assert regs[|old(regs)|..] == Registrations(Awaited(args), t);
      assert asked[|old(asked)|..] == Requests(Awaited(args));
    }

    method RequestPageData(page: nat)
      modifies this`asked
      ensures asked == old(asked) + [DataOf(page)]
    {
      asked := asked + [DataOf(page)];
    }

    method RequestPageResp(page: nat)
      modifies this`asked
      ensures asked == old(asked) + [RespOf(page)]
    {
      asked := asked + [RespOf(page)];
    }

    /** `register_for_data_arrival` and `register_for_write_arrival`. */
    method RegisterForArrival(w: Want, t: Task)
      modifies this`regs
      ensures regs == old(regs) + [Reg(w, t)]
    {
      regs := regs + [Reg(w, t)];
    }

    /** In the delegator nothing comes between the two counts, so the check that they agree cannot fire. */
    method PrepareRessources(t: Task, sight: Sight)
      modifies this`waitingPage, this`awaiting, this`regs, this`asked, this`inner, this`ompCount
      ensures State() == Prepare(old(State()), t, sight.available, sight.args)
      ensures Prepared(old(State()), t, sight.available, sight.args, State())
    {
      PrepareMeans(State(), t, sight.available, sight.args);
      AwaitedIsUnready(sight.args);
      if !sight.available {
        waitingPage, asked := waitingPage + [t], asked + [OwnPage(t)];
        return;
      }
      var work := CountWork(sight.args);
      if work == 0 {
        ScheduleInnerTask(t);
        return;
      }
      awaiting := awaiting[t := work];
      var recount := RegisterWork(sight.args, t);
      assert recount == work && awaiting == old(awaiting)[t := |Awaited(sight.args)|];
    }

    method ScheduleGlobal(t: Task, sight: Sight)
      modifies this
      ensures State() == Give(old(State()), t, sight, threshold)
      ensures old(prepCount) > threshold ==> State() == old(State()).(external := [t] + old(external))
      ensures old(prepCount) <= threshold ==>
        Prepared(old(State()).(prep := old(prepCount) + 1), t, sight.available, sight.args, State())
    {
      if prepCount > threshold {
        ScheduleExternal(t);
      } else {
        prepCount := prepCount + 1;
        PrepareRessources(t, sight);
      }
    }

    /** `steal_and_process`: the node takes back some of its own external tasks, unless the amount is insane. */
    method StealAndProcess(amount: int, sights: Task -> Sight) returns (sane: bool)
      modifies this
      ensures sane <==> 0 <= amount <= 1000
      ensures !sane ==> State() == old(State())
      ensures sane ==> var r := StealTasks(old(external), amount);
        State() == GiveAll(old(State()).(external := r.1), r.0, sights, threshold)
      ensures sane ==> TookBack(old(State()), amount, sights, threshold, State())
    {
      sane := 0 <= amount <= 1000;
      if !sane { return; }
      var buffer := StealInto(amount);
      ghost var n := State();
      var i := 0;
      assert buffer[..0] == [];
      while i < |buffer|
        invariant 0 <= i <= |buffer| && State() == GiveAll(n, buffer[..i], sights, threshold)
      {
        assert buffer[..i + 1][..i] == buffer[..i];
        ScheduleGlobal(buffer[i], sights(buffer[i]));
        i := i + 1;
      }
      assert buffer[..i] == buffer;
      StolenAreAdmitted(old(State()), amount, sights, threshold);
    }

    /** One event for t: its closure counts down, and at zero hands t on. */
    method CountDown(t: Task)
      modifies this`awaiting, this`inner, this`ompCount
      ensures State() == Arrived(old(State()), t)
    {
      if t !in awaiting { return; }
      if awaiting[t] == 1 {
        awaiting := awaiting - {t};
        ScheduleInnerTask(t);
      } else {
        awaiting := awaiting[t := if awaiting[t] > 0 then awaiting[t] - 1 else 0];
      }
    }

    /** The loop of `signal_evt` over the closures under one key, which are then erased. */
    method SignalArrival(w: Want)
      modifies this`awaiting, this`inner, this`ompCount, this`regs
      ensures State() == Signal(old(State()), w)
    {
      var cs := Under(regs, w);
      ghost var n := State();
      var i := 0;
      assert cs[0..] == cs;
      while i < |cs|
        invariant 0 <= i <= |cs| && regs == n.regs
        invariant ArrivedAll(State(), cs[i..]) == ArrivedAll(n, cs)
      {
        assert cs[i..][0] == cs[i] && cs[i..][1..] == cs[i + 1..];
        CountDown(cs[i]);
        i := i + 1;
      }
      EraseLater(n, cs, Others(n.regs, w));
      regs := Others(regs, w);
    }

    /** What `onRespTransfer` signals. */
    method SignalRespTransfer(p: nat)
      modifies this`awaiting, this`inner, this`ompCount, this`regs
      ensures State() == RespArrives(old(State()), p)
    {
      SignalArrival(Want(ForData, p));
      SignalArrival(Want(ForWrite, p));
    }
  }
}
