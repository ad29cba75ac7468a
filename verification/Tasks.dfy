/** The life of tasks across the nodes of `src/scheduler.cpp`: tdecs bring a frame's counter to zero, which gives the
    frame to `schedule_global`; the node admits it or puts it on its external list; an admitted task is prepared,
    queued and run; an external one may be stolen, by another node or by its own, and is given again there.

    The check of the task count and its increment are separate steps of a thread, so any number of threads may be
    between the two.  Posted closures run in any order.  Whether a page is there is up to the environment, which
    answers afresh each time a task is prepared.  A task that waits for a page to read is registered apart from one
    that waits for responsibility, as data and responsibility arrive in different messages.

    The inner queue keeps a task until a thread starts it, unless the deque underneath drops it: with `exact` it
    never does, otherwise any queued task may be dropped (`WorkStealing` says when that happens). */
module Tasks {

  /** A node starts with a root task; every other task is a frame. */
  datatype Task = Root(node: nat) | Frame(id: nat)

  /** An argument: what it is, its page, and whether the page is there (for RW_FRAME, whether the node is RESP). */
  datatype Kind = RFrame | WFrame | RWFrame | DataArg

  datatype Arg = Arg(kind: Kind, page: nat, ready: bool)

  /** What a task waits for at a page: the data (R_FRAME), or the responsibility (RW_FRAME). */
  datatype Mode = ForData | ForWrite

  datatype Want = Want(mode: Mode, page: nat)

  /** A closure registered in `data_arrived_mapper` or `write_arrived_mapper`. */
  datatype Reg = Reg(want: Want, task: Task)

  /** The messages a preparation sends: for the frame's own page, `request_page_data`, `request_page_resp`. */
  datatype Request = OwnPage(task: Task) | DataOf(page: nat) | RespOf(page: nat)

  /** Where a thread stands in `schedule_global`. */
  datatype Call = NoCall | Checking(t: Task) | Admitting(t: Task) | Posting(t: Task) | Refusing(t: Task)

  /** A thread, and the stolen tasks it has yet to give to `schedule_global`. */
  datatype Thread = Thread(call: Call, buffer: seq<Task>)

  /** A node.  `refused` and `admitted` are posted closures: `schedule_external` and `prepare_ressources`. */
  datatype Node = Node(
    external: seq<Task>, prep: int, omp: int,
    refused: seq<Task>, admitted: seq<Task>,
    waitingPage: seq<Task>,        // prepare again when the frame's own page has arrived
    awaiting: map<Task, nat>,      // gotoinnersched closures, with their counters
    regs: seq<Reg>,                // their registrations
    asked: seq<Request>,           // the requests sent, in order
    inner: seq<Task>, running: seq<Task>,
    dropped: seq<Task>,            // queued, and lost by the deque
    ending: seq<Task>,             // left the first counter, not yet the second
    done: seq<Task>,
    threads: seq<Thread>)

  // ---------------------------------------------------------------- what a node does

  /** `steal_tasks`: up to so many tasks from the back of the external list; the first component is the loot. */
  function StealTasks(external: seq<Task>, amount: nat): (r: (seq<Task>, seq<Task>))
    decreases amount
  {
    if amount == 0 || external == [] then ([], external)
    else
      var rest := StealTasks(external[..|external| - 1], amount - 1);
      ([external[|external| - 1]] + rest.0, rest.1)
  }

  function ScheduleInner(n: Node, t: Task): Node {
    n.(omp := n.omp + 1, inner := n.inner + [t])
  }

  predicate Awaits(a: Arg) { (a.kind == RFrame || a.kind == RWFrame) && !a.ready }

  function WantOf(a: Arg): Want { Want(if a.kind == RFrame then ForData else ForWrite, a.page) }

  /** What a task waits for, argument by argument. */
  function Awaited(args: seq<Arg>): seq<Want> {
    if args == [] then []
    else Awaited(args[..|args| - 1]) + (if Awaits(args[|args| - 1]) then [WantOf(args[|args| - 1])] else [])
  }

  function Registrations(wants: seq<Want>, t: Task): seq<Reg> {
    seq(|wants|, i requires 0 <= i < |wants| => Reg(wants[i], t))
  }

  function RequestOf(w: Want): Request { if w.mode == ForData then DataOf(w.page) else RespOf(w.page) }

  function Requests(wants: seq<Want>): seq<Request> {
    seq(|wants|, i requires 0 <= i < |wants| => RequestOf(wants[i]))
  }

  /** `prepare_ressources`. */
  function Prepare(n: Node, t: Task, available: bool, args: seq<Arg>): Node {
    if !available then n.(waitingPage := n.waitingPage + [t], asked := n.asked + [OwnPage(t)])
    else if Awaited(args) == [] then ScheduleInner(n, t)
    else
      n.(awaiting := n.awaiting[t := |Awaited(args)|], regs := n.regs + Registrations(Awaited(args), t),
         asked := n.asked + Requests(Awaited(args)))
  }

  /** `Closure::tdec` on a gotoinnersched closure. */
  function Arrived(n: Node, t: Task): Node {
    if t !in n.awaiting then n
    else if n.awaiting[t] == 1 then ScheduleInner(n.(awaiting := n.awaiting - {t}), t)
    else n.(awaiting := n.awaiting[t := if n.awaiting[t] > 0 then n.awaiting[t] - 1 else 0])
  }

  function ArrivedAll(n: Node, ts: seq<Task>): Node
    decreases |ts|
  {
    if ts == [] then n else ArrivedAll(Arrived(n, ts[0]), ts[1..])
  }

  function Under(regs: seq<Reg>, w: Want): seq<Task> {
    if regs == [] then []
    else Under(regs[..|regs| - 1], w) + (if regs[|regs| - 1].want == w then [regs[|regs| - 1].task] else [])
  }

  function Others(regs: seq<Reg>, w: Want): seq<Reg> {
    if regs == [] then []
    else Others(regs[..|regs| - 1], w) + (if regs[|regs| - 1].want == w then [] else [regs[|regs| - 1]])
  }

  /** `signal_evt`: every closure registered under the key counts one event, in registration order. */
  function Signal(n: Node, w: Want): Node {
    ArrivedAll(n.(regs := Others(n.regs, w)), Under(n.regs, w))
  }

  /** `onDataMessage` signals the data. */
  function DataArrives(n: Node, p: nat): Node { Signal(n, Want(ForData, p)) }

  /** `onRespTransfer` signals the data, and then the write access. */
  function RespArrives(n: Node, p: nat): Node { Signal(Signal(n, Want(ForData, p)), Want(ForWrite, p)) }

  /** The next atomic access of thread j in `schedule_global`, or its next stolen task. */
  function ThreadStep(n: Node, j: nat, threshold: int): Node {
    if j >= |n.threads| then n
    else
      var th := n.threads[j];
      match th.call
      case NoCall =>
        if th.buffer == [] then n else n.(threads := n.threads[j := Thread(Checking(th.buffer[0]), th.buffer[1..])])
      case Checking(t) =>
        n.(threads := n.threads[j := th.(call := if n.prep > threshold then Refusing(t) else Admitting(t))])
      case Admitting(t) => n.(prep := n.prep + 1, threads := n.threads[j := th.(call := Posting(t))])
      case Posting(t) => n.(admitted := n.admitted + [t], threads := n.threads[j := th.(call := NoCall)])
      case Refusing(t) => n.(refused := n.refused + [t], threads := n.threads[j := th.(call := NoCall)])
  }

  function Without<T>(xs: seq<T>, k: nat): seq<T>
    requires k < |xs|
  {
    xs[..k] + xs[k + 1..]
  }

  // ---------------------------------------------------------------- the system

  /** A frame's counter; `initial`, and the tdecs issued and applied so far, are history. */
  datatype Counter = Counter(sc: int, initial: int, issued: int, applied: int)

  datatype Mail = Mail(to: nat, tasks: seq<Task>)

  /** `given` is history: every call of `schedule_global` by a tdec, and the root tasks. */
  datatype State = State(
    nodes: seq<Node>, net: seq<Mail>, frames: map<nat, Counter>, tdecs: multiset<nat>,
    negative: bool, given: multiset<Task>)

  datatype Config = Config(numNodes: nat, threads: nat, threshold: nat, exact: bool)

  function InitNode(c: Config, i: nat): Node {
    Node([], 1, 1, [], [], [], map[], [], [], [], [Root(i)], [], [], [], seq(c.threads, _ => Thread(NoCall, [])))
  }

  function Roots(k: nat): multiset<Task> { if k == 0 then multiset{} else Roots(k - 1) + multiset{Root(k - 1)} }

  function Init(c: Config): State {
    State(seq(c.numNodes, i requires 0 <= i => InitNode(c, i)), [], map[], multiset{}, false, Roots(c.numNodes))
  }

  datatype Choice =
    | Create(f: nat, sc: nat)
    | TDecHere(f: nat, i: nat, j: nat)            // the frame's page is RESP here
    | TDecAway(f: nat)                            // a TDec message
    | ApplyTDec(f: nat, i: nat, j: nat)           // it reaches the RESP node, forwarded or not
    | Move(i: nat, j: nat)                        // thread j of node i goes on
    | RunExternal(i: nat, k: nat)
    | RunPrepare(i: nat, k: nat, available: bool, args: seq<Arg>)
    | OwnPageArrives(i: nat, k: nat, available: bool, args: seq<Arg>)
    | DataArrival(i: nat, p: nat)
    | RespArrival(i: nat, p: nat)
    | Start(i: nat, k: nat)
    | Drop(i: nat, k: nat)                        // the deque loses a task
    | LeavePrep(i: nat, k: nat)
    | LeaveOmp(i: nat, k: nat)
    | Steal(i: nat, thief: nat, amount: nat)      // onStealMessage at node i
    | TakeLoot(k: nat, j: nat)                    // onStolenMessage
    | StealOwn(i: nat, j: nat, amount: nat)       // steal_and_process

  predicate Free(s: State, i: nat, j: nat) {
    i < |s.nodes| && j < |s.nodes[i].threads| && s.nodes[i].threads[j] == Thread(NoCall, [])
  }

  function Put(s: State, i: nat, n: Node): State
    requires i < |s.nodes|
  {
    s.(nodes := s.nodes[i := n])
  }

  /** `__sync_sub_and_fetch(&sc, 1)`, and `schedule_global` if it comes to zero. */
  function Apply(s: State, f: nat, i: nat, j: nat): State
    requires f in s.frames && Free(s, i, j)
  {
    var x := s.frames[f];
    var s1 := s.(frames := s.frames[f := x.(sc := x.sc - 1, applied := x.applied + 1)]);
    if x.sc - 1 < 0 then s1.(negative := true)
    else if x.sc - 1 == 0 then
      var n := s.nodes[i];
      Put(s1.(given := s1.given + multiset{Frame(f)}), i, n.(threads := n.threads[j := Thread(Checking(Frame(f)), [])]))
    else s1
  }

  function Issue(s: State, f: nat): State
    requires f in s.frames
  {
    s.(frames := s.frames[f := s.frames[f].(issued := s.frames[f].issued + 1)])
  }

  function Step(c: Config, s: State, ch: Choice): State {
    if s.negative then s
    else
      match ch
      case Create(f, sc) => if f in s.frames then s else s.(frames := s.frames[f := Counter(sc, sc, 0, 0)])
      case TDecHere(f, i, j) => if f !in s.frames || !Free(s, i, j) then s else Apply(Issue(s, f), f, i, j)
      case TDecAway(f) => if f !in s.frames then s else Issue(s, f).(tdecs := s.tdecs + multiset{f})
      case ApplyTDec(f, i, j) =>
        if f !in s.tdecs || f !in s.frames || !Free(s, i, j) then s
        else Apply(s.(tdecs := s.tdecs - multiset{f}), f, i, j)
      case Steal(i, thief, amount) =>
        if i >= |s.nodes| || thief >= |s.nodes| then s
        else
          var r := StealTasks(s.nodes[i].external, amount);
          Put(s, i, s.nodes[i].(external := r.1)).(net := s.net + [Mail(thief, r.0)])
      case TakeLoot(k, j) =>
        if k >= |s.net| || !Free(s, s.net[k].to, j) then s
        else
          var m := s.net[k];
          var n := s.nodes[m.to];
          Put(s, m.to, n.(threads := n.threads[j := Thread(NoCall, m.tasks)])).(net := Without(s.net, k))
      case _ => if ch.i >= |s.nodes| then s else Put(s, ch.i, NodeStep(c, s.nodes[ch.i], ch))
  }

  /** The closure of a refused task runs `schedule_external`. */
  function GoExternal(n: Node, k: nat): Node {
    if k >= |n.refused| then n
    else n.(refused := Without(n.refused, k), external := [n.refused[k]] + n.external)
  }

  function GoPrepare(n: Node, k: nat, available: bool, args: seq<Arg>): Node {
    if k >= |n.admitted| then n
    else Prepare(n.(admitted := Without(n.admitted, k)), n.admitted[k], available, args)
  }

  function PrepareAgain(n: Node, k: nat, available: bool, args: seq<Arg>): Node {
    if k >= |n.waitingPage| then n
    else Prepare(n.(waitingPage := Without(n.waitingPage, k)), n.waitingPage[k], available, args)
  }

  function StartTask(n: Node, k: nat): Node {
    if k >= |n.inner| then n else n.(inner := Without(n.inner, k), running := n.running + [n.inner[k]])
  }

  function DropTask(n: Node, k: nat): Node {
    if k >= |n.inner| then n else n.(inner := Without(n.inner, k), dropped := n.dropped + [n.inner[k]])
  }

  /** `after_code`: the first counter, then the second. */
  function LeaveFirst(n: Node, k: nat): Node {
    if k >= |n.running| then n
    else n.(prep := n.prep - 1, running := Without(n.running, k), ending := n.ending + [n.running[k]])
  }

  function LeaveSecond(n: Node, k: nat): Node {
    if k >= |n.ending| then n
    else n.(omp := n.omp - 1, ending := Without(n.ending, k), done := n.done + [n.ending[k]])
  }

  /** `steal_and_process`. */
  function StealFromSelf(n: Node, j: nat, amount: nat): Node {
    if j >= |n.threads| || n.threads[j] != Thread(NoCall, []) then n
    else
      var r := StealTasks(n.external, amount);
      n.(external := r.1, threads := n.threads[j := Thread(NoCall, r.0)])
  }

  /** Steps within one node. */
  function NodeStep(c: Config, n: Node, ch: Choice): Node {
    match ch
    case Move(_, j) => ThreadStep(n, j, c.threshold)
    case RunExternal(_, k) => GoExternal(n, k)
    case RunPrepare(_, k, available, args) => GoPrepare(n, k, available, args)
    case OwnPageArrives(_, k, available, args) => PrepareAgain(n, k, available, args)
    case DataArrival(_, p) => DataArrives(n, p)
    case RespArrival(_, p) => RespArrives(n, p)
    case Start(_, k) => StartTask(n, k)
    case Drop(_, k) => if c.exact then n else DropTask(n, k)
    case LeavePrep(_, k) => LeaveFirst(n, k)
    case LeaveOmp(_, k) => LeaveSecond(n, k)
    case StealOwn(_, j, amount) => StealFromSelf(n, j, amount)
    case _ => n
  }

  function After(c: Config, run: seq<Choice>): State {
    if run == [] then Init(c) else Step(c, After(c, run[..|run| - 1]), run[|run| - 1])
  }
}
