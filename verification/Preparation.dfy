/** What `prepare_ressources` of `src/scheduler.cpp` does with a task, stated place by place: where the task goes, and
    how often it asks and registers for each page.  `Tasks.Prepare` is proved to be this. */
module Preparation {
  import opened Tasks

  /** The positions of the arguments a task cannot run without: R_FRAME whose page is not there, RW_FRAME for which
      the node is not RESP. */
  ghost function Unready(args: seq<Arg>): set<nat> {
    set i: nat | i < |args| && args[i].kind in {RFrame, RWFrame} && !args[i].ready
  }

  /** Those of one kind on one page. */
  ghost function UnreadyOn(args: seq<Arg>, kind: Kind, page: nat): set<nat> {
    set i: nat | i < |args| && args[i] == Arg(kind, page, false)
  }

  /** These registrations and requests are what the task needs: for every page, the data as often as it is an unready
      R_FRAME, the responsibility as often as it is an unready RW_FRAME, and nothing else. */
  ghost predicate AsksFor(args: seq<Arg>, t: Task, regs: seq<Reg>, asked: seq<Request>) {
    && |regs| == |asked| == |Unready(args)|
    && (forall r :: r in regs ==> r.task == t)
    && forall p: nat ::
         && multiset(regs)[Reg(Want(ForData, p), t)] == multiset(asked)[DataOf(p)] == |UnreadyOn(args, RFrame, p)|
         && multiset(regs)[Reg(Want(ForWrite, p), t)] == multiset(asked)[RespOf(p)] == |UnreadyOn(args, RWFrame, p)|
  }

  /** From n to n', t has been prepared: it waits for its own page, or is queued, or waits for its arguments. */
  ghost predicate Prepared(n: Node, t: Task, available: bool, args: seq<Arg>, n': Node) {
    if !available then
      n' == n.(waitingPage := n.waitingPage + [t], asked := n.asked + [OwnPage(t)])
    else if Unready(args) == {} then
      n' == n.(omp := n.omp + 1, inner := n.inner + [t])
    else
      && n' == n.(awaiting := n.awaiting[t := |Unready(args)|], regs := n'.regs, asked := n'.asked)
      && n.regs <= n'.regs && n.asked <= n'.asked
      && AsksFor(args, t, n'.regs[|n.regs|..], n'.asked[|n.asked|..])
  }

  lemma UnreadySnoc(args: seq<Arg>, a: Arg)
    ensures Unready(args + [a]) ==
      Unready(args) + if a.kind in {RFrame, RWFrame} && !a.ready then {|args|} else {}
  {
  }

  lemma UnreadyOnSnoc(args: seq<Arg>, a: Arg, kind: Kind, page: nat)
    ensures UnreadyOn(args + [a], kind, page) ==
      UnreadyOn(args, kind, page) + if a == Arg(kind, page, false) then {|args|} else {}
  {
  }

  lemma {:induction false} AwaitedIsUnready(args: seq<Arg>)
    ensures |Awaited(args)| == |Unready(args)|
  {
    if args != [] {
      var m := |args| - 1;
      AwaitedIsUnready(args[..m]);
      UnreadySnoc(args[..m], args[m]);
      assert args == args[..m] + [args[m]];
    }
  }

  /** A page is awaited for reading or for writing as often as it is an unready argument of that kind. */
  lemma {:induction false} AwaitedOnPage(args: seq<Arg>, page: nat)
    ensures multiset(Awaited(args))[Want(ForData, page)] == |UnreadyOn(args, RFrame, page)|
    ensures multiset(Awaited(args))[Want(ForWrite, page)] == |UnreadyOn(args, RWFrame, page)|
  {
    if args != [] {
      var m := |args| - 1;
      AwaitedOnPage(args[..m], page);
      UnreadyOnSnoc(args[..m], args[m], RFrame, page);
      UnreadyOnSnoc(args[..m], args[m], RWFrame, page);
      assert args == args[..m] + [args[m]];
    }
  }

  /** The arguments are taken in order. */
  lemma {:induction false} AwaitedJoin(a: seq<Arg>, b: seq<Arg>)
    ensures Awaited(a + b) == Awaited(a) + Awaited(b)
    decreases |b|
  {
    if b == [] {
      assert a + b == a;
    } else {
      var m := |b| - 1;
      assert (a + b)[..|a| + m] == a + b[..m];
      AwaitedJoin(a, b[..m]);
    }
  }

  lemma WorkSnoc(wants: seq<Want>, w: Want, t: Task)
    ensures Registrations(wants + [w], t) == Registrations(wants, t) + [Reg(w, t)]
    ensures Requests(wants + [w]) == Requests(wants) + [RequestOf(w)]
  {
  }

  lemma {:induction false} WorkCounts(wants: seq<Want>, t: Task, page: nat)
    ensures multiset(Registrations(wants, t))[Reg(Want(ForData, page), t)] == multiset(wants)[Want(ForData, page)]
    ensures multiset(Registrations(wants, t))[Reg(Want(ForWrite, page), t)] == multiset(wants)[Want(ForWrite, page)]
    ensures multiset(Requests(wants))[DataOf(page)] == multiset(wants)[Want(ForData, page)]
    ensures multiset(Requests(wants))[RespOf(page)] == multiset(wants)[Want(ForWrite, page)]
  {
    if wants != [] {
      var m := |wants| - 1;
      WorkCounts(wants[..m], t, page);
      WorkSnoc(wants[..m], wants[m], t);
      assert wants == wants[..m] + [wants[m]];
    }
  }

  /** What the second loop of `prepare_ressources` registers and requests. */
  lemma WorkAsksFor(args: seq<Arg>, t: Task)
    ensures AsksFor(args, t, Registrations(Awaited(args), t), Requests(Awaited(args)))
  {
    AwaitedIsUnready(args);
    forall p: nat
      ensures multiset(Registrations(Awaited(args), t))[Reg(Want(ForData, p), t)]
           == multiset(Requests(Awaited(args)))[DataOf(p)] == |UnreadyOn(args, RFrame, p)|
      ensures multiset(Registrations(Awaited(args), t))[Reg(Want(ForWrite, p), t)]
           == multiset(Requests(Awaited(args)))[RespOf(p)] == |UnreadyOn(args, RWFrame, p)|
    {
      WorkCounts(Awaited(args), t, p);
      AwaitedOnPage(args, p);
    }
  }

  /** Preparing a task puts it in the right place, and asks for exactly what it needs. */
  lemma PrepareMeans(n: Node, t: Task, available: bool, args: seq<Arg>)
    ensures Prepared(n, t, available, args, Prepare(n, t, available, args))
  {
    AwaitedIsUnready(args);
    WorkAsksFor(args, t);
    var n' := Prepare(n, t, available, args);
    if available && Unready(args) != {} {
      assert n'.regs[|n.regs|..] == Registrations(Awaited(args), t);
      assert n'.asked[|n.asked|..] == Requests(Awaited(args));
    }
  }
}
