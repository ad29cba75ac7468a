/** The delegation lock of `src/delegator.hpp` running on the MPSC queue of `src/mpsc.h`, step by step.

    Any number of threads call `delegate`.  Each step performs one access to shared memory: the XCHG on
    `head` and the store that links the node are two steps, and so are the reads of `tail->next`.  Nodes live
    in a heap whose addresses may be reused after `delete`; a step that would touch a deleted node sets
    `fault` instead.  Nothing in the steps assumes a single consumer: that there is one is a theorem.

    A run is a finite schedule of choices; all theorems quantify over every schedule. */
module Delegation {

  const NULL: nat := 0
  const STUB: nat := 1

  /** `node_t`; closures are named by integers. */
  datatype Node = Node(next: nat, value: int)

  /** Where a thread stands: outside, pushing, taking its ticket, or combining. */
  datatype Pc =
    | Out
    | Xchg(n: nat)
    | Link(n: nat, prev: nat)
    | Ticket
    | PopTail
    | PopNext(t: nat)
    | PopSkip(nx: nat)
    | PopNext2(t: nat)
    | PopAdv(t: nat, nx: nat)
    | PopVal(t: nat)
    | PopDel(t: nat, v: int)
    | PopHead(t: nat)
    | StubZero(t: nat)
    | StubXchg(t: nat)
    | StubLink(t: nat, prev: nat)
    | PopNext3(t: nat)
    | Exec(v: int)
    | Sub
  {
    /** Inside the do-while loop of `delegate`. */
    predicate Combining() { !Out? && !Xchg? && !Link? && !Ticket? }

    /** The closure of the current turn has been popped. */
    predicate Holding() { PopVal? || PopDel? || Exec? || Sub? }
  }

  /** The queue.  `chain`, `succ` and `pend` are history: the nodes from `tail` to `head` in XCHG order, each
      node's successor in that order, and for each node whose `next` is still unset the thread that will set it. */
  datatype Mem = Mem(nodes: map<nat, Node>, head: nat, tail: nat,
                     chain: seq<nat>, succ: map<nat, nat>, pend: map<nat, nat>)

  /** History: closures in XCHG order, how many have been popped, closures in execution order, turns completed,
      closures delegated from inside a closure, and whether some push was half linked at some moment of the
      current pop. */
  datatype History = History(order: seq<int>, popped: nat, ran: seq<int>, done: nat, inlined: seq<int>, gap: bool)

  datatype State = State(
    mem: Mem, counter: int, inDelegator: set<nat>, pcs: map<nat, Pc>, fault: bool, h: History)

  const Init := State(
    Mem(map[STUB := Node(NULL, 0)], STUB, STUB, [STUB], map[], map[]),
    0, {}, map[], false, History([], 0, [], 0, [], false))

  function PcOf(s: State, i: nat): Pc {
    if i in s.pcs then s.pcs[i] else Out
  }

  /** What a moving thread does when it has a choice: call `delegate(c)`, with `new` returning `addr`, or go on. */
  datatype Call = Delegate(c: int, addr: nat) | Continue

  datatype Choice = Choice(i: nat, call: Call)

  // ---------------------------------------------------------------- steps

  function Next(m: Mem, a: nat): nat { if a in m.nodes then m.nodes[a].next else NULL }

  function Swap(m: Mem, n: nat, i: nat): Mem {
    m.(head := n, chain := m.chain + [n], succ := m.succ[m.head := n], pend := m.pend[m.head := i])
  }

  function SetNext(m: Mem, a: nat, n: nat): Mem {
    if a in m.nodes then m.(nodes := m.nodes[a := m.nodes[a].(next := n)], pend := m.pend - {a}) else m
  }

  function Advance(m: Mem, nx: nat): Mem {
    m.(tail := nx, chain := m.chain[if |m.chain| > 0 then 1 else 0..], succ := m.succ - {m.tail})
  }

  function At(s: State, i: nat, pc: Pc): State { s.(pcs := s.pcs[i := pc]) }

  function Touch(s: State, a: nat): State { s.(fault := s.fault || a !in s.mem.nodes) }

  /** Steps of `delegate` up to the ticket. */
  function PushStep(s: State, i: nat, call: Call): State {
    match PcOf(s, i)
    case Out =>
      (match call
       case Delegate(c, a) =>
         if i in s.inDelegator then s.(h := s.h.(inlined := s.h.inlined + [c]))
         else if a in s.mem.nodes || a < 2 then s
         else At(s, i, Xchg(a)).(mem := s.mem.(nodes := s.mem.nodes[a := Node(NULL, c)]))
       case Continue => s)
    case Xchg(n) =>
      if n in s.mem.nodes then
        At(s, i, Link(n, s.mem.head)).(mem := Swap(s.mem, n, i), h := s.h.(order := s.h.order + [s.mem.nodes[n].value]))
      else Touch(s, n)
    case Link(n, prev) => At(Touch(s, prev), i, Ticket).(mem := SetNext(s.mem, prev, n))
    case Ticket =>
      if s.counter == 0 then
        At(s, i, PopTail).(counter := s.counter + 1, inDelegator := s.inDelegator + {i})
      else At(s, i, Out).(counter := s.counter + 1)
    case _ => s
  }

  /** Steps of `pop`.  Going back to `PopTail` is returning null: the caller spins. */
  function PopStep(s: State, i: nat): State {
    match PcOf(s, i)
    case PopTail => At(s, i, PopNext(s.mem.tail))
    case PopNext(t) =>
      var nx := Next(s.mem, t);
      At(Touch(s, t), i,
        if t == STUB then (if nx == NULL then PopTail else PopSkip(nx))
        else if nx != NULL then PopAdv(t, nx) else PopHead(t))
    case PopSkip(nx) => At(s, i, PopNext2(nx)).(mem := Advance(s.mem, nx))
    case PopNext2(t) =>
      var nx := Next(s.mem, t);
      At(Touch(s, t), i, if nx != NULL then PopAdv(t, nx) else PopHead(t))
    case PopAdv(t, nx) => At(s, i, PopVal(t)).(mem := Advance(s.mem, nx), h := s.h.(popped := s.h.popped + 1))
    case PopVal(t) =>
      At(Touch(s, t), i, PopDel(t, if t in s.mem.nodes then s.mem.nodes[t].value else 0))
    case PopDel(t, v) =>
      At(Touch(s, t), i, Exec(v)).(mem := s.mem.(nodes := s.mem.nodes - {t}), h := s.h.(ran := s.h.ran + [v]))
    case PopHead(t) => At(s, i, if t != s.mem.head then PopTail else StubZero(t))
    case StubZero(t) =>
      At(Touch(s, STUB), i, StubXchg(t)).(mem :=
        if STUB in s.mem.nodes then s.mem.(nodes := s.mem.nodes[STUB := s.mem.nodes[STUB].(next := NULL)]) else s.mem)
    case StubXchg(t) => At(s, i, StubLink(t, s.mem.head)).(mem := Swap(s.mem, STUB, i))
    case StubLink(t, prev) => At(Touch(s, prev), i, PopNext3(t)).(mem := SetNext(s.mem, prev, STUB))
    case PopNext3(t) =>
      var nx := Next(s.mem, t);
      At(Touch(s, t), i, if nx != NULL then PopAdv(t, nx) else PopTail)
    case _ => s
  }

  /** Running the closure, during which nested calls of `delegate` run inline, and giving the turn back. */
  function RunStep(s: State, i: nat, call: Call): State {
    match PcOf(s, i)
    case Exec(v) =>
      (match call
       case Delegate(c, _) =>
         if i in s.inDelegator then s.(h := s.h.(inlined := s.h.inlined + [c])) else s.(fault := true)
       case Continue => At(s, i, Sub))
    case Sub =>
      if s.counter - 1 != 0 then At(s, i, PopTail).(counter := s.counter - 1, h := s.h.(done := s.h.done + 1))
      else At(s, i, Out).(counter := s.counter - 1, h := s.h.(done := s.h.done + 1), inDelegator := s.inDelegator - {i})
    case _ => s
  }

  function Move(s: State, i: nat, call: Call): State {
    if !PcOf(s, i).Combining() then PushStep(s, i, call)
    else if PcOf(s, i).Exec? || PcOf(s, i).Sub? then RunStep(s, i, call)
    else PopStep(s, i)
  }

  /** Some thread is between its XCHG and the store that links its node. */
  ghost predicate HalfLinked(s: State) {
    exists i :: i in s.pcs && s.pcs[i].Link?
  }

  ghost function Step(s: State, c: Choice): State {
    var s' := Move(s, c.i, c.call);
    s'.(h := s'.h.(gap := (s.h.gap && !PcOf(s, c.i).PopTail?) || HalfLinked(s')))
  }

  ghost function After(run: seq<Choice>): State {
    if run == [] then Init else Step(After(run[..|run| - 1]), run[|run| - 1])
  }

  // ---------------------------------------------------------------- the chain

  ghost predicate Distinct(chain: seq<nat>) {
    forall i, j :: 0 <= i < j < |chain| ==> chain[i] != chain[j]
  }

  /** `succ` is the successor relation of `chain`, which leads from `tail` to `head`. */
  ghost predicate Path(m: Mem) {
    && |m.chain| >= 1 && m.chain[0] == m.tail && m.chain[|m.chain| - 1] == m.head
    && (forall i {:trigger m.succ[m.chain[i]]} {:trigger m.chain[i] in m.succ} ::
         0 <= i < |m.chain| - 1 ==> m.chain[i] in m.succ && m.succ[m.chain[i]] == m.chain[i + 1])
    && (forall a :: a in m.succ ==> a in m.chain && a != m.head)
  }

  /** The `next` fields follow `succ`, except at the pending nodes, where they are still null. */
  ghost predicate Nexts(m: Mem) {
    && (forall a :: a in m.pend ==> a in m.succ)
    && (forall a :: a in m.succ ==> a in m.nodes && m.nodes[a].next == if a in m.pend then NULL else m.succ[a])
    && m.head in m.nodes && m.nodes[m.head].next == NULL
    && STUB in m.nodes && NULL !in m.nodes
  }

  /** The chain from `tail` to `head` visits every node once and is broken exactly at the pending nodes. */
  ghost predicate Linked(m: Mem) {
    Distinct(m.chain) && Path(m) && Nexts(m)
  }

  lemma InChain(m: Mem, a: nat)
    requires Path(m) && a in m.chain
    ensures a == m.head || a in m.succ
  {
    var k :| 0 <= k < |m.chain| && m.chain[k] == a;
    if k < |m.chain| - 1 { assert m.chain[k] in m.succ; }
  }

  lemma DistinctSnoc(chain: seq<nat>, n: nat)
    requires Distinct(chain) && n !in chain
    ensures Distinct(chain + [n])
  {
  }

  lemma DistinctTail(chain: seq<nat>)
    requires Distinct(chain) && chain != []
    ensures Distinct(chain[1..]) && chain[0] !in chain[1..]
  {
  }

  lemma SwapPath(m: Mem, n: nat, i: nat)
    requires Path(m) && n !in m.chain
    ensures Path(Swap(m, n, i))
  {
    var m' := Swap(m, n, i);
    assert m'.chain[..|m.chain|] == m.chain;
    assert m.head in m.chain && m.head !in m.succ;
    forall k | 0 <= k < |m'.chain| - 1 ensures m'.chain[k] in m'.succ && m'.succ[m'.chain[k]] == m'.chain[k + 1] {
      if k < |m.chain| - 1 {
        assert m'.chain[k] == m.chain[k] && m.chain[k] in m.succ && m'.chain[k + 1] == m.chain[k + 1];
      }
    }
    forall a | a in m'.succ ensures a in m'.chain && a != m'.head {
      assert a in m.chain;
    }
  }

  lemma SwapLinks(m: Mem, n: nat, i: nat)
    requires Linked(m) && n in m.nodes && n !in m.chain && m.nodes[n].next == NULL
    ensures Linked(Swap(m, n, i))
  {
    DistinctSnoc(m.chain, n);
    SwapPath(m, n, i);
  }

  lemma SetNextLinks(m: Mem, a: nat, n: nat)
    requires Linked(m) && a in m.pend && m.succ[a] == n
    ensures Linked(SetNext(m, a, n))
  {
    assert a != m.head;
  }

  lemma AdvancePath(m: Mem, nx: nat)
    requires Path(m) && m.tail in m.succ && nx == m.succ[m.tail] && m.tail !in m.chain[1..]
    ensures Path(Advance(m, nx)) && |m.chain| >= 2 && Advance(m, nx).chain == m.chain[1..] && m.chain[1] == nx
  {
    assert |m.chain| >= 2 by {
      assert m.tail != m.head;
    }
    var m' := Advance(m, nx);
    assert m.chain == [m.tail] + m'.chain;
    assert m.chain[0] in m.succ;
    forall k | 0 <= k < |m'.chain| - 1 ensures m'.chain[k] in m'.succ && m'.succ[m'.chain[k]] == m'.chain[k + 1] {
      assert m'.chain[k] == m.chain[k + 1] && m'.chain[k + 1] == m.chain[k + 2] && m.chain[k + 1] in m.succ;
    }
  }

  lemma AdvanceLinks(m: Mem, nx: nat)
    requires Linked(m) && m.tail in m.succ && m.tail !in m.pend && nx == m.succ[m.tail]
    ensures Linked(Advance(m, nx)) && |m.chain| >= 2 && Advance(m, nx).chain == m.chain[1..] && m.chain[1] == nx
    ensures m.tail !in m.chain[1..]
  {
    DistinctTail(m.chain);
    AdvancePath(m, nx);
  }

  /** Writing to, or deleting, a node outside the chain. */
  lemma OutsideLinks(m: Mem, m': Mem)
    requires Linked(m) && m' == m.(nodes := m'.nodes) && STUB in m'.nodes && NULL !in m'.nodes
    requires forall a :: a in m.chain ==> a in m'.nodes && m'.nodes[a] == m.nodes[a]
    ensures Linked(m')
  {
    assert m.head in m.chain;
  }

  /** The closures in the chain, in order; the stub carries none. */
  ghost function Vals(nodes: map<nat, Node>, chain: seq<nat>): seq<int> {
    if chain == [] then []
    else (if chain[0] == STUB || chain[0] !in nodes then [] else [nodes[chain[0]].value]) + Vals(nodes, chain[1..])
  }

  lemma {:induction false} ValsFrame(nodes: map<nat, Node>, nodes': map<nat, Node>, chain: seq<nat>)
    requires forall a :: a in chain && a in nodes ==> a in nodes' && nodes'[a].value == nodes[a].value
    requires forall a :: a in chain ==> a in nodes
    ensures Vals(nodes', chain) == Vals(nodes, chain)
  {
    if chain != [] { ValsFrame(nodes, nodes', chain[1..]); }
  }

  lemma {:induction false} ValsSnoc(nodes: map<nat, Node>, chain: seq<nat>, n: nat)
    ensures Vals(nodes, chain + [n]) == Vals(nodes, chain) + Vals(nodes, [n])
  {
    if chain != [] {
      assert (chain + [n])[1..] == chain[1..] + [n];
      ValsSnoc(nodes, chain[1..], n);
    }
  }

  // ---------------------------------------------------------------- the invariant

  /** The combining threads are the ones whose flag is set; there is at most one, and one exactly when the
      ticket counter is positive. */
  ghost predicate BossOk(s: State) {
    && (forall i :: i in s.inDelegator <==> PcOf(s, i).Combining())
    && (forall i, j :: i in s.inDelegator && j in s.inDelegator ==> i == j)
    && 0 <= s.counter && (s.counter > 0 <==> s.inDelegator != {})
  }

  /** Whoever owes a link is recorded in `pend`, and the other way round. */
  ghost predicate PendOk(s: State) {
    && (forall a :: a in s.mem.pend ==>
         && a in s.mem.succ && s.mem.pend[a] in s.pcs
         && (s.pcs[s.mem.pend[a]] == Link(s.mem.succ[a], a)
             || (s.pcs[s.mem.pend[a]].StubLink? && s.pcs[s.mem.pend[a]].prev == a && s.mem.succ[a] == STUB)))
    && (forall i :: i in s.pcs && s.pcs[i].Link? ==> Owes(s.mem, i, s.pcs[i].n, s.pcs[i].prev))
    && (forall i :: i in s.pcs && s.pcs[i].StubLink? ==> Owes(s.mem, i, STUB, s.pcs[i].prev))
  }

  ghost predicate Owes(m: Mem, i: nat, n: nat, prev: nat) {
    prev in m.pend && m.pend[prev] == i && prev in m.succ && m.succ[prev] == n
  }

  /** A node between its allocation and its XCHG is private to one thread. */
  ghost predicate PrivateOk(s: State) {
    && (forall i :: i in s.pcs && s.pcs[i].Xchg? ==> Private(s.mem, s.pcs[i].n))
    && (forall i, j :: i in s.pcs && j in s.pcs && i != j && s.pcs[i].Xchg? && s.pcs[j].Xchg? ==>
          s.pcs[i].n != s.pcs[j].n)
  }

  ghost predicate Private(m: Mem, n: nat) {
    2 <= n && n in m.nodes && n !in m.chain && m.nodes[n].next == NULL
  }

  /** A node the combiner has unlinked and is about to delete belongs to nobody else. */
  ghost predicate Detached(s: State, t: nat) {
    && 2 <= t && t in s.mem.nodes && t !in s.mem.chain
    && (forall j :: j in s.pcs && s.pcs[j].Xchg? ==> s.pcs[j].n != t)
  }

  /** What the combiner's local variables mean. */
  ghost predicate PopOk(s: State, pc: Pc) {
    var m := s.mem;
    match pc
    case PopNext(t) => t == m.tail
    case PopSkip(nx) => m.tail == STUB && STUB in m.succ && STUB !in m.pend && m.succ[STUB] == nx
    case PopNext2(t) => t == m.tail && t != STUB
    case PopAdv(t, nx) => t == m.tail && t != STUB && t in m.succ && t !in m.pend && m.succ[t] == nx
    case PopVal(t) => Detached(s, t) && 0 < s.h.popped <= |s.h.order| && m.nodes[t].value == s.h.order[s.h.popped - 1]
    case PopDel(t, v) => Detached(s, t) && 0 < s.h.popped <= |s.h.order| && v == s.h.order[s.h.popped - 1]
    case PopHead(t) => t == m.tail && t != STUB && (m.chain == [t] || s.h.gap)
    case StubZero(t) => t == m.tail && t != STUB && STUB !in m.chain
    case StubXchg(t) => t == m.tail && t != STUB && STUB !in m.chain && Next(m, STUB) == NULL
    case StubLink(t, prev) => t == m.tail && t != STUB
    case PopNext3(t) => t == m.tail && t != STUB && t in m.succ
    case _ => true
  }

  ghost predicate PopsOk(s: State) {
    STUB in s.mem.nodes && forall i :: i in s.pcs ==> PopOk(s, s.pcs[i])
  }

  /** FIFO: the chain holds the closures not yet popped, and they are run in the order they were popped. */
  ghost predicate FifoOk(s: State) {
    && s.h.popped <= |s.h.order| && Vals(s.mem.nodes, s.mem.chain) == s.h.order[s.h.popped..]
    && |s.h.ran| <= s.h.popped && s.h.ran == s.h.order[..|s.h.ran|]
    && (s.inDelegator == {} ==> |s.h.ran| == s.h.popped == s.h.done)
    && (forall i :: i in s.pcs && s.pcs[i].Combining() ==>
          && s.h.popped == |s.h.ran| + (if s.pcs[i].PopVal? || s.pcs[i].PopDel? then 1 else 0)
          && s.h.popped == s.h.done + (if s.pcs[i].Holding() then 1 else 0))
  }

  ghost function Waiting(s: State): set<nat> {
    set i | i in s.pcs && (s.pcs[i].Link? || s.pcs[i].Ticket?)
  }

  ghost predicate CountOk(s: State) {
    |s.h.order| == s.h.done + s.counter + |Waiting(s)|
  }

  /** The queue is well formed and every thread's local variables fit it. */
  ghost predicate MemInv(s: State) {
    && !s.fault && Linked(s.mem) && PendOk(s) && PrivateOk(s) && PopsOk(s)
    && (HalfLinked(s) ==> s.h.gap)
  }

  /** The lock and the two histories. */
  ghost predicate RunInv(s: State) {
    BossOk(s) && FifoOk(s) && CountOk(s)
  }

  ghost predicate Inv(s: State) {
    MemInv(s) && RunInv(s)
  }

  // ---------------------------------------------------------------- frames

  /** `s'` differs from `s` in thread i's program counter, and in whatever else the caller says. */
  ghost predicate Moved(s: State, s': State, i: nat) {
    i in s'.pcs && s'.pcs == s.pcs[i := s'.pcs[i]]
  }

  function One(b: bool): nat { if b then 1 else 0 }

  lemma WaitingMoves(s: State, s': State, i: nat)
    requires Moved(s, s', i)
    ensures |Waiting(s')| + One(PcOf(s, i).Link? || PcOf(s, i).Ticket?)
         == |Waiting(s)| + One(s'.pcs[i].Link? || s'.pcs[i].Ticket?)
  {
    assert Waiting(s') - {i} == Waiting(s) - {i};
    OneLess(Waiting(s), i);
    OneLess(Waiting(s'), i);
  }

  lemma OneLess(w: set<nat>, i: nat)
    ensures |w| == |w - {i}| + One(i in w)
  {
    if i in w { assert w == (w - {i}) + {i}; } else { assert w == w - {i}; }
  }

  lemma HalfSame(s: State, s': State, i: nat)
    requires Moved(s, s', i) && !PcOf(s, i).Link? && !s'.pcs[i].Link?
    ensures HalfLinked(s') == HalfLinked(s)
  {
    if HalfLinked(s) {
      var j :| j in s.pcs && s.pcs[j].Link?;
      assert s'.pcs[j].Link?;
    }
    if HalfLinked(s') {
      var j :| j in s'.pcs && s'.pcs[j].Link?;
      assert s.pcs[j].Link?;
    }
  }

  /** Moving a thread that neither owed a link nor owes one afterwards. */
  lemma PendKeeps(s: State, s': State, i: nat)
    requires PendOk(s) && Moved(s, s', i) && s'.mem.pend == s.mem.pend
    requires forall a :: a in s.mem.pend ==> a in s'.mem.succ && s'.mem.succ[a] == s.mem.succ[a]
    requires !PcOf(s, i).Link? && !PcOf(s, i).StubLink? && !s'.pcs[i].Link? && !s'.pcs[i].StubLink?
    ensures PendOk(s')
  {
    forall j | j in s'.pcs && s'.pcs[j].Link? ensures Owes(s'.mem, j, s'.pcs[j].n, s'.pcs[j].prev) {
      assert Owes(s.mem, j, s.pcs[j].n, s.pcs[j].prev);
    }
    forall j | j in s'.pcs && s'.pcs[j].StubLink? ensures Owes(s'.mem, j, STUB, s'.pcs[j].prev) {
      assert Owes(s.mem, j, STUB, s.pcs[j].prev);
    }
  }

  /** A thread takes on the duty to link node n behind the old head. */
  lemma PendSwap(s: State, s': State, i: nat, n: nat)
    requires PendOk(s) && Moved(s, s', i) && s'.mem == Swap(s.mem, n, i)
    requires s.mem.head !in s.mem.succ && !PcOf(s, i).Link? && !PcOf(s, i).StubLink?
    requires s'.pcs[i] == Link(n, s.mem.head)
      || (n == STUB && s'.pcs[i].StubLink? && s'.pcs[i].prev == s.mem.head)
    ensures PendOk(s')
  {
    assert s.mem.head !in s.mem.pend;
    forall j | j in s'.pcs && s'.pcs[j].Link? ensures Owes(s'.mem, j, s'.pcs[j].n, s'.pcs[j].prev) {
      if j != i { assert Owes(s.mem, j, s.pcs[j].n, s.pcs[j].prev); }
    }
    forall j | j in s'.pcs && s'.pcs[j].StubLink? ensures Owes(s'.mem, j, STUB, s'.pcs[j].prev) {
      if j != i { assert Owes(s.mem, j, STUB, s.pcs[j].prev); }
    }
  }

  /** ... and discharges it. */
  lemma PendLink(s: State, s': State, i: nat)
    requires PendOk(s) && Moved(s, s', i) && (PcOf(s, i).Link? || PcOf(s, i).StubLink?)
    requires !s'.pcs[i].Link? && !s'.pcs[i].StubLink?
    requires s'.mem.succ == s.mem.succ && s'.mem.pend == s.mem.pend - {PcOf(s, i).prev}
    ensures PendOk(s')
  {
    forall j | j in s'.pcs && s'.pcs[j].Link? ensures Owes(s'.mem, j, s'.pcs[j].n, s'.pcs[j].prev) {
      assert Owes(s.mem, j, s.pcs[j].n, s.pcs[j].prev);
    }
    forall j | j in s'.pcs && s'.pcs[j].StubLink? ensures Owes(s'.mem, j, STUB, s'.pcs[j].prev) {
      assert Owes(s.mem, j, STUB, s.pcs[j].prev);
    }
  }

  /** Private nodes survive a step that leaves nodes outside the chain alone, apart from those listed. */
  lemma PrivateKeeps(s: State, s': State, i: nat)
    requires PrivateOk(s) && Moved(s, s', i) && !s'.pcs[i].Xchg?
    requires forall n | Private(s.mem, n) && (PcOf(s, i).Xchg? ==> n != PcOf(s, i).n)
               && (PcOf(s, i).PopVal? || PcOf(s, i).PopDel? ==> n != PcOf(s, i).t) :: Private(s'.mem, n)
    requires PcOf(s, i).PopVal? || PcOf(s, i).PopDel? ==> Detached(s, PcOf(s, i).t)
    ensures PrivateOk(s')
  {
    forall j | j in s'.pcs && s'.pcs[j].Xchg? ensures Private(s'.mem, s'.pcs[j].n) {
      assert Private(s.mem, s.pcs[j].n);
    }
  }

  lemma OneCombiner(s: State, i: nat, j: nat)
    requires BossOk(s)
    ensures PcOf(s, i).Combining() && PcOf(s, j).Combining() ==> i == j
  {
    assert i in s.inDelegator <==> PcOf(s, i).Combining();
    assert j in s.inDelegator <==> PcOf(s, j).Combining();
  }

  lemma Alone(s: State, s': State, i: nat)
    requires BossOk(s) && Moved(s, s', i) && PcOf(s, i).Combining()
    ensures forall j :: j in s'.pcs && s'.pcs[j].Combining() ==> j == i
  {
    forall j | j in s'.pcs && s'.pcs[j].Combining() ensures j == i {
      OneCombiner(s, i, j);
    }
  }

  /** Only the combiner has anything to say about the popping end of the queue. */
  lemma PopsAre(s: State, s': State, i: nat)
    requires BossOk(s) && Moved(s, s', i) && STUB in s'.mem.nodes
    requires PcOf(s, i).Combining() && PopOk(s', s'.pcs[i])
    ensures PopsOk(s')
  {
    Alone(s, s', i);
  }

  /** What the combiner knows survives a step of another thread that keeps what is listed here. */
  lemma PopSurvives(s: State, s': State, pc: Pc)
    requires PopOk(s, pc) && (s.h.gap || (pc.PopHead? && s'.mem.chain != s.mem.chain) ==> s'.h.gap)
    requires s'.h.popped == s.h.popped && |s'.h.order| >= |s.h.order| && s'.h.order[..|s.h.order|] == s.h.order
    requires s'.mem.tail == s.mem.tail && (STUB in s.mem.chain || STUB !in s'.mem.chain)
    requires forall a :: a in s.mem.succ ==> a in s'.mem.succ && s'.mem.succ[a] == s.mem.succ[a]
    requires forall a :: a in s'.mem.pend ==> a in s.mem.pend || a !in s.mem.succ
    requires pc.PopVal? || pc.PopDel? ==> Detached(s', pc.t) && s'.mem.nodes[pc.t] == s.mem.nodes[pc.t]
    requires pc.StubXchg? ==> Next(s'.mem, STUB) == Next(s.mem, STUB)
    ensures PopOk(s', pc)
  {
    if pc.PopVal? || pc.PopDel? { assert s'.h.order[s.h.popped - 1] == s.h.order[..|s.h.order|][s.h.popped - 1]; }
  }

  lemma BossKeeps(s: State, s': State, i: nat)
    requires BossOk(s) && Moved(s, s', i) && s'.inDelegator == s.inDelegator && s'.counter == s.counter
    requires PcOf(s', i).Combining() == PcOf(s, i).Combining()
    ensures BossOk(s')
  {
  }

  ghost predicate SameTurn(pc: Pc, pc': Pc) {
    (pc'.PopVal? || pc'.PopDel?) == (pc.PopVal? || pc.PopDel?) && pc'.Holding() == pc.Holding()
  }

  lemma FifoKeeps(s: State, s': State, i: nat)
    requires FifoOk(s) && Moved(s, s', i)
    requires s'.h.popped == s.h.popped && s'.h.order == s.h.order && s'.h.ran == s.h.ran && s'.h.done == s.h.done
    requires s'.inDelegator == s.inDelegator
    requires Vals(s'.mem.nodes, s'.mem.chain) == Vals(s.mem.nodes, s.mem.chain)
    requires PcOf(s', i).Combining() ==>
      PcOf(s, i).Combining() && SameTurn(PcOf(s, i), PcOf(s', i))
    ensures FifoOk(s')
  {
    assert PcOf(s, i).Combining() ==> i in s.pcs && PcOf(s, i) == s.pcs[i];
  }

  /** A step that changes neither the lock nor the histories. */
  lemma RunKeeps(s: State, s': State, i: nat)
    requires RunInv(s) && Moved(s, s', i)
    requires s'.h.popped == s.h.popped && s'.h.order == s.h.order && s'.h.ran == s.h.ran && s'.h.done == s.h.done
    requires s'.inDelegator == s.inDelegator && s'.counter == s.counter
    requires Vals(s'.mem.nodes, s'.mem.chain) == Vals(s.mem.nodes, s.mem.chain)
    requires PcOf(s', i).Combining() == PcOf(s, i).Combining()
    requires PcOf(s, i).Combining() ==> SameTurn(PcOf(s, i), PcOf(s', i))
    requires (PcOf(s, i).Link? || PcOf(s, i).Ticket?) == (s'.pcs[i].Link? || s'.pcs[i].Ticket?)
    ensures RunInv(s')
  {
    BossKeeps(s, s', i);
    FifoKeeps(s, s', i);
    WaitingMoves(s, s', i);
  }

  lemma ChainLive(m: Mem)
    requires Linked(m)
    ensures forall b :: b in m.chain ==> b in m.nodes
  {
    forall b | b in m.chain ensures b in m.nodes { InChain(m, b); }
  }

  // ---------------------------------------------------------------- steps of a pushing thread

  lemma AllocLinks(m: Mem, a: nat, c: int)
    requires Linked(m) && a !in m.nodes && a >= 2
    ensures var m' := m.(nodes := m.nodes[a := Node(NULL, c)]);
      Linked(m') && Vals(m'.nodes, m.chain) == Vals(m.nodes, m.chain) && a !in m.chain
  {
    ChainLive(m);
    var m' := m.(nodes := m.nodes[a := Node(NULL, c)]);
    OutsideLinks(m, m');
    ValsFrame(m.nodes, m'.nodes, m.chain);
  }

  lemma AllocMem(s: State, i: nat, c: int, a: nat)
    requires MemInv(s) && PcOf(s, i).Out? && i !in s.inDelegator && a !in s.mem.nodes && a >= 2
    ensures MemInv(Step(s, Choice(i, Delegate(c, a))))
  {
    var s' := Step(s, Choice(i, Delegate(c, a)));
    assert s'.mem == s.mem.(nodes := s.mem.nodes[a := Node(NULL, c)]) && s'.pcs == s.pcs[i := Xchg(a)];
    AllocLinks(s.mem, a, c);
    PendKeeps(s, s', i);
    HalfSame(s, s', i);
    AllocPops(s, s', i, c, a);
  }

  lemma AllocPops(s: State, s': State, i: nat, c: int, a: nat)
    requires PopsOk(s) && a !in s.mem.nodes && s'.pcs == s.pcs[i := Xchg(a)]
    requires s'.mem == s.mem.(nodes := s.mem.nodes[a := Node(NULL, c)]) && s'.h == s.h.(gap := s'.h.gap)
      && (s.h.gap ==> s'.h.gap)
    ensures PopsOk(s')
  {
    forall j | j in s'.pcs ensures PopOk(s', s'.pcs[j]) {
      if j != i { PopSurvives(s, s', s.pcs[j]); }
    }
  }

  lemma AllocKeeps(s: State, i: nat, c: int, a: nat)
    requires Inv(s) && PcOf(s, i).Out? && a !in s.mem.nodes && a >= 2
    ensures Inv(Step(s, Choice(i, Delegate(c, a))))
  {
    var s' := Step(s, Choice(i, Delegate(c, a)));
    assert i !in s.inDelegator;
    AllocLinks(s.mem, a, c);
    AllocMem(s, i, c, a);
    RunKeeps(s, s', i);
  }

  lemma XchgMem(s: State, i: nat, call: Call)
    requires MemInv(s) && PcOf(s, i).Xchg?
    ensures MemInv(Step(s, Choice(i, call)))
  {
    var n := PcOf(s, i).n;
    var s' := Step(s, Choice(i, call));
    assert Private(s.mem, n);
    assert s'.mem == Swap(s.mem, n, i) && s'.pcs == s.pcs[i := Link(n, s.mem.head)];
    assert HalfLinked(s') by { assert s'.pcs[i].Link?; }
    SwapLinks(s.mem, n, i);
    HeadHasNoSucc(s.mem);
    PendSwap(s, s', i, n);
    XchgPops(s, s', i);
    XchgPrivate(s, s', i);
  }

  lemma HeadHasNoSucc(m: Mem)
    requires Linked(m)
    ensures m.head !in m.succ && m.head !in m.pend
  {
  }

  lemma XchgPops(s: State, s': State, i: nat)
    requires PopsOk(s) && PrivateOk(s) && PcOf(s, i).Xchg? && Private(s.mem, PcOf(s, i).n) && s.mem.head !in s.mem.succ
    requires s'.mem == Swap(s.mem, PcOf(s, i).n, i) && s'.pcs == s.pcs[i := Link(PcOf(s, i).n, s.mem.head)]
    requires s'.h.gap && s'.h.popped == s.h.popped && s'.h.order == s.h.order + [s.mem.nodes[PcOf(s, i).n].value]
    ensures PopsOk(s')
  {
    forall j | j in s'.pcs ensures PopOk(s', s'.pcs[j]) {
      if j != i { PopSurvives(s, s', s.pcs[j]); }
    }
  }

  lemma XchgPrivate(s: State, s': State, i: nat)
    requires PrivateOk(s) && PcOf(s, i).Xchg? && Moved(s, s', i) && s'.pcs[i].Link?
    requires s'.mem.nodes == s.mem.nodes && s'.mem.chain == s.mem.chain + [PcOf(s, i).n]
    ensures PrivateOk(s')
  {
    PrivateKeeps(s, s', i);
  }

  lemma XchgRun(s: State, i: nat, call: Call)
    requires RunInv(s) && PcOf(s, i).Xchg? && Private(s.mem, PcOf(s, i).n)
    ensures RunInv(Step(s, Choice(i, call)))
  {
    var n := PcOf(s, i).n;
    var s' := Step(s, Choice(i, call));
    BossKeeps(s, s', i);
    WaitingMoves(s, s', i);
    ValsSnoc(s.mem.nodes, s.mem.chain, n);
    assert Vals(s.mem.nodes, [n]) == [s.mem.nodes[n].value];
    assert s'.h.order[s'.h.popped..] == s.h.order[s.h.popped..] + [s.mem.nodes[n].value];
    assert s.h.order[..|s.h.ran|] == s'.h.order[..|s.h.ran|];
  }

  lemma XchgKeeps(s: State, i: nat, call: Call)
    requires Inv(s) && PcOf(s, i).Xchg?
    ensures Inv(Step(s, Choice(i, call)))
  {
    assert Private(s.mem, PcOf(s, i).n);
    XchgMem(s, i, call);
    XchgRun(s, i, call);
  }

  lemma SetNextVals(m: Mem, a: nat, n: nat)
    requires Linked(m)
    ensures Vals(SetNext(m, a, n).nodes, m.chain) == Vals(m.nodes, m.chain)
  {
    ChainLive(m);
    ValsFrame(m.nodes, SetNext(m, a, n).nodes, m.chain);
  }

  lemma LinkMem(s: State, i: nat, call: Call)
    requires MemInv(s) && PcOf(s, i).Link?
    ensures MemInv(Step(s, Choice(i, call)))
  {
    var Link(n, prev) := PcOf(s, i);
    var s' := Step(s, Choice(i, call));
    assert Owes(s.mem, i, n, prev) && prev in s.mem.chain;
    assert HalfLinked(s) by { assert s.pcs[i].Link?; }
    assert s'.mem == SetNext(s.mem, prev, n) && s'.pcs == s.pcs[i := Ticket];
    SetNextLinks(s.mem, prev, n);
    PendLink(s, s', i);
    LinkPops(s, s', i);
  }

  lemma LinkPops(s: State, s': State, i: nat)
    requires PopsOk(s) && PrivateOk(s) && PcOf(s, i).Link? && s'.pcs == s.pcs[i := Ticket] && (s.h.gap ==> s'.h.gap)
    requires s'.mem == SetNext(s.mem, PcOf(s, i).prev, PcOf(s, i).n) && PcOf(s, i).prev in s.mem.chain
    requires s'.h.order == s.h.order && s'.h.popped == s.h.popped
    ensures PopsOk(s') && PrivateOk(s')
  {
    forall j | j in s'.pcs ensures PopOk(s', s'.pcs[j]) {
      if j != i {
        assert PopOk(s, s.pcs[j]);
        PopSurvives(s, s', s.pcs[j]);
      }
    }
    PrivateKeeps(s, s', i);
  }

  lemma LinkKeeps(s: State, i: nat, call: Call)
    requires Inv(s) && PcOf(s, i).Link?
    ensures Inv(Step(s, Choice(i, call)))
  {
    SetNextVals(s.mem, PcOf(s, i).prev, PcOf(s, i).n);
    LinkMem(s, i, call);
    RunKeeps(s, Step(s, Choice(i, call)), i);
  }

  lemma TicketBoss(s: State, s': State, i: nat)
    requires BossOk(s) && PcOf(s, i).Ticket?
    requires s'.counter == s.counter + 1
    requires if s.counter == 0 then s'.pcs == s.pcs[i := PopTail] && s'.inDelegator == s.inDelegator + {i}
             else s'.pcs == s.pcs[i := Out] && s'.inDelegator == s.inDelegator
    ensures BossOk(s')
  {
    forall j ensures j in s'.inDelegator <==> PcOf(s', j).Combining() {
      assert j in s.inDelegator <==> PcOf(s, j).Combining();
    }
  }

  lemma TicketFifo(s: State, s': State, i: nat)
    requires BossOk(s) && FifoOk(s) && PcOf(s, i).Ticket?
    requires s'.mem == s.mem && s'.h.order == s.h.order && s'.h.popped == s.h.popped && s'.h.ran == s.h.ran
      && s'.h.done == s.h.done
    requires if s.counter == 0 then s'.pcs == s.pcs[i := PopTail] && s'.inDelegator == s.inDelegator + {i}
             else s'.pcs == s.pcs[i := Out] && s'.inDelegator == s.inDelegator
    ensures FifoOk(s')
  {
    forall j | j in s'.pcs && s'.pcs[j].Combining() && j != i ensures j in s.inDelegator {
      assert PcOf(s, j) == s.pcs[j];
    }
  }

  lemma TicketMem(s: State, i: nat, call: Call)
    requires MemInv(s) && PcOf(s, i).Ticket?
    ensures MemInv(Step(s, Choice(i, call)))
  {
    var s' := Step(s, Choice(i, call));
    HalfSame(s, s', i);
    PendKeeps(s, s', i);
    TicketPops(s, s', i);
  }

  lemma TicketPops(s: State, s': State, i: nat)
    requires PopsOk(s) && PrivateOk(s) && Moved(s, s', i) && (s'.pcs[i].PopTail? || s'.pcs[i].Out?)
    requires s'.mem == s.mem && s'.h.order == s.h.order && s'.h.popped == s.h.popped && (s.h.gap ==> s'.h.gap)
    requires PcOf(s, i).Ticket?
    ensures PopsOk(s') && PrivateOk(s')
  {
    forall j | j in s'.pcs ensures PopOk(s', s'.pcs[j]) {
      if j != i { PopSurvives(s, s', s.pcs[j]); }
    }
    PrivateKeeps(s, s', i);
  }

  lemma TicketKeeps(s: State, i: nat, call: Call)
    requires Inv(s) && PcOf(s, i).Ticket?
    ensures Inv(Step(s, Choice(i, call)))
  {
    var s' := Step(s, Choice(i, call));
    TicketMem(s, i, call);
    assert RunInv(s') by {
      TicketBoss(s, s', i);
      TicketFifo(s, s', i);
      WaitingMoves(s, s', i);
    }
  }

  // ---------------------------------------------------------------- steps of the combiner

  lemma SuccInChain(m: Mem, a: nat)
    requires Path(m) && a in m.succ
    ensures m.succ[a] in m.chain
  {
    var k :| 0 <= k < |m.chain| && m.chain[k] == a;
    assert m.chain[k] in m.succ;
  }

  lemma TailIsHead(m: Mem)
    requires Linked(m)
    ensures m.tail in m.chain
    ensures m.tail == m.head <==> m.chain == [m.tail]
    ensures m.tail in m.succ <==> m.chain != [m.tail]
  {
    InChain(m, m.tail);
    if |m.chain| > 1 { assert m.chain[0] != m.chain[|m.chain| - 1]; }
  }

  /** Reading `next` at the tail: if it is null, either the chain ends there or some push is half linked. */
  lemma TailReads(s: State, i: nat)
    requires MemInv(s) && BossOk(s) && PcOf(s, i).Combining() && !PcOf(s, i).StubLink?
    ensures s.mem.tail in s.mem.nodes
    ensures Next(s.mem, s.mem.tail) != NULL ==>
      s.mem.tail in s.mem.succ && s.mem.tail !in s.mem.pend && s.mem.succ[s.mem.tail] == Next(s.mem, s.mem.tail)
    ensures Next(s.mem, s.mem.tail) == NULL ==> s.mem.chain == [s.mem.tail] || (HalfLinked(s) && s.h.gap)
  {
    var m := s.mem;
    TailIsHead(m);
    if m.tail in m.succ {
      SuccInChain(m, m.tail);
      InChain(m, m.succ[m.tail]);
      if m.tail in m.pend {
        var j := m.pend[m.tail];
        assert PcOf(s, j) == s.pcs[j];
        OneCombiner(s, i, j);
        assert HalfLinked(s);
      }
    }
  }

  /** While the combiner has not yet popped this turn's closure, the queue holds one. */
  lemma CombinerSees(s: State, i: nat)
    requires RunInv(s) && PcOf(s, i).Combining() && !PcOf(s, i).Holding()
    ensures s.h.popped < |s.h.order| && s.mem.chain != [STUB]
  {
    assert i in s.inDelegator && s.counter > 0;
    assert i in s.pcs && s.pcs[i] == PcOf(s, i);
    assert Vals(s.mem.nodes, [STUB]) == [];
  }

  /** A combiner step that only reads. */
  ghost predicate ReadStep(s: State, s': State, i: nat) {
    && Moved(s, s', i) && s' == s.(pcs := s'.pcs, h := s.h.(gap := s'.h.gap))
    && PcOf(s, i).Combining() && !PcOf(s, i).StubLink?
    && s'.pcs[i].Combining() && !s'.pcs[i].StubLink? && PopOk(s', s'.pcs[i])
    && SameTurn(PcOf(s, i), PcOf(s', i))
    && (HalfLinked(s') ==> s'.h.gap)
  }

  lemma ReadMem(s: State, s': State, i: nat)
    requires MemInv(s) && BossOk(s) && ReadStep(s, s', i)
    ensures MemInv(s')
  {
    PendKeeps(s, s', i);
    assert PcOf(s, i).PopVal? || PcOf(s, i).PopDel? ==> Detached(s, PcOf(s, i).t) by { assert PopOk(s, s.pcs[i]); }
    PrivateKeeps(s, s', i);
    PopsAre(s, s', i);
  }

  lemma ReadKeeps(s: State, s': State, i: nat)
    requires Inv(s) && ReadStep(s, s', i)
    ensures Inv(s')
  {
    ReadMem(s, s', i);
    RunKeeps(s, s', i);
  }

  lemma NextMeans(s: State, i: nat, call: Call)
    requires MemInv(s) && BossOk(s) && (PcOf(s, i).PopTail? || PcOf(s, i).PopNext?) && s.mem.chain != [STUB]
    ensures var s' := Step(s, Choice(i, call)); PopOk(s', s'.pcs[i]) && (s'.pcs[i].PopTail? ==> s.h.gap)
  {
    assert i in s.pcs && PopOk(s, s.pcs[i]);
    TailReads(s, i);
  }

  lemma NextAgainMeans(s: State, i: nat, call: Call)
    requires MemInv(s) && BossOk(s) && (PcOf(s, i).PopNext2? || PcOf(s, i).PopNext3?)
    ensures var s' := Step(s, Choice(i, call)); PopOk(s', s'.pcs[i]) && (s'.pcs[i].PopTail? ==> s.h.gap)
  {
    assert i in s.pcs && PopOk(s, s.pcs[i]);
    TailReads(s, i);
    TailIsHead(s.mem);
  }

  lemma ReadShape(s: State, i: nat, call: Call)
    requires PcOf(s, i).PopTail? || PcOf(s, i).PopNext? || PcOf(s, i).PopNext2? || PcOf(s, i).PopNext3?
    requires PcOf(s, i).PopTail? || PcOf(s, i).t in s.mem.nodes
    requires var s' := Step(s, Choice(i, call)); PopOk(s', s'.pcs[i])
    ensures ReadStep(s, Step(s, Choice(i, call)), i)
  {
  }

  /** Reading `this->tail`, or `tail->next` at any of the three places `pop` does it.  Going back to `PopTail`
      returns null, which only happens once some push has been seen half linked. */
  lemma PopReads(s: State, i: nat, call: Call)
    requires Inv(s)
    requires PcOf(s, i).PopTail? || PcOf(s, i).PopNext? || PcOf(s, i).PopNext2? || PcOf(s, i).PopNext3?
    ensures var s' := Step(s, Choice(i, call));
      ReadStep(s, s', i) && (s'.pcs[i].PopTail? ==> s.h.gap)
  {
    assert PopOk(s, PcOf(s, i)) by { assert PopOk(s, s.pcs[i]); }
    CombinerSees(s, i);
    TailReads(s, i);
    if PcOf(s, i).PopTail? || PcOf(s, i).PopNext? { NextMeans(s, i, call); } else { NextAgainMeans(s, i, call); }
    ReadShape(s, i, call);
  }

  lemma PopHeadReads(s: State, i: nat, call: Call)
    requires Inv(s) && (PcOf(s, i).PopHead? || PcOf(s, i).PopVal?)
    ensures var s' := Step(s, Choice(i, call));
      ReadStep(s, s', i) && (s'.pcs[i].PopTail? ==> s.h.gap)
  {
    assert PopOk(s, s.pcs[i]);
    TailIsHead(s.mem);
    HalfSame(s, Step(s, Choice(i, call)), i);
  }

  lemma PopReadKeeps(s: State, i: nat, call: Call)
    requires Inv(s)
    requires PcOf(s, i).PopTail? || PcOf(s, i).PopNext? || PcOf(s, i).PopNext2? || PcOf(s, i).PopNext3?
      || PcOf(s, i).PopHead? || PcOf(s, i).PopVal?
    ensures Inv(Step(s, Choice(i, call)))
  {
    if PcOf(s, i).PopHead? || PcOf(s, i).PopVal? { PopHeadReads(s, i, call); } else { PopReads(s, i, call); }
    ReadKeeps(s, Step(s, Choice(i, call)), i);
  }

  /** Memory after the tail has advanced. */
  lemma AdvanceMem(s: State, s': State, i: nat)
    requires MemInv(s) && BossOk(s) && Moved(s, s', i) && (PcOf(s, i).PopSkip? || PcOf(s, i).PopAdv?)
    requires s.mem.tail in s.mem.succ && s.mem.tail !in s.mem.pend
    requires s'.mem == Advance(s.mem, s.mem.succ[s.mem.tail]) && !s'.fault
    requires s'.pcs[i].Combining() && !s'.pcs[i].StubLink? && PopOk(s', s'.pcs[i])
    requires HalfLinked(s') ==> s'.h.gap
    ensures MemInv(s')
  {
    AdvanceLinks(s.mem, s.mem.succ[s.mem.tail]);
    PendKeeps(s, s', i);
    PrivateKeeps(s, s', i);
    PopsAre(s, s', i);
  }

  lemma SkipKeeps(s: State, i: nat, call: Call)
    requires Inv(s) && PcOf(s, i).PopSkip?
    ensures Inv(Step(s, Choice(i, call)))
  {
    var s' := Step(s, Choice(i, call));
    var m := s.mem;
    assert PopOk(s, s.pcs[i]);
    AdvanceLinks(m, PcOf(s, i).nx);
    HalfSame(s, s', i);
    AdvanceMem(s, s', i);
    SkipRun(s, i, call);
  }

  lemma SkipRun(s: State, i: nat, call: Call)
    requires RunInv(s) && PcOf(s, i).PopSkip? && s.mem.chain != [] && s.mem.chain[0] == STUB
    ensures RunInv(Step(s, Choice(i, call)))
  {
    assert Vals(s.mem.nodes, s.mem.chain) == Vals(s.mem.nodes, s.mem.chain[1..]);
    RunKeeps(s, Step(s, Choice(i, call)), i);
  }

  /** The tail advances past a closure's node: that closure has been popped. */
  lemma AdvRun(s: State, i: nat, call: Call)
    requires RunInv(s) && PcOf(s, i).PopAdv? && s.mem.tail in s.mem.nodes
    requires s.mem.chain != [] && s.mem.chain[0] == s.mem.tail != STUB
    ensures var s' := Step(s, Choice(i, call)); RunInv(s')
    ensures s.h.popped < |s.h.order| && s.mem.nodes[s.mem.tail].value == s.h.order[s.h.popped]
  {
    var m := s.mem;
    var s' := Step(s, Choice(i, call));
    CombinerSees(s, i);
    assert Vals(m.nodes, m.chain) == [m.nodes[m.tail].value] + Vals(m.nodes, m.chain[1..]);
    assert s.h.order[s.h.popped..] == [s.h.order[s.h.popped]] + s.h.order[s.h.popped + 1..];
    assert i in s.pcs && s.pcs[i] == PcOf(s, i) && i in s.inDelegator;
    Alone(s, s', i);
    BossKeeps(s, s', i);
    WaitingMoves(s, s', i);
  }

  lemma AdvDetaches(s: State, s': State, i: nat)
    requires Linked(s.mem) && PrivateOk(s) && PcOf(s, i).PopAdv? && PopOk(s, PcOf(s, i))
    requires s'.pcs == s.pcs[i := PopVal(PcOf(s, i).t)] && s'.mem == Advance(s.mem, PcOf(s, i).nx)
    ensures Detached(s', s.mem.tail)
  {
    AdvanceLinks(s.mem, PcOf(s, i).nx);
    forall j | j in s'.pcs && s'.pcs[j].Xchg? ensures s'.pcs[j].n != s.mem.tail { assert Private(s.mem, s.pcs[j].n); }
    assert s.mem.tail >= 2 by { assert NULL !in s.mem.nodes; }
  }

  lemma AdvKeeps(s: State, i: nat, call: Call)
    requires Inv(s) && PcOf(s, i).PopAdv?
    ensures Inv(Step(s, Choice(i, call)))
  {
    var s' := Step(s, Choice(i, call));
    assert PopOk(s, s.pcs[i]);
    AdvDetaches(s, s', i);
    AdvRun(s, i, call);
    HalfSame(s, s', i);
    AdvMem(s, i, call);
  }

  lemma AdvMem(s: State, i: nat, call: Call)
    requires MemInv(s) && BossOk(s) && PcOf(s, i).PopAdv? && PopOk(s, PcOf(s, i))
    requires PopOk(Step(s, Choice(i, call)), PopVal(PcOf(s, i).t))
    ensures MemInv(Step(s, Choice(i, call)))
  {
    var s' := Step(s, Choice(i, call));
    HalfSame(s, s', i);
    AdvanceMem(s, s', i);
  }

  lemma DelRun(s: State, i: nat, call: Call)
    requires RunInv(s) && PcOf(s, i).PopDel? && PopOk(s, PcOf(s, i)) && Linked(s.mem)
    ensures RunInv(Step(s, Choice(i, call)))
  {
    var s' := Step(s, Choice(i, call));
    assert i in s.pcs && s.pcs[i] == PcOf(s, i) && i in s.inDelegator;
    DelFifo(s, i, call);
    BossKeeps(s, s', i);
    WaitingMoves(s, s', i);
  }

  lemma DelFifo(s: State, i: nat, call: Call)
    requires BossOk(s) && FifoOk(s) && PcOf(s, i).PopDel? && PopOk(s, PcOf(s, i)) && Linked(s.mem)
    ensures FifoOk(Step(s, Choice(i, call)))
  {
    var s' := Step(s, Choice(i, call));
    ChainLive(s.mem);
    ValsFrame(s.mem.nodes, s'.mem.nodes, s.mem.chain);
    assert i in s.pcs && s.pcs[i] == PcOf(s, i) && i in s.inDelegator;
    assert s.h.order[..|s.h.ran| + 1] == s.h.order[..|s.h.ran|] + [s.h.order[|s.h.ran|]];
    Alone(s, s', i);
  }

  lemma DelMem(s: State, i: nat, call: Call)
    requires MemInv(s) && BossOk(s) && PcOf(s, i).PopDel?
    ensures MemInv(Step(s, Choice(i, call)))
  {
    var s' := Step(s, Choice(i, call));
    assert PopOk(s, s.pcs[i]) && Detached(s, PcOf(s, i).t);
    ChainLive(s.mem);
    OutsideLinks(s.mem, s'.mem);
    PendKeeps(s, s', i);
    PrivateKeeps(s, s', i);
    HalfSame(s, s', i);
    PopsAre(s, s', i);
  }

  lemma DelKeeps(s: State, i: nat, call: Call)
    requires Inv(s) && PcOf(s, i).PopDel?
    ensures Inv(Step(s, Choice(i, call)))
  {
    assert PopOk(s, PcOf(s, i)) by { assert PopOk(s, s.pcs[i]); }
    DelMem(s, i, call);
    DelRun(s, i, call);
  }

  // ---------------------------------------------------------------- re-inserting the stub

  lemma StubZeroMem(s: State, i: nat, call: Call)
    requires MemInv(s) && BossOk(s) && PcOf(s, i).StubZero?
    ensures var s' := Step(s, Choice(i, call));
      MemInv(s') && Vals(s'.mem.nodes, s'.mem.chain) == Vals(s.mem.nodes, s.mem.chain)
  {
    var s' := Step(s, Choice(i, call));
    assert PopOk(s, s.pcs[i]);
    ChainLive(s.mem);
    OutsideLinks(s.mem, s'.mem);
    ValsFrame(s.mem.nodes, s'.mem.nodes, s.mem.chain);
    PendKeeps(s, s', i);
    PrivateKeeps(s, s', i);
    HalfSame(s, s', i);
    PopsAre(s, s', i);
  }

  lemma StubSwapChain(m: Mem, i: nat)
    requires Linked(m) && STUB in m.nodes && STUB !in m.chain && m.nodes[STUB].next == NULL
    ensures var m' := Swap(m, STUB, i); Linked(m') && Vals(m'.nodes, m'.chain) == Vals(m.nodes, m.chain)
  {
    SwapLinks(m, STUB, i);
    ValsSnoc(m.nodes, m.chain, STUB);
    assert Vals(m.nodes, [STUB]) == [];
  }

  lemma StubXchgPend(s: State, i: nat, call: Call)
    requires Linked(s.mem) && PendOk(s) && PcOf(s, i).StubXchg?
    ensures PendOk(Step(s, Choice(i, call)))
  {
    PendSwap(s, Step(s, Choice(i, call)), i, STUB);
  }

  /** A step of the combiner that changes only the queue and its own program counter. */
  ghost predicate StubMoves(s: State, s': State, i: nat, m: Mem, pc: Pc) {
    && s'.mem == m && s'.pcs == s.pcs[i := pc] && s'.fault == s.fault && s'.inDelegator == s.inDelegator
    && s'.h == s.h.(gap := s.h.gap || HalfLinked(s'))
  }

  lemma StubXchgIs(s: State, i: nat, call: Call)
    requires PcOf(s, i).StubXchg?
    ensures StubMoves(s, Step(s, Choice(i, call)), i, Swap(s.mem, STUB, i), StubLink(PcOf(s, i).t, s.mem.head))
  {
  }

  lemma StubXchgMem(s: State, i: nat, call: Call)
    requires MemInv(s) && BossOk(s) && PcOf(s, i).StubXchg?
    ensures var s' := Step(s, Choice(i, call));
      MemInv(s') && Vals(s'.mem.nodes, s'.mem.chain) == Vals(s.mem.nodes, s.mem.chain)
  {
    StubXchgIs(s, i, call);
    StubXchgPend(s, i, call);
    StubXchgMoves(s, Step(s, Choice(i, call)), i);
  }

  lemma StubXchgMoves(s: State, s': State, i: nat)
    requires MemInv(s) && BossOk(s) && PcOf(s, i).StubXchg? && PendOk(s')
    requires StubMoves(s, s', i, Swap(s.mem, STUB, i), StubLink(PcOf(s, i).t, s.mem.head))
    ensures MemInv(s') && Vals(s'.mem.nodes, s'.mem.chain) == Vals(s.mem.nodes, s.mem.chain)
  {
    assert PopOk(s, s.pcs[i]);
    StubSwapChain(s.mem, i);
    StubXchgRest(s, s', i);
    HalfSame(s, s', i);
  }

  lemma StubXchgRest(s: State, s': State, i: nat)
    requires PrivateOk(s) && BossOk(s) && Moved(s, s', i) && PcOf(s, i).StubXchg? && PopOk(s, PcOf(s, i))
    requires s'.mem == Swap(s.mem, STUB, i) && s'.pcs[i] == StubLink(PcOf(s, i).t, s.mem.head) && STUB in s.mem.nodes
    ensures PrivateOk(s') && PopsOk(s')
  {
    PrivateKeeps(s, s', i);
    PopsAre(s, s', i);
  }

  lemma StubLinkChain(s: State, i: nat)
    requires Linked(s.mem) && PendOk(s) && PcOf(s, i).StubLink?
    ensures var prev := PcOf(s, i).prev; var m' := SetNext(s.mem, prev, STUB);
      && prev in s.mem.nodes && prev in s.mem.chain
      && Linked(m') && Vals(m'.nodes, m'.chain) == Vals(s.mem.nodes, s.mem.chain) && s.mem.tail in m'.succ
  {
    var prev := PcOf(s, i).prev;
    assert Owes(s.mem, i, STUB, prev);
    SetNextLinks(s.mem, prev, STUB);
    SetNextVals(s.mem, prev, STUB);
    StubBehindTail(s.mem);
  }

  lemma StubLinkIs(s: State, i: nat, call: Call)
    requires PcOf(s, i).StubLink? && PcOf(s, i).prev in s.mem.nodes
    ensures StubMoves(s, Step(s, Choice(i, call)), i, SetNext(s.mem, PcOf(s, i).prev, STUB), PopNext3(PcOf(s, i).t))
  {
  }

  lemma StubLinkMem(s: State, i: nat, call: Call)
    requires MemInv(s) && BossOk(s) && PcOf(s, i).StubLink?
    ensures var s' := Step(s, Choice(i, call));
      MemInv(s') && Vals(s'.mem.nodes, s'.mem.chain) == Vals(s.mem.nodes, s.mem.chain)
  {
    StubLinkChain(s, i);
    StubLinkIs(s, i, call);
    StubLinkMoves(s, Step(s, Choice(i, call)), i);
  }

  lemma StubLinkMoves(s: State, s': State, i: nat)
    requires MemInv(s) && BossOk(s) && PcOf(s, i).StubLink?
    requires StubMoves(s, s', i, SetNext(s.mem, PcOf(s, i).prev, STUB), PopNext3(PcOf(s, i).t))
    ensures MemInv(s') && Vals(s'.mem.nodes, s'.mem.chain) == Vals(s.mem.nodes, s.mem.chain)
  {
    StubLinkChain(s, i);
    StubLinkPops(s, s', i);
    PendLink(s, s', i);
    SetNextPrivate(s, s', i, PcOf(s, i).prev, STUB);
    HalfSame(s, s', i);
  }

  lemma StubLinkPops(s: State, s': State, i: nat)
    requires PopsOk(s) && BossOk(s) && PcOf(s, i).StubLink? && s'.pcs == s.pcs[i := PopNext3(PcOf(s, i).t)]
    requires s'.mem.tail == s.mem.tail && s'.mem.tail in s'.mem.succ && STUB in s'.mem.nodes
    ensures PopsOk(s')
  {
    assert PopOk(s, s.pcs[i]);
    PopsAre(s, s', i);
  }

  lemma SetNextPrivate(s: State, s': State, i: nat, a: nat, n: nat)
    requires PrivateOk(s) && Moved(s, s', i) && !s'.pcs[i].Xchg? && a in s.mem.chain
    requires s'.mem == SetNext(s.mem, a, n) && !PcOf(s, i).PopVal? && !PcOf(s, i).PopDel?
    ensures PrivateOk(s')
  {
    PrivateKeeps(s, s', i);
  }

  lemma StubBehindTail(m: Mem)
    requires Linked(m) && m.pend.Keys != {}
    ensures m.tail in m.succ
  {
    TailIsHead(m);
    var a :| a in m.pend;
    assert a in m.chain && a != m.head;
  }

  lemma StubRun(s: State, i: nat, call: Call)
    requires RunInv(s) && (PcOf(s, i).StubZero? || PcOf(s, i).StubXchg? || PcOf(s, i).StubLink?)
    requires var s' := Step(s, Choice(i, call)); Vals(s'.mem.nodes, s'.mem.chain) == Vals(s.mem.nodes, s.mem.chain)
    ensures RunInv(Step(s, Choice(i, call)))
  {
    RunKeeps(s, Step(s, Choice(i, call)), i);
  }

  lemma StubKeeps(s: State, i: nat, call: Call)
    requires Inv(s) && (PcOf(s, i).StubZero? || PcOf(s, i).StubXchg? || PcOf(s, i).StubLink?)
    ensures Inv(Step(s, Choice(i, call)))
  {
    if PcOf(s, i).StubZero? { StubZeroMem(s, i, call); }
    else if PcOf(s, i).StubXchg? { StubXchgMem(s, i, call); }
    else { StubLinkMem(s, i, call); }
    StubRun(s, i, call);
  }

  // ---------------------------------------------------------------- running the closure and giving the turn back

  lemma ExecMem(s: State, s': State, i: nat)
    requires MemInv(s) && BossOk(s) && Moved(s, s', i) && (PcOf(s, i).Exec? || PcOf(s, i).Sub?)
    requires s'.pcs[i].Sub? || s'.pcs[i].PopTail? || s'.pcs[i].Out?
    requires s'.mem == s.mem && s'.fault == s.fault && (HalfLinked(s') ==> s'.h.gap)
    ensures MemInv(s')
  {
    PendKeeps(s, s', i);
    PrivateKeeps(s, s', i);
    PopsAre(s, s', i);
  }

  lemma ExecKeeps(s: State, i: nat, call: Call)
    requires Inv(s) && PcOf(s, i).Exec?
    ensures Inv(Step(s, Choice(i, call)))
  {
    assert i in s.inDelegator;
    if call.Continue? { ExecEnds(s, i); } else { ExecInline(s, Step(s, Choice(i, call))); }
  }

  lemma ExecEnds(s: State, i: nat)
    requires Inv(s) && PcOf(s, i).Exec?
    ensures Inv(Step(s, Choice(i, Continue)))
  {
    var s' := Step(s, Choice(i, Continue));
    HalfSame(s, s', i);
    ExecMem(s, s', i);
    ExecRun(s, i);
  }

  lemma ExecRun(s: State, i: nat)
    requires RunInv(s) && PcOf(s, i).Exec?
    ensures RunInv(Step(s, Choice(i, Continue)))
  {
    RunKeeps(s, Step(s, Choice(i, Continue)), i);
  }

  /** A nested call of `delegate` runs inline and changes nothing else. */
  lemma ExecInline(s: State, s': State)
    requires Inv(s)
    requires s' == s.(h := s'.h) && s'.h == s.h.(inlined := s'.h.inlined, gap := s'.h.gap) && (s.h.gap ==> s'.h.gap)
    ensures Inv(s')
  {
    InlinePops(s, s');
    InlinePrivate(s, s');
    InlineRun(s, s');
  }

  lemma InlinePops(s: State, s': State)
    requires PopsOk(s) && s'.mem == s.mem && s'.pcs == s.pcs && (s.h.gap ==> s'.h.gap)
    requires s'.h.popped == s.h.popped && s'.h.order == s.h.order
    ensures PopsOk(s')
  {
    forall j | j in s'.pcs ensures PopOk(s', s'.pcs[j]) {
      PopSurvives(s, s', s.pcs[j]);
    }
  }

  lemma InlinePrivate(s: State, s': State)
    requires PrivateOk(s) && PendOk(s) && s'.mem == s.mem && s'.pcs == s.pcs
    ensures PrivateOk(s') && PendOk(s') && HalfLinked(s') == HalfLinked(s)
  {
  }

  lemma InlineRun(s: State, s': State)
    requires RunInv(s) && s' == s.(h := s'.h) && s'.h == s.h.(inlined := s'.h.inlined, gap := s'.h.gap)
    ensures RunInv(s')
  {
    assert Waiting(s') == Waiting(s);
    assert forall j :: PcOf(s', j) == PcOf(s, j);
  }

  lemma SubBoss(s: State, i: nat, call: Call)
    requires BossOk(s) && PcOf(s, i).Sub?
    ensures BossOk(Step(s, Choice(i, call)))
  {
    var s' := Step(s, Choice(i, call));
    assert i in s.inDelegator && s.inDelegator == {i};
    forall j ensures j in s'.inDelegator <==> PcOf(s', j).Combining() {
      assert j in s.inDelegator <==> PcOf(s, j).Combining();
    }
  }

  lemma SubFifo(s: State, i: nat, call: Call)
    requires BossOk(s) && FifoOk(s) && PcOf(s, i).Sub?
    ensures FifoOk(Step(s, Choice(i, call)))
  {
    var s' := Step(s, Choice(i, call));
    assert i in s.inDelegator && i in s.pcs;
    Alone(s, s', i);
  }

  lemma SubKeeps(s: State, i: nat, call: Call)
    requires Inv(s) && PcOf(s, i).Sub?
    ensures Inv(Step(s, Choice(i, call)))
  {
    var s' := Step(s, Choice(i, call));
    HalfSame(s, s', i);
    ExecMem(s, s', i);
    assert RunInv(s') by {
      SubBoss(s, i, call);
      SubFifo(s, i, call);
      WaitingMoves(s, s', i);
    }
  }

  lemma OutKeeps(s: State, i: nat, call: Call)
    requires Inv(s) && PcOf(s, i).Out?
    ensures Inv(Step(s, Choice(i, call)))
  {
    assert i !in s.inDelegator;
    if call.Delegate? && call.addr !in s.mem.nodes && call.addr >= 2 {
      AllocKeeps(s, i, call.c, call.addr);
    } else {
      ExecInline(s, Step(s, Choice(i, call)));
    }
  }

  lemma StepKeeps(s: State, c: Choice)
    requires Inv(s)
    ensures Inv(Step(s, c))
  {
    var Choice(i, call) := c;
    match PcOf(s, i)
    case Out => OutKeeps(s, i, call);
    case Xchg(_) => XchgKeeps(s, i, call);
    case Link(_, _) => LinkKeeps(s, i, call);
    case Ticket => TicketKeeps(s, i, call);
    case PopSkip(_) => SkipKeeps(s, i, call);
    case PopAdv(_, _) => AdvKeeps(s, i, call);
    case PopDel(_, _) => DelKeeps(s, i, call);
    case StubZero(_) => StubKeeps(s, i, call);
    case StubXchg(_) => StubKeeps(s, i, call);
    case StubLink(_, _) => StubKeeps(s, i, call);
    case Exec(_) => ExecKeeps(s, i, call);
    case Sub => SubKeeps(s, i, call);
    case _ => PopReadKeeps(s, i, call);
  }

  // ---------------------------------------------------------------- theorems over every run

  lemma {:induction false} Safe(run: seq<Choice>)
    ensures Inv(After(run))
  {
    if run == [] {
      assert Waiting(Init) == {};
    } else {
      Safe(run[..|run| - 1]);
      StepKeeps(After(run[..|run| - 1]), run[|run| - 1]);
    }
  }

  /** Mutual exclusion: at most one thread is in the combining loop, and one is exactly when `counter > 0`. */
  lemma MutualExclusion(run: seq<Choice>)
    ensures var s := After(run);
      && (forall i, j :: PcOf(s, i).Combining() && PcOf(s, j).Combining() ==> i == j)
      && (s.counter > 0 <==> exists i :: PcOf(s, i).Combining())
  {
    Safe(run);
    var s := After(run);
    forall i, j ensures PcOf(s, i).Combining() && PcOf(s, j).Combining() ==> i == j { OneCombiner(s, i, j); }
    if s.counter > 0 {
      var i :| i in s.inDelegator;
      assert PcOf(s, i).Combining();
    }
  }

  /** Closures run in XCHG order, each at most once: what has run is a prefix of what was exchanged. */
  lemma RunsInOrder(run: seq<Choice>)
    ensures After(run).h.ran <= After(run).h.order
  {
    Safe(run);
  }

  /** When the counter is zero and every thread is outside `delegate`, every pushed closure has run. */
  lemma NothingLeftBehind(run: seq<Choice>)
    requires After(run).counter == 0 && forall i :: PcOf(After(run), i).Out?
    ensures After(run).h.ran == After(run).h.order
  {
    Safe(run);
    var s := After(run);
    assert forall i :: i in s.pcs ==> s.pcs[i] == PcOf(s, i) == Out;
    assert Waiting(s) == {};
  }

  /** No producer and no consumer ever touches a deleted node, although addresses are reused. */
  lemma NoDanglingAccess(run: seq<Choice>)
    ensures !After(run).fault
  {
    Safe(run);
  }

  lemma NullAt(s: State, c: Choice)
    requires Inv(s) && PcOf(s, c.i).Combining() && !PcOf(s, c.i).Sub? && PcOf(Step(s, c), c.i).PopTail?
    ensures s.h.gap && s.h.popped < |s.h.order|
  {
    CombinerSees(s, c.i);
    if PcOf(s, c.i).PopHead? { PopHeadReads(s, c.i, c.call); } else { PopReads(s, c.i, c.call); }
  }

  /** A pop that returns null overlapped a half-linked push, and the queue was not empty: the combiner can
      spin only on a push that has exchanged `head` and not yet linked its node. */
  lemma NullMeansHalfLinked(run: seq<Choice>, c: Choice)
    requires var s := After(run);
      PcOf(s, c.i).Combining() && !PcOf(s, c.i).Sub? && PcOf(Step(s, c), c.i).PopTail?
    ensures After(run).h.gap && After(run).h.popped < |After(run).h.order|
  {
    Safe(run);
    NullAt(After(run), c);
  }

  /** Some push was half linked after the first k choices of the run, and no pop has begun since. */
  ghost predicate HalfLinkedSince(run: seq<Choice>, k: nat) {
    && k <= |run| && HalfLinked(After(run[..k]))
    && forall m :: k <= m < |run| ==> !PcOf(After(run[..m]), run[m].i).PopTail?
  }

  lemma HalfLinkedLonger(run: seq<Choice>, k: nat, c: Choice)
    requires HalfLinkedSince(run, k) && !PcOf(After(run), c.i).PopTail?
    ensures HalfLinkedSince(run + [c], k)
  {
    var longer := run + [c];
    assert longer[..k] == run[..k];
    forall m | k <= m < |longer| ensures !PcOf(After(longer[..m]), longer[m].i).PopTail? {
      assert longer[..m] == run[..m];
      if m == |run| { assert run[..m] == run; }
    }
  }

  lemma GapComes(s: State, c: Choice)
    requires Step(s, c).h.gap && !HalfLinked(Step(s, c))
    ensures s.h.gap && !PcOf(s, c.i).PopTail?
  {
    assert HalfLinked(Step(s, c)) == HalfLinked(Move(s, c.i, c.call));
  }

  /** `gap` is what it says: it holds only if some push was half linked at some moment since the pop began. */
  lemma {:induction false} GapMeansHalfLinked(run: seq<Choice>)
    ensures After(run).h.gap ==> exists k: nat :: HalfLinkedSince(run, k)
  {
    assert run[..|run|] == run;
    if HalfLinked(After(run)) {
      assert HalfLinkedSince(run, |run|);
    } else if run != [] && After(run).h.gap {
      var r, c := run[..|run| - 1], run[|run| - 1];
      GapComes(After(r), c);
      GapMeansHalfLinked(r);
      var k: nat :| HalfLinkedSince(r, k);
      HalfLinkedLonger(r, k, c);
      assert run == r + [c];
    }
  }

  /** Some thread is between its XCHG and the store that links node b behind node a. */
  ghost predicate BeingLinked(s: State, a: nat, b: nat) {
    exists i :: i in s.pcs &&
      (s.pcs[i] == Link(b, a) || (s.pcs[i].StubLink? && s.pcs[i].prev == a && b == STUB))
  }

  lemma PendIsBeingLinked(s: State, a: nat)
    requires PendOk(s) && a in s.mem.pend
    ensures BeingLinked(s, a, s.mem.succ[a])
  {
    assert s.mem.pend[a] in s.pcs;
  }

  lemma ChainLink(m: Mem, k: nat)
    requires Linked(m) && k + 1 < |m.chain|
    ensures m.chain[k] in m.nodes && m.chain[k] in m.succ && m.succ[m.chain[k]] == m.chain[k + 1]
    ensures m.nodes[m.chain[k]].next == if m.chain[k] in m.pend then NULL else m.chain[k + 1]
  {
    assert m.chain[k] in m.succ;
  }

  /** The chain holds each node once and is intact behind its k-th node, or about to be linked there. */
  ghost predicate IntactAt(s: State, k: nat)
    requires k + 1 < |s.mem.chain|
  {
    var m := s.mem;
    && Distinct(m.chain) && m.chain[0] == m.tail && m.chain[|m.chain| - 1] == m.head
    && m.chain[k] in m.nodes
    && (m.nodes[m.chain[k]].next == m.chain[k + 1]
        || (m.nodes[m.chain[k]].next == NULL && BeingLinked(s, m.chain[k], m.chain[k + 1])))
  }

  lemma InvIntact(s: State, k: nat)
    requires Linked(s.mem) && PendOk(s) && k + 1 < |s.mem.chain|
    ensures IntactAt(s, k)
  {
    ChainLink(s.mem, k);
    if s.mem.chain[k] in s.mem.pend { PendIsBeingLinked(s, s.mem.chain[k]); }
  }

  /** The chain from `tail` to `head` holds each node once, the stub at most once, and a node's `next` is null
      inside it exactly where some thread is between its XCHG and its link. */
  lemma ChainBrokenOnlyAtHalfLinks(run: seq<Choice>, k: nat)
    requires k + 1 < |After(run).mem.chain|
    ensures IntactAt(After(run), k)
  {
    Safe(run);
    InvIntact(After(run), k);
  }

  // ---------------------------------------------------------------- refinement

  /** The specification: a lock with a FIFO of closures. */
  datatype Lock = Lock(queue: seq<int>, holder: set<nat>, ran: seq<int>, inlined: seq<int>)

  datatype LockOp = Tau
    | Enqueue(c: int) | Acquire(i: nat) | Run(i: nat, c: int) | RunInline(i: nat, c: int) | Release(i: nat)

  ghost predicate LockSpec(a: Lock, op: LockOp, b: Lock) {
    match op
    case Tau => b == a
    case Enqueue(c) => b == a.(queue := a.queue + [c])
    case Acquire(i) => a.holder == {} && b == a.(holder := {i})
    case Run(i, c) => a.holder == {i} && a.queue == [c] + b.queue && b == a.(queue := b.queue, ran := a.ran + [c])
    case RunInline(i, c) => a.holder == {i} && b == a.(inlined := a.inlined + [c])
    case Release(i) => a.holder == {i} && b == a.(holder := {})
  }

  ghost function AbsLock(s: State): Lock {
    Lock(if |s.h.ran| <= |s.h.order| then s.h.order[|s.h.ran|..] else [], s.inDelegator, s.h.ran, s.h.inlined)
  }

  ghost function Meaning(s: State, c: Choice): LockOp {
    match PcOf(s, c.i)
    case Xchg(n) => if n in s.mem.nodes then Enqueue(s.mem.nodes[n].value) else Tau
    case Ticket => if s.counter == 0 then Acquire(c.i) else Tau
    case PopDel(t, v) => Run(c.i, v)
    case Exec(v) => if c.call.Delegate? then RunInline(c.i, c.call.c) else Tau
    case Sub => if s.counter == 1 then Release(c.i) else Tau
    case _ => Tau
  }

  lemma XchgRefines(s: State, c: Choice)
    requires FifoOk(s) && PcOf(s, c.i).Xchg?
    ensures LockSpec(AbsLock(s), Meaning(s, c), AbsLock(Step(s, c)))
  {
    var order, k := s.h.order, |s.h.ran|;
    if PcOf(s, c.i).n in s.mem.nodes {
      var v := s.mem.nodes[PcOf(s, c.i).n].value;
      assert (order + [v])[k..] == order[k..] + [v];
    }
  }

  lemma PushRefines(s: State, c: Choice)
    requires BossOk(s) && !PcOf(s, c.i).Combining() && !PcOf(s, c.i).Xchg?
    ensures LockSpec(AbsLock(s), Meaning(s, c), AbsLock(Step(s, c)))
  {
    assert c.i !in s.inDelegator;
  }

  lemma PopRefines(s: State, c: Choice)
    requires PcOf(s, c.i).Combining() && !PcOf(s, c.i).PopDel? && !PcOf(s, c.i).Exec? && !PcOf(s, c.i).Sub?
    ensures LockSpec(AbsLock(s), Meaning(s, c), AbsLock(Step(s, c)))
  {
    var s' := PopStep(s, c.i);
    assert s'.h.order == s.h.order && s'.h.ran == s.h.ran && s'.h.inlined == s.h.inlined
      && s'.inDelegator == s.inDelegator;
  }

  lemma ExecRefines(s: State, c: Choice)
    requires BossOk(s) && (PcOf(s, c.i).Exec? || PcOf(s, c.i).Sub?)
    ensures LockSpec(AbsLock(s), Meaning(s, c), AbsLock(Step(s, c)))
  {
    assert c.i in s.inDelegator && s.inDelegator == {c.i};
  }

  lemma FirstOf(order: seq<int>, k: nat)
    requires k < |order|
    ensures order[k..] == [order[k]] + order[k + 1..]
  {
  }

  lemma RunRefines(s: State, c: Choice)
    requires RunInv(s) && PcOf(s, c.i).PopDel? && PopOk(s, PcOf(s, c.i))
    ensures LockSpec(AbsLock(s), Meaning(s, c), AbsLock(Step(s, c)))
  {
    assert c.i in s.inDelegator && s.inDelegator == {c.i} && c.i in s.pcs;
    FirstOf(s.h.order, |s.h.ran|);
  }

  /** Refinement: in every run, the next step of any thread is one step of the lock with a FIFO, or nothing. */
  lemma RefinesLockedFifo(run: seq<Choice>, c: Choice)
    ensures LockSpec(AbsLock(After(run)), Meaning(After(run), c), AbsLock(Step(After(run), c)))
  {
    Safe(run);
    var s := After(run);
    if PcOf(s, c.i).PopDel? {
      assert PopOk(s, s.pcs[c.i]);
      RunRefines(s, c);
    } else if PcOf(s, c.i).Exec? || PcOf(s, c.i).Sub? {
      ExecRefines(s, c);
    } else if PcOf(s, c.i).Combining() {
      PopRefines(s, c);
    } else if PcOf(s, c.i).Xchg? {
      XchgRefines(s, c);
    } else {
      PushRefines(s, c);
    }
  }

  // ---------------------------------------------------------------- what was delegated is what is queued and run

  /** The choice is a call of `delegate` from outside: a node for the closure is allocated. */
  ghost predicate Delegates(s: State, c: Choice) {
    c.call.Delegate? && PcOf(s, c.i).Out? && c.i !in s.inDelegator && c.call.addr !in s.mem.nodes && c.call.addr >= 2
  }

  ghost predicate DelegatesAt(run: seq<Choice>, j: int) {
    0 <= j < |run| && Delegates(After(run[..j]), run[j])
  }

  /** Choice j is thread i's latest call of `delegate` from outside. */
  ghost predicate LatestCall(run: seq<Choice>, i: nat, j: int) {
    DelegatesAt(run, j) && run[j].i == i && forall l :: j < l < |run| && DelegatesAt(run, l) ==> run[l].i != i
  }

  lemma CallsSnoc(run: seq<Choice>, c: Choice, j: int)
    ensures DelegatesAt(run + [c], j) <==> DelegatesAt(run, j) || (j == |run| && Delegates(After(run), c))
  {
    if 0 <= j < |run| { assert (run + [c])[..j] == run[..j]; } else { assert (run + [c])[..|run|] == run; }
  }

  /** Thread i has the node of closure v and has not exchanged it yet. */
  ghost predicate Brings(s: State, i: nat, v: int) {
    PcOf(s, i).Xchg? && PcOf(s, i).n in s.mem.nodes && s.mem.nodes[PcOf(s, i).n].value == v
  }

  /** Nobody else touches the node on its way. */
  lemma BringsStays(s: State, c: Choice, i: nat, v: int)
    requires PrivateOk(s) && PopsOk(s) && c.i != i
    ensures Brings(Step(s, c), i, v) <==> Brings(s, i, v)
  {
    var s' := Step(s, c);
    StepMoves(s, c, i);
    if PcOf(s, i).Xchg? {
      DeletesAnother(s, i, c.i);
      ValueStays(s, c, PcOf(s, i).n, v);
    }
  }

  /** A step moves one thread. */
  lemma StepMoves(s: State, c: Choice, i: nat)
    requires c.i != i
    ensures PcOf(Step(s, c), i) == PcOf(s, i)
  {
    PushStays(s, c.i, c.call, i);
    PopStays(s, c.i, i);
  }

  lemma PushStays(s: State, i: nat, call: Call, j: nat)
    requires i != j
    ensures PcOf(PushStep(s, i, call), j) == PcOf(s, j)
  {
  }

  lemma PopStays(s: State, i: nat, j: nat)
    requires i != j
    ensures PcOf(PopStep(s, i), j) == PcOf(s, j)
  {
  }

  /** The value of node n, if it is still allocated. */
  ghost predicate Holds(nodes: map<nat, Node>, n: nat, v: int) { n in nodes && nodes[n].value == v }

  lemma PushLeaves(s: State, i: nat, call: Call, n: nat, v: int)
    requires n in s.mem.nodes
    ensures Holds(PushStep(s, i, call).mem.nodes, n, v) <==> Holds(s.mem.nodes, n, v)
  {
  }

  lemma PopLeaves(s: State, i: nat, n: nat, v: int)
    requires n in s.mem.nodes && (PcOf(s, i).PopDel? ==> PcOf(s, i).t != n)
    ensures Holds(PopStep(s, i).mem.nodes, n, v) <==> Holds(s.mem.nodes, n, v)
  {
  }

  lemma ValueStays(s: State, c: Choice, n: nat, v: int)
    requires n in s.mem.nodes && (PcOf(s, c.i).PopDel? ==> PcOf(s, c.i).t != n)
    ensures Holds(Step(s, c).mem.nodes, n, v) <==> Holds(s.mem.nodes, n, v)
  {
    PushLeaves(s, c.i, c.call, n, v);
    PopLeaves(s, c.i, n, v);
  }

  lemma DeletesAnother(s: State, i: nat, j: nat)
    requires PrivateOk(s) && PopsOk(s) && PcOf(s, i).Xchg?
    ensures PcOf(s, i).n in s.mem.nodes && (PcOf(s, j).PopDel? ==> PcOf(s, j).t != PcOf(s, i).n)
  {
    assert i in s.pcs && Private(s.mem, s.pcs[i].n);
    if PcOf(s, j).PopDel? { assert PopOk(s, s.pcs[j]); }
  }

  lemma CallMoves(s: State, c: Choice, v: int)
    requires PcOf(s, c.i).Out? && c.i !in s.inDelegator
    ensures Brings(Step(s, c), c.i, v) <==> Delegates(s, c) && c.call.c == v
  {
  }

  lemma PushMoves(s: State, i: nat, call: Call)
    requires !PcOf(s, i).Out? && (PcOf(s, i).Xchg? ==> PcOf(s, i).n in s.mem.nodes)
    ensures !PcOf(PushStep(s, i, call), i).Xchg?
  {
  }

  lemma PopMoves(s: State, i: nat)
    requires !PcOf(s, i).Xchg?
    ensures !PcOf(PopStep(s, i), i).Xchg?
  {
  }

  lemma OwnMove(s: State, c: Choice, v: int)
    requires BossOk(s) && PrivateOk(s)
    ensures Brings(Step(s, c), c.i, v) <==> Delegates(s, c) && c.call.c == v
  {
    assert c.i in s.inDelegator <==> PcOf(s, c.i).Combining();
    if PcOf(s, c.i).Out? {
      CallMoves(s, c, v);
    } else if PcOf(s, c.i).Combining() {
      PopMoves(s, c.i);
    } else {
      if PcOf(s, c.i).Xchg? { assert Private(s.mem, s.pcs[c.i].n); }
      PushMoves(s, c.i, c.call);
    }
  }

  /** The closure a thread brings is the one of its latest call. */
  lemma {:induction false} BringsLatest(run: seq<Choice>, i: nat, v: int) returns (j: int)
    requires Brings(After(run), i, v)
    ensures LatestCall(run, i, j) && run[j].call.c == v
  {
    var before, c := run[..|run| - 1], run[|run| - 1];
    var s := After(before);
    assert run == before + [c];
    Safe(before);
    if c.i == i {
      OwnMove(s, c, v);
      j := |before|;
      CallsSnoc(before, c, j);
    } else {
      BringsStays(s, c, i, v);
      j := BringsLatest(before, i, v);
      CallsSnoc(before, c, j);
      forall l | j < l < |run| && DelegatesAt(run, l) ensures run[l].i != i { CallsSnoc(before, c, l); }
    }
  }

  /** What is queued is what was delegated: whenever the next step of thread i queues a closure, it is the argument of
      thread i's latest call. */
  lemma QueuesWhatWasDelegated(run: seq<Choice>, c: Choice) returns (j: int)
    requires Meaning(After(run), c).Enqueue?
    ensures LatestCall(run, c.i, j) && Meaning(After(run), c).c == run[j].call.c
  {
    Safe(run);
    j := BringsLatest(run, c.i, Meaning(After(run), c).c);
  }

  /** The arguments of all calls from outside. */
  ghost function Delegated(run: seq<Choice>): multiset<int> {
    if run == [] then multiset{}
    else
      var n := |run| - 1;
      Delegated(run[..n]) + if Delegates(After(run[..n]), run[n]) then multiset{run[n].call.c} else multiset{}
  }

  /** The threads on their way to the exchange with closure v. */
  ghost function Bringing(s: State, v: int): set<nat> { set i | i in s.pcs && Brings(s, i, v) }

  lemma BringingMoves(s: State, c: Choice, v: int)
    requires Inv(s)
    ensures |Bringing(Step(s, c), v)| ==
      |Bringing(s, v)| - One(Brings(s, c.i, v)) + One(Delegates(s, c) && c.call.c == v)
  {
    var s' := Step(s, c);
    forall i | i != c.i ensures i in Bringing(s', v) <==> i in Bringing(s, v) { BringsStays(s, c, i, v); }
    assert Bringing(s', v) - {c.i} == Bringing(s, v) - {c.i};
    OwnMove(s, c, v);
    OneLess(Bringing(s, v), c.i);
    OneLess(Bringing(s', v), c.i);
  }

  lemma OrderStays(s: State, c: Choice)
    requires !PcOf(s, c.i).Xchg?
    ensures Step(s, c).h.order == s.h.order
  {
  }

  lemma OrderExtends(s: State, c: Choice)
    requires PcOf(s, c.i).Xchg? && PcOf(s, c.i).n in s.mem.nodes
    ensures Step(s, c).h.order == s.h.order + [s.mem.nodes[PcOf(s, c.i).n].value]
  {
  }

  lemma OrderGrows(s: State, c: Choice, v: int)
    requires PrivateOk(s)
    ensures multiset(Step(s, c).h.order)[v] == multiset(s.h.order)[v] + One(Brings(s, c.i, v))
  {
    if PcOf(s, c.i).Xchg? {
      assert Private(s.mem, s.pcs[c.i].n);
      OrderExtends(s, c);
    } else {
      OrderStays(s, c);
    }
  }

  /** Every closure delegated from outside has been exchanged or is on its way to it, as often as it was delegated, and
      nothing else has. */
  lemma {:induction false} DelegatedIsQueued(run: seq<Choice>, v: int)
    ensures Delegated(run)[v] == multiset(After(run).h.order)[v] + |Bringing(After(run), v)|
  {
    if run == [] {
      assert Bringing(Init, v) == {};
    } else {
      var s, c := After(run[..|run| - 1]), run[|run| - 1];
      DelegatedIsQueued(run[..|run| - 1], v);
      Safe(run[..|run| - 1]);
      BringingMoves(s, c, v);
      OrderGrows(s, c, v);
    }
  }

  /** With the counter at zero and every thread outside, exactly the closures delegated from outside have run. */
  lemma DelegatedHasRun(run: seq<Choice>)
    requires After(run).counter == 0 && forall i :: PcOf(After(run), i).Out?
    ensures multiset(After(run).h.ran) == Delegated(run)
  {
    NothingLeftBehind(run);
    forall v ensures multiset(After(run).h.ran)[v] == Delegated(run)[v] {
      DelegatedIsQueued(run, v);
      assert Bringing(After(run), v) == {};
    }
  }

  /** The arguments of the calls that closures make while they run, in order. */
  ghost function Nested(run: seq<Choice>): seq<int> {
    if run == [] then []
    else
      var n := |run| - 1;
      Nested(run[..n])
        + if PcOf(After(run[..n]), run[n].i).Exec? && run[n].call.Delegate? then [run[n].call.c] else []
  }

  /** These run inline, at once and in order. */
  lemma {:induction false} NestedRunInline(run: seq<Choice>)
    ensures After(run).h.inlined == Nested(run)
  {
    if run != [] {
      var s, c := After(run[..|run| - 1]), run[|run| - 1];
      NestedRunInline(run[..|run| - 1]);
      Safe(run[..|run| - 1]);
      InlinedGrows(s, c);
    }
  }

  lemma InlinedGrows(s: State, c: Choice)
    requires BossOk(s)
    ensures Step(s, c).h.inlined ==
      s.h.inlined + if PcOf(s, c.i).Exec? && c.call.Delegate? then [c.call.c] else []
  {
    assert c.i in s.inDelegator <==> PcOf(s, c.i).Combining();
  }
}
