/** A whole system for one page whose responsibility stays where the page was allocated: the handlers of
    `Protocol` over first-in first-out channels (the non-overtaking rule, section 3.5 of the MPI standard).

    Tasks read the page anywhere, ask for it in read-write mode away from the home, write it locally at the home,
    and publish: a publication sends its remote writes one by one, waits for their acks, asks for an invalidation,
    and then issues its tdecs.  Nothing lets go of the home's use count of one, so the requests wait.  `Tick`
    stands for serial numbers used up by other pages.  A run is a schedule of choices; a `CFATAL` stops it, leaving the
    state as it was before the failing handler. */
module Home {
  import opened Protocol

  /** A publication: the remote writes it makes, the serials of those sent so far, and the length of the home's
      log when it began. */
  datatype Job = Job(ws: seq<Write>, serials: seq<int>, at: nat)

  datatype Stop = Running | Stopped(why: Fatal, at: NodeId)

  datatype State = State(
    nodes: seq<Node>, chan: map<(NodeId, NodeId), seq<Msg>>, stop: Stop, jobs: map<Tx, Job>, next: nat)

  function Init(c: Config): State {
    State(seq(c.numNodes, i => FreshNode(c, i == c.owner)), map[], Running, map[], 0)
  }

  function Chan(s: State, a: NodeId, b: NodeId): seq<Msg> {
    if (a, b) in s.chan then s.chan[(a, b)] else []
  }

  function Send(s: State, a: NodeId, out: seq<Packet>): State
    decreases |out|
  {
    if out == [] then s else Send(Push(s, a, out[0]), a, out[1..])
  }

  function Push(s: State, a: NodeId, p: Packet): State {
    s.(chan := s.chan[(a, p.to) := Chan(s, a, p.to) + [p.msg]])
  }

  /** Node i runs a handler; `taken` is the state with the handler's message taken from its channel. */
  function Act(s: State, taken: State, i: NodeId, o: Outcome): State
    requires i < |taken.nodes|
  {
    match o
    case Halt(why) => s.(stop := Stopped(why, i))
    case Ok(n', out) => Send(taken.(nodes := taken.nodes[i := n']), i, out)
  }

  function Take(s: State, a: NodeId, b: NodeId): State
    requires Chan(s, a, b) != []
  {
    s.(chan := s.chan[(a, b) := Chan(s, a, b)[1..]])
  }

  datatype Choice =
    | Deliver(a: NodeId, b: NodeId, th: nat)
    | Read(i: NodeId)
    | AskResp(i: NodeId)
    | WriteLocally(i: NodeId, w: Write)
    | Begin(i: NodeId, th: nat, ws: seq<Write>)
    | SendWrite(tx: Tx, th: nat)
    | Tick(i: NodeId, th: nat)

  function TickSerials(ser: Serials, th: nat): Serials
    requires th < |ser.write|
  {
    Advance(ser, th, 1).(write := ser.write[th := WriteSerial(ser, th) + |ser.write|])
  }

  function LogLength(c: Config, s: State): nat {
    if c.owner < |s.nodes| then |s.nodes[c.owner].tr.log| else 0
  }

  function Step(c: Config, s: State, ch: Choice): State {
    if s.stop.Stopped? then s
    else
      match ch
      case Deliver(a, b, th) =>
        if b >= |s.nodes| || th >= c.threads || Chan(s, a, b) == [] then s
        else Act(s, Take(s, a, b), b, Handle(EnvOf(c, b, th), s.nodes[b], a, Chan(s, a, b)[0]))
      case Read(i) =>
        if i >= |s.nodes| || s.nodes[i].hdr.status != INVALID then s
        else Act(s, s, i, RequestData(EnvOf(c, i, 0), s.nodes[i]))
      case AskResp(i) =>
        if i >= |s.nodes| || s.nodes[i].hdr.status == RESP then s
        else Act(s, s.(next := s.next + 1), i, RequestResp(EnvOf(c, i, 0), s.nodes[i], s.next))
      case WriteLocally(i, w) =>
        if i >= |s.nodes| || s.nodes[i].hdr.status != RESP then s
        else Act(s, s, i, Ok(LocalWrite(s.nodes[i], w), []))
      case Begin(i, th, ws) =>
        // A task that is RESP has written in place, so it publishes no remote writes.
        if i >= |s.nodes| || th >= c.threads || (s.nodes[i].hdr.status == RESP && ws != []) then s
        else
          var tx := Tx(i, s.next);
          Act(s, s.(jobs := s.jobs[tx := Job(ws, [], LogLength(c, s))], next := s.next + 1), i,
              Publish(EnvOf(c, i, th), s.nodes[i], tx, |ws|))
      case SendWrite(tx, th) =>
        if tx.node >= |s.nodes| || th >= c.threads || tx !in s.jobs || |s.jobs[tx].serials| >= |s.jobs[tx].ws| then s
        else
          var j := s.jobs[tx];
          var x := WriteSerial(s.nodes[tx.node].ser, th);
          Act(s, s.(jobs := s.jobs[tx := j.(serials := j.serials + [x])]), tx.node,
              RemoteWrite(EnvOf(c, tx.node, th), s.nodes[tx.node], tx, j.ws[|j.serials|]))
      case Tick(i, th) =>
        if i >= |s.nodes| || th >= |s.nodes[i].ser.write| then s
        else Act(s, s, i, Ok(s.nodes[i].(ser := TickSerials(s.nodes[i].ser, th)), []))
  }

  function After(c: Config, run: seq<Choice>): State {
    if run == [] then Init(c) else Step(c, After(c, run[..|run| - 1]), run[|run| - 1])
  }

  // ---------------------------------------------------------------- channels after a step

  /** The messages of `out` for node b, in order. */
  function To(out: seq<Packet>, b: NodeId): seq<Msg> {
    if out == [] then [] else (if out[0].to == b then [out[0].msg] else []) + To(out[1..], b)
  }

  lemma PushChan(s: State, a: NodeId, p: Packet, x: NodeId, y: NodeId)
    ensures Chan(Push(s, a, p), x, y) == Chan(s, x, y) + (if x == a && y == p.to then [p.msg] else [])
  {
  }

  lemma {:induction false} SendChan(s: State, a: NodeId, out: seq<Packet>, x: NodeId, y: NodeId)
    ensures Chan(Send(s, a, out), x, y) == Chan(s, x, y) + (if x == a then To(out, y) else [])
    decreases |out|
  {
    if out != [] {
      PushChan(s, a, out[0], x, y);
      SendChan(Push(s, a, out[0]), a, out[1..], x, y);
      Associates(Chan(s, x, y), if x == a && y == out[0].to then [out[0].msg] else [],
                 if x == a then To(out[1..], y) else []);
    }
  }

  lemma Associates(u: seq<Msg>, v: seq<Msg>, w: seq<Msg>)
    ensures (u + v) + w == u + (v + w)
  {
  }

  lemma {:induction false} SendElse(s: State, a: NodeId, out: seq<Packet>)
    ensures Send(s, a, out) == s.(chan := Send(s, a, out).chan)
    decreases |out|
  {
    if out != [] { SendElse(Push(s, a, out[0]), a, out[1..]); }
  }

  lemma TakeChan(s: State, a: NodeId, b: NodeId, x: NodeId, y: NodeId)
    requires Chan(s, a, b) != []
    ensures Chan(Take(s, a, b), x, y) == if (x, y) == (a, b) then Chan(s, a, b)[1..] else Chan(s, x, y)
  {
  }

  /** The home's packets for one node, when there is just one packet. */
  lemma ToOne(p: Packet, b: NodeId)
    ensures To([p], b) == if p.to == b then [p.msg] else []
  {
    assert To([p], b) == (if p.to == b then [p.msg] else []) + To([p][1..], b);
  }
}
