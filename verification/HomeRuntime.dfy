/** The handlers as they are written, run at one node of a home system: whatever the node's network interface does
    to its fields and its outbox takes the whole system from one state that satisfies the invariant to another.

    `s` is the state of the system, of which the network interface is one node; `HomeSafety.Safe` says that the
    states the system reaches satisfy `Inv`. */
module HomeRuntime {
  import opened Protocol
  import opened Home
  import opened Publication
  import opened HomeViews
  import opened HomeSafety
  import opened NetworkInterfaces

  /** The network interface is a node of the system. */
  ghost predicate Plays(ni: NetworkInterface, c: Config, s: State)
    reads ni
  {
    && ni.owner == c.owner && ni.numNodes == c.numNodes && ni.debug == c.debug
    && ni.self < |s.nodes| && s.nodes[ni.self] == ni.State()
  }

  /** The system once the network interface has run: its new state, and the packets it has added to its outbox. */
  ghost function Carried(ni: NetworkInterface, taken: State, before: seq<Packet>): State
    requires ni.self < |taken.nodes| && |before| <= |ni.outbox|
    reads ni
  {
    Home.Send(taken.(nodes := taken.nodes[ni.self := ni.State()]), ni.self, ni.outbox[|before|..])
  }

  /** What a call may do: stop at the one check, or run on and keep the invariant. */
  ghost predicate Sound(ni: NetworkInterface, c: Config, s: State, taken: State, v: Verdict, before: seq<Packet>)
    reads ni
  {
    match v
    case Dies(why) =>
      why == OverwritingValid && IsFar(c, ni.self) && c.owner < |s.nodes| && ni.self in s.nodes[c.owner].tr.twice
    case Runs =>
      ni.self < |taken.nodes| && before <= ni.outbox && Inv(c, Carried(ni, taken, before))
  }

  lemma DidIsSound(ni: NetworkInterface, c: Config, s: State, taken: State, o: Outcome, v: Verdict, before: seq<Packet>)
    requires ni.self < |taken.nodes| && ni.Did(o, v, before) && Kept(c, Act(s, taken, ni.self, o))
    ensures Sound(ni, c, s, taken, v, before)
  {
    if o.Ok? { assert ni.outbox[|before|..] == o.out; }
  }

  /** `process_messages` takes the next message from its channel. */
  method Deliver(ni: NetworkInterface, from: NodeId, m: Msg, th: nat, ghost c: Config,
                 ghost s: State) returns (v: Verdict)
    requires Inv(c, s) && s.stop.Running? && Plays(ni, c, s) && th < c.threads
    requires Chan(s, from, ni.self) != [] && Chan(s, from, ni.self)[0] == m
    modifies ni
    ensures Sound(ni, c, s, Take(s, from, ni.self), v, old(ni.outbox))
  {
    ThreadsOf(c, s, ni.self);
    ghost var o := Handle(ni.At(th), ni.State(), from, m);
    StepDelivers(c, s, from, ni.self, th);
    DeliverKeeps(c, s, from, ni.self, th);
    v := ni.ProcessMessage(from, m, th);
    DidIsSound(ni, c, s, Take(s, from, ni.self), o, v, old(ni.outbox));
  }

  /** A task wants to read the page and finds no copy. */
  method Read(ni: NetworkInterface, ghost c: Config, ghost s: State)
    requires Inv(c, s) && s.stop.Running? && Plays(ni, c, s) && ni.status == INVALID
    modifies ni
    ensures Sound(ni, c, s, s, Runs, old(ni.outbox))
  {
    ghost var o := RequestData(ni.At(0), ni.State());
    ReadKeeps(c, s, ni.self);
    ni.RequestPageData();
    DidIsSound(ni, c, s, s, o, Runs, old(ni.outbox));
  }

  /** A task wants the page in read-write mode and is not at home. */
  method AskForResp(ni: NetworkInterface, tag: nat, ghost c: Config, ghost s: State) returns (v: Verdict)
    requires Inv(c, s) && s.stop.Running? && Plays(ni, c, s) && ni.status != RESP && tag == s.next
    modifies ni
    ensures v.Runs? && Sound(ni, c, s, s.(next := s.next + 1), v, old(ni.outbox))
  {
    ghost var o := RequestResp(ni.At(0), ni.State(), tag);
    AskRespKeeps(c, s, ni.self);
    v := ni.RequestPageResp(tag);
    DidIsSound(ni, c, s, s.(next := s.next + 1), o, v, old(ni.outbox));
  }

  /** A task has ended and publishes what it wrote. */
  method BeginPublication(ni: NetworkInterface, tx: Tx, k: nat, th: nat, ghost c: Config, ghost s: State,
                          ghost ws: seq<Write>)
    returns (v: Verdict)
    requires Inv(c, s) && s.stop.Running? && Plays(ni, c, s) && th < c.threads
    requires tx == Tx(ni.self, s.next) && |ws| == k && (ni.status == RESP ==> k == 0)
    modifies ni
    ensures Sound(ni, c, s, BeginTaken(c, s, ni.self, ws), v, old(ni.outbox))
  {
    ThreadsOf(c, s, ni.self);
    ghost var o := Protocol.Publish(ni.At(th), ni.State(), tx, k);
    StepBegins(c, s, ni.self, th, ws);
    BeginKeeps(c, s, ni.self, th, ws);
    v := ni.StartPublication(tx, k, th);
    DidIsSound(ni, c, s, BeginTaken(c, s, ni.self, ws), o, v, old(ni.outbox));
  }

  /** The publication sends its next remote write. */
  method WriteRemotely(ni: NetworkInterface, tx: Tx, w: Write, th: nat, ghost c: Config,
                       ghost s: State) returns (v: Verdict)
    requires Inv(c, s) && s.stop.Running? && Plays(ni, c, s) && MaySend(c, s, tx, th) && tx.node == ni.self
    requires w == s.jobs[tx].ws[|s.jobs[tx].serials|]
    modifies ni
    ensures Sound(ni, c, s, SendTaken(s, tx, th), v, old(ni.outbox))
  {
    ThreadsOf(c, s, ni.self);
    ghost var o := RemoteWrite(ni.At(th), ni.State(), tx, w);
    StepSends(c, s, tx, th);
    SendKeeps(c, s, tx, th);
    v := ni.AskOrDoRWriteThen(tx, w, th);
    DidIsSound(ni, c, s, SendTaken(s, tx, th), o, v, old(ni.outbox));
  }
}
