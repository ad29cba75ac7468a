/** The handlers as they are written, run at one node of a system in which responsibility moves: whatever the node's
    network interface does to its fields and its outbox keeps the invariant of the whole system, and none of the
    checks on transfers stops it.

    `s` is the state of the system, of which the network interface is one node; `Migration.Safe` says that the
    states the system reaches satisfy the invariant. */
module MigrationRuntime {
  import opened Protocol
  import opened Handlers
  import opened Migration
  import opened NetworkInterfaces

  /** The network interface is a node of the system, which has not stopped. */
  ghost predicate Plays(ni: NetworkInterface, c: Config, s: State)
    reads ni
  {
    && Sane(c) && Good(c, s, false, map[], {}, {})
    && ni.owner == c.owner && ni.numNodes == c.numNodes && ni.debug == c.debug
    && ni.self < |s.nodes| && s.nodes[ni.self] == ni.State() && |ni.invCounters| == c.threads
  }

  /** The system once the network interface has run: its new state, and the packets it has added to its outbox. */
  ghost function Carried(ni: NetworkInterface, taken: State, before: seq<Packet>): State
    requires ni.self < |taken.nodes| && |before| <= |ni.outbox|
    reads ni
  {
    PostAll(Settle(taken, ni.self, ni.State()), ni.self, ni.outbox[|before|..])
  }

  /** What a call may do: stop at a check that is not one of those on transfers, or run on and keep the invariant. */
  ghost predicate Sound(ni: NetworkInterface, c: Config, taken: State, v: Verdict, before: seq<Packet>)
    reads ni
  {
    match v
    case Dies(why) => !TransferCheck(why)
    case Runs => ni.self < |taken.nodes| && before <= ni.outbox && Inv(c, Carried(ni, taken, before))
  }

  lemma DidIsSound(ni: NetworkInterface, c: Config, taken: State, o: Outcome, v: Verdict, before: seq<Packet>)
    requires ni.self < |taken.nodes| && ni.Did(o, v, before) && Fine(c, Act(taken, ni.self, o))
    ensures Sound(ni, c, taken, v, before)
  {
    if o.Ok? { assert ni.outbox[|before|..] == o.out; }
  }

  /** `process_messages` takes packet number k. */
  method Deliver(ni: NetworkInterface, from: NodeId, m: Msg, th: nat, ghost k: nat, ghost c: Config, ghost s: State)
    returns (v: Verdict)
    requires Plays(ni, c, s) && th < c.threads && k in s.net && s.net[k] == Mail(from, ni.self, m)
    modifies ni
    ensures Sound(ni, c, Without(s, k), v, old(ni.outbox))
  {
    ghost var o := Handle(ni.At(th), ni.State(), from, m);
    StepDelivers(c, s, k, th);
    DeliverKeeps(c, s, k, th);
    v := ni.ProcessMessage(from, m, th);
    DidIsSound(ni, c, Without(s, k), o, v, old(ni.outbox));
  }

  /** A user lets go of the page; at zero the waiting transfer and the retries run. */
  method LetGo(ni: NetworkInterface, ghost c: Config, ghost s: State) returns (v: Verdict)
    requires Plays(ni, c, s) && ni.usecount > |HeldAt(s.stores, ni.self)|
    modifies ni
    ensures Sound(ni, c, s, v, old(ni.outbox))
  {
    ghost var o := Release(ni.At(0), ni.State());
    ActLetGo(c, s, ni.self, ni.At(0));
    v := ni.LetGo();
    DidIsSound(ni, c, s, o, v, old(ni.outbox));
  }

  /** A task wants the page in read-write mode. */
  method AskForResp(ni: NetworkInterface, tag: nat, ghost c: Config, ghost s: State) returns (v: Verdict)
    requires Plays(ni, c, s) && ni.status != RESP && tag == |s.h.asked|
    modifies ni
    ensures v.Runs? && Sound(ni, c, Asking(s, ni.self), v, old(ni.outbox))
  {
    ghost var o := RequestResp(ni.At(0), ni.State(), tag);
    ActRequestCall(c, s, ni.self, ni.At(0));
    v := ni.RequestPageResp(tag);
    DidIsSound(ni, c, Asking(s, ni.self), o, v, old(ni.outbox));
  }

  /** A task writes a page its node is not responsible for. */
  method WriteRemotely(ni: NetworkInterface, tx: Tx, w: Write, th: nat, ghost c: Config, ghost s: State)
    returns (v: Verdict)
    requires Plays(ni, c, s) && th < c.threads
    modifies ni
    ensures Sound(ni, c, s, v, old(ni.outbox))
  {
    assert NodeOk(c, s.nodes[ni.self]);
    ghost var o := RemoteWrite(ni.At(th), ni.State(), tx, w);
    ActWriteCall(c, s, ni.self, ni.At(th), tx, w);
    v := ni.AskOrDoRWriteThen(tx, w, th);
    DidIsSound(ni, c, s, o, v, old(ni.outbox));
  }
}
