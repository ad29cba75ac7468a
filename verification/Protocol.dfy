/** The handlers of `src/network.cpp`, `src/invalidation.cpp` and `src/data_events.cpp` for one page at one
    node, as functions from the node's state and a message to the node's new state and the messages it sends.
    They run inside the delegator, one at a time.  `NetworkInterface` proves the imperative handlers equal to
    them; `Home` and `Migration` run them on whole systems.

    A `CFATAL` that fires is `Halt`.  `Trace` collects history: handlers write it but never branch on it, and
    the `tag` of a responsibility request is history too. */
module Protocol {

  type NodeId = nat

  datatype Status = INVALID | VALID | RESP

  /** Page content: a byte per offset. */
  type Content = map<int, int>

  datatype Write = Write(offset: int, data: seq<int>)

  /** memcpy into the page. */
  function Apply(c: Content, w: Write): Content
    decreases |w.data|
  {
    if w.data == [] then c else Apply(c[w.offset := w.data[0]], Write(w.offset + 1, w.data[1..]))
  }

  /** One pass of `process_commits` over one written resource. */
  datatype Tx = Tx(node: NodeId, num: nat)

  /** The closures the protocol registers, by what they captured. */
  datatype Closure =
    | WriteCommits(tx: Tx)                   // on_write_commits: then invalidate
    | DoTdecs(tx: Tx)                        // dotdecs: issue the tdecs
    | SendAck(client: NodeId, serial: int)   // answer an AskInvalidate
    | Continuer(c: Closure)                  // counts the acks of one invalidation, then fires c

  /** The closures waiting for usecount zero. */
  datatype Waiter = Transfer(target: NodeId, tag: nat) | Retry(orig: NodeId, tag: nat)

  datatype Msg =
    | DataReq(orig: NodeId)
    | Data(content: Content)
    | RWrite(orig: NodeId, serial: int, w: Write)
    | RWriteAck(serial: int)
    | AskInv(orig: NodeId, serial: int)
    | DoInv(serial: int)
    | AckInv(serial: int)
    | RWReq(orig: NodeId, tag: nat)
    | RespTransfer(sharers: seq<NodeId>, content: Content, tag: nat)

  datatype Packet = Packet(to: NodeId, msg: Msg)

  /** The page header.  `known` says that the header holds a size and valid canaries. */
  datatype Header = Header(status: Status, usecount: int, nextResp: NodeId, reserved: bool, known: bool)

  /** A write in the order the page's content went through them. */
  datatype Applied = Local(w: Write) | Remote(orig: NodeId, serial: int, w: Write)

  datatype Sent = Sent(tx: Tx, w: Write)

  /** History of one node: writes it applied as RESP; the length of that log at its last `invalidate_and_do`;
      for each invalidation, by the closure it runs for, the serial sent to each holder; serials of
      DoInvalidate acks received; remote writes sent and acks received, by serial; the AskInvalidate serial of
      each publication; publications whose tdecs were issued; nodes answered while already in the directory. */
  datatype Trace = Trace(
    log: seq<Applied>, lastInv: nat, waits: map<Closure, map<int, NodeId>>, invAcked: set<int>,
    sent: map<int, Sent>, acked: set<int>, asks: map<Tx, int>, tdecs: seq<Tx>, twice: set<NodeId>)

  /** Events waiting at a node: live closures with their counters, and the event maps. */
  datatype Events = Events(
    sc: map<Closure, int>,
    commits: map<int, seq<Closure>>,   // write_commit_mapper
    invs: map<int, seq<Closure>>,      // invalidation_tm
    zero: seq<Waiter>,                 // usecount_zero_mapper
    incs: nat)                         // write_arrived_mapper: usecount incrementors

  /** Thread-local serial generators: `invalidation_tm_counter` and `serial_source`, by thread. */
  datatype Serials = Serials(inv: seq<nat>, write: seq<int>)

  datatype Node = Node(hdr: Header, content: Content, shared: seq<NodeId>, ev: Events, ser: Serials, tr: Trace)

  /** What a handler may know: its own node, the page's owner, the thread that runs it, the number of nodes,
      and whether `get_next_resp` was built to look at the header. */
  datatype Env = Env(self: NodeId, owner: NodeId, th: nat, numNodes: nat, debug: bool)

  datatype Fatal =
    | DataWhileResp | OverwritingValid | InvalidatingResp | DoubleInvalidation | InvalidateNonResp
    | ForwardingLoop | AskingSelf | AckToSelf | RWriteOnResp | RequestOwned
    | TransferNonResp | TransferBusy | AlreadyResp | Dangling

  datatype Outcome = Halt(why: Fatal) | Ok(node: Node, out: seq<Packet>)

  /** The content after a log of writes. */
  function Replay(c: Content, log: seq<Applied>): Content {
    if log == [] then c else Apply(Replay(c, log[..|log| - 1]), log[|log| - 1].w)
  }

  lemma ReplayGrows(x: Content, log: seq<Applied>, a: Applied)
    ensures Replay(x, log + [a]) == Apply(Replay(x, log), a.w)
  {
    assert (log + [a])[..|log|] == log;
  }

  // ---------------------------------------------------------------- bytes

  ghost predicate Covers(w: Write, k: int) { w.offset <= k < w.offset + |w.data| }

  /** A memcpy puts byte k of the data at offset + k, and leaves every other byte of the page alone. */
  lemma {:induction false} ApplyBytes(c: Content, w: Write)
    ensures forall k :: k in Apply(c, w) <==> k in c || w.offset <= k < w.offset + |w.data|
    ensures forall k :: k in Apply(c, w) ==>
      Apply(c, w)[k] == if w.offset <= k < w.offset + |w.data| then w.data[k - w.offset] else c[k]
    decreases |w.data|
  {
    if w.data != [] {
      ApplyBytes(c[w.offset := w.data[0]], Write(w.offset + 1, w.data[1..]));
    }
  }

  /** The last write of the log that covers byte k, if any does. */
  ghost predicate LastToCover(log: seq<Applied>, k: int, j: int) {
    && 0 <= j < |log| && Covers(log[j].w, k)
    && forall l :: j < l < |log| ==> !Covers(log[l].w, k)
  }

  lemma {:induction false} ReplayCovered(c: Content, log: seq<Applied>, k: int, j: int)
    requires LastToCover(log, k, j)
    ensures k in Replay(c, log) && Replay(c, log)[k] == log[j].w.data[k - log[j].w.offset]
  {
    var n := |log| - 1;
    ApplyBytes(Replay(c, log[..n]), log[n].w);
    if j < n {
      assert LastToCover(log[..n], k, j);
      ReplayCovered(c, log[..n], k, j);
    }
  }

  lemma {:induction false} ReplayUncovered(c: Content, log: seq<Applied>, k: int)
    requires forall j :: 0 <= j < |log| ==> !Covers(log[j].w, k)
    ensures (k in Replay(c, log) <==> k in c) && (k in c ==> Replay(c, log)[k] == c[k])
  {
    if log != [] {
      var n := |log| - 1;
      ReplayUncovered(c, log[..n], k);
      ApplyBytes(Replay(c, log[..n]), log[n].w);
      assert !Covers(log[n].w, k);
    }
  }

  /** Each byte of a page that has gone through a log of writes is the one the last write to cover it put there; a
      byte that no write covers is as it was at first. */
  lemma ReplayBytes(c: Content, log: seq<Applied>, k: int)
    ensures forall j :: LastToCover(log, k, j) ==>
      k in Replay(c, log) && Replay(c, log)[k] == log[j].w.data[k - log[j].w.offset]
    ensures (forall j :: 0 <= j < |log| ==> !Covers(log[j].w, k)) ==>
      (k in Replay(c, log) <==> k in c) && (k in c ==> Replay(c, log)[k] == c[k])
  {
    forall j | LastToCover(log, k, j)
      ensures k in Replay(c, log) && Replay(c, log)[k] == log[j].w.data[k - log[j].w.offset]
    {
      ReplayCovered(c, log, k, j);
    }
    if forall j :: 0 <= j < |log| ==> !Covers(log[j].w, k) { ReplayUncovered(c, log, k); }
  }

  // ---------------------------------------------------------------- a whole system

  /** The page is allocated at `owner` with this content; every node has `threads` threads. */
  datatype Config = Config(owner: NodeId, numNodes: nat, threads: nat, debug: bool, content: Content)

  ghost predicate Sane(c: Config) { c.owner < c.numNodes && 0 < c.threads }

  function EnvOf(c: Config, i: NodeId, th: nat): Env { Env(i, c.owner, th, c.numNodes, c.debug) }

  /** `owm_malloc` makes the allocating node RESP with use count one; elsewhere the header is blank. */
  function FreshNode(c: Config, resp: bool): Node {
    Node(if resp then Header(RESP, 1, 0, false, true) else Header(INVALID, 0, 0, false, false),
         if resp then c.content else map[], [],
         Events(map[], map[], map[], [], 0),
         Serials(seq(c.threads, _ => 0), seq(c.threads, _ => 0)),
         Trace([], 0, map[], {}, map[], {}, map[], [], {}))
  }

  // ---------------------------------------------------------------- helpers

  function NextResp(e: Env, n: Node): NodeId {
    if e.debug && n.hdr.known && n.hdr.nextResp <= e.numNodes then n.hdr.nextResp else e.owner
  }

  function Forward(e: Env, n: Node, orig: NodeId, m: Msg): Outcome {
    if orig == e.self || NextResp(e, n) == e.self then Halt(ForwardingLoop)
    else Ok(n, [Packet(NextResp(e, n), m)])
  }

  function Register(m: map<int, seq<Closure>>, k: int, c: Closure): map<int, seq<Closure>> {
    m[k := (if k in m then m[k] else []) + [c]]
  }

  function InvSerial(ticket: nat, th: nat, threads: nat): int { ticket * threads + th }

  function Ticket(s: Serials, th: nat): nat { if th < |s.inv| then s.inv[th] else 0 }

  function Advance(s: Serials, th: nat, k: nat): Serials {
    if th < |s.inv| then s.(inv := s.inv[th := s.inv[th] + k]) else s
  }

  /** The serial the i-th DoInvalidate of an invalidation gets. */
  function NthSerial(e: Env, n: Node, i: nat): int {
    InvSerial(Ticket(n.ser, e.th) + i, e.th, |n.ser.inv|)
  }

  // ---------------------------------------------------------------- invalidation and closures

  /** `Closure::tdec`. */
  function TDec(e: Env, n: Node, c: Closure): Outcome
    decreases |n.ev.sc|, 0
  {
    if c !in n.ev.sc then Halt(Dangling)
    else if n.ev.sc[c] == 1 then
      assert |n.ev.sc - {c}| < |n.ev.sc| by { SmallerMap(n.ev.sc, c); }
      Fire(e, n.(ev := n.ev.(sc := n.ev.sc - {c})), c)
    else Ok(n.(ev := n.ev.(sc := n.ev.sc[c := n.ev.sc[c] - 1])), [])
  }

  lemma SmallerMap(m: map<Closure, int>, c: Closure)
    requires c in m
    ensures |m - {c}| < |m|
  {
    assert (m - {c}).Keys == m.Keys - {c};
    assert |(m - {c}).Keys| == |m - {c}| && |m.Keys| == |m|;
  }

  /** Running a closure's body, after which it is deleted. */
  function Fire(e: Env, n: Node, c: Closure): Outcome
    decreases |n.ev.sc|, 3
  {
    match c
    case WriteCommits(tx) => AskOrDoInvalidation(e, n, DoTdecs(tx))
    case DoTdecs(tx) => Ok(n.(tr := n.tr.(tdecs := n.tr.tdecs + [tx])), [])
    case SendAck(client, serial) =>
      if client == e.self then Halt(AckToSelf) else Ok(n, [Packet(client, AckInv(serial))])
    case Continuer(c') => TDec(e, n, c')
  }

  /** `ask_or_do_invalidation_then`. */
  function AskOrDoInvalidation(e: Env, n: Node, c: Closure): Outcome
    decreases |n.ev.sc|, 2
  {
    if n.hdr.status == RESP then InvalidateAndDo(e, n, c)
    else if NextResp(e, n) == e.self then Halt(AskingSelf)
    else
      var s := NthSerial(e, n, 0);
      Ok(n.(ev := n.ev.(invs := Register(n.ev.invs, s, c)), ser := Advance(n.ser, e.th, 1),
            tr := n.tr.(asks := if c.DoTdecs? then n.tr.asks[c.tx := s] else n.tr.asks)),
         [Packet(NextResp(e, n), AskInv(e.self, s))])
  }

  /** `invalidate_and_do`: one DoInvalidate to every entry of the directory, which is then emptied. */
  function InvalidateAndDo(e: Env, n: Node, c: Closure): Outcome
    decreases |n.ev.sc|, 1
  {
    if n.hdr.status != RESP then Halt(InvalidateNonResp)
    else
      var n1 := n.(tr := n.tr.(lastInv := |n.tr.log|, waits := n.tr.waits[c := Holders(e, n)]));
      if n.shared == [] then TDec(e, n1, c)
      else
        Ok(n1.(shared := [], ser := Advance(n.ser, e.th, |n.shared|),
               ev := n.ev.(sc := n.ev.sc[Continuer(c) := |n.shared|],
                           invs := RegisterAll(e, n, n.ev.invs, Continuer(c), |n.shared|))),
           Invalidations(e, n))
  }

  function Invalidations(e: Env, n: Node): seq<Packet> {
    seq(|n.shared|, i requires 0 <= i < |n.shared| => Packet(n.shared[i], DoInv(NthSerial(e, n, i))))
  }

  function RegisterAll(e: Env, n: Node, m: map<int, seq<Closure>>, c: Closure, k: nat): map<int, seq<Closure>> {
    if k == 0 then m else Register(RegisterAll(e, n, m, c, k - 1), NthSerial(e, n, k - 1), c)
  }

  /** Which holder each serial of the invalidation about to run is sent to. */
  function Holders(e: Env, n: Node): map<int, NodeId> {
    HoldersUpTo(e, n, |n.shared|)
  }

  function HoldersUpTo(e: Env, n: Node, k: nat): map<int, NodeId>
    requires k <= |n.shared|
  {
    if k == 0 then map[] else HoldersUpTo(e, n, k - 1)[NthSerial(e, n, k - 1) := n.shared[k - 1]]
  }

  /** `signal_evt`: every closure under the key, in registration order. */
  function TDecAll(e: Env, n: Node, cs: seq<Closure>): Outcome
    decreases |cs|
  {
    if cs == [] then Ok(n, [])
    else
      match TDec(e, n, cs[0])
      case Halt(why) => Halt(why)
      case Ok(n1, out1) =>
        match TDecAll(e, n1, cs[1..])
        case Halt(why) => Halt(why)
        case Ok(n2, out2) => Ok(n2, out1 + out2)
  }

  function SignalInv(e: Env, n: Node, serial: int): Outcome {
    match TDecAll(e, n, if serial in n.ev.invs then n.ev.invs[serial] else [])
    case Halt(why) => Halt(why)
    case Ok(n1, out) =>
      Ok(n1.(ev := n1.ev.(invs := n1.ev.invs - {serial}), tr := n1.tr.(invAcked := n1.tr.invAcked + {serial})), out)
  }

  function SignalCommit(e: Env, n: Node, serial: int): Outcome {
    match TDecAll(e, n, if serial in n.ev.commits then n.ev.commits[serial] else [])
    case Halt(why) => Halt(why)
    case Ok(n1, out) =>
      Ok(n1.(ev := n1.ev.(commits := n1.ev.commits - {serial}), tr := n1.tr.(acked := n1.tr.acked + {serial})), out)
  }

  // ---------------------------------------------------------------- message handlers

  function OnData(e: Env, n: Node, from: NodeId, content: Content): Outcome {
    if n.hdr.status == RESP then Halt(DataWhileResp)
    else if n.hdr.status == VALID then Halt(OverwritingValid)
    else Ok(n.(hdr := n.hdr.(status := VALID, nextResp := from, known := true), content := content), [])
  }

  function OnDataReq(e: Env, n: Node, orig: NodeId): Outcome {
    if n.hdr.status != RESP then Forward(e, n, orig, DataReq(orig))
    else
      Ok(n.(shared := n.shared + [orig],
            tr := n.tr.(twice := if orig in n.shared then n.tr.twice + {orig} else n.tr.twice)),
         [Packet(orig, Data(n.content))])
  }

  function OnRWrite(e: Env, n: Node, orig: NodeId, serial: int, w: Write): Outcome {
    if n.hdr.status != RESP then Forward(e, n, orig, RWrite(orig, serial, w))
    else
      Ok(n.(content := Apply(n.content, w), tr := n.tr.(log := n.tr.log + [Remote(orig, serial, w)])),
         [Packet(orig, RWriteAck(serial))])
  }

  function OnRWriteAck(e: Env, n: Node, from: NodeId, serial: int): Outcome {
    SignalCommit(e, n.(hdr := n.hdr.(nextResp := from)), serial)
  }

  function OnAskInv(e: Env, n: Node, orig: NodeId, serial: int): Outcome {
    if n.hdr.status != RESP then Forward(e, n, orig, AskInv(orig, serial))
    else
      var c := SendAck(orig, serial);
      InvalidateAndDo(e, n.(ev := n.ev.(sc := n.ev.sc[c := 1])), c)
  }

  function OnDoInv(e: Env, n: Node, from: NodeId, serial: int): Outcome {
    if n.hdr.status == RESP then Halt(InvalidatingResp)
    else if n.hdr.status == INVALID then Halt(DoubleInvalidation)
    else Ok(n.(hdr := n.hdr.(status := INVALID, nextResp := from)), [Packet(from, AckInv(serial))])
  }

  function OnAckInv(e: Env, n: Node, from: NodeId, serial: int): Outcome {
    SignalInv(e, if n.hdr.status == RESP then n else n.(hdr := n.hdr.(nextResp := from)), serial)
  }

  function OnRWReq(e: Env, n: Node, orig: NodeId, tag: nat): Outcome {
    if n.hdr.status != RESP then Forward(e, n, orig, RWReq(orig, tag))
    else if n.hdr.usecount == 0 then DoRespTransfer(e, n, orig, tag)
    else if n.hdr.reserved then Ok(n.(ev := n.ev.(zero := n.ev.zero + [Retry(orig, tag)])), [])
    else Ok(n.(ev := n.ev.(zero := n.ev.zero + [Transfer(orig, tag)]), hdr := n.hdr.(reserved := true)), [])
  }

  /** The bitmap is masked with the sender's own bit, so of all sharers only the sender itself can survive. */
  function DoRespTransfer(e: Env, n: Node, target: NodeId, tag: nat): Outcome {
    if n.hdr.status != RESP then Halt(TransferNonResp)
    else if n.hdr.usecount != 0 then Halt(TransferBusy)
    else
      Ok(n.(hdr := n.hdr.(status := VALID, nextResp := target), shared := []),
         [Packet(target, RespTransfer(if e.self in n.shared then [e.self] else [], n.content, tag))])
  }

  function OnRespTransfer(e: Env, n: Node, sharers: seq<NodeId>, content: Content): Outcome {
    if n.hdr.status == RESP then Halt(AlreadyResp)
    else
      Ok(n.(content := content, shared := n.shared + Others(sharers, e.self), ev := n.ev.(incs := 0),
            hdr := n.hdr.(status := RESP, usecount := n.ev.incs, reserved := false, known := true)), [])
  }

  function Others(sharers: seq<NodeId>, self: NodeId): seq<NodeId> {
    if sharers == [] then [] else (if sharers[0] == self then [] else [sharers[0]]) + Others(sharers[1..], self)
  }

  /** The dispatch of `process_messages`. */
  function Handle(e: Env, n: Node, from: NodeId, m: Msg): Outcome {
    match m
    case DataReq(orig) => OnDataReq(e, n, orig)
    case Data(content) => OnData(e, n, from, content)
    case RWrite(orig, serial, w) => OnRWrite(e, n, orig, serial, w)
    case RWriteAck(serial) => OnRWriteAck(e, n, from, serial)
    case AskInv(orig, serial) => OnAskInv(e, n, orig, serial)
    case DoInv(serial) => OnDoInv(e, n, from, serial)
    case AckInv(serial) => OnAckInv(e, n, from, serial)
    case RWReq(orig, tag) => OnRWReq(e, n, orig, tag)
    case RespTransfer(sharers, content, _) => OnRespTransfer(e, n, sharers, content)
  }

  // ---------------------------------------------------------------- calls made by tasks

  /** `request_page_data`. */
  function RequestData(e: Env, n: Node): Outcome {
    Ok(n, [Packet(NextResp(e, n), DataReq(e.self))])
  }

  /** `request_page_resp`. */
  function RequestResp(e: Env, n: Node, tag: nat): Outcome {
    if n.hdr.status == RESP then Halt(RequestOwned)
    else Ok(n.(ev := n.ev.(incs := n.ev.incs + 1)), [Packet(e.owner, RWReq(e.self, tag))])
  }

  /** A store by a task that found its node RESP. */
  function LocalWrite(n: Node, w: Write): Node {
    n.(content := Apply(n.content, w), tr := n.tr.(log := n.tr.log + [Local(w)]))
  }

  /** The serial `ask_or_do_rwrite_then` chooses. */
  function WriteSerial(s: Serials, th: nat): int {
    if th >= |s.write| then 0 else if s.write[th] == 0 then th else s.write[th]
  }

  /** `ask_or_do_rwrite_then`, called by the publication tx. */
  function RemoteWrite(e: Env, n: Node, tx: Tx, w: Write): Outcome {
    if n.hdr.status == RESP then Halt(RWriteOnResp)
    else
      var s := WriteSerial(n.ser, e.th);
      Ok(n.(ev := n.ev.(commits := Register(n.ev.commits, s, WriteCommits(tx))),
            ser := if e.th < |n.ser.write| then n.ser.(write := n.ser.write[e.th := s + |n.ser.write|]) else n.ser,
            tr := n.tr.(sent := n.tr.sent[s := Sent(tx, w)])),
         [Packet(NextResp(e, n), RWrite(e.self, s, w))])
  }

  /** The start of `process_commits` for one written resource with k remote writes: without writes the
      invalidation starts at once, otherwise it waits for k acks. */
  function Publish(e: Env, n: Node, tx: Tx, k: nat): Outcome {
    var sc := n.ev.sc[DoTdecs(tx) := 1];
    if k == 0 then AskOrDoInvalidation(e, n.(ev := n.ev.(sc := sc)), DoTdecs(tx))
    else Ok(n.(ev := n.ev.(sc := sc[WriteCommits(tx) := k])), [])
  }

  /** The closures registered for usecount zero. */
  function RunWaiter(e: Env, n: Node, w: Waiter): Outcome {
    match w
    case Transfer(target, tag) => DoRespTransfer(e, n, target, tag)
    case Retry(orig, tag) => Ok(n, [Packet(NextResp(e, n), RWReq(orig, tag))])
  }

  function RunWaiters(e: Env, n: Node, ws: seq<Waiter>): Outcome
    decreases |ws|
  {
    if ws == [] then Ok(n, [])
    else
      match RunWaiter(e, n, ws[0])
      case Halt(why) => Halt(why)
      case Ok(n1, out1) =>
        match RunWaiters(e, n1, ws[1..])
        case Halt(why) => Halt(why)
        case Ok(n2, out2) => Ok(n2, out1 + out2)
  }

  /** A writer lets go of the page: the use count drops, and at zero `signal_usecount_zero` drains the waiters. */
  function Release(e: Env, n: Node): Outcome {
    var n1 := n.(hdr := n.hdr.(usecount := n.hdr.usecount - 1));
    if n1.hdr.usecount != 0 then Ok(n1, [])
    else
      match RunWaiters(e, n1, n1.ev.zero)
      case Halt(why) => Halt(why)
      case Ok(n2, out) => Ok(n2.(ev := n2.ev.(zero := [])), out)
  }
}
