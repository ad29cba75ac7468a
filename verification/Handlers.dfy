/** What the handlers of `Protocol` do at any node, whatever system they run in: most leave the responsibility, the use
    count and the log alone, and a node that is not responsible passes requests on. */
module Handlers {
  import opened Protocol

  // ---------------------------------------------------------------- what handlers leave alone

  /** Messages that carry neither responsibility, nor a request for it, nor a write. */
  predicate Calm(m: Msg) { !m.RWReq? && !m.RespTransfer? && !m.RWrite? }

  ghost predicate CalmOut(out: seq<Packet>) {
    forall i :: 0 <= i < |out| ==> Calm(out[i].msg)
  }

  /** Nothing that concerns responsibility, the waiters or the authoritative content has changed. */
  ghost predicate SameCore(n: Node, n': Node) {
    && (n'.hdr.status == RESP <==> n.hdr.status == RESP)
    && n'.hdr.usecount == n.hdr.usecount && n'.hdr.reserved == n.hdr.reserved
    && (n.hdr.status == RESP ==> n'.content == n.content)
    && n'.ev.zero == n.ev.zero && n'.ser.write == n.ser.write && n'.tr.log == n.tr.log && n'.tr.sent == n.tr.sent
    && (n.hdr.status != RESP ==> n'.shared == n.shared)
  }

  ghost predicate TransferCheck(why: Fatal) { why == TransferNonResp || why == TransferBusy || why == AlreadyResp }

  ghost predicate CalmOutcome(n: Node, o: Outcome) {
    if o.Ok? then SameCore(n, o.node) && o.node.ev.incs == n.ev.incs && CalmOut(o.out) else !TransferCheck(o.why)
  }

  /** The header has not changed either. */
  ghost predicate QuietOutcome(n: Node, o: Outcome) {
    CalmOutcome(n, o) && (o.Ok? ==> o.node.hdr == n.hdr)
  }

  lemma {:induction false} CalmTDec(e: Env, n: Node, c: Closure)
    ensures QuietOutcome(n, TDec(e, n, c))
    decreases |n.ev.sc|, 0
  {
    if c in n.ev.sc && n.ev.sc[c] == 1 {
      SmallerMap(n.ev.sc, c);
      CalmFire(e, n.(ev := n.ev.(sc := n.ev.sc - {c})), c);
    }
  }

  lemma {:induction false} CalmFire(e: Env, n: Node, c: Closure)
    ensures QuietOutcome(n, Fire(e, n, c))
    decreases |n.ev.sc|, 3
  {
    match c
    case WriteCommits(tx) => CalmAsk(e, n, DoTdecs(tx));
    case Continuer(c') => CalmTDec(e, n, c');
    case _ =>
  }

  lemma {:induction false} CalmAsk(e: Env, n: Node, c: Closure)
    ensures QuietOutcome(n, AskOrDoInvalidation(e, n, c))
    decreases |n.ev.sc|, 2
  {
    if n.hdr.status == RESP { CalmInvalidate(e, n, c); }
  }

  lemma {:induction false} CalmInvalidate(e: Env, n: Node, c: Closure)
    ensures QuietOutcome(n, InvalidateAndDo(e, n, c))
    decreases |n.ev.sc|, 1
  {
    if n.hdr.status == RESP && n.shared == [] {
      CalmTDec(e, n.(tr := n.tr.(lastInv := |n.tr.log|, waits := n.tr.waits[c := Holders(e, n)])), c);
    }
  }

  lemma {:induction false} CalmTDecAll(e: Env, n: Node, cs: seq<Closure>)
    ensures QuietOutcome(n, TDecAll(e, n, cs))
    decreases |cs|
  {
    if cs != [] {
      CalmTDec(e, n, cs[0]);
      var o := TDec(e, n, cs[0]);
      if o.Ok? { CalmTDecAll(e, o.node, cs[1..]); }
    }
  }

  lemma CalmHandle(e: Env, n: Node, from: NodeId, m: Msg)
    requires Calm(m)
    ensures CalmOutcome(n, Handle(e, n, from, m))
  {
    match m
    case AskInv(orig, s) =>
      CalmInvalidate(e, n.(ev := n.ev.(sc := n.ev.sc[SendAck(orig, s) := 1])), SendAck(orig, s));
    case AckInv(s) =>
      var n1 := if n.hdr.status == RESP then n else n.(hdr := n.hdr.(nextResp := from));
      CalmTDecAll(e, n1, if s in n1.ev.invs then n1.ev.invs[s] else []);
    case RWriteAck(s) =>
      var n1 := n.(hdr := n.hdr.(nextResp := from));
      CalmTDecAll(e, n1, if s in n1.ev.commits then n1.ev.commits[s] else []);
    case _ =>
  }

  lemma CalmPublish(e: Env, n: Node, tx: Tx, k: nat)
    ensures QuietOutcome(n, Publish(e, n, tx, k))
  {
    CalmAsk(e, n.(ev := n.ev.(sc := n.ev.sc[DoTdecs(tx) := 1])), DoTdecs(tx));
  }

  // ---------------------------------------------------------------- what handlers keep

  /** The node has sent no write, its log has grown by `more`, and use count and incrementors together by `uses`. */
  ghost predicate Keeps(n: Node, n': Node, more: seq<Applied>, uses: int) {
    && n'.tr.sent == n.tr.sent && n'.tr.log == n.tr.log + more
    && n'.hdr.usecount + n'.ev.incs == n.hdr.usecount + n.ev.incs + uses
  }

  /** What delivering a message logs. */
  ghost function LoggedBy(n: Node, m: Msg): seq<Applied> {
    if m.RWrite? && n.hdr.status == RESP then [Remote(m.orig, m.serial, m.w)] else []
  }

  lemma HandleKeeps(e: Env, n: Node, from: NodeId, m: Msg)
    requires n.hdr.status != RESP ==> n.hdr.usecount == 0
    ensures var o := Handle(e, n, from, m); o.Ok? ==> Keeps(n, o.node, LoggedBy(n, m), 0)
  {
    if Calm(m) { CalmHandle(e, n, from, m); }
  }

  // ---------------------------------------------------------------- where requests go

  predicate IsRequest(m: Msg) { m.DataReq? || m.RWrite? || m.AskInv? || m.RWReq? }

  function Asker(m: Msg): NodeId
    requires IsRequest(m)
  {
    m.orig
  }

  /** Where a node sends a request: to the node its hint names, or, in a build that keeps no hints or when the header
      has none, to the owner. */
  ghost predicate GoesByHint(e: Env, n: Node, p: Packet) {
    p.to == if e.debug && n.hdr.known && n.hdr.nextResp <= e.numNodes then n.hdr.nextResp else e.owner
  }

  /** A node that is not RESP passes any request on as it is, by its hint, and does nothing else; it stops if and only
      if that would come back to itself: it is the node named, or the one that asked. */
  lemma RequestsAreForwarded(e: Env, n: Node, from: NodeId, m: Msg)
    requires IsRequest(m) && n.hdr.status != RESP
    ensures var o := Handle(e, n, from, m);
      if Asker(m) == e.self || GoesByHint(e, n, Packet(e.self, m)) then o == Halt(ForwardingLoop)
      else o.Ok? && o.node == n && |o.out| == 1 && GoesByHint(e, n, o.out[0]) && o.out[0].msg == m
  {
    match m
    case DataReq(_) =>
    case RWrite(_, _, _) =>
    case AskInv(_, _) =>
    case RWReq(_, _) =>
  }

  /** The hint names the node that the last data, ack or invalidation came from, or, once the node has given the
      responsibility up, the node it went to; nothing else changes it. */
  lemma HintFollows(e: Env, n: Node, from: NodeId, m: Msg)
    ensures var o := Handle(e, n, from, m); o.Ok? ==>
      o.node.hdr.nextResp ==
        if m.Data? || m.RWriteAck? || m.DoInv? || (m.AckInv? && n.hdr.status != RESP) then from
        else if n.hdr.status == RESP && o.node.hdr.status != RESP && m.RWReq? then m.orig
        else n.hdr.nextResp
  {
    match m
    case AskInv(orig, s) =>
      CalmInvalidate(e, n.(ev := n.ev.(sc := n.ev.sc[SendAck(orig, s) := 1])), SendAck(orig, s));
    case AckInv(s) =>
      var n1 := if n.hdr.status == RESP then n else n.(hdr := n.hdr.(nextResp := from));
      CalmTDecAll(e, n1, if s in n1.ev.invs then n1.ev.invs[s] else []);
    case RWriteAck(s) =>
      var n1 := n.(hdr := n.hdr.(nextResp := from));
      CalmTDecAll(e, n1, if s in n1.ev.commits then n1.ev.commits[s] else []);
    case _ =>
  }

  /** A task's own requests go by the hint too, and name the node as the one that asks; only the request for
      responsibility goes to the owner. */
  lemma CallsGoByHint(e: Env, n: Node, tx: Tx, w: Write, tag: nat)
    requires n.hdr.status != RESP
    ensures var o := RequestData(e, n);
      o.Ok? && |o.out| == 1 && GoesByHint(e, n, o.out[0]) && o.out[0].msg == DataReq(e.self)
    ensures var o := RemoteWrite(e, n, tx, w);
      && o.Ok? && |o.out| == 1 && GoesByHint(e, n, o.out[0])
      && o.out[0].msg.RWrite? && o.out[0].msg.orig == e.self && o.out[0].msg.w == w
    ensures var o := RequestResp(e, n, tag);
      o.Ok? && |o.out| == 1 && o.out[0] == Packet(e.owner, RWReq(e.self, tag))
    ensures var o := AskOrDoInvalidation(e, n, DoTdecs(tx));
      if GoesByHint(e, n, Packet(e.self, DataReq(e.self))) then o == Halt(AskingSelf)
      else
        o.Ok? && |o.out| == 1 && GoesByHint(e, n, o.out[0]) && o.out[0].msg.AskInv? && o.out[0].msg.orig == e.self
  {
  }
}
