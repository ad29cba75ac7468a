/** The handlers of `src/network.cpp`, `src/invalidation.cpp` and `src/data_events.cpp` as they are written: methods
    that update one node's header, content, directory, event maps and serial counters for a page, with loops over
    the directory and over the closures under a key, and that append to an outbox.

    Every method is proved to do what the function of the same name in `Protocol` says; `Home` and `Migration` run
    those functions.  A method that returns `Dies` has reached a `CFATAL`. */
module NetworkInterfaces {
  import opened Protocol

  datatype Verdict = Runs | Dies(why: Fatal)

  /** An outcome after some packets have been sent already. */
  function Sending(sent: seq<Packet>, o: Outcome): Outcome {
    match o
    case Halt(why) => Halt(why)
    case Ok(n, out) => Ok(n, sent + out)
  }

  lemma SendingTwice(a: seq<Packet>, b: seq<Packet>, o: Outcome)
    ensures Sending(a, Sending(b, o)) == Sending(a + b, o)
  {
    if o.Ok? { assert a + (b + o.out) == (a + b) + o.out; }
  }

  lemma TDecAllStep(e: Env, n: Node, cs: seq<Closure>, i: nat)
    requires i < |cs|
    ensures TDecAll(e, n, cs[i..]) == (match TDec(e, n, cs[i])
                                       case Halt(why) => Halt(why)
                                       case Ok(n1, out1) => Sending(out1, TDecAll(e, n1, cs[i + 1..])))
  {
    assert cs[i..][0] == cs[i] && cs[i..][1..] == cs[i + 1..];
  }

  lemma RunWaitersStep(e: Env, n: Node, ws: seq<Waiter>, i: nat)
    requires i < |ws|
    ensures RunWaiters(e, n, ws[i..]) == (match RunWaiter(e, n, ws[i])
                                          case Halt(why) => Halt(why)
                                          case Ok(n1, out1) => Sending(out1, RunWaiters(e, n1, ws[i + 1..])))
  {
    assert ws[i..][0] == ws[i] && ws[i..][1..] == ws[i + 1..];
  }

  lemma {:induction false} OthersAre(sharers: seq<NodeId>, self: NodeId)
    ensures forall x :: multiset(Others(sharers, self))[x] == if x == self then 0 else multiset(sharers)[x]
  {
    if sharers != [] {
      OthersAre(sharers[1..], self);
      assert sharers == [sharers[0]] + sharers[1..];
    }
  }

  lemma OthersFrom(sharers: seq<NodeId>, i: nat, self: NodeId, before: seq<NodeId>)
    requires i < |sharers|
    ensures before + Others(sharers[i..], self) ==
      (if sharers[i] == self then before else before + [sharers[i]]) + Others(sharers[i + 1..], self)
  {
    assert sharers[i..][0] == sharers[i] && sharers[i..][1..] == sharers[i + 1..];
  }

  /** The closures under a key fire one after the other in the order in which they were registered: those of a first
      part run to their end, with whatever they set off, before those of the rest. */
  lemma {:induction false} TDecsJoin(e: Env, n: Node, a: seq<Closure>, b: seq<Closure>)
    ensures TDecAll(e, n, a + b) ==
      match TDecAll(e, n, a)
      case Halt(why) => Halt(why)
      case Ok(n1, out1) => Sending(out1, TDecAll(e, n1, b))
    ensures |a| == 1 ==> TDecAll(e, n, a) == TDec(e, n, a[0])
    decreases |a|
  {
    if a == [] {
      assert a + b == b;
      assert TDecAll(e, n, b) == Sending([], TDecAll(e, n, b)) by {
        if TDecAll(e, n, b).Ok? { assert [] + TDecAll(e, n, b).out == TDecAll(e, n, b).out; }
      }
    } else {
      assert (a + b)[0] == a[0] && (a + b)[1..] == a[1..] + b;
      var o := TDec(e, n, a[0]);
      if o.Ok? {
        TDecsJoin(e, o.node, a[1..], b);
        var o1 := TDecAll(e, o.node, a[1..]);
        if o1.Ok? { SendingTwice(o.out, o1.out, TDecAll(e, o1.node, b)); }
        if |a| == 1 { assert o.out + [] == o.out; }
      }
    }
  }

  class NetworkInterface {
    const self: NodeId
    const owner: NodeId
    const numNodes: nat
    const debug: bool

    // The page header and the page.
    var status: Status
    var usecount: int
    var nextResp: NodeId
    var reserved: bool
    var known: bool
    var content: Content

    // resp_shared_map, for this page.
    var shared: seq<NodeId>

    // Live closures with their counters, and the event maps.
    var closures: map<Closure, int>
    var commits: map<int, seq<Closure>>
    var invs: map<int, seq<Closure>>
    var zero: seq<Waiter>
    var incs: nat

    // The thread-local serial counters, by thread.
    var invCounters: seq<nat>
    var serialSources: seq<int>

    var outbox: seq<Packet>
    ghost var tr: Trace

    constructor (self: NodeId, owner: NodeId, numNodes: nat, debug: bool, n: Node)
      ensures this.self == self && this.owner == owner && this.numNodes == numNodes && this.debug == debug
      ensures State() == n && outbox == []
    {
      this.self, this.owner, this.numNodes, this.debug := self, owner, numNodes, debug;
      status, usecount, nextResp, reserved, known :=
        n.hdr.status, n.hdr.usecount, n.hdr.nextResp, n.hdr.reserved, n.hdr.known;
      content, shared := n.content, n.shared;
      closures, commits, invs, zero, incs := n.ev.sc, n.ev.commits, n.ev.invs, n.ev.zero, n.ev.incs;
      invCounters, serialSources := n.ser.inv, n.ser.write;
      outbox, tr := [], n.tr;
    }

    ghost function State(): Node
      reads this
    {
      Node(Header(status, usecount, nextResp, reserved, known), content, shared,
           Events(closures, commits, invs, zero, incs), Serials(invCounters, serialSources), tr)
    }

    function At(th: nat): Env { Env(self, owner, th, numNodes, debug) }

    /** What a method was to do, and what it did. */
    ghost predicate Did(o: Outcome, v: Verdict, before: seq<Packet>)
      reads this
    {
      match o
      case Halt(why) => v == Dies(why)
      case Ok(n, out) => v == Runs && State() == n && outbox == before + out
    }

    // -------------------------------------------------------------- sending

    function GetNextResp(): (r: NodeId)
      reads this
      ensures r == NextResp(At(0), State())
    {
      if debug && known && nextResp <= numNodes then nextResp else owner
    }

    method Send(to: NodeId, m: Msg)
      modifies this`outbox
      ensures outbox == old(outbox) + [Packet(to, m)]
    {
      outbox := outbox + [Packet(to, m)];
    }

    method ForwardMessage(orig: NodeId, m: Msg) returns (v: Verdict)
      modifies this`outbox
      ensures Did(Forward(At(0), old(State()), orig, m), v, old(outbox))
    {
      var target := GetNextResp();
      if orig == self || target == self { return Dies(ForwardingLoop); }
      Send(target, m);
      v := Runs;
    }

    /** `memcpy` into the page. */
    method CopyIn(w: Write)
      modifies this`content
      ensures content == Apply(old(content), w)
      ensures forall k :: k in content <==> k in old(content) || w.offset <= k < w.offset + |w.data|
      ensures forall k :: k in content ==>
        content[k] == if w.offset <= k < w.offset + |w.data| then w.data[k - w.offset] else old(content)[k]
    {
      ApplyBytes(content, w);
      var i := 0;
      assert Write(w.offset, w.data[0..]) == w;
      while i < |w.data|
        invariant 0 <= i <= |w.data|
        invariant Apply(content, Write(w.offset + i, w.data[i..])) == Apply(old(content), w)
      {
        assert w.data[i..][1..] == w.data[i + 1..];
        content := content[w.offset + i := w.data[i]];
        i := i + 1;
      }
    }

    // -------------------------------------------------------------- closures and invalidation

    /** `Closure::tdec`; at zero the closure's body runs and the closure is deleted. */
    method TDecClosure(c: Closure, th: nat) returns (v: Verdict)
      requires th < |invCounters|
      modifies this
      decreases |closures|, 0
      ensures Did(TDec(At(th), old(State()), c), v, old(outbox)) && |invCounters| == old(|invCounters|)
    {
      if c !in closures { return Dies(Dangling); }
      if closures[c] == 1 {
        SmallerMap(closures, c);
        closures := closures - {c};
        v := FireClosure(c, th);
      } else {
        closures := closures[c := closures[c] - 1];
        v := Runs;
      }
    }

    method FireClosure(c: Closure, th: nat) returns (v: Verdict)
      requires th < |invCounters|
      modifies this
      decreases |closures|, 3
      ensures Did(Fire(At(th), old(State()), c), v, old(outbox)) && |invCounters| == old(|invCounters|)
    {
      match c
      case WriteCommits(tx) =>
        v := AskOrDoInvalidationThen(DoTdecs(tx), th);
      case DoTdecs(tx) =>
        tr := tr.(tdecs := tr.tdecs + [tx]);
        v := Runs;
      case SendAck(client, serial) =>
        if client == self { return Dies(AckToSelf); }
        Send(client, AckInv(serial));
        v := Runs;
      case Continuer(inner) =>
        v := TDecClosure(inner, th);
    }

    /** `invalidation_tm_getserial`. */
    method InvalidationSerial(th: nat) returns (s: int)
      requires th < |invCounters|
      modifies this`invCounters
      ensures s == InvSerial(old(invCounters[th]), th, |invCounters|)
      ensures invCounters == old(invCounters)[th := old(invCounters[th]) + 1]
    {
      s := invCounters[th] * |invCounters| + th;
      invCounters := invCounters[th := invCounters[th] + 1];
    }

    method AskOrDoInvalidationThen(c: Closure, th: nat) returns (v: Verdict)
      requires th < |invCounters|
      modifies this
      decreases |closures|, 2
      ensures Did(AskOrDoInvalidation(At(th), old(State()), c), v, old(outbox)) && |invCounters| == old(|invCounters|)
    {
      if status == RESP {
        v := InvalidateAndDoClosure(c, th);
      } else {
        v := AskInvalidation(c, th);
      }
    }

    /** The other branch: a message to the node that is responsible, and the closure for its answer. */
    method AskInvalidation(c: Closure, th: nat) returns (v: Verdict)
      requires th < |invCounters| && status != RESP
      modifies this`invCounters, this`invs, this`outbox, this`tr
      ensures Did(AskOrDoInvalidation(At(th), old(State()), c), v, old(outbox)) && |invCounters| == old(|invCounters|)
    {
      var target := GetNextResp();
      if target == self { return Dies(AskingSelf); }
      var s := InvalidationSerial(th);
      SendAsk(target, s, c);
      v := Runs;
    }

    method SendAsk(target: NodeId, serial: int, c: Closure)
      modifies this`invs, this`outbox, this`tr
      ensures invs == Register(old(invs), serial, c) && outbox == old(outbox) + [Packet(target, AskInv(self, serial))]
      ensures tr == if c.DoTdecs? then old(tr).(asks := old(tr).asks[c.tx := serial]) else old(tr)
    {
      invs, outbox := Register(invs, serial, c), outbox + [Packet(target, AskInv(self, serial))];
      tr := if c.DoTdecs? then tr.(asks := tr.asks[c.tx := serial]) else tr;
    }

    method InvalidateAndDoClosure(c: Closure, th: nat) returns (v: Verdict)
      requires th < |invCounters|
      modifies this
      decreases |closures|, 1
      ensures Did(InvalidateAndDo(At(th), old(State()), c), v, old(outbox)) && |invCounters| == old(|invCounters|)
    {
      if status != RESP { return Dies(InvalidateNonResp); }
      if shared == [] {
        tr := tr.(lastInv := |tr.log|, waits := tr.waits[c := Holders(At(th), State())]);
        v := TDecClosure(c, th);
      } else {
        BeginInvalidation(c, th);
        v := Runs;
      }
    }

    /** Invalidation with a directory: a closure that counts the acks, the loop, and an empty directory. */
    method BeginInvalidation(c: Closure, th: nat)
      requires th < |invCounters| && status == RESP && shared != []
      modifies this`closures, this`invs, this`invCounters, this`shared, this`outbox, this`tr
      ensures Did(InvalidateAndDo(At(th), old(State()), c), Runs, old(outbox)) && |invCounters| == old(|invCounters|)
    {
      ghost var held := Holders(At(th), State());
      InvalidateHolders(Continuer(c), th);
      closures, shared := closures[Continuer(c) := |shared|], [];
      tr := tr.(lastInv := |tr.log|, waits := tr.waits[c := held]);
    }

    /** The loop over the directory: a serial, a registration and a DoInvalidate for each entry. */
    method InvalidateHolders(continuer: Closure, th: nat)
      requires th < |invCounters|
      modifies this`invCounters, this`invs, this`outbox
      ensures var n := old(State()); var e := At(th);
        && invs == RegisterAll(e, n, n.ev.invs, continuer, |n.shared|)
        && invCounters == Advance(n.ser, th, |n.shared|).inv
        && outbox == old(outbox) + Invalidations(e, n)
    {
      ghost var n, e := State(), At(th);
      var i := 0;
      while i < |shared|
        invariant 0 <= i <= |shared| && th < |invCounters| == |n.ser.inv|
        invariant invs == RegisterAll(e, n, n.ev.invs, continuer, i)
        invariant invCounters == n.ser.inv[th := n.ser.inv[th] + i]
        invariant outbox == old(outbox) + Invalidations(e, n)[..i]
      {
        var s := InvalidationSerial(th);
        assert s == NthSerial(e, n, i);
        invs := Register(invs, s, continuer);
        Send(shared[i], DoInv(s));
        assert Invalidations(e, n)[..i + 1] == Invalidations(e, n)[..i] + [Packet(shared[i], DoInv(s))];
        i := i + 1;
      }
      assert Invalidations(e, n)[..i] == Invalidations(e, n);
    }

    /** The loop of `signal_evt`: every closure under the key, in registration order. */
    method TDecInOrder(cs: seq<Closure>, th: nat) returns (v: Verdict)
      requires th < |invCounters|
      modifies this
      ensures Did(TDecAll(At(th), old(State()), cs), v, old(outbox)) && |invCounters| == old(|invCounters|)
    {
      ghost var goal := TDecAll(At(th), State(), cs);
      ghost var sent := [];
      var i := 0;
      assert cs[0..] == cs;
      while i < |cs|
        invariant 0 <= i <= |cs| && th < |invCounters| == old(|invCounters|)
        invariant outbox == old(outbox) + sent && goal == Sending(sent, TDecAll(At(th), State(), cs[i..]))
      {
        ghost var o := TDec(At(th), State(), cs[i]);
        TDecAllStep(At(th), State(), cs, i);
        v := TDecClosure(cs[i], th);
        if v.Dies? { return; }
        SendingTwice(sent, o.out, TDecAll(At(th), o.node, cs[i + 1..]));
        sent := sent + o.out;
        i := i + 1;
      }
      v := Runs;
    }

    method SignalInvalidationAck(serial: int, th: nat) returns (v: Verdict)
      requires th < |invCounters|
      modifies this
      ensures Did(SignalInv(At(th), old(State()), serial), v, old(outbox))
    {
      v := TDecInOrder(if serial in invs then invs[serial] else [], th);
      if v.Runs? {
        invs := invs - {serial};
        tr := tr.(invAcked := tr.invAcked + {serial});
      }
    }

    method SignalWriteCommited(serial: int, th: nat) returns (v: Verdict)
      requires th < |invCounters|
      modifies this
      ensures Did(SignalCommit(At(th), old(State()), serial), v, old(outbox))
    {
      v := TDecInOrder(if serial in commits then commits[serial] else [], th);
      if v.Runs? {
        commits := commits - {serial};
        tr := tr.(acked := tr.acked + {serial});
      }
    }

    // -------------------------------------------------------------- message handlers

    method OnDataMessage(from: NodeId, data: Content) returns (v: Verdict)
      modifies this`known, this`content, this`status, this`nextResp
      ensures Did(OnData(At(0), old(State()), from, data), v, old(outbox))
    {
      if status == RESP { return Dies(DataWhileResp); }
      if status == VALID { return Dies(OverwritingValid); }
      content := data;
      status, nextResp, known := VALID, from, true;
      v := Runs;
    }

    method OnDataReqMessage(orig: NodeId) returns (v: Verdict)
      modifies this`shared, this`outbox, this`tr
      ensures Did(OnDataReq(At(0), old(State()), orig), v, old(outbox))
    {
      if status != RESP {
        v := ForwardMessage(orig, DataReq(orig));
        return;
      }
      Send(orig, Data(content));
      if orig in shared { tr := tr.(twice := tr.twice + {orig}); }
      shared := shared + [orig];
      v := Runs;
    }

    method OnRWriteMessage(orig: NodeId, serial: int, w: Write) returns (v: Verdict)
      modifies this`content, this`outbox, this`tr
      ensures Did(OnRWrite(At(0), old(State()), orig, serial, w), v, old(outbox))
    {
      if status != RESP {
        v := ForwardMessage(orig, RWrite(orig, serial, w));
        return;
      }
      CopyIn(w);
      tr := tr.(log := tr.log + [Remote(orig, serial, w)]);
      Send(orig, RWriteAck(serial));
      v := Runs;
    }

    method OnRWriteAckMessage(from: NodeId, serial: int, th: nat) returns (v: Verdict)
      requires th < |invCounters|
      modifies this
      ensures Did(OnRWriteAck(At(th), old(State()), from, serial), v, old(outbox))
    {
      nextResp := from;
      v := SignalWriteCommited(serial, th);
    }

    method OnAskInvalidate(orig: NodeId, serial: int, th: nat) returns (v: Verdict)
      requires th < |invCounters|
      modifies this
      ensures Did(OnAskInv(At(th), old(State()), orig, serial), v, old(outbox))
    {
      if status != RESP {
        v := ForwardMessage(orig, AskInv(orig, serial));
        return;
      }
      var answer := SendAck(orig, serial);
      closures := closures[answer := 1];
      v := InvalidateAndDoClosure(answer, th);
    }

    method OnDoInvalidate(from: NodeId, serial: int) returns (v: Verdict)
      modifies this`status, this`nextResp, this`outbox
      ensures Did(OnDoInv(At(0), old(State()), from, serial), v, old(outbox))
    {
      if status == RESP { return Dies(InvalidatingResp); }
      if status == INVALID { return Dies(DoubleInvalidation); }
      status := INVALID;
      nextResp := from;
      Send(from, AckInv(serial));
      v := Runs;
    }

    method OnAckInvalidate(from: NodeId, serial: int, th: nat) returns (v: Verdict)
      requires th < |invCounters|
      modifies this
      ensures Did(OnAckInv(At(th), old(State()), from, serial), v, old(outbox))
    {
      if status != RESP { nextResp := from; }
      v := SignalInvalidationAck(serial, th);
    }

    method OnRWReqMessage(orig: NodeId, tag: nat) returns (v: Verdict)
      modifies this`status, this`nextResp, this`shared, this`outbox, this`zero, this`reserved
      ensures Did(OnRWReq(At(0), old(State()), orig, tag), v, old(outbox))
    {
      if status != RESP {
        v := ForwardMessage(orig, RWReq(orig, tag));
      } else if usecount == 0 {
        v := TransferResp(orig, tag);
      } else if reserved {
        zero := zero + [Retry(orig, tag)];
        v := Runs;
      } else {
        zero := zero + [Transfer(orig, tag)];
        reserved := true;
        v := Runs;
      }
    }

    method TransferResp(target: NodeId, tag: nat) returns (v: Verdict)
      modifies this`status, this`nextResp, this`shared, this`outbox
      ensures Did(DoRespTransfer(At(0), old(State()), target, tag), v, old(outbox))
    {
      if status != RESP { return Dies(TransferNonResp); }
      if usecount != 0 { return Dies(TransferBusy); }
      status := VALID;
      nextResp := target;
      var bitmap := if self in shared then [self] else [];
      shared := [];
      Send(target, RespTransfer(bitmap, content, tag));
      v := Runs;
    }

    method OnRespTransferMessage(sharers: seq<NodeId>, data: Content) returns (v: Verdict)
      modifies this`content, this`status, this`shared, this`usecount, this`reserved, this`known, this`incs
      ensures Did(OnRespTransfer(At(0), old(State()), sharers, data), v, old(outbox))
    {
      if status == RESP { return Dies(AlreadyResp); }
      TakeOver(sharers, data);
      v := Runs;
    }

    method TakeOver(sharers: seq<NodeId>, data: Content)
      modifies this`content, this`status, this`shared, this`usecount, this`reserved, this`known, this`incs
      ensures content == data && status == RESP && known && !reserved && usecount == old(incs) && incs == 0
      ensures shared == old(shared) + Others(sharers, self)
    {
      var others := LoadBitmap(sharers);
      content, status, known, shared := data, RESP, true, shared + others;
      SignalWriteArrival();
    }

    /** `shared_set_load_bit_map`: everybody in the bitmap but this node. */
    method LoadBitmap(sharers: seq<NodeId>) returns (others: seq<NodeId>)
      ensures others == Others(sharers, self)
      ensures forall x :: multiset(others)[x] == if x == self then 0 else multiset(sharers)[x]
    {
      others := [];
      var i := 0;
      assert sharers[0..] == sharers;
      while i < |sharers|
        invariant 0 <= i <= |sharers|
        invariant others + Others(sharers[i..], self) == Others(sharers, self)
      {
        OthersFrom(sharers, i, self, others);
        if sharers[i] != self { others := others + [sharers[i]]; }
        i := i + 1;
      }
      assert others + [] == others;
      OthersAre(sharers, self);
    }

    /** The use count starts at zero, and each incrementor registered for the arrival of write access adds one. */
    method SignalWriteArrival()
      modifies this`usecount, this`reserved, this`incs
      ensures usecount == old(incs) && incs == 0 && !reserved
    {
      usecount, reserved := 0, false;
      while incs > 0
        invariant usecount + incs == old(incs) && !reserved
      {
        usecount := usecount + 1;
        incs := incs - 1;
      }
    }

    /** The dispatch of `process_messages`: invalidations, and everything else. */
    method ProcessMessage(from: NodeId, m: Msg, th: nat) returns (v: Verdict)
      requires th < |invCounters|
      modifies this
      ensures Did(Handle(At(th), old(State()), from, m), v, old(outbox))
    {
      match m
      case AskInv(orig, serial) => v := OnAskInvalidate(orig, serial, th);
      case DoInv(serial) => v := OnDoInvalidate(from, serial);
      case AckInv(serial) => v := OnAckInvalidate(from, serial, th);
      case _ => v := ProcessPage(from, m, th);
    }

    method ProcessPage(from: NodeId, m: Msg, th: nat) returns (v: Verdict)
      requires th < |invCounters| && !m.AskInv? && !m.DoInv? && !m.AckInv?
      modifies this
      ensures Did(Handle(At(th), old(State()), from, m), v, old(outbox))
    {
      match m
      case DataReq(orig) => v := OnDataReqMessage(orig);
      case Data(data) => v := OnDataMessage(from, data);
      case RWrite(orig, serial, w) => v := OnRWriteMessage(orig, serial, w);
      case RWriteAck(serial) => v := OnRWriteAckMessage(from, serial, th);
      case RWReq(orig, tag) => v := OnRWReqMessage(orig, tag);
      case RespTransfer(sharers, data, _) => v := OnRespTransferMessage(sharers, data);
    }

    // -------------------------------------------------------------- calls made by tasks

    method RequestPageData()
      modifies this`outbox
      ensures Did(RequestData(At(0), old(State())), Runs, old(outbox))
    {
      var target := GetNextResp();
      Send(target, DataReq(self));
    }

    method RequestPageResp(tag: nat) returns (v: Verdict)
      modifies this`incs, this`outbox
      ensures Did(RequestResp(At(0), old(State()), tag), v, old(outbox))
    {
      if status == RESP { return Dies(RequestOwned); }
      incs := incs + 1;
      Send(owner, RWReq(self, tag));
      v := Runs;
    }

    method AskOrDoRWriteThen(tx: Tx, w: Write, th: nat) returns (v: Verdict)
      requires th < |serialSources|
      modifies this`serialSources, this`commits, this`outbox, this`tr
      ensures Did(RemoteWrite(At(th), old(State()), tx, w), v, old(outbox))
    {
      if status == RESP { return Dies(RWriteOnResp); }
      var target := GetNextResp();
      var chosen := TakeWriteSerial(th);
      SendWrite(target, chosen, tx, w);
      v := Runs;
    }

    /** The closure for the ack, and the message. */
    method SendWrite(target: NodeId, serial: int, tx: Tx, w: Write)
      modifies this`commits, this`outbox, this`tr
      ensures commits == Register(old(commits), serial, WriteCommits(tx))
      ensures outbox == old(outbox) + [Packet(target, RWrite(self, serial, w))]
      ensures tr == old(tr).(sent := old(tr).sent[serial := Sent(tx, w)])
    {
      commits, outbox :=
        Register(commits, serial, WriteCommits(tx)), outbox + [Packet(target, RWrite(self, serial, w))];
      tr := tr.(sent := tr.sent[serial := Sent(tx, w)]);
    }

    /** `serial_source`: a thread starts at its own number and steps by the number of threads. */
    method TakeWriteSerial(th: nat) returns (chosen: int)
      requires th < |serialSources|
      modifies this`serialSources
      ensures chosen == WriteSerial(old(State()).ser, th)
      ensures serialSources == old(serialSources)[th := chosen + |serialSources|]
    {
      if serialSources[th] == 0 { serialSources := serialSources[th := th]; }
      chosen := serialSources[th];
      serialSources := serialSources[th := chosen + |serialSources|];
    }

    /** The part of `process_commits` for one written resource with k remote writes. */
    method StartPublication(tx: Tx, k: nat, th: nat) returns (v: Verdict)
      requires th < |invCounters|
      modifies this
      ensures Did(Publish(At(th), old(State()), tx, k), v, old(outbox))
    {
      closures := closures[DoTdecs(tx) := 1];
      if k == 0 {
        v := AskOrDoInvalidationThen(DoTdecs(tx), th);
      } else {
        closures := closures[WriteCommits(tx) := k];
        v := Runs;
      }
    }

    /** One closure registered for usecount zero. */
    method RunZero(w: Waiter) returns (v: Verdict)
      modifies this`status, this`nextResp, this`shared, this`outbox
      ensures Did(RunWaiter(At(0), old(State()), w), v, old(outbox))
    {
      match w
      case Transfer(target, tag) => v := TransferResp(target, tag);
      case Retry(orig, tag) =>
        var target := GetNextResp();
        Send(target, RWReq(orig, tag));
        v := Runs;
    }

    /** The loop over the closures waiting for usecount zero. */
    method RunZeroInOrder() returns (v: Verdict)
      modifies this`status, this`nextResp, this`shared, this`outbox
      ensures Did(RunWaiters(At(0), old(State()), zero), v, old(outbox))
    {
      ghost var goal := RunWaiters(At(0), State(), zero);
      ghost var sent := [];
      var i := 0;
      assert zero[0..] == zero;
      while i < |zero|
        invariant 0 <= i <= |zero|
        invariant outbox == old(outbox) + sent && goal == Sending(sent, RunWaiters(At(0), State(), zero[i..]))
      {
        ghost var o := RunWaiter(At(0), State(), zero[i]);
        RunWaitersStep(At(0), State(), zero, i);
        v := RunZero(zero[i]);
        if v.Dies? { return; }
        SendingTwice(sent, o.out, RunWaiters(At(0), o.node, zero[i + 1..]));
        sent := sent + o.out;
        i := i + 1;
      }
      v := Runs;
    }

    /** `signal_usecount_zero`: every waiting closure, in order, and then none waits. */
    method SignalUsecountZero() returns (v: Verdict)
      modifies this`status, this`nextResp, this`shared, this`outbox, this`zero
      ensures var o := RunWaiters(At(0), old(State()), old(zero));
        match o
        case Halt(why) => v == Dies(why)
        case Ok(n, out) => v == Runs && State() == n.(ev := n.ev.(zero := [])) && outbox == old(outbox) + out
    {
      v := RunZeroInOrder();
      if v.Runs? { zero := []; }
    }

    /** The use count drops, and at zero the waiting closures run. */
    method LetGo() returns (v: Verdict)
      modifies this`usecount, this`status, this`nextResp, this`shared, this`outbox, this`zero
      ensures Did(Release(At(0), old(State())), v, old(outbox))
    {
      usecount := usecount - 1;
      if usecount != 0 { return Runs; }
      v := SignalUsecountZero();
    }
  }
}
