/** What the handlers of `Protocol` do in the states a home system reaches: which closures fire, and what they
    send.  Nodes other than the home never are RESP there, and closures run for one kind of purpose each. */
module HomeHandlers {
  import opened Protocol

  // ---------------------------------------------------------------- what the handlers do

  /** The closures an invalidation runs for. */
  predicate Simple(c: Closure) { c.SendAck? || c.DoTdecs? }

  /** Closure c fires and is deleted. */
  function Finished(n: Node, c: Closure): Node {
    n.(ev := n.ev.(sc := n.ev.sc - {c}), tr := if c.DoTdecs? then n.tr.(tdecs := n.tr.tdecs + [c.tx]) else n.tr)
  }

  function FinishedOut(c: Closure): seq<Packet> {
    if c.SendAck? then [Packet(c.client, AckInv(c.serial))] else []
  }

  lemma FireIs(e: Env, n: Node, c: Closure)
    requires Simple(c) && (c.SendAck? ==> c.client != e.self)
    ensures Fire(e, n, c) ==
      Ok(if c.DoTdecs? then n.(tr := n.tr.(tdecs := n.tr.tdecs + [c.tx])) else n, FinishedOut(c))
  {
  }

  lemma FinishIs(e: Env, n: Node, c: Closure)
    requires Simple(c) && c in n.ev.sc && n.ev.sc[c] == 1 && (c.SendAck? ==> c.client != e.self)
    ensures TDec(e, n, c) == Ok(Finished(n, c), FinishedOut(c))
  {
    var n1 := n.(ev := n.ev.(sc := n.ev.sc - {c}));
    FireIs(e, n1, c);
    assert TDec(e, n, c) == Fire(e, n1, c);
  }

  /** The closure that counts the acks loses one, and at zero the closure it stands for fires. */
  function AckCounted(n: Node, c: Closure): Node
    requires Continuer(c) in n.ev.sc
  {
    if n.ev.sc[Continuer(c)] == 1 then Finished(n.(ev := n.ev.(sc := n.ev.sc - {Continuer(c)})), c)
    else n.(ev := n.ev.(sc := n.ev.sc[Continuer(c) := n.ev.sc[Continuer(c)] - 1]))
  }

  function AckCountedOut(n: Node, c: Closure): seq<Packet>
    requires Continuer(c) in n.ev.sc
  {
    if n.ev.sc[Continuer(c)] == 1 then FinishedOut(c) else []
  }

  lemma AckCountedIs(e: Env, n: Node, c: Closure)
    requires Simple(c) && c in n.ev.sc && n.ev.sc[c] == 1 && (c.SendAck? ==> c.client != e.self)
    requires Continuer(c) in n.ev.sc && n.ev.sc[Continuer(c)] > 0
    ensures TDec(e, n, Continuer(c)) == Ok(AckCounted(n, c), AckCountedOut(n, c))
  {
    if n.ev.sc[Continuer(c)] == 1 {
      var n1 := n.(ev := n.ev.(sc := n.ev.sc - {Continuer(c)}));
      FinishIs(e, n1, c);
      assert Fire(e, n1, Continuer(c)) == TDec(e, n1, c);
      assert TDec(e, n, Continuer(c)) == Fire(e, n1, Continuer(c));
    }
  }

  lemma TDecOne(e: Env, n: Node, c: Closure)
    ensures TDecAll(e, n, [c]) == TDec(e, n, c)
  {
    var o := TDec(e, n, c);
    if o.Ok? {
      assert TDecAll(e, o.node, [c][1..]) == Ok(o.node, []);
      assert o.out + [] == o.out;
    }
  }

  function InvSignalled(n: Node, s: int): Node {
    n.(ev := n.ev.(invs := n.ev.invs - {s}), tr := n.tr.(invAcked := n.tr.invAcked + {s}))
  }

  /** Home receives the ack of a DoInvalidate. */
  lemma HomeAckIs(e: Env, n: Node, from: NodeId, s: int, c: Closure)
    requires n.hdr.status == RESP && s in n.ev.invs && n.ev.invs[s] == [Continuer(c)]
    requires Simple(c) && c in n.ev.sc && n.ev.sc[c] == 1 && (c.SendAck? ==> c.client != e.self)
    requires Continuer(c) in n.ev.sc && n.ev.sc[Continuer(c)] > 0
    ensures OnAckInv(e, n, from, s) == Ok(InvSignalled(AckCounted(n, c), s), AckCountedOut(n, c))
  {
    AckCountedIs(e, n, c);
    TDecOne(e, n, Continuer(c));
  }

  /** Home invalidates on behalf of closure c. */
  function Marked(e: Env, n: Node, c: Closure): Node {
    n.(tr := n.tr.(lastInv := |n.tr.log|, waits := n.tr.waits[c := Holders(e, n)]))
  }

  function Invalidated(e: Env, n: Node, c: Closure): Node {
    if n.shared == [] then Finished(Marked(e, n, c), c)
    else
      Marked(e, n, c).(
        shared := [], ser := Advance(n.ser, e.th, |n.shared|),
        ev := n.ev.(sc := n.ev.sc[Continuer(c) := |n.shared|],
                    invs := RegisterAll(e, n, n.ev.invs, Continuer(c), |n.shared|)))
  }

  function InvalidatedOut(e: Env, n: Node, c: Closure): seq<Packet> {
    if n.shared == [] then FinishedOut(c) else Invalidations(e, n)
  }

  lemma InvalidateIs(e: Env, n: Node, c: Closure)
    requires n.hdr.status == RESP && Simple(c) && c in n.ev.sc && n.ev.sc[c] == 1 && (c.SendAck? ==> c.client != e.self)
    ensures InvalidateAndDo(e, n, c) == Ok(Invalidated(e, n, c), InvalidatedOut(e, n, c))
  {
    FinishIs(e, Marked(e, n, c), c);
  }

  function WithClosure(n: Node, c: Closure, k: int): Node {
    n.(ev := n.ev.(sc := n.ev.sc[c := k]))
  }

  /** A node that is not the home asks it to invalidate on behalf of publication tx. */
  function Asked(e: Env, n: Node, tx: Tx): Node {
    var s := NthSerial(e, n, 0);
    n.(ev := n.ev.(invs := Register(n.ev.invs, s, DoTdecs(tx))), ser := Advance(n.ser, e.th, 1),
       tr := n.tr.(asks := n.tr.asks[tx := s]))
  }

  lemma AskIs(e: Env, n: Node, tx: Tx)
    requires n.hdr.status != RESP && NextResp(e, n) == e.owner != e.self
    ensures AskOrDoInvalidation(e, n, DoTdecs(tx)) ==
      Ok(Asked(e, n, tx), [Packet(e.owner, AskInv(e.self, NthSerial(e, n, 0)))])
  {
  }

  /** The ack of write k is counted, for the publication that made the write. */
  function WriteCounted(n: Node, from: NodeId, k: int, tx: Tx): Node
    requires WriteCommits(tx) in n.ev.sc
  {
    n.(hdr := n.hdr.(nextResp := from), tr := n.tr.(acked := n.tr.acked + {k}),
       ev := n.ev.(commits := n.ev.commits - {k},
                   sc := if n.ev.sc[WriteCommits(tx)] == 1 then n.ev.sc - {WriteCommits(tx)}
                         else n.ev.sc[WriteCommits(tx) := n.ev.sc[WriteCommits(tx)] - 1]))
  }

  lemma WriteAckIs(e: Env, n: Node, k: int, tx: Tx)
    requires n.hdr.status != RESP && e.owner != e.self
    requires k in n.ev.commits && n.ev.commits[k] == [WriteCommits(tx)]
    requires WriteCommits(tx) in n.ev.sc && n.ev.sc[WriteCommits(tx)] > 0
    ensures OnRWriteAck(e, n, e.owner, k) ==
      (var n1 := WriteCounted(n, e.owner, k, tx);
       if n.ev.sc[WriteCommits(tx)] > 1 then Ok(n1, [])
       else Ok(Asked(e, n1, tx), [Packet(e.owner, AskInv(e.self, NthSerial(e, n1, 0)))]))
  {
    var n0 := n.(hdr := n.hdr.(nextResp := e.owner));
    TDecOne(e, n0, WriteCommits(tx));
    if n.ev.sc[WriteCommits(tx)] == 1 {
      var n1 := n0.(ev := n0.ev.(sc := n0.ev.sc - {WriteCommits(tx)}));
      AskIs(e, n1, tx);
      assert TDec(e, n0, WriteCommits(tx)) == Fire(e, n1, WriteCommits(tx)) == AskOrDoInvalidation(e, n1, DoTdecs(tx));
    }
  }

  /** The publishing node receives the answer to its AskInvalidate. */
  lemma AnswerIs(e: Env, n: Node, from: NodeId, s: int, tx: Tx)
    requires n.hdr.status != RESP && s in n.ev.invs && n.ev.invs[s] == [DoTdecs(tx)]
    requires DoTdecs(tx) in n.ev.sc && n.ev.sc[DoTdecs(tx)] == 1
    ensures OnAckInv(e, n, from, s) ==
      Ok(InvSignalled(Finished(n.(hdr := n.hdr.(nextResp := from)), DoTdecs(tx)), s), [])
  {
    var n0 := n.(hdr := n.hdr.(nextResp := from));
    FinishIs(e, n0, DoTdecs(tx));
    TDecOne(e, n0, DoTdecs(tx));
  }

  /** Home is in use: a request for responsibility waits, the first one as a transfer, the others as retries. */
  function Waiting(n: Node, orig: NodeId, tag: nat): Node {
    n.(ev := n.ev.(zero := n.ev.zero + [if n.hdr.reserved then Retry(orig, tag) else Transfer(orig, tag)]),
       hdr := n.hdr.(reserved := true))
  }

  lemma RequestWaits(e: Env, n: Node, orig: NodeId, tag: nat)
    requires n.hdr.status == RESP && n.hdr.usecount != 0
    ensures OnRWReq(e, n, orig, tag) == Ok(Waiting(n, orig, tag), [])
  {
  }

  /** Which handler a message goes to. */
  lemma HandleIs(e: Env, n: Node, from: NodeId, m: Msg)
    ensures m.DataReq? ==> Handle(e, n, from, m) == OnDataReq(e, n, m.orig)
    ensures m.Data? ==> Handle(e, n, from, m) == OnData(e, n, from, m.content)
    ensures m.RWrite? ==> Handle(e, n, from, m) == OnRWrite(e, n, m.orig, m.serial, m.w)
    ensures m.RWriteAck? ==> Handle(e, n, from, m) == OnRWriteAck(e, n, from, m.serial)
    ensures m.AskInv? ==> Handle(e, n, from, m) == OnAskInv(e, n, m.orig, m.serial)
    ensures m.DoInv? ==> Handle(e, n, from, m) == OnDoInv(e, n, from, m.serial)
    ensures m.AckInv? ==> Handle(e, n, from, m) == OnAckInv(e, n, from, m.serial)
    ensures m.RWReq? ==> Handle(e, n, from, m) == OnRWReq(e, n, m.orig, m.tag)
  {
  }
}
