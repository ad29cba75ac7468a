/** What each step of a home system does, seen from one node that is not the home: its state, the home's, and the
    channels between them. */
module HomeViews {
  import opened Protocol
  import opened SerialNumbers
  import opened Home
  import opened HomeHandlers
  import opened Coherence
  import opened Publication
  import opened Invalidation

  // ---------------------------------------------------------------- the invariant of a view

  datatype View = View(far: Node, home: Node, up: seq<Msg>, dn: seq<Msg>)

  ghost predicate Publishes(c: Config, n: NodeId, far: Node, jobs: map<Tx, Job>) {
    FarOk(c, n, far) && CommitsOk(n, c.threads, far) && AsksOk(c.threads, far) && JobsOk(n, far, jobs)
  }

  ghost predicate Flows(c: Config, n: NodeId, v: View, jobs: map<Tx, Job>) {
    && UpOk(n, v.far, v.up) && DnOk(v.dn) && WriteFlow(n, v.far, v.home.tr.log, v.up, v.dn)
    && AskFlow(n, c.threads, v.far, v.home, v.up, v.dn) && InvFlow(n, v.home, v.up, v.dn)
    && Ordered(n, v.far, v.home, jobs) && ReqFlow(n, v.far, v.home, v.up)
  }

  ghost predicate FarGood(c: Config, n: NodeId, v: View, jobs: map<Tx, Job>) {
    Publishes(c, n, v.far, jobs) && Flows(c, n, v, jobs) && Coherent(c, n, v.home, v.far, v.dn)
  }

  ghost predicate JobsKnown(c: Config, home: Node, jobs: map<Tx, Job>, next: nat) {
    forall tx :: tx in jobs ==> jobs[tx].at <= |home.tr.log| && tx.num < next && tx.node < c.numNodes
  }

  ghost predicate HomeGood(c: Config, home: Node, jobs: map<Tx, Job>, next: nat) {
    HomeOk(c, home) && ClosuresOk(c, home) && HomeJobsOk(c, home, jobs) && JobsKnown(c, home, jobs, next)
  }

  ghost predicate IsFar(c: Config, n: NodeId) { n < c.numNodes && n != c.owner }

  // ---------------------------------------------------------------- what one message does at a node

  ghost predicate EnvAt(c: Config, e: Env, n: NodeId) {
    e.self == n && e.owner == c.owner && e.th < c.threads && e.numNodes == c.numNodes
  }

  /** Only the header and the content have changed, and no message of a publication has moved. */
  lemma QuietAtNode(c: Config, n: NodeId, v: View, v': View, jobs: map<Tx, Job>)
    requires Publishes(c, n, v.far, jobs) && Flows(c, n, v, jobs) && v'.home == v.home
    requires v'.far == v.far.(hdr := v'.far.hdr, content := v'.far.content)
    requires v'.far.hdr.status != RESP && (v'.far.hdr.known ==> v'.far.hdr.nextResp == c.owner)
    requires SameWrites(n, v.up, v'.up, v.dn, v'.dn) && SameAsks(n, v.up, v'.up, v.dn, v'.dn)
    ensures Publishes(c, n, v'.far, jobs) && WriteFlow(n, v'.far, v'.home.tr.log, v'.up, v'.dn)
    ensures AskFlow(n, c.threads, v'.far, v'.home, v'.up, v'.dn) && Ordered(n, v'.far, v'.home, jobs)
  {
    JobsFrame(n, v.far, v'.far, jobs);
    QuietAsks(c.threads, v.far, v'.far);
    WriteFlowFrame(n, v.far, v'.far, v.home.tr.log, v.home.tr.log, v.up, v'.up, v.dn, v'.dn);
    AskFlowFrame(n, c.threads, v.far, v'.far, v.home, v.home, v.up, v'.up, v.dn, v'.dn);
  }

  lemma QuietAsks(t: nat, far: Node, far': Node)
    requires AsksOk(t, far) && far'.ev.invs == far.ev.invs && far'.tr.asks == far.tr.asks
      && far'.tr.tdecs == far.tr.tdecs
    requires far'.ser.inv == far.ser.inv && far'.tr.invAcked == far.tr.invAcked
    ensures AsksOk(t, far')
  {
    forall q | q in far'.ev.invs ensures AskWaits(far', q) { assert AskWaits(far, q); }
    forall x | x in far'.tr.asks ensures AskOk(t, far', x, far'.tr.asks[x]) { assert AskOk(t, far, x, far.tr.asks[x]); }
  }

  lemma UpOkPush(n: NodeId, far: Node, far': Node, up: seq<Msg>, m: Msg)
    requires UpOk(n, far, up) && far'.tr.sent == far.tr.sent && UpMsg(n, far', m)
    ensures UpOk(n, far', up + [m]) && UpOk(n, far', up)
  {
    forall i | 0 <= i < |up| ensures UpMsg(n, far', up[i]) { assert UpMsg(n, far, up[i]); }
  }

  lemma TakeData(c: Config, e: Env, n: NodeId, v: View, jobs: map<Tx, Job>)
    requires FarGood(c, n, v, jobs) && EnvAt(c, e, n) && v.dn != [] && v.dn[0].Data?
    ensures var o := OnData(e, v.far, c.owner, v.dn[0].content);
      if o.Halt? then o.why == OverwritingValid && n in v.home.tr.twice
      else o.out == [] && FarGood(c, n, View(o.node, v.home, v.up, v.dn[1..]), jobs)
    ensures Obeys(v, OnData(e, v.far, c.owner, v.dn[0].content), v.dn[0])
  {
    var o := OnData(e, v.far, c.owner, v.dn[0].content);
    NextMessage(c, n, v.home, v.far, v.dn);
    if o.Ok? {
      var v' := View(o.node, v.home, v.up, v.dn[1..]);
      PopDn(n, v.up, v.dn);
      QuietAtNode(c, n, v, v', jobs);
      InvFlowFrame(n, v.home, v.home, v.up, v.up, v.dn, v.dn[1..]);
      Receive(c, n, v.home, v.far, o.node, v.dn);
      UpOkPush(n, v.far, o.node, v.up, DataReq(n));
    }
  }

  lemma DoInvFlow(n: NodeId, home: Node, up: seq<Msg>, dn: seq<Msg>, s: int)
    requires InvFlow(n, home, up, dn) && dn != [] && dn[0] == DoInv(s)
    ensures InvFlow(n, home, up + [AckInv(s)], dn[1..])
  {
    forall q ensures InvFlowAt(n, home, up + [AckInv(s)], dn[1..], q) {
      assert InvFlowAt(n, home, up, dn, q);
      Popped(dn, DoInv(q));
      Pushed(up, [AckInv(s)], AckInv(q));
      One(AckInv(s), AckInv(q));
    }
  }

  lemma DoInvIs(e: Env, v: View, from: NodeId, s: int)
    requires v.far.hdr.status == VALID
    ensures var far' := v.far.(hdr := v.far.hdr.(status := INVALID, nextResp := from));
      && OnDoInv(e, v.far, from, s) == Ok(far', [Packet(from, AckInv(s))])
      && Obeys(v, OnDoInv(e, v.far, from, s), DoInv(s))
  {
  }

  lemma TakeDoInv(c: Config, e: Env, n: NodeId, v: View, jobs: map<Tx, Job>)
    requires FarGood(c, n, v, jobs) && EnvAt(c, e, n) && v.dn != [] && v.dn[0].DoInv?
    ensures var s := v.dn[0].serial; var o := OnDoInv(e, v.far, c.owner, s);
      && o.Ok? && o.out == [Packet(c.owner, AckInv(s))]
      && FarGood(c, n, View(o.node, v.home, v.up + [AckInv(s)], v.dn[1..]), jobs)
    ensures Obeys(v, OnDoInv(e, v.far, c.owner, v.dn[0].serial), v.dn[0])
  {
    NextMessage(c, n, v.home, v.far, v.dn);
    DoInvIs(e, v, c.owner, v.dn[0].serial);
    InvalidatedFlows(c, n, v, OnDoInv(e, v.far, c.owner, v.dn[0].serial).node, jobs);
    InvalidatedCopy(c, n, v, OnDoInv(e, v.far, c.owner, v.dn[0].serial).node);
  }

  lemma InvalidatedCopy(c: Config, n: NodeId, v: View, far': Node)
    requires Coherent(c, n, v.home, v.far, v.dn) && v.dn != [] && v.dn[0].DoInv? && v.far.hdr.status == VALID
    requires far'.hdr.status == INVALID
    ensures Coherent(c, n, v.home, far', v.dn[1..])
  {
    Receive(c, n, v.home, v.far, far', v.dn);
  }

  lemma InvalidatedFlows(c: Config, n: NodeId, v: View, far': Node, jobs: map<Tx, Job>)
    requires Publishes(c, n, v.far, jobs) && Flows(c, n, v, jobs) && v.dn != [] && v.dn[0].DoInv?
    requires far' == v.far.(hdr := v.far.hdr.(status := INVALID, nextResp := c.owner))
    ensures var v' := View(far', v.home, v.up + [AckInv(v.dn[0].serial)], v.dn[1..]);
      Publishes(c, n, far', jobs) && Flows(c, n, v', jobs)
  {
    var m := AckInv(v.dn[0].serial);
    PopDn(n, v.up, v.dn);
    PushUp(n, v.up, v.dn, m);
    QuietAtNode(c, n, v, View(far', v.home, v.up + [m], v.dn[1..]), jobs);
    UpOkPush(n, v.far, far', v.up, m);
    DoInvFlow(n, v.home, v.up, v.dn, v.dn[0].serial);
  }

  ghost predicate AllTo(out: seq<Packet>, b: NodeId) { forall i :: 0 <= i < |out| ==> out[i].to == b }

  lemma {:induction false} ToOthers(out: seq<Packet>, b: NodeId, x: NodeId)
    requires AllTo(out, b) && x != b
    ensures To(out, x) == []
  {
    if out != [] { ToOthers(out[1..], b, x); }
  }

  /** What a node that is not the home may do: run on, sending only to the home, or fail the one check. */
  ghost predicate FarResult(c: Config, n: NodeId, v: View, o: Outcome, dn': seq<Msg>, jobs': map<Tx, Job>) {
    match o
    case Halt(why) => why == OverwritingValid && n in v.home.tr.twice
    case Ok(far', out) => AllTo(out, c.owner) && FarGood(c, n, View(far', v.home, v.up + To(out, c.owner), dn'), jobs')
  }

  /** The handler asks for no data. */
  ghost predicate Silent(o: Outcome) {
    o.Ok? ==> forall i :: 0 <= i < |o.out| ==> !o.out[i].msg.DataReq?
  }

  /** The handler of message m asks for no data, and changes the copy as m says. */
  ghost predicate Obeys(v: View, o: Outcome, m: Msg) {
    Silent(o) && (o.Ok? ==> Receives(v.far, o.node, m))
  }

  /** The call asks for no data and leaves the copy alone. */
  ghost predicate Steady(v: View, o: Outcome) {
    Silent(o) && (o.Ok? ==> o.node.hdr.status == v.far.hdr.status)
  }

  lemma ResultNone(c: Config, n: NodeId, v: View, far': Node, dn': seq<Msg>, jobs': map<Tx, Job>)
    requires FarGood(c, n, View(far', v.home, v.up, dn'), jobs')
    ensures FarResult(c, n, v, Ok(far', []), dn', jobs')
  {
    assert v.up + To([], c.owner) == v.up;
  }

  lemma ResultOne(c: Config, n: NodeId, v: View, far': Node, m: Msg, dn': seq<Msg>, jobs': map<Tx, Job>)
    requires FarGood(c, n, View(far', v.home, v.up + [m], dn'), jobs')
    ensures FarResult(c, n, v, Ok(far', [Packet(c.owner, m)]), dn', jobs')
  {
    ToOne(Packet(c.owner, m), c.owner);
  }

  // ---------------------------------------------------------------- acks at the publishing node

  /** The view after the node has counted a write's ack, before any question is asked. */
  lemma CountWrite(c: Config, n: NodeId, v: View, far': Node, k: int, jobs: map<Tx, Job>)
    requires FarGood(c, n, v, jobs) && v.dn != [] && v.dn[0] == RWriteAck(k) && k in v.far.tr.sent
      && k in v.far.ev.commits
    requires WriteCommits(v.far.tr.sent[k].tx) in v.far.ev.sc
    requires far' == WriteCounted(v.far, c.owner, k, v.far.tr.sent[k].tx)
    ensures var v' := View(far', v.home, v.up, v.dn[1..]);
      && FarOk(c, n, far') && CommitsOk(n, c.threads, far') && AsksOk(c.threads, far') && Flows(c, n, v', jobs)
      && Coherent(c, n, v.home, far', v.dn[1..])
  {
    AckCommits(n, c.threads, v.far, far', k);
    QuietAsks(c.threads, v.far, far');
    CountFlows(c, n, v, far', k, jobs);
    Receive(c, n, v.home, v.far, far', v.dn);
  }

  lemma CountFlows(c: Config, n: NodeId, v: View, far': Node, k: int, jobs: map<Tx, Job>)
    requires Flows(c, n, v, jobs) && v.dn != [] && v.dn[0] == RWriteAck(k) && k in v.far.tr.sent
    requires WriteCommits(v.far.tr.sent[k].tx) in v.far.ev.sc
      && far' == WriteCounted(v.far, c.owner, k, v.far.tr.sent[k].tx)
    ensures Flows(c, n, View(far', v.home, v.up, v.dn[1..]), jobs)
  {
    AckWriteFlow(n, v.far, far', v.home.tr.log, v.up, v.dn, k);
    PopDn(n, v.up, v.dn);
    AskFlowFrame(n, c.threads, v.far, far', v.home, v.home, v.up, v.up, v.dn, v.dn[1..]);
    InvFlowFrame(n, v.home, v.home, v.up, v.up, v.dn, v.dn[1..]);
    UpOkPush(n, v.far, far', v.up, DataReq(n));
  }

  /** A question added to a view; its publication is left to the caller. */
  lemma AskView(c: Config, e: Env, n: NodeId, v: View, tx: Tx, jobs: map<Tx, Job>)
    requires FarOk(c, n, v.far) && CommitsOk(n, c.threads, v.far) && AsksOk(c.threads, v.far) && Flows(c, n, v, jobs)
    requires Coherent(c, n, v.home, v.far, v.dn) && EnvAt(c, e, n) && tx !in v.far.tr.asks && tx !in v.far.tr.tdecs
    ensures var far' := Asked(e, v.far, tx);
      var v' := View(far', v.home, v.up + [AskInv(n, NthSerial(e, v.far, 0))], v.dn);
      && FarOk(c, n, far') && CommitsOk(n, c.threads, far') && AsksOk(c.threads, far') && Flows(c, n, v', jobs)
      && Coherent(c, n, v.home, far', v.dn)
  {
    AskAsks(c.threads, e, v.far, tx);
    AskFlows(c, e, n, v, tx, jobs);
    FarElse(c, n, v.home, v.far, Asked(e, v.far, tx), v.dn);
  }

  lemma AskFlows(c: Config, e: Env, n: NodeId, v: View, tx: Tx, jobs: map<Tx, Job>)
    requires AsksOk(c.threads, v.far) && |v.far.ser.inv| == c.threads && Flows(c, n, v, jobs) && EnvAt(c, e, n)
    ensures Flows(c, n, View(Asked(e, v.far, tx), v.home, v.up + [AskInv(n, NthSerial(e, v.far, 0))], v.dn), jobs)
  {
    var t := c.threads;
    var far' := Asked(e, v.far, tx);
    var m := AskInv(n, NthSerial(e, v.far, 0));
    AskAskFlow(n, t, e, v.far, tx, v.home, v.up, v.dn);
    AskOrdered(n, t, e, v.far, tx, v.home, jobs, v.up, v.dn);
    PushUp(n, v.up, v.dn, m);
    WriteFlowFrame(n, v.far, far', v.home.tr.log, v.home.tr.log, v.up, v.up + [m], v.dn, v.dn);
    InvFlowFrame(n, v.home, v.home, v.up, v.up + [m], v.dn, v.dn);
    UpOkPush(n, v.far, far', v.up, m);
  }

  lemma AckedWrite(c: Config, n: NodeId, v: View, k: int, jobs: map<Tx, Job>)
    requires FarGood(c, n, v, jobs) && v.dn != [] && v.dn[0] == RWriteAck(k)
    ensures k in v.far.tr.sent && k in v.far.ev.commits && v.far.ev.commits[k] == [WriteCommits(v.far.tr.sent[k].tx)]
    ensures var tx := v.far.tr.sent[k].tx;
      && WriteCommits(tx) in v.far.ev.sc && v.far.ev.sc[WriteCommits(tx)] > 0
      && tx !in v.far.tr.asks && tx !in v.far.tr.tdecs
  {
    AckWriteFlow(n, v.far, v.far.(ev := v.far.ev.(commits := v.far.ev.commits - {k})), v.home.tr.log, v.up, v.dn, k);
    AckIsCounted(n, c.threads, v.far, jobs, k);
  }

  lemma TakeWriteAck(c: Config, e: Env, n: NodeId, v: View, jobs: map<Tx, Job>)
    requires FarGood(c, n, v, jobs) && EnvAt(c, e, n) && v.dn != [] && v.dn[0].RWriteAck?
    ensures FarResult(c, n, v, OnRWriteAck(e, v.far, c.owner, v.dn[0].serial), v.dn[1..], jobs)
    ensures Obeys(v, OnRWriteAck(e, v.far, c.owner, v.dn[0].serial), v.dn[0])
  {
    var k := v.dn[0].serial;
    AckedWrite(c, n, v, k, jobs);
    var tx := v.far.tr.sent[k].tx;
    WriteAckIs(e, v.far, k, tx);
    if v.far.ev.sc[WriteCommits(tx)] > 1 { CountMore(c, n, v, k, jobs); } else { CountLast(c, e, n, v, k, jobs); }
  }

  lemma CountMore(c: Config, n: NodeId, v: View, k: int, jobs: map<Tx, Job>)
    requires FarGood(c, n, v, jobs) && v.dn != [] && v.dn[0] == RWriteAck(k) && k in v.far.tr.sent
      && k in v.far.ev.commits
    requires WriteCommits(v.far.tr.sent[k].tx) in v.far.ev.sc && v.far.ev.sc[WriteCommits(v.far.tr.sent[k].tx)] > 1
    ensures var o := Ok(WriteCounted(v.far, c.owner, k, v.far.tr.sent[k].tx), []);
      FarResult(c, n, v, o, v.dn[1..], jobs) && Obeys(v, o, v.dn[0])
  {
    var far' := WriteCounted(v.far, c.owner, k, v.far.tr.sent[k].tx);
    CountWrite(c, n, v, far', k, jobs);
    AckJobs(n, c.threads, v.far, far', jobs, k);
    ResultNone(c, n, v, far', v.dn[1..], jobs);
  }

  lemma CountLast(c: Config, e: Env, n: NodeId, v: View, k: int, jobs: map<Tx, Job>)
    requires FarGood(c, n, v, jobs) && v.dn != [] && v.dn[0] == RWriteAck(k) && k in v.far.tr.sent
      && k in v.far.ev.commits
    requires var tx := v.far.tr.sent[k].tx;
      && WriteCommits(tx) in v.far.ev.sc && v.far.ev.sc[WriteCommits(tx)] == 1
      && tx !in v.far.tr.asks && tx !in v.far.tr.tdecs
    requires EnvAt(c, e, n)
    ensures var tx := v.far.tr.sent[k].tx; var far1 := WriteCounted(v.far, c.owner, k, tx);
      var o := Ok(Asked(e, far1, tx), [Packet(c.owner, AskInv(n, NthSerial(e, far1, 0)))]);
      FarResult(c, n, v, o, v.dn[1..], jobs) && Obeys(v, o, v.dn[0])
  {
    var tx := v.far.tr.sent[k].tx;
    var far1 := WriteCounted(v.far, c.owner, k, tx);
    CountWrite(c, n, v, far1, k, jobs);
    CountedThenAsks(c, e, n, v, far1, k, jobs);
    ResultOne(c, n, v, Asked(e, far1, tx), AskInv(n, NthSerial(e, far1, 0)), v.dn[1..], jobs);
    AsksObeys(c, e, v, far1, tx, k);
  }

  lemma AsksObeys(c: Config, e: Env, v: View, far1: Node, tx: Tx, k: int)
    requires far1.hdr.status == v.far.hdr.status && far1.content == v.far.content
    ensures Obeys(v, Ok(Asked(e, far1, tx), [Packet(c.owner, AskInv(e.self, NthSerial(e, far1, 0)))]), RWriteAck(k))
  {
  }

  lemma CountedThenAsks(c: Config, e: Env, n: NodeId, v: View, far1: Node, k: int, jobs: map<Tx, Job>)
    requires JobsOk(n, v.far, jobs) && CommitsOk(n, c.threads, v.far) && k in v.far.tr.sent && k in v.far.ev.commits
      && v.dn != []
    requires LastAck(c, v.far, far1, k)
    requires var v1 := View(far1, v.home, v.up, v.dn[1..]);
      && FarOk(c, n, far1) && CommitsOk(n, c.threads, far1) && AsksOk(c.threads, far1) && Flows(c, n, v1, jobs)
      && Coherent(c, n, v.home, far1, v.dn[1..])
    requires EnvAt(c, e, n)
    ensures FarGood(
      c, n, View(Asked(e, far1, v.far.tr.sent[k].tx), v.home, v.up + [AskInv(n, NthSerial(e, far1, 0))], v.dn[1..]),
      jobs)
  {
    AskView(c, e, n, View(far1, v.home, v.up, v.dn[1..]), v.far.tr.sent[k].tx, jobs);
    CountedJobs(c, e, n, v.far, far1, k, jobs);
  }

  ghost predicate LastAck(c: Config, far: Node, far1: Node, k: int)
    requires k in far.tr.sent
  {
    var tx := far.tr.sent[k].tx;
    && WriteCommits(tx) in far.ev.sc && far.ev.sc[WriteCommits(tx)] == 1 && tx !in far.tr.asks && tx !in far.tr.tdecs
    && far1 == WriteCounted(far, c.owner, k, tx)
  }

  lemma CountedJobs(c: Config, e: Env, n: NodeId, far: Node, far1: Node, k: int, jobs: map<Tx, Job>)
    requires JobsOk(n, far, jobs) && CommitsOk(n, c.threads, far) && k in far.tr.sent && k in far.ev.commits
    requires LastAck(c, far, far1, k)
    ensures JobsOk(n, Asked(e, far1, far.tr.sent[k].tx), jobs)
  {
    AckJobs(n, c.threads, far, Asked(e, far1, far.tr.sent[k].tx), jobs, k);
  }

  lemma TakeAnswer(c: Config, e: Env, n: NodeId, v: View, jobs: map<Tx, Job>)
    requires FarGood(c, n, v, jobs) && EnvAt(c, e, n) && v.dn != [] && v.dn[0].AckInv?
    ensures FarResult(c, n, v, OnAckInv(e, v.far, c.owner, v.dn[0].serial), v.dn[1..], jobs)
    ensures Obeys(v, OnAckInv(e, v.far, c.owner, v.dn[0].serial), v.dn[0])
  {
    var s := v.dn[0].serial;
    AnswerWaits(n, c.threads, v.far, v.home, v.up, v.dn, jobs, s);
    var tx := v.far.ev.invs[s][0].tx;
    AnswerIs(e, v.far, c.owner, s, tx);
    var far' := OnAckInv(e, v.far, c.owner, s).node;
    assert AskWaits(v.far, s);
    AnswerView(c, n, v, far', s, tx, jobs);
    ResultNone(c, n, v, far', v.dn[1..], jobs);
  }

  lemma AnswerView(c: Config, n: NodeId, v: View, far': Node, s: int, tx: Tx, jobs: map<Tx, Job>)
    requires FarGood(c, n, v, jobs) && v.dn != [] && v.dn[0] == AckInv(s) && s in v.far.ev.invs
      && v.far.ev.invs[s] == [DoTdecs(tx)]
    requires tx in jobs && tx.node == n && tx in v.far.tr.asks && DoTdecs(tx) in v.far.ev.sc
      && TakesAnswer(v.far, far', s, tx)
    requires far'.hdr == v.far.hdr.(nextResp := c.owner) && far'.content == v.far.content && far'.shared == v.far.shared
    requires far'.tr.acked == v.far.tr.acked
    ensures FarGood(c, n, View(far', v.home, v.up, v.dn[1..]), jobs)
  {
    AnswerPublishes(c, n, v.far, far', s, tx, jobs);
    AnswerFlows(c, n, v, far', s, tx, jobs);
    Receive(c, n, v.home, v.far, far', v.dn);
  }

  lemma AnswerPublishes(c: Config, n: NodeId, far: Node, far': Node, s: int, tx: Tx, jobs: map<Tx, Job>)
    requires Publishes(c, n, far, jobs) && s in far.ev.invs && far.ev.invs[s] == [DoTdecs(tx)]
    requires tx in jobs && tx.node == n && tx in far.tr.asks && DoTdecs(tx) in far.ev.sc
      && TakesAnswer(far, far', s, tx)
    requires far'.hdr == far.hdr.(nextResp := c.owner) && far'.shared == far.shared && far'.tr.acked == far.tr.acked
    ensures Publishes(c, n, far', jobs)
  {
    AnswerAsks(c.threads, far, far', s, tx);
    AnswerJobs(n, far, far', jobs, s, tx);
  }

  lemma AnswerFlows(c: Config, n: NodeId, v: View, far': Node, s: int, tx: Tx, jobs: map<Tx, Job>)
    requires Flows(c, n, v, jobs) && v.dn != [] && v.dn[0] == AckInv(s) && TakesAnswer(v.far, far', s, tx)
    ensures Flows(c, n, View(far', v.home, v.up, v.dn[1..]), jobs)
  {
    AnswerAskFlow(n, c.threads, v.far, far', v.home, v.up, v.dn, s, tx);
    PopDn(n, v.up, v.dn);
    WriteFlowFrame(n, v.far, far', v.home.tr.log, v.home.tr.log, v.up, v.up, v.dn, v.dn[1..]);
    InvFlowFrame(n, v.home, v.home, v.up, v.up, v.dn, v.dn[1..]);
    UpOkPush(n, v.far, far', v.up, DataReq(n));
  }

  lemma FarTakes(c: Config, e: Env, n: NodeId, v: View, jobs: map<Tx, Job>)
    requires FarGood(c, n, v, jobs) && EnvAt(c, e, n) && v.dn != []
    ensures FarResult(c, n, v, Handle(e, v.far, c.owner, v.dn[0]), v.dn[1..], jobs)
    ensures Obeys(v, Handle(e, v.far, c.owner, v.dn[0]), v.dn[0])
  {
    HandleIs(e, v.far, c.owner, v.dn[0]);
    match v.dn[0]
    case Data(x) =>
      TakeData(c, e, n, v, jobs);
      var o := OnData(e, v.far, c.owner, x);
      if o.Ok? { ResultNone(c, n, v, o.node, v.dn[1..], jobs); }
    case DoInv(s) =>
      TakeDoInv(c, e, n, v, jobs);
      ResultOne(c, n, v, OnDoInv(e, v.far, c.owner, s).node, AckInv(s), v.dn[1..], jobs);
    case RWriteAck(_) => TakeWriteAck(c, e, n, v, jobs);
    case AckInv(_) => TakeAnswer(c, e, n, v, jobs);
    case _ =>
  }

  // ---------------------------------------------------------------- calls by tasks away from the home

  lemma FarReads(c: Config, e: Env, n: NodeId, v: View, jobs: map<Tx, Job>)
    requires FarGood(c, n, v, jobs) && EnvAt(c, e, n)
    ensures FarResult(c, n, v, RequestData(e, v.far), v.dn, jobs)
  {
    var m := DataReq(n);
    PushUp(n, v.up, v.dn, m);
    QuietAtNode(c, n, v, View(v.far, v.home, v.up + [m], v.dn), jobs);
    InvFlowFrame(n, v.home, v.home, v.up, v.up + [m], v.dn, v.dn);
    UpOkPush(n, v.far, v.far, v.up, m);
    ResultOne(c, n, v, v.far, m, v.dn, jobs);
  }

  /** A publication of node n is added or changed; none of those that have asked is touched. */
  lemma FlowsJobs(c: Config, n: NodeId, v: View, jobs: map<Tx, Job>, jobs': map<Tx, Job>)
    requires Flows(c, n, v, jobs)
    requires forall tx :: tx in v.far.tr.asks && tx in jobs' && tx.node == n ==> tx in jobs && jobs'[tx] == jobs[tx]
    ensures Flows(c, n, v, jobs')
  {
  }

  lemma FarBegins(c: Config, e: Env, n: NodeId, v: View, jobs: map<Tx, Job>, tx: Tx, j: Job)
    requires FarGood(c, n, v, jobs) && EnvAt(c, e, n) && tx !in jobs && tx.node == n && j.serials == []
    ensures FarResult(c, n, v, Publish(e, v.far, tx, |j.ws|), v.dn, jobs[tx := j])
    ensures Steady(v, Publish(e, v.far, tx, |j.ws|))
  {
    FlowsJobs(c, n, v, jobs, jobs[tx := j]);
    if j.ws == [] { FarAsksAtOnce(c, e, n, v, jobs, tx, j); } else { FarWaits(c, e, n, v, jobs, tx, j); }
  }

  lemma AsksAtOnceIs(c: Config, e: Env, n: NodeId, v: View, tx: Tx)
    requires FarOk(c, n, v.far) && EnvAt(c, e, n)
    ensures var far1 := WithClosure(v.far, DoTdecs(tx), 1);
      Publish(e, v.far, tx, 0) == Ok(Asked(e, far1, tx), [Packet(c.owner, AskInv(n, NthSerial(e, far1, 0)))])
    ensures Steady(v, Publish(e, v.far, tx, 0))
  {
    AskIs(e, WithClosure(v.far, DoTdecs(tx), 1), tx);
  }

  lemma FarAsksAtOnce(c: Config, e: Env, n: NodeId, v: View, jobs: map<Tx, Job>, tx: Tx, j: Job)
    requires FarGood(c, n, v, jobs) && EnvAt(c, e, n) && tx !in jobs && tx.node == n && j.serials == [] && j.ws == []
    requires Flows(c, n, v, jobs[tx := j])
    ensures FarResult(c, n, v, Publish(e, v.far, tx, 0), v.dn, jobs[tx := j]) && Steady(v, Publish(e, v.far, tx, 0))
  {
    var far1 := WithClosure(v.far, DoTdecs(tx), 1);
    AsksAtOnceIs(c, e, n, v, tx);
    AskingView(c, e, n, v, far1, jobs, tx, j);
    ResultOne(c, n, v, Asked(e, far1, tx), AskInv(n, NthSerial(e, far1, 0)), v.dn, jobs[tx := j]);
  }

  lemma AskingView(c: Config, e: Env, n: NodeId, v: View, far1: Node, jobs: map<Tx, Job>, tx: Tx, j: Job)
    requires FarGood(c, n, v, jobs) && EnvAt(c, e, n) && tx !in jobs && tx.node == n && j.serials == [] && j.ws == []
    requires Flows(c, n, v, jobs[tx := j]) && far1 == WithClosure(v.far, DoTdecs(tx), 1)
    ensures FarGood(
      c, n, View(Asked(e, far1, tx), v.home, v.up + [AskInv(n, NthSerial(e, far1, 0))], v.dn), jobs[tx := j])
  {
    ClosureView(c, n, v, far1, jobs[tx := j]);
    AskView(c, e, n, View(far1, v.home, v.up, v.dn), tx, jobs[tx := j]);
    BeginJobs(n, v.far, Asked(e, far1, tx), jobs, tx, j);
  }

  lemma FarWaits(c: Config, e: Env, n: NodeId, v: View, jobs: map<Tx, Job>, tx: Tx, j: Job)
    requires FarGood(c, n, v, jobs) && EnvAt(c, e, n) && tx !in jobs && tx.node == n && j.serials == [] && j.ws != []
    requires Flows(c, n, v, jobs[tx := j])
    ensures FarResult(c, n, v, Publish(e, v.far, tx, |j.ws|), v.dn, jobs[tx := j])
      && Steady(v, Publish(e, v.far, tx, |j.ws|))
  {
    var far2 := WithClosure(WithClosure(v.far, DoTdecs(tx), 1), WriteCommits(tx), |j.ws|);
    ClosureView(c, n, v, far2, jobs[tx := j]);
    BeginJobs(n, v.far, far2, jobs, tx, j);
    ResultNone(c, n, v, far2, v.dn, jobs[tx := j]);
  }

  /** New closures alone change nothing in a view. */
  lemma ClosureView(c: Config, n: NodeId, v: View, far': Node, jobs: map<Tx, Job>)
    requires FarOk(c, n, v.far) && CommitsOk(n, c.threads, v.far) && AsksOk(c.threads, v.far) && Flows(c, n, v, jobs)
    requires Coherent(c, n, v.home, v.far, v.dn) && far' == v.far.(ev := v.far.ev.(sc := far'.ev.sc))
    ensures FarOk(c, n, far') && CommitsOk(n, c.threads, far') && AsksOk(c.threads, far')
    ensures Flows(c, n, View(far', v.home, v.up, v.dn), jobs) && Coherent(c, n, v.home, far', v.dn)
  {
    QuietAsks(c.threads, v.far, far');
    Still(n, v.up, v.dn);
    WriteFlowFrame(n, v.far, far', v.home.tr.log, v.home.tr.log, v.up, v.up, v.dn, v.dn);
    AskFlowFrame(n, c.threads, v.far, far', v.home, v.home, v.up, v.up, v.dn, v.dn);
    UpOkPush(n, v.far, far', v.up, DataReq(n));
    FarElse(c, n, v.home, v.far, far', v.dn);
  }

  lemma FarSends(c: Config, e: Env, n: NodeId, v: View, jobs: map<Tx, Job>, tx: Tx)
    requires FarGood(c, n, v, jobs) && EnvAt(c, e, n) && tx in jobs && tx.node == n
      && |jobs[tx].serials| < |jobs[tx].ws|
    ensures var j := jobs[tx]; var jobs' := jobs[tx := j.(serials := j.serials + [WriteSerial(v.far.ser, e.th)])];
      FarResult(c, n, v, RemoteWrite(e, v.far, tx, j.ws[|j.serials|]), v.dn, jobs')
  {
    var j := jobs[tx];
    var w := j.ws[|j.serials|];
    var x := WriteSerial(v.far.ser, e.th);
    var far' := RemoteWrite(e, v.far, tx, w).node;
    var jobs' := jobs[tx := j.(serials := j.serials + [x])];
    assert JobOk(v.far, tx, j);
    SendCommits(n, c.threads, e.th, v.far, far', tx, w, x);
    QuietAsks(c.threads, v.far, far');
    WriteIsNew(v.far.ser, c.threads, e.th);
    SendJobs(n, c.threads, e.th, v.far, far', jobs, tx, x);
    SendFlows(c, n, v, far', jobs, tx, w, x);
    FlowsJobs(c, n, View(far', v.home, v.up + [RWrite(n, x, w)], v.dn), jobs, jobs');
    ResultOne(c, n, v, far', RWrite(n, x, w), v.dn, jobs');
  }

  lemma SendFlows(c: Config, n: NodeId, v: View, far': Node, jobs: map<Tx, Job>, tx: Tx, w: Write, x: int)
    requires FarGood(c, n, v, jobs) && x !in v.far.tr.sent
    requires far' == v.far.(ev := far'.ev, tr := far'.tr, ser := far'.ser) && far'.ser.inv == v.far.ser.inv
    requires far'.tr == v.far.tr.(sent := v.far.tr.sent[x := Sent(tx, w)])
    requires far'.ev == v.far.ev.(commits := v.far.ev.commits[x := [WriteCommits(tx)]])
    ensures Flows(c, n, View(far', v.home, v.up + [RWrite(n, x, w)], v.dn), jobs) && Coherent(c, n, v.home, far', v.dn)
  {
    var m := RWrite(n, x, w);
    SendWriteFlow(n, v.far, far', v.home.tr.log, v.up, v.dn, tx, w, x);
    PushUp(n, v.up, v.dn, m);
    AskFlowFrame(n, c.threads, v.far, far', v.home, v.home, v.up, v.up + [m], v.dn, v.dn);
    InvFlowFrame(n, v.home, v.home, v.up, v.up + [m], v.dn, v.dn);
    FarElse(c, n, v.home, v.far, far', v.dn);
  }

  lemma FarTicks(c: Config, th: nat, n: NodeId, v: View, jobs: map<Tx, Job>)
    requires FarGood(c, n, v, jobs) && th < c.threads
    ensures FarResult(c, n, v, Ok(v.far.(ser := TickSerials(v.far.ser, th)), []), v.dn, jobs)
  {
    var far' := v.far.(ser := TickSerials(v.far.ser, th));
    TickFar(n, c.threads, th, v.far, far');
    JobsFrame(n, v.far, far', jobs);
    Still(n, v.up, v.dn);
    WriteFlowFrame(n, v.far, far', v.home.tr.log, v.home.tr.log, v.up, v.up, v.dn, v.dn);
    AskFlowFrame(n, c.threads, v.far, far', v.home, v.home, v.up, v.up, v.dn, v.dn);
    UpOkPush(n, v.far, far', v.up, DataReq(n));
    FarElse(c, n, v.home, v.far, far', v.dn);
    ResultNone(c, n, v, far', v.dn, jobs);
  }

  // ---------------------------------------------------------------- the home answers a read

  lemma UpOkPop(n: NodeId, far: Node, up: seq<Msg>)
    requires UpOk(n, far, up) && up != []
    ensures UpOk(n, far, up[1..]) && UpMsg(n, far, up[0])
  {
    forall i | 0 <= i < |up[1..]| ensures UpMsg(n, far, up[1..][i]) { assert UpMsg(n, far, up[i + 1]); }
  }

  /** Home's part in the flows is unchanged: no closure, invalidation or log entry. */
  ghost predicate SameDuties(home: Node, home': Node) {
    && home'.ev.sc == home.ev.sc && home'.ev.invs == home.ev.invs && home'.tr.waits == home.tr.waits
    && home'.tr.log == home.tr.log && home'.tr.lastInv == home.tr.lastInv
  }

  lemma DutyFlows(c: Config, n: NodeId, v: View, v': View, jobs: map<Tx, Job>)
    requires Flows(c, n, v, jobs) && v'.far == v.far && SameDuties(v.home, v'.home) && UpOk(n, v.far, v'.up)
      && DnOk(v'.dn)
    requires SameWrites(n, v.up, v'.up, v.dn, v'.dn) && SameAsks(n, v.up, v'.up, v.dn, v'.dn)
    requires SameInvs(v.up, v'.up, v.dn, v'.dn) && ReqFlow(n, v'.far, v'.home, v'.up)
    ensures Flows(c, n, v', jobs)
  {
    WriteFlowFrame(n, v.far, v.far, v.home.tr.log, v.home.tr.log, v.up, v'.up, v.dn, v'.dn);
    AskFlowFrame(n, c.threads, v.far, v.far, v.home, v'.home, v.up, v'.up, v.dn, v'.dn);
    InvFlowFrame(n, v.home, v'.home, v.up, v'.up, v.dn, v'.dn);
    forall tx | tx in jobs && tx.node == n && tx in v.far.tr.asks && SendAck(n, v.far.tr.asks[tx]) in v'.home.tr.waits
      ensures Swept(v'.home, tx, jobs[tx])
    {
      assert Swept(v.home, tx, jobs[tx]);
    }
  }

  lemma ReadHome(c: Config, home: Node, home': Node, n: NodeId, jobs: map<Tx, Job>, next: nat)
    requires HomeGood(c, home, jobs, next) && Answers(n, home, home') && IsFar(c, n)
    requires home' == home.(shared := home'.shared, tr := home.tr.(twice := home'.tr.twice))
    ensures HomeGood(c, home', jobs, next)
  {
    SameClosures(c, home, home');
    forall tx | tx in jobs && tx.node == c.owner ensures HomeJobOk(home', tx, jobs[tx]) {
      assert HomeJobOk(home, tx, jobs[tx]);
    }
  }

  lemma SameClosures(c: Config, home: Node, home': Node)
    requires ClosuresOk(c, home) && home'.ev.sc == home.ev.sc && home'.ev.invs == home.ev.invs
    requires home'.tr.waits == home.tr.waits && home'.tr.invAcked == home.tr.invAcked
    requires forall s :: UsedInv(home.ser.inv, c.threads, s) ==> UsedInv(home'.ser.inv, c.threads, s)
    ensures ClosuresOk(c, home')
  {
    forall x | x in home'.ev.sc ensures ClosureOk(home', x) {
      assert ClosureOk(home, x);
      if x.Continuer? { assert Acks(home', x.c) == Acks(home, x.c); }
    }
    forall s | s in home'.ev.invs ensures AckWaits(home', s) { assert AckWaits(home, s); }
    forall x, s | x in home'.tr.waits && s in home'.tr.waits[x] ensures HolderOk(c, home', x, s) {
      assert HolderOk(c, home, x, s);
    }
  }

  lemma ReadSender(c: Config, n: NodeId, v: View, home': Node, jobs: map<Tx, Job>)
    requires FarGood(c, n, v, jobs) && HomeOk(c, v.home) && v.up != [] && v.up[0].DataReq?
    requires Answers(n, v.home, home') && SameDuties(v.home, home') && home'.ev.zero == v.home.ev.zero
    ensures FarGood(c, n, View(v.far, home', v.up[1..], v.dn + [Data(v.home.content)]), jobs)
  {
    var m := Data(v.home.content);
    PopUp(n, v.up, v.dn);
    PushDn(n, v.up, v.dn, m);
    UpOkPop(n, v.far, v.up);
    DutyFlows(c, n, v, View(v.far, home', v.up[1..], v.dn + [m]), jobs);
    Answer(c, n, v.home, home', v.far, v.dn);
  }

  lemma ReadOther(c: Config, n: NodeId, m: NodeId, v: View, home': Node, jobs: map<Tx, Job>)
    requires FarGood(c, m, v, jobs) && n != m && Answers(n, v.home, home') && SameDuties(v.home, home')
    requires home'.ev.zero == v.home.ev.zero
    ensures FarGood(c, m, View(v.far, home', v.up, v.dn), jobs)
  {
    Still(m, v.up, v.dn);
    DutyFlows(c, m, v, View(v.far, home', v.up, v.dn), jobs);
    AnswerOther(c, m, n, v.home, home', v.far, v.dn);
  }

  // ---------------------------------------------------------------- a request for responsibility

  lemma AsksRespFlows(c: Config, n: NodeId, v: View, far': Node, jobs: map<Tx, Job>, tag: nat)
    requires Flows(c, n, v, jobs) && far' == v.far.(ev := v.far.ev.(incs := v.far.ev.incs + 1))
    ensures Flows(c, n, View(far', v.home, v.up + [RWReq(n, tag)], v.dn), jobs)
  {
    var m := RWReq(n, tag);
    PushUp(n, v.up, v.dn, m);
    WriteFlowFrame(n, v.far, far', v.home.tr.log, v.home.tr.log, v.up, v.up + [m], v.dn, v.dn);
    AskFlowFrame(n, c.threads, v.far, far', v.home, v.home, v.up, v.up + [m], v.dn, v.dn);
    InvFlowFrame(n, v.home, v.home, v.up, v.up + [m], v.dn, v.dn);
    UpOkPush(n, v.far, far', v.up, m);
  }

  lemma AsksRespPublishes(c: Config, n: NodeId, far: Node, far': Node, jobs: map<Tx, Job>)
    requires Publishes(c, n, far, jobs) && far' == far.(ev := far.ev.(incs := far.ev.incs + 1))
    ensures Publishes(c, n, far', jobs)
  {
    QuietAsks(c.threads, far, far');
    JobsFrame(n, far, far', jobs);
  }

  lemma RespRequestIs(c: Config, e: Env, n: NodeId, v: View, tag: nat)
    requires FarOk(c, n, v.far) && EnvAt(c, e, n)
    ensures RequestResp(e, v.far, tag) ==
      Ok(v.far.(ev := v.far.ev.(incs := v.far.ev.incs + 1)), [Packet(c.owner, RWReq(n, tag))])
    ensures Steady(v, RequestResp(e, v.far, tag)) && AllTo(RequestResp(e, v.far, tag).out, c.owner)
  {
  }

  lemma FarAsksResp(c: Config, e: Env, n: NodeId, v: View, jobs: map<Tx, Job>, tag: nat)
    requires FarGood(c, n, v, jobs) && EnvAt(c, e, n)
    ensures FarResult(c, n, v, RequestResp(e, v.far, tag), v.dn, jobs)
  {
    var far' := v.far.(ev := v.far.ev.(incs := v.far.ev.incs + 1));
    RespRequestIs(c, e, n, v, tag);
    AsksRespPublishes(c, n, v.far, far', jobs);
    AsksRespFlows(c, n, v, far', jobs, tag);
    FarElse(c, n, v.home, v.far, far', v.dn);
    ResultOne(c, n, v, far', RWReq(n, tag), v.dn, jobs);
  }

  lemma WaitersGrow(ws: seq<Waiter>, w: Waiter, n: NodeId)
    ensures WaitersFor(ws + [w], n) == WaitersFor(ws, n) + if Asker(w) == n then 1 else 0
  {
    assert (ws + [w])[..|ws|] == ws;
  }

  lemma WaitHome(c: Config, home: Node, n: NodeId, tag: nat, jobs: map<Tx, Job>, next: nat)
    requires HomeGood(c, home, jobs, next)
    ensures HomeGood(c, Waiting(home, n, tag), jobs, next)
  {
    var home' := Waiting(home, n, tag);
    SameClosures(c, home, home');
    forall tx | tx in jobs && tx.node == c.owner ensures HomeJobOk(home', tx, jobs[tx]) {
      assert HomeJobOk(home, tx, jobs[tx]);
    }
  }

  /** The request leaves the channel and waits at home; nothing else changes, at its sender or elsewhere. */
  lemma WaitSender(c: Config, n: NodeId, v: View, tag: nat, jobs: map<Tx, Job>)
    requires FarGood(c, n, v, jobs) && v.up != [] && v.up[0] == RWReq(n, tag)
    ensures FarGood(c, n, View(v.far, Waiting(v.home, n, tag), v.up[1..], v.dn), jobs)
  {
    var home' := Waiting(v.home, n, tag);
    PopUp(n, v.up, v.dn);
    UpOkPop(n, v.far, v.up);
    WaitersGrow(v.home.ev.zero, home'.ev.zero[|v.home.ev.zero|], n);
    DutyFlows(c, n, v, View(v.far, home', v.up[1..], v.dn), jobs);
    HomeElse(c, n, v.home, home', v.far, v.dn, []);
    assert v.dn + [] == v.dn;
  }

  lemma WaitOther(c: Config, n: NodeId, m: NodeId, v: View, tag: nat, jobs: map<Tx, Job>)
    requires FarGood(c, m, v, jobs) && n != m
    ensures FarGood(c, m, View(v.far, Waiting(v.home, n, tag), v.up, v.dn), jobs)
  {
    var home' := Waiting(v.home, n, tag);
    Still(m, v.up, v.dn);
    WaitersGrow(v.home.ev.zero, home'.ev.zero[|v.home.ev.zero|], m);
    DutyFlows(c, m, v, View(v.far, home', v.up, v.dn), jobs);
    HomeElse(c, m, v.home, home', v.far, v.dn, []);
    assert v.dn + [] == v.dn;
  }

  // ---------------------------------------------------------------- the home applies a write

  function AppliedNode(home: Node, a: Applied): Node {
    home.(content := Apply(home.content, a.w), tr := home.tr.(log := home.tr.log + [a]))
  }

  lemma WriteHome(c: Config, home: Node, a: Applied, jobs: map<Tx, Job>, next: nat)
    requires HomeGood(c, home, jobs, next)
    ensures HomeGood(c, AppliedNode(home, a), jobs, next)
  {
    var home' := AppliedNode(home, a);
    ApplyHome(c, home, a);
    SameClosures(c, home, home');
    forall tx | tx in jobs && tx.node == c.owner ensures HomeJobOk(home', tx, jobs[tx]) {
      assert HomeJobOk(home, tx, jobs[tx]);
    }
  }

  /** The flows that a longer log does not touch. */
  lemma LongerLog(c: Config, n: NodeId, v: View, home': Node, up': seq<Msg>, dn': seq<Msg>, jobs: map<Tx, Job>,
                  a: Applied)
    requires Flows(c, n, v, jobs) && home' == AppliedNode(v.home, a) && v.home.tr.lastInv <= |v.home.tr.log|
    requires SameAsks(n, v.up, up', v.dn, dn') && SameInvs(v.up, up', v.dn, dn')
    ensures AskFlow(n, c.threads, v.far, home', up', dn') && InvFlow(n, home', up', dn')
      && Ordered(n, v.far, home', jobs)
  {
    AskFlowFrame(n, c.threads, v.far, v.far, v.home, home', v.up, up', v.dn, dn');
    InvFlowFrame(n, v.home, home', v.up, up', v.dn, dn');
    OrderedFrame(n, v.far, v.far, v.home, home', jobs, jobs);
  }

  lemma WriteSenderFlows(c: Config, n: NodeId, v: View, k: int, w: Write, jobs: map<Tx, Job>)
    requires Flows(c, n, v, jobs) && v.home.tr.lastInv <= |v.home.tr.log| && v.up != [] && v.up[0] == RWrite(n, k, w)
    ensures Flows(c, n, View(v.far, AppliedNode(v.home, Remote(n, k, w)), v.up[1..], v.dn + [RWriteAck(k)]), jobs)
  {
    var a := Remote(n, k, w);
    PopUp(n, v.up, v.dn);
    PushDn(n, v.up, v.dn, RWriteAck(k));
    UpOkPop(n, v.far, v.up);
    LongerLog(c, n, v, AppliedNode(v.home, a), v.up[1..], v.dn + [RWriteAck(k)], jobs, a);
    ApplyWriteFlow(n, v.far, v.home.tr.log, v.up, v.dn, k, w);
  }

  lemma WriteSender(c: Config, n: NodeId, v: View, k: int, w: Write, jobs: map<Tx, Job>)
    requires FarGood(c, n, v, jobs) && HomeOk(c, v.home) && v.up != [] && v.up[0] == RWrite(n, k, w)
    ensures FarGood(c, n, View(v.far, AppliedNode(v.home, Remote(n, k, w)), v.up[1..], v.dn + [RWriteAck(k)]), jobs)
  {
    WriteSenderFlows(c, n, v, k, w, jobs);
    HomeElse(c, n, v.home, AppliedNode(v.home, Remote(n, k, w)), v.far, v.dn, [RWriteAck(k)]);
  }

  lemma WriteOther(c: Config, m: NodeId, v: View, a: Applied, jobs: map<Tx, Job>)
    requires FarGood(c, m, v, jobs) && HomeOk(c, v.home) && (a.Remote? ==> a.orig != m)
    ensures FarGood(c, m, View(v.far, AppliedNode(v.home, a), v.up, v.dn), jobs)
  {
    var home' := AppliedNode(v.home, a);
    Still(m, v.up, v.dn);
    LongerLog(c, m, v, home', v.up, v.dn, jobs, a);
    ApplyOther(m, v.far, v.home.tr.log, a, v.up, v.dn);
    HomeElse(c, m, v.home, home', v.far, v.dn, []);
    assert v.dn + [] == v.dn;
  }

  // ---------------------------------------------------------------- the home begins an invalidation

  lemma BegunCoherent(c: Config, e: Env, n: NodeId, v: View, x: Closure)
    requires HomeOk(c, v.home) && ClosuresOk(c, v.home) && NewClosure(c, v.home, x) && e.th < c.threads
    requires Coherent(c, n, v.home, v.far, v.dn)
    ensures Coherent(c, n, Begun(e, v.home, x), v.far, v.dn + To(BegunOut(e, v.home, x), n))
  {
    var ms := To(BegunOut(e, v.home, x), n);
    var home' := Begun(e, v.home, x);
    if v.home.shared == [] {
      BegunEmpty(c, e, v.home, x);
      if x.SendAck? { ToOne(Packet(x.client, AckInv(x.serial)), n); }
      Invalidate(c, n, v.home, home', v.far, v.dn, []);
      assert v.dn + [] == v.dn;
      HomeElse(c, n, home', home', v.far, v.dn, ms);
    } else {
      BegunRegisters(c, e, v.home, x);
      AllInvsTo(e, WithClosure(v.home, x, 1), n, 0);
      Invalidate(c, n, v.home, home', v.far, v.dn, ms);
    }
  }

  lemma AskIsNewAtHome(c: Config, n: NodeId, v: View, s: int, jobs: map<Tx, Job>)
    requires FarGood(c, n, v, jobs) && IsFar(c, n) && v.up != [] && v.up[0] == AskInv(n, s)
    ensures NewClosure(c, v.home, SendAck(n, s))
  {
    HeadCounts(v.up);
    assert AskFlowAt(n, c.threads, v.far, v.home, v.up, v.dn, s);
  }

  lemma AskSender(c: Config, e: Env, n: NodeId, v: View, s: int, jobs: map<Tx, Job>, next: nat)
    requires FarGood(c, n, v, jobs) && HomeGood(c, v.home, jobs, next) && IsFar(c, n) && e.th < c.threads
    requires v.up != [] && v.up[0] == AskInv(n, s)
    ensures var x := SendAck(n, s);
      FarGood(c, n, View(v.far, Begun(e, v.home, x), v.up[1..], v.dn + To(BegunOut(e, v.home, x), n)), jobs)
  {
    var x := SendAck(n, s);
    AskIsNewAtHome(c, n, v, s, jobs);
    UpOkPop(n, v.far, v.up);
    PopUp(n, v.up, v.dn);
    BegunDn(c, e, n, v.home, x, v.dn);
    WriteFlowFrame(n, v.far, v.far, v.home.tr.log, v.home.tr.log, v.up, v.up[1..], v.dn, v.dn);
    BegunWriteFlow(c, e, n, v.far, v.home, x, v.up[1..], v.dn);
    BegunAskFlow(c, e, n, v.far, v.home, s, v.up, v.dn);
    InvFlowFrame(n, v.home, v.home, v.up, v.up[1..], v.dn, v.dn);
    BegunInvFlow(c, e, n, v.home, x, v.up[1..], v.dn);
    BegunOrdered(c, e, n, v.far, v.home, s, jobs, v.up, v.dn);
    BegunCoherent(c, e, n, v, x);
  }

  /** A node whose ask is not the one served. */
  lemma BegunOther(c: Config, e: Env, m: NodeId, v: View, x: Closure, jobs: map<Tx, Job>)
    requires FarGood(c, m, v, jobs) && HomeOk(c, v.home) && ClosuresOk(c, v.home) && NewClosure(c, v.home, x)
    requires e.th < c.threads && (x.SendAck? ==> x.client != m)
    ensures FarGood(c, m, View(v.far, Begun(e, v.home, x), v.up, v.dn + To(BegunOut(e, v.home, x), m)), jobs)
  {
    BegunDn(c, e, m, v.home, x, v.dn);
    BegunWriteFlow(c, e, m, v.far, v.home, x, v.up, v.dn);
    BegunAskFlowOther(c, e, m, v.far, v.home, x, v.up, v.dn);
    BegunInvFlow(c, e, m, v.home, x, v.up, v.dn);
    BegunOrderedOther(c, e, m, v.far, v.home, x, jobs, jobs);
    BegunCoherent(c, e, m, v, x);
  }

  // ---------------------------------------------------------------- the home counts an ack

  lemma CountedCoherent(c: Config, n: NodeId, v: View, h: Node, s: int, x: Closure)
    requires HomeOk(c, v.home) && Counts(v.home, h, s, x) && Coherent(c, n, v.home, v.far, v.dn) && DnOk(v.dn)
    ensures Coherent(c, n, h, v.far, v.dn + To(AckCountedOut(v.home, x), n))
  {
    CountedHome(c, v.home, h, s, x);
    CountedOut(n, v.home, x, v.dn);
    HomeElse(c, n, v.home, h, v.far, v.dn, To(AckCountedOut(v.home, x), n));
  }

  lemma CountedView(c: Config, n: NodeId, v: View, h: Node, s: int, x: Closure, up': seq<Msg>, jobs: map<Tx, Job>)
    requires FarGood(c, n, v, jobs) && HomeOk(c, v.home) && ClosuresOk(c, v.home) && Counts(v.home, h, s, x)
    requires if Waits(v.home, s, n) then v.up != [] && v.up[0] == AckInv(s) && up' == v.up[1..] else up' == v.up
    ensures FarGood(c, n, View(v.far, h, up', v.dn + To(AckCountedOut(v.home, x), n)), jobs)
  {
    var dn' := v.dn + To(AckCountedOut(v.home, x), n);
    Still(n, v.up, v.dn);
    if up' != v.up {
      PopUp(n, v.up, v.dn);
      UpOkPop(n, v.far, v.up);
    }
    CountedHome(c, v.home, h, s, x);
    CountedOut(n, v.home, x, v.dn);
    CountedWriteFlow(n, v, h, x, up');
    CountedAskFlow(c, n, v.far, v.home, h, s, x, v.up, up', v.dn);
    CountedInvFlow(n, v.home, h, s, x, v.up, up', v.dn, To(AckCountedOut(v.home, x), n));
    OrderedFrame(n, v.far, v.far, v.home, h, jobs, jobs);
    CountedCoherent(c, n, v, h, s, x);
  }

  lemma CountedWriteFlow(n: NodeId, v: View, h: Node, x: Closure, up': seq<Msg>)
    requires WriteFlow(n, v.far, v.home.tr.log, v.up, v.dn) && DnOk(v.dn) && Continuer(x) in v.home.ev.sc
    requires SameWrites(n, v.up, up', v.dn, v.dn) && h.tr.log == v.home.tr.log
    ensures WriteFlow(n, v.far, h.tr.log, up', v.dn + To(AckCountedOut(v.home, x), n))
  {
    var ms := To(AckCountedOut(v.home, x), n);
    CountedOut(n, v.home, x, v.dn);
    forall k ensures Like(v.dn, v.dn + ms, RWriteAck(k)) { PushLike(v.dn, ms, RWriteAck(k)); }
    WriteFlowFrame(n, v.far, v.far, v.home.tr.log, h.tr.log, v.up, up', v.dn, v.dn + ms);
  }

  // ---------------------------------------------------------------- serials at the home

  lemma TickHome(c: Config, th: nat, home: Node, jobs: map<Tx, Job>, next: nat)
    requires HomeGood(c, home, jobs, next) && th < c.threads
    ensures HomeGood(c, home.(ser := TickSerials(home.ser, th)), jobs, next)
  {
    var home' := home.(ser := TickSerials(home.ser, th));
    WriteIsNew(home.ser, c.threads, th);
    assert home'.ser.write == NextWrite(home.ser, th);
    forall s | UsedInv(home.ser.inv, c.threads, s) ensures UsedInv(home'.ser.inv, c.threads, s) {
      InvStaysUsed(home.ser, th, 1, s);
    }
    SameClosures(c, home, home');
    forall tx | tx in jobs && tx.node == c.owner ensures HomeJobOk(home', tx, jobs[tx]) {
      assert HomeJobOk(home, tx, jobs[tx]);
    }
  }

  lemma TickOther(c: Config, m: NodeId, v: View, home': Node, jobs: map<Tx, Job>)
    requires FarGood(c, m, v, jobs) && home' == v.home.(ser := home'.ser)
    ensures FarGood(c, m, View(v.far, home', v.up, v.dn), jobs)
  {
    Still(m, v.up, v.dn);
    DutyFlows(c, m, v, View(v.far, home', v.up, v.dn), jobs);
    HomeElse(c, m, v.home, home', v.far, v.dn, []);
    assert v.dn + [] == v.dn;
  }
}
