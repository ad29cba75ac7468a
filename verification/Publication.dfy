/** The invariant of publication, from both ends: a node that publishes (`far`), the home of the page (`home`),
    and the two channels between them (`up` towards home, `dn` back), and what each step does to it. */
module Publication {
  import opened Protocol
  import opened SerialNumbers
  import opened Home
  import opened HomeHandlers

  // ---------------------------------------------------------------- messages in the channels

  ghost predicate UpOk(n: NodeId, far: Node, up: seq<Msg>) {
    forall i :: 0 <= i < |up| ==> UpMsg(n, far, up[i])
  }

  ghost predicate UpMsg(n: NodeId, far: Node, m: Msg) {
    match m
    case DataReq(orig) => orig == n
    case RWrite(orig, k, w) => orig == n && k in far.tr.sent && far.tr.sent[k].w == w
    case AskInv(orig, _) => orig == n
    case RWReq(orig, _) => orig == n
    case AckInv(_) => true
    case _ => false
  }

  ghost predicate DnOk(dn: seq<Msg>) {
    forall i :: 0 <= i < |dn| ==> dn[i].Data? || dn[i].RWriteAck? || dn[i].DoInv? || dn[i].AckInv?
  }

  lemma Pushed(ch: seq<Msg>, ms: seq<Msg>, m: Msg)
    ensures multiset(ch + ms)[m] == multiset(ch)[m] + multiset(ms)[m]
  {
  }

  lemma Popped(ch: seq<Msg>, m: Msg)
    requires ch != []
    ensures multiset(ch)[m] == multiset(ch[1..])[m] + (if m == ch[0] then 1 else 0)
  {
    assert ch == [ch[0]] + ch[1..];
  }

  lemma HeadCounts(ch: seq<Msg>)
    requires ch != []
    ensures multiset(ch)[ch[0]] >= 1
  {
  }

  lemma One(m: Msg, x: Msg)
    ensures multiset([m])[x] == if x == m then 1 else 0
  {
  }

  // ---------------------------------------------------------------- the publishing node

  ghost predicate FarOk(c: Config, n: NodeId, far: Node) {
    && far.hdr.status != RESP && far.shared == [] && (far.hdr.known ==> far.hdr.nextResp == c.owner)
    && SourcesOk(far.ser.write, c.threads) && |far.ser.inv| == c.threads && n != c.owner
  }

  /** A sent write waits for its ack or has been acked; its serial was never used before. */
  ghost predicate CommitsOk(n: NodeId, t: nat, far: Node) {
    && (forall k :: k in far.ev.commits ==> k in far.tr.sent && far.ev.commits[k] == [WriteCommits(far.tr.sent[k].tx)])
    && (forall k :: k in far.tr.sent ==>
          && UsedWrite(far.ser.write, t, k) && far.tr.sent[k].tx.node == n
          && (k in far.ev.commits <==> k !in far.tr.acked))
    && (forall k :: k in far.tr.acked ==> k in far.tr.sent)
  }

  /** A publication that has asked for its invalidation waits under its serial, or has been answered. */
  ghost predicate AsksOk(t: nat, far: Node) {
    && (forall s :: s in far.ev.invs ==> AskWaits(far, s))
    && (forall tx :: tx in far.tr.asks ==> AskOk(t, far, tx, far.tr.asks[tx]))
  }

  ghost predicate AskWaits(far: Node, s: int) {
    && s in far.ev.invs && |far.ev.invs[s]| == 1 && far.ev.invs[s][0].DoTdecs?
    && far.ev.invs[s][0].tx in far.tr.asks && far.tr.asks[far.ev.invs[s][0].tx] == s
  }

  ghost predicate AskOk(t: nat, far: Node, tx: Tx, s: int) {
    && UsedInv(far.ser.inv, t, s)
    && (s in far.ev.invs <==> tx !in far.tr.tdecs)
    && (if s in far.ev.invs then far.ev.invs[s] == [DoTdecs(tx)] else s in far.tr.invAcked)
  }

  /** The writes of a publication that are waiting for their acks. */
  ghost function Open(far: Node, tx: Tx): set<int> {
    set k | k in far.ev.commits && k in far.tr.sent && far.tr.sent[k].tx == tx
  }

  ghost function Left(far: Node, tx: Tx, j: Job): int { |Open(far, tx)| + |j.ws| - |j.serials| }

  /** Writing, then invalidating, then done: each publication issues its tdecs at most once. */
  ghost predicate JobOk(far: Node, tx: Tx, j: Job) {
    && |j.serials| <= |j.ws| && Sends(far, tx, j) && Distinct(j.serials)
    && (WriteCommits(tx) in far.ev.sc <==> Left(far, tx, j) > 0)
    && (WriteCommits(tx) in far.ev.sc ==> far.ev.sc[WriteCommits(tx)] == Left(far, tx, j))
    && (WriteCommits(tx) in far.ev.sc <==> tx !in far.tr.asks)
    && (DoTdecs(tx) in far.ev.sc <==> tx !in far.tr.tdecs)
    && (DoTdecs(tx) in far.ev.sc ==> far.ev.sc[DoTdecs(tx)] == 1)
    && multiset(far.tr.tdecs)[tx] <= 1 && (tx in far.tr.tdecs ==> tx in far.tr.asks)
  }

  ghost predicate Sends(far: Node, tx: Tx, j: Job) {
    forall i :: 0 <= i < |j.serials| && i < |j.ws| ==>
      j.serials[i] in far.tr.sent && far.tr.sent[j.serials[i]] == Sent(tx, j.ws[i])
  }

  ghost predicate Distinct(xs: seq<int>) { forall i, k :: 0 <= i < k < |xs| ==> xs[i] != xs[k] }

  ghost predicate JobsOk(n: NodeId, far: Node, jobs: map<Tx, Job>) {
    && (forall tx :: tx in jobs && tx.node == n ==> JobOk(far, tx, jobs[tx]))
    && (forall k :: k in far.tr.sent ==> far.tr.sent[k].tx in jobs && k in jobs[far.tr.sent[k].tx].serials)
    && (forall tx :: WriteCommits(tx) in far.ev.sc || tx in far.tr.asks || tx in far.tr.tdecs ==>
          tx in jobs && tx.node == n)
  }

  // ---------------------------------------------------------------- messages between the two

  /** A write waiting for its ack has its RWrite or its ack in flight; a sent write is in flight or, once, in the
      home's log. */
  ghost predicate WriteFlow(n: NodeId, far: Node, log: seq<Applied>, up: seq<Msg>, dn: seq<Msg>) {
    && (forall k :: k in far.tr.sent ==> SentFlow(n, far, log, up, dn, k))
    && (forall k :: k !in far.tr.sent ==> multiset(dn)[RWriteAck(k)] == 0)
    && (forall k, w :: Remote(n, k, w) in log ==> k in far.tr.sent && far.tr.sent[k].w == w)
  }

  ghost predicate SentFlow(n: NodeId, far: Node, log: seq<Applied>, up: seq<Msg>, dn: seq<Msg>, k: int)
    requires k in far.tr.sent
  {
    var w := far.tr.sent[k].w;
    && multiset(up)[RWrite(n, k, w)] + multiset(dn)[RWriteAck(k)] == (if k in far.ev.commits then 1 else 0)
    && multiset(log)[Remote(n, k, w)] + multiset(up)[RWrite(n, k, w)] == 1
  }

  ghost function Held(home: Node, c: Closure): nat { if c in home.ev.sc then 1 else 0 }

  /** A waiting ask is in flight, being served at home, or answered; it is served at most once. */
  ghost predicate AskFlow(n: NodeId, t: nat, far: Node, home: Node, up: seq<Msg>, dn: seq<Msg>) {
    forall s :: AskFlowAt(n, t, far, home, up, dn, s)
  }

  ghost predicate AskFlowAt(n: NodeId, t: nat, far: Node, home: Node, up: seq<Msg>, dn: seq<Msg>, s: int) {
    var served := SendAck(n, s) in home.tr.waits;
    && multiset(up)[AskInv(n, s)] + Held(home, SendAck(n, s)) + multiset(dn)[AckInv(s)] ==
       (if s in far.ev.invs then 1 else 0)
    && (served ==> multiset(up)[AskInv(n, s)] == 0 && UsedInv(far.ser.inv, t, s))
    && (!served ==> Held(home, SendAck(n, s)) == 0 && multiset(dn)[AckInv(s)] == 0 && s !in far.tr.invAcked)
  }

  /** Serial s waits at home for an ack from node n. */
  ghost predicate Waits(home: Node, s: int, n: NodeId) {
    && s in home.ev.invs && |home.ev.invs[s]| == 1 && home.ev.invs[s][0].Continuer?
    && var c := home.ev.invs[s][0].c; c in home.tr.waits && s in home.tr.waits[c] && home.tr.waits[c][s] == n
  }

  ghost predicate InvFlow(n: NodeId, home: Node, up: seq<Msg>, dn: seq<Msg>) {
    forall s :: InvFlowAt(n, home, up, dn, s)
  }

  ghost predicate InvFlowAt(n: NodeId, home: Node, up: seq<Msg>, dn: seq<Msg>, s: int) {
    multiset(dn)[DoInv(s)] + multiset(up)[AckInv(s)] == (if Waits(home, s, n) then 1 else 0)
  }

  function RWReqs(ch: seq<Msg>): nat {
    if ch == [] then 0 else RWReqs(ch[..|ch| - 1]) + if ch[|ch| - 1].RWReq? then 1 else 0
  }

  function Asker(w: Waiter): NodeId {
    match w case Transfer(target, _) => target case Retry(orig, _) => orig
  }

  /** How many of the closures waiting for usecount zero are for node n. */
  function WaitersFor(ws: seq<Waiter>, n: NodeId): nat {
    if ws == [] then 0 else WaitersFor(ws[..|ws| - 1], n) + if Asker(ws[|ws| - 1]) == n then 1 else 0
  }

  /** Each of the node's requests for responsibility is on its way or waits at home. */
  ghost predicate ReqFlow(n: NodeId, far: Node, home: Node, up: seq<Msg>) {
    far.ev.incs == RWReqs(up) + WaitersFor(home.ev.zero, n)
  }

  /** Every write of the publication was in the log when home last invalidated. */
  ghost predicate Swept(home: Node, tx: Tx, j: Job) {
    && j.at <= home.tr.lastInv <= |home.tr.log| && |j.serials| == |j.ws|
    && forall i :: 0 <= i < |j.ws| ==> Remote(tx.node, j.serials[i], j.ws[i]) in home.tr.log[..home.tr.lastInv]
  }

  /** A publication is swept once its invalidation has begun. */
  ghost predicate Ordered(n: NodeId, far: Node, home: Node, jobs: map<Tx, Job>) {
    forall tx :: tx in jobs && tx.node == n && tx in far.tr.asks && SendAck(n, far.tr.asks[tx]) in home.tr.waits ==>
      Swept(home, tx, jobs[tx])
  }

  // ---------------------------------------------------------------- the home

  ghost predicate HomeOk(c: Config, home: Node) {
    && home.hdr.status == RESP && home.hdr.usecount == 1 && ZeroOk(home)
    && home.content == Replay(c.content, home.tr.log) && home.tr.lastInv <= |home.tr.log|
    && SourcesOk(home.ser.write, c.threads) && |home.ser.inv| == c.threads
    && (forall i :: 0 <= i < |home.shared| ==> home.shared[i] < c.numNodes && home.shared[i] != c.owner)
  }

  /** Closures wait for usecount zero only when home is reserved, the one transfer first. */
  ghost predicate ZeroOk(home: Node) {
    && (home.hdr.reserved <==> home.ev.zero != [])
    && forall i :: 0 <= i < |home.ev.zero| ==> (home.ev.zero[i].Transfer? <==> i == 0)
  }

  /** The acks that the invalidation for c still waits for. */
  ghost function Acks(home: Node, c: Closure): set<int> {
    set s | s in home.ev.invs && home.ev.invs[s] == [Continuer(c)]
  }

  ghost predicate ClosuresOk(c: Config, home: Node) {
    && (forall x :: x in home.ev.sc ==> ClosureOk(home, x))
    && (forall x :: x in home.tr.waits ==> Simple(x) && (x.SendAck? ==> x.client != c.owner && x.client < c.numNodes))
    && (forall s :: s in home.ev.invs ==> AckWaits(home, s))
    && (forall x, s :: x in home.tr.waits && s in home.tr.waits[x] ==> HolderOk(c, home, x, s))
  }

  /** A closure an invalidation runs for is live as long as some ack is missing. */
  ghost predicate ClosureOk(home: Node, x: Closure)
    requires x in home.ev.sc
  {
    if x.Continuer? then
      && x.c in home.ev.sc && Simple(x.c) && home.ev.sc[x] == |Acks(home, x.c)| > 0
    else
      && Simple(x) && x in home.tr.waits && home.ev.sc[x] == 1 && Continuer(x) in home.ev.sc
  }

  ghost predicate AckWaits(home: Node, s: int) {
    && s in home.ev.invs && |home.ev.invs[s]| == 1 && home.ev.invs[s][0].Continuer? && home.ev.invs[s][0] in home.ev.sc
    && var x := home.ev.invs[s][0].c; x in home.tr.waits && s in home.tr.waits[x]
  }

  ghost predicate HolderOk(c: Config, home: Node, x: Closure, s: int)
    requires x in home.tr.waits && s in home.tr.waits[x]
  {
    && UsedInv(home.ser.inv, c.threads, s)
    && home.tr.waits[x][s] < c.numNodes && home.tr.waits[x][s] != c.owner
    && (if s in home.ev.invs then home.ev.invs[s] == [Continuer(x)] else s in home.tr.invAcked)
  }

  /** Publications by the home itself: their writes were made in place. */
  ghost predicate HomeJobsOk(c: Config, home: Node, jobs: map<Tx, Job>) {
    && (forall tx :: tx in jobs && tx.node == c.owner ==> HomeJobOk(home, tx, jobs[tx]))
    && (forall tx :: DoTdecs(tx) in home.tr.waits || tx in home.tr.tdecs ==> tx in jobs && tx.node == c.owner)
  }

  ghost predicate HomeJobOk(home: Node, tx: Tx, j: Job) {
    && j.ws == [] && j.serials == [] && j.at <= home.tr.lastInv && DoTdecs(tx) in home.tr.waits
    && (DoTdecs(tx) in home.ev.sc <==> tx !in home.tr.tdecs) && multiset(home.tr.tdecs)[tx] <= 1
  }

  // ---------------------------------------------------------------- steps that leave a flow alone

  ghost predicate Like(ch: seq<Msg>, ch': seq<Msg>, m: Msg) { multiset(ch')[m] == multiset(ch)[m] }

  ghost predicate SameWrites(n: NodeId, up: seq<Msg>, up': seq<Msg>, dn: seq<Msg>, dn': seq<Msg>) {
    (forall k, w :: Like(up, up', RWrite(n, k, w))) && (forall k :: Like(dn, dn', RWriteAck(k)))
  }

  ghost predicate SameAsks(n: NodeId, up: seq<Msg>, up': seq<Msg>, dn: seq<Msg>, dn': seq<Msg>) {
    (forall s :: Like(up, up', AskInv(n, s))) && (forall s :: Like(dn, dn', AckInv(s)))
  }

  ghost predicate SameInvs(up: seq<Msg>, up': seq<Msg>, dn: seq<Msg>, dn': seq<Msg>) {
    (forall s :: Like(up, up', AckInv(s))) && (forall s :: Like(dn, dn', DoInv(s)))
  }

  lemma Absent(ms: seq<Msg>, m: Msg)
    requires forall i :: 0 <= i < |ms| ==> ms[i] != m
    ensures multiset(ms)[m] == 0
  {
  }

  lemma PushLike(ch: seq<Msg>, ms: seq<Msg>, m: Msg)
    requires forall i :: 0 <= i < |ms| ==> ms[i] != m
    ensures Like(ch, ch + ms, m)
  {
    Absent(ms, m);
  }

  lemma PopLike(ch: seq<Msg>, m: Msg)
    requires ch != [] && ch[0] != m
    ensures Like(ch, ch[1..], m)
  {
    Popped(ch, m);
  }

  lemma Still(n: NodeId, up: seq<Msg>, dn: seq<Msg>)
    ensures SameWrites(n, up, up, dn, dn) && SameAsks(n, up, up, dn, dn) && SameInvs(up, up, dn, dn)
  {
  }

  lemma {:induction false} RWReqsPop(up: seq<Msg>)
    requires up != []
    ensures RWReqs(up) == (if up[0].RWReq? then 1 else 0) + RWReqs(up[1..])
  {
    if |up| == 1 {
      assert up[..0] == [] && up[1..] == [];
    } else {
      assert up[..|up| - 1][0] == up[0] && up[..|up| - 1][1..] == up[1..][..|up| - 2];
      RWReqsPop(up[..|up| - 1]);
    }
  }

  lemma PushUp(n: NodeId, up: seq<Msg>, dn: seq<Msg>, m: Msg)
    ensures !m.RWrite? ==> SameWrites(n, up, up + [m], dn, dn)
    ensures !m.AskInv? ==> SameAsks(n, up, up + [m], dn, dn)
    ensures !m.AckInv? ==> SameInvs(up, up + [m], dn, dn)
    ensures RWReqs(up + [m]) == RWReqs(up) + if m.RWReq? then 1 else 0
  {
    assert (up + [m])[..|up|] == up;
    forall x: Msg | x != m ensures Like(up, up + [m], x) { PushLike(up, [m], x); }
  }

  lemma PopUp(n: NodeId, up: seq<Msg>, dn: seq<Msg>)
    requires up != []
    ensures !up[0].RWrite? ==> SameWrites(n, up, up[1..], dn, dn)
    ensures !up[0].AskInv? ==> SameAsks(n, up, up[1..], dn, dn)
    ensures !up[0].AckInv? ==> SameInvs(up, up[1..], dn, dn)
    ensures RWReqs(up) == (if up[0].RWReq? then 1 else 0) + RWReqs(up[1..])
  {
    RWReqsPop(up);
    forall x: Msg | x != up[0] ensures Like(up, up[1..], x) { PopLike(up, x); }
  }

  lemma PushDn(n: NodeId, up: seq<Msg>, dn: seq<Msg>, m: Msg)
    ensures !m.RWriteAck? ==> SameWrites(n, up, up, dn, dn + [m])
    ensures !m.AckInv? ==> SameAsks(n, up, up, dn, dn + [m])
    ensures !m.DoInv? ==> SameInvs(up, up, dn, dn + [m])
  {
    forall x: Msg | x != m ensures Like(dn, dn + [m], x) { PushLike(dn, [m], x); }
  }

  lemma PopDn(n: NodeId, up: seq<Msg>, dn: seq<Msg>)
    requires dn != []
    ensures !dn[0].RWriteAck? ==> SameWrites(n, up, up, dn, dn[1..])
    ensures !dn[0].AckInv? ==> SameAsks(n, up, up, dn, dn[1..])
    ensures !dn[0].DoInv? ==> SameInvs(up, up, dn, dn[1..])
  {
    forall x: Msg | x != dn[0] ensures Like(dn, dn[1..], x) { PopLike(dn, x); }
  }

  lemma WriteFlowFrame(n: NodeId, far: Node, far': Node, log: seq<Applied>, log': seq<Applied>,
                       up: seq<Msg>, up': seq<Msg>, dn: seq<Msg>, dn': seq<Msg>)
    requires WriteFlow(n, far, log, up, dn) && SameWrites(n, up, up', dn, dn')
    requires far'.tr.sent == far.tr.sent && far'.ev.commits == far.ev.commits
    requires forall k, w :: multiset(log')[Remote(n, k, w)] == multiset(log)[Remote(n, k, w)]
    ensures WriteFlow(n, far', log', up', dn')
  {
    forall k | k in far'.tr.sent ensures SentFlow(n, far', log', up', dn', k) {
      assert SentFlow(n, far, log, up, dn, k);
      assert Like(up, up', RWrite(n, k, far.tr.sent[k].w)) && Like(dn, dn', RWriteAck(k));
    }
    forall k | k !in far'.tr.sent ensures multiset(dn')[RWriteAck(k)] == 0 { assert Like(dn, dn', RWriteAck(k)); }
    forall k, w | Remote(n, k, w) in log' ensures k in far'.tr.sent && far'.tr.sent[k].w == w {
      assert Remote(n, k, w) in multiset(log') && Remote(n, k, w) in multiset(log);
    }
  }

  lemma AskFlowFrame(n: NodeId, t: nat, far: Node, far': Node, home: Node, home': Node,
                     up: seq<Msg>, up': seq<Msg>, dn: seq<Msg>, dn': seq<Msg>)
    requires AskFlow(n, t, far, home, up, dn) && SameAsks(n, up, up', dn, dn')
    requires far'.ev.invs == far.ev.invs && far'.tr.invAcked == far.tr.invAcked
    requires forall s :: UsedInv(far.ser.inv, t, s) ==> UsedInv(far'.ser.inv, t, s)
    requires forall s :: Held(home', SendAck(n, s)) == Held(home, SendAck(n, s))
    requires forall s :: SendAck(n, s) in home'.tr.waits <==> SendAck(n, s) in home.tr.waits
    ensures AskFlow(n, t, far', home', up', dn')
  {
    forall s ensures AskFlowAt(n, t, far', home', up', dn', s) {
      assert AskFlowAt(n, t, far, home, up, dn, s);
      assert Like(up, up', AskInv(n, s)) && Like(dn, dn', AckInv(s));
    }
  }

  lemma InvFlowFrame(n: NodeId, home: Node, home': Node, up: seq<Msg>, up': seq<Msg>, dn: seq<Msg>, dn': seq<Msg>)
    requires InvFlow(n, home, up, dn) && SameInvs(up, up', dn, dn')
    requires home'.ev.invs == home.ev.invs && home'.tr.waits == home.tr.waits
    ensures InvFlow(n, home', up', dn')
  {
    forall s ensures InvFlowAt(n, home', up', dn', s) {
      assert InvFlowAt(n, home, up, dn, s);
      assert Like(up, up', AckInv(s)) && Like(dn, dn', DoInv(s));
    }
  }

  lemma SweptStays(home: Node, home': Node, tx: Tx, j: Job)
    requires Swept(home, tx, j) && home.tr.log <= home'.tr.log && home.tr.lastInv <= home'.tr.lastInv <= |home'.tr.log|
    ensures Swept(home', tx, j)
  {
    forall i | 0 <= i < |j.ws| ensures Remote(tx.node, j.serials[i], j.ws[i]) in home'.tr.log[..home'.tr.lastInv] {
      var x := Remote(tx.node, j.serials[i], j.ws[i]);
      var q :| 0 <= q < home.tr.lastInv && home.tr.log[..home.tr.lastInv][q] == x;
      assert home'.tr.log[..home'.tr.lastInv][q] == x;
    }
  }

  lemma OrderedFrame(n: NodeId, far: Node, far': Node, home: Node, home': Node, jobs: map<Tx, Job>, jobs': map<Tx, Job>)
    requires Ordered(n, far, home, jobs) && far'.tr.asks == far.tr.asks
    requires home.tr.log <= home'.tr.log && home.tr.lastInv <= home'.tr.lastInv <= |home'.tr.log|
    requires forall s :: SendAck(n, s) in home'.tr.waits <==> SendAck(n, s) in home.tr.waits
    requires forall tx :: tx in far.tr.asks && tx in jobs' && tx.node == n ==> tx in jobs && jobs'[tx] == jobs[tx]
    ensures Ordered(n, far', home', jobs')
  {
    forall tx | tx in jobs' && tx.node == n && tx in far'.tr.asks && SendAck(n, far'.tr.asks[tx]) in home'.tr.waits
      ensures Swept(home', tx, jobs'[tx])
    {
      SweptStays(home, home', tx, jobs[tx]);
    }
  }

  // ---------------------------------------------------------------- the publishing node sends a write

  ghost predicate SendsWrite(n: NodeId, t: nat, th: nat, far: Node, far': Node, tx: Tx, w: Write, x: int) {
    && th < t && SourcesOk(far.ser.write, t) && x == WriteSerial(far.ser, th)
    && far'.ser.write == NextWrite(far.ser, th) && far'.ser.inv == far.ser.inv
    && far'.ev == far.ev.(commits := Register(far.ev.commits, x, WriteCommits(tx)))
    && far'.tr == far.tr.(sent := far.tr.sent[x := Sent(tx, w)])
    && tx.node == n
  }

  lemma SendCommits(n: NodeId, t: nat, th: nat, far: Node, far': Node, tx: Tx, w: Write, x: int)
    requires CommitsOk(n, t, far) && SendsWrite(n, t, th, far, far', tx, w, x)
    ensures CommitsOk(n, t, far') && x !in far.tr.sent && far'.ev.commits == far.ev.commits[x := [WriteCommits(tx)]]
  {
    WriteIsNew(far.ser, t, th);
    forall k | k in far.tr.sent ensures UsedWrite(far'.ser.write, t, k) { WriteStaysUsed(far.ser, t, th, k); }
  }

  lemma SendWriteFlow(n: NodeId, far: Node, far': Node, log: seq<Applied>, up: seq<Msg>, dn: seq<Msg>, tx: Tx,
                      w: Write, x: int)
    requires WriteFlow(n, far, log, up, dn) && UpOk(n, far, up) && x !in far.tr.sent
    requires far'.tr.sent == far.tr.sent[x := Sent(tx, w)] && far'.ev.commits == far.ev.commits[x := [WriteCommits(tx)]]
    ensures WriteFlow(n, far', log, up + [RWrite(n, x, w)], dn) && UpOk(n, far', up + [RWrite(n, x, w)])
  {
    var m := RWrite(n, x, w);
    forall k | k in far'.tr.sent ensures SentFlow(n, far', log, up + [m], dn, k) {
      if k == x {
        assert forall i :: 0 <= i < |up| ==> up[i] != m by {
          forall i | 0 <= i < |up| ensures up[i] != m { assert UpMsg(n, far, up[i]); }
        }
        Absent(up, m);
        assert Remote(n, x, w) !in log;
      } else {
        assert SentFlow(n, far, log, up, dn, k);
        PushLike(up, [m], RWrite(n, k, far.tr.sent[k].w));
      }
    }
    forall i | 0 <= i < |up + [m]| ensures UpMsg(n, far', (up + [m])[i]) {
      if i < |up| { assert UpMsg(n, far, up[i]); }
    }
  }

  // ---------------------------------------------------------------- the ack of a write

  lemma AckCommits(n: NodeId, t: nat, far: Node, far': Node, k: int)
    requires CommitsOk(n, t, far) && far'.ser.write == far.ser.write && far'.tr.sent == far.tr.sent && k in far.tr.sent
    requires far'.ev.commits == far.ev.commits - {k} && far'.tr.acked == far.tr.acked + {k}
    ensures CommitsOk(n, t, far')
  {
  }

  lemma AckWriteFlow(n: NodeId, far: Node, far': Node, log: seq<Applied>, up: seq<Msg>, dn: seq<Msg>, k: int)
    requires WriteFlow(n, far, log, up, dn) && dn != [] && dn[0] == RWriteAck(k)
    requires far'.tr.sent == far.tr.sent && far'.ev.commits == far.ev.commits - {k}
    ensures k in far.tr.sent && k in far.ev.commits && WriteFlow(n, far', log, up, dn[1..])
  {
    HeadCounts(dn);
    assert SentFlow(n, far, log, up, dn, k);
    forall q | q in far'.tr.sent ensures SentFlow(n, far', log, up, dn[1..], q) {
      assert SentFlow(n, far, log, up, dn, q);
      Popped(dn, RWriteAck(q));
    }
    forall q | q !in far'.tr.sent ensures multiset(dn[1..])[RWriteAck(q)] == 0 { Popped(dn, RWriteAck(q)); }
  }

  /** An acked write is in the home's log. */
  lemma AckedIsLogged(n: NodeId, far: Node, log: seq<Applied>, up: seq<Msg>, dn: seq<Msg>, k: int)
    requires WriteFlow(n, far, log, up, dn) && k in far.tr.sent && k !in far.ev.commits
    ensures Remote(n, k, far.tr.sent[k].w) in log
  {
    assert SentFlow(n, far, log, up, dn, k);
  }

  // ---------------------------------------------------------------- asking for an invalidation

  lemma AskIsNew(t: nat, e: Env, far: Node, tx: Tx)
    requires AsksOk(t, far) && |far.ser.inv| == t && e.th < t
    ensures var s := NthSerial(e, far, 0);
      !UsedInv(far.ser.inv, t, s) && s !in far.ev.invs && Asked(e, far, tx).ev.invs == far.ev.invs[s := [DoTdecs(tx)]]
  {
    var s := NthSerial(e, far, 0);
    InvIsNew(e, far, 0, 1);
    assert [] + [DoTdecs(tx)] == [DoTdecs(tx)];
    assert s in far.ev.invs ==> AskWaits(far, s) && AskOk(t, far, far.ev.invs[s][0].tx, s);
  }

  lemma AskAsks(t: nat, e: Env, far: Node, tx: Tx)
    requires AsksOk(t, far) && |far.ser.inv| == t && e.th < t && tx !in far.tr.asks && tx !in far.tr.tdecs
    ensures AsksOk(t, Asked(e, far, tx))
  {
    var s := NthSerial(e, far, 0);
    var far' := Asked(e, far, tx);
    AskIsNew(t, e, far, tx);
    InvIsNew(e, far, 0, 1);
    forall q | q in far'.ev.invs ensures AskWaits(far', q) {
      if q != s { assert AskWaits(far, q); }
    }
    forall x | x in far'.tr.asks ensures AskOk(t, far', x, far'.tr.asks[x]) {
      if x != tx {
        assert AskOk(t, far, x, far.tr.asks[x]);
        InvStaysUsed(far.ser, e.th, 1, far.tr.asks[x]);
      }
    }
  }

  lemma AskAskFlow(n: NodeId, t: nat, e: Env, far: Node, tx: Tx, home: Node, up: seq<Msg>, dn: seq<Msg>)
    requires AskFlow(n, t, far, home, up, dn) && AsksOk(t, far) && |far.ser.inv| == t && e.th < t
    ensures AskFlow(n, t, Asked(e, far, tx), home, up + [AskInv(n, NthSerial(e, far, 0))], dn)
  {
    var s := NthSerial(e, far, 0);
    var far' := Asked(e, far, tx);
    var up' := up + [AskInv(n, s)];
    AskIsNew(t, e, far, tx);
    forall q ensures AskFlowAt(n, t, far', home, up', dn, q) {
      assert AskFlowAt(n, t, far, home, up, dn, q);
      Pushed(up, [AskInv(n, s)], AskInv(n, q));
      One(AskInv(n, s), AskInv(n, q));
      if UsedInv(far.ser.inv, t, q) { InvStaysUsed(far.ser, e.th, 1, q); }
    }
  }

  lemma AskOrdered(n: NodeId, t: nat, e: Env, far: Node, tx: Tx, home: Node, jobs: map<Tx, Job>, up: seq<Msg>,
                   dn: seq<Msg>)
    requires Ordered(n, far, home, jobs) && AskFlow(n, t, far, home, up, dn) && AsksOk(t, far) && |far.ser.inv| == t
      && e.th < t
    ensures Ordered(n, Asked(e, far, tx), home, jobs)
  {
    AskIsNew(t, e, far, tx);
    assert AskFlowAt(n, t, far, home, up, dn, NthSerial(e, far, 0));
  }

  // ---------------------------------------------------------------- the stages of a publication

  lemma JobFrame(far: Node, far': Node, tx: Tx, j: Job)
    requires JobOk(far, tx, j) && Open(far', tx) == Open(far, tx) && Sends(far', tx, j)
    requires WriteCommits(tx) in far'.ev.sc <==> WriteCommits(tx) in far.ev.sc
    requires WriteCommits(tx) in far.ev.sc ==> far'.ev.sc[WriteCommits(tx)] == far.ev.sc[WriteCommits(tx)]
    requires DoTdecs(tx) in far'.ev.sc <==> DoTdecs(tx) in far.ev.sc
    requires DoTdecs(tx) in far.ev.sc ==> far'.ev.sc[DoTdecs(tx)] == far.ev.sc[DoTdecs(tx)]
    requires tx in far'.tr.asks <==> tx in far.tr.asks
    requires multiset(far'.tr.tdecs)[tx] == multiset(far.tr.tdecs)[tx]
    ensures JobOk(far', tx, j)
  {
  }

  /** Nothing about publications changes. */
  lemma JobsFrame(n: NodeId, far: Node, far': Node, jobs: map<Tx, Job>)
    requires JobsOk(n, far, jobs) && far'.ev.commits == far.ev.commits && far'.ev.sc == far.ev.sc
    requires far'.tr.sent == far.tr.sent && far'.tr.asks == far.tr.asks && far'.tr.tdecs == far.tr.tdecs
    ensures JobsOk(n, far', jobs)
  {
    forall tx | tx in jobs && tx.node == n ensures JobOk(far', tx, jobs[tx]) {
      assert JobOk(far, tx, jobs[tx]);
      assert Open(far', tx) == Open(far, tx);
    }
  }

  lemma OpenLoses(far: Node, far': Node, k: int)
    requires k in far.ev.commits && k in far.tr.sent
    requires far'.ev.commits == far.ev.commits - {k} && far'.tr.sent == far.tr.sent
    ensures forall tx :: Open(far', tx) == if tx == far.tr.sent[k].tx then Open(far, tx) - {k} else Open(far, tx)
    ensures k in Open(far, far.tr.sent[k].tx) && |Open(far', far.tr.sent[k].tx)| == |Open(far, far.tr.sent[k].tx)| - 1
  {
    forall tx ensures Open(far', tx) == if tx == far.tr.sent[k].tx then Open(far, tx) - {k} else Open(far, tx) {
    }
  }

  /** The node counts the ack of write k, and if it was the last one, asks. */
  ghost predicate CountsAck(far: Node, far': Node, tx: Tx) {
    && WriteCommits(tx) in far.ev.sc
    && far'.ev.sc == (if far.ev.sc[WriteCommits(tx)] == 1 then far.ev.sc - {WriteCommits(tx)}
                      else far.ev.sc[WriteCommits(tx) := far.ev.sc[WriteCommits(tx)] - 1])
    && far'.tr.asks.Keys == (if far.ev.sc[WriteCommits(tx)] == 1 then far.tr.asks.Keys + {tx} else far.tr.asks.Keys)
    && far'.tr.tdecs == far.tr.tdecs && far'.tr.sent == far.tr.sent
  }

  lemma AckJob(n: NodeId, t: nat, far: Node, far': Node, k: int, x: Tx, j: Job)
    requires JobOk(far, x, j) && CommitsOk(n, t, far) && k in far.ev.commits
    requires far'.ev.commits == far.ev.commits - {k} && CountsAck(far, far', far.tr.sent[k].tx)
    ensures JobOk(far', x, j)
  {
    OpenLoses(far, far', k);
    if x != far.tr.sent[k].tx { JobFrame(far, far', x, j); }
  }

  lemma AckJobs(n: NodeId, t: nat, far: Node, far': Node, jobs: map<Tx, Job>, k: int)
    requires JobsOk(n, far, jobs) && CommitsOk(n, t, far) && k in far.ev.commits
    requires far'.ev.commits == far.ev.commits - {k} && CountsAck(far, far', far.tr.sent[k].tx)
    ensures JobsOk(n, far', jobs)
  {
    forall x | x in jobs && x.node == n ensures JobOk(far', x, jobs[x]) { AckJob(n, t, far, far', k, x, jobs[x]); }
  }

  /** The publication behind a waiting write counts at least that write. */
  lemma AckIsCounted(n: NodeId, t: nat, far: Node, jobs: map<Tx, Job>, k: int)
    requires JobsOk(n, far, jobs) && CommitsOk(n, t, far) && k in far.ev.commits
    ensures var tx := far.tr.sent[k].tx;
      && far.ev.commits[k] == [WriteCommits(tx)] && WriteCommits(tx) in far.ev.sc && far.ev.sc[WriteCommits(tx)] > 0
      && tx in jobs && tx.node == n && tx !in far.tr.asks && tx !in far.tr.tdecs
  {
    var tx := far.tr.sent[k].tx;
    assert JobOk(far, tx, jobs[tx]);
    assert k in Open(far, tx);
  }

  /** A new publication: its closures, and if it makes no remote write, its ask. */
  ghost predicate Begins(far: Node, far': Node, tx: Tx, k: nat) {
    && far'.ev.sc == (if k == 0 then far.ev.sc[DoTdecs(tx) := 1]
                      else far.ev.sc[DoTdecs(tx) := 1][WriteCommits(tx) := k])
    && far'.tr.asks.Keys == (if k == 0 then far.tr.asks.Keys + {tx} else far.tr.asks.Keys)
    && far'.ev.commits == far.ev.commits && far'.tr.tdecs == far.tr.tdecs && far'.tr.sent == far.tr.sent
  }

  lemma BeginJob(n: NodeId, far: Node, far': Node, jobs: map<Tx, Job>, tx: Tx, j: Job)
    requires JobsOk(n, far, jobs) && tx !in jobs && tx.node == n && j.serials == [] && Begins(far, far', tx, |j.ws|)
    ensures JobOk(far', tx, j)
  {
    assert forall k :: k in far.tr.sent ==> far.tr.sent[k].tx != tx;
    assert Open(far', tx) == {};
  }

  lemma BeginOther(n: NodeId, far: Node, far': Node, tx: Tx, k: nat, x: Tx, j: Job)
    requires JobOk(far, x, j) && x != tx && Begins(far, far', tx, k)
    ensures JobOk(far', x, j)
  {
    assert Open(far', x) == Open(far, x);
    JobFrame(far, far', x, j);
  }

  lemma BeginJobs(n: NodeId, far: Node, far': Node, jobs: map<Tx, Job>, tx: Tx, j: Job)
    requires JobsOk(n, far, jobs) && tx !in jobs && tx.node == n && j.serials == [] && Begins(far, far', tx, |j.ws|)
    ensures JobsOk(n, far', jobs[tx := j])
  {
    BeginJob(n, far, far', jobs, tx, j);
    forall x | x in jobs && x.node == n ensures JobOk(far', x, jobs[x]) {
      BeginOther(n, far, far', tx, |j.ws|, x, jobs[x]);
    }
  }

  lemma SendJobs(n: NodeId, t: nat, th: nat, far: Node, far': Node, jobs: map<Tx, Job>, tx: Tx, x: int)
    requires JobsOk(n, far, jobs) && tx in jobs && |jobs[tx].serials| < |jobs[tx].ws| && x !in far.tr.sent
    requires SendsWrite(n, t, th, far, far', tx, jobs[tx].ws[|jobs[tx].serials|], x)
    requires far'.ev.commits == far.ev.commits[x := [WriteCommits(tx)]]
    ensures JobsOk(n, far', jobs[tx := jobs[tx].(serials := jobs[tx].serials + [x])])
  {
    var jobs' := jobs[tx := jobs[tx].(serials := jobs[tx].serials + [x])];
    forall q | q in jobs' && q.node == n ensures JobOk(far', q, jobs'[q]) {
      assert JobOk(far, q, jobs[q]);
      if q == tx {
        SendJob(far, far', tx, jobs[tx], x);
      } else {
        SendsMore(far, far', q, jobs[q], tx, x);
        assert Open(far', q) == Open(far, q);
        JobFrame(far, far', q, jobs[q]);
      }
    }
    assert jobs'[tx].serials[|jobs[tx].serials|] == x;
    forall k | k in far.tr.sent ensures k in jobs'[far'.tr.sent[k].tx].serials {
      assert k in jobs[far.tr.sent[k].tx].serials;
    }
  }

  lemma SendJob(far: Node, far': Node, tx: Tx, j: Job, x: int)
    requires JobOk(far, tx, j) && |j.serials| < |j.ws| && x !in far.tr.sent
    requires far'.tr == far.tr.(sent := far.tr.sent[x := Sent(tx, j.ws[|j.serials|])]) && far'.ev.sc == far.ev.sc
    requires far'.ev.commits == far.ev.commits[x := [WriteCommits(tx)]]
    ensures JobOk(far', tx, j.(serials := j.serials + [x]))
  {
    SendsMore(far, far', tx, j, tx, x);
    assert Open(far', tx) == Open(far, tx) + {x} && x !in Open(far, tx);
    assert Sends(far', tx, j.(serials := j.serials + [x]));
  }

  lemma SendsMore(far: Node, far': Node, q: Tx, j: Job, tx: Tx, x: int)
    requires Sends(far, q, j) && |j.serials| <= |j.ws| && x !in far.tr.sent
    requires x in far'.tr.sent && far'.tr.sent == far.tr.sent[x := far'.tr.sent[x]]
    ensures Sends(far', q, j)
  {
  }

  // ---------------------------------------------------------------- the answer to an ask

  ghost predicate TakesAnswer(far: Node, far': Node, s: int, tx: Tx) {
    && far'.ev.sc == far.ev.sc - {DoTdecs(tx)} && far'.ev.invs == far.ev.invs - {s} && far'.ev.commits == far.ev.commits
    && far'.tr.tdecs == far.tr.tdecs + [tx] && far'.tr.asks == far.tr.asks && far'.tr.sent == far.tr.sent
    && far'.tr.invAcked == far.tr.invAcked + {s} && far'.ser == far.ser && far'.ev.incs == far.ev.incs
  }

  lemma AnswerAsks(t: nat, far: Node, far': Node, s: int, tx: Tx)
    requires AsksOk(t, far) && s in far.ev.invs && far.ev.invs[s] == [DoTdecs(tx)] && TakesAnswer(far, far', s, tx)
    ensures AsksOk(t, far')
  {
    assert AskWaits(far, s);
    forall q | q in far'.ev.invs ensures AskWaits(far', q) { assert AskWaits(far, q); }
    forall x | x in far'.tr.asks ensures AskOk(t, far', x, far'.tr.asks[x]) {
      assert AskOk(t, far, x, far.tr.asks[x]);
    }
  }

  lemma AnswerAskFlow(n: NodeId, t: nat, far: Node, far': Node, home: Node, up: seq<Msg>, dn: seq<Msg>, s: int, tx: Tx)
    requires AskFlow(n, t, far, home, up, dn) && dn != [] && dn[0] == AckInv(s) && TakesAnswer(far, far', s, tx)
    ensures AskFlow(n, t, far', home, up, dn[1..])
  {
    HeadCounts(dn);
    assert AskFlowAt(n, t, far, home, up, dn, s);
    forall q ensures AskFlowAt(n, t, far', home, up, dn[1..], q) {
      assert AskFlowAt(n, t, far, home, up, dn, q);
      Popped(dn, AckInv(q));
    }
  }

  lemma AnswerWaits(n: NodeId, t: nat, far: Node, home: Node, up: seq<Msg>, dn: seq<Msg>, jobs: map<Tx, Job>, s: int)
    requires AskFlow(n, t, far, home, up, dn) && dn != [] && dn[0] == AckInv(s) && AsksOk(t, far)
      && JobsOk(n, far, jobs)
    ensures s in far.ev.invs && |far.ev.invs[s]| == 1 && far.ev.invs[s][0].DoTdecs?
    ensures var tx := far.ev.invs[s][0].tx;
      DoTdecs(tx) in far.ev.sc && far.ev.sc[DoTdecs(tx)] == 1 && tx in jobs && tx.node == n && tx !in far.tr.tdecs
  {
    HeadCounts(dn);
    assert AskFlowAt(n, t, far, home, up, dn, s);
    assert AskWaits(far, s);
    var tx := far.ev.invs[s][0].tx;
    assert AskOk(t, far, tx, s);
    assert JobOk(far, tx, jobs[tx]);
  }

  lemma AnswerJobs(n: NodeId, far: Node, far': Node, jobs: map<Tx, Job>, s: int, tx: Tx)
    requires JobsOk(n, far, jobs) && TakesAnswer(far, far', s, tx) && tx in jobs && tx.node == n && tx in far.tr.asks
    requires DoTdecs(tx) in far.ev.sc
    ensures JobsOk(n, far', jobs)
  {
    forall x | x in jobs && x.node == n ensures JobOk(far', x, jobs[x]) {
      assert JobOk(far, x, jobs[x]);
      assert Open(far', x) == Open(far, x);
      assert multiset(far'.tr.tdecs)[x] == multiset(far.tr.tdecs)[x] + (if x == tx then 1 else 0);
      if x != tx { JobFrame(far, far', x, jobs[x]); }
    }
  }

  // ---------------------------------------------------------------- serials used by other pages

  lemma TickFar(n: NodeId, t: nat, th: nat, far: Node, far': Node)
    requires CommitsOk(n, t, far) && AsksOk(t, far) && SourcesOk(far.ser.write, t) && |far.ser.inv| == t && th < t
    requires far' == far.(ser := TickSerials(far.ser, th))
    ensures CommitsOk(n, t, far') && AsksOk(t, far') && SourcesOk(far'.ser.write, t) && |far'.ser.inv| == t
    ensures forall s :: UsedInv(far.ser.inv, t, s) ==> UsedInv(far'.ser.inv, t, s)
  {
    WriteIsNew(far.ser, t, th);
    assert far'.ser.write == NextWrite(far.ser, th);
    forall k | k in far.tr.sent ensures UsedWrite(far'.ser.write, t, k) { WriteStaysUsed(far.ser, t, th, k); }
    forall s | UsedInv(far.ser.inv, t, s) ensures UsedInv(far'.ser.inv, t, s) { InvStaysUsed(far.ser, th, 1, s); }
    forall q | q in far'.ev.invs ensures AskWaits(far', q) { assert AskWaits(far, q); }
    forall x | x in far'.tr.asks ensures AskOk(t, far', x, far'.tr.asks[x]) { assert AskOk(t, far, x, far.tr.asks[x]); }
  }
}
