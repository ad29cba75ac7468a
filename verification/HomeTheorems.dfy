/** What holds of every run of a home system. */
module HomeTheorems {
  import opened Protocol
  import opened Home
  import opened HomeHandlers
  import opened Coherence
  import opened Publication
  import opened HomeViews
  import opened HomeSafety
  import HomePolite

  /** The home's state, and the messages from home to node n. */
  function HomeNode(c: Config, s: State): Node
    requires c.owner < |s.nodes|
  {
    s.nodes[c.owner]
  }

  function Down(c: Config, s: State, n: NodeId): seq<Msg> { Chan(s, c.owner, n) }

  ghost predicate InSystem(c: Config, s: State, n: NodeId) {
    |s.nodes| == c.numNodes && c.owner < c.numNodes && n < c.numNodes
  }

  lemma ViewGood(c: Config, run: seq<Choice>, n: NodeId)
    requires Sane(c) && IsFar(c, n)
    ensures InSystem(c, After(c, run), n) && FarGood(c, n, ViewOf(c, After(c, run), n), After(c, run).jobs)
  {
    Safe(c, run);
  }

  // ---------------------------------------------------------------- the directory and the copies

  /** How often home lists a node is how many valid copies the node has or is being sent, less the invalidations
      on their way to it. */
  ghost predicate Balanced(c: Config, s: State, n: NodeId)
    requires InSystem(c, s, n)
  {
    multiset(HomeNode(c, s).shared)[n] + DoInvs(Down(c, s, n)) ==
    (if s.nodes[n].hdr.status == VALID then 1 else 0) + Datas(Down(c, s, n))
  }

  /** The directory equation, however often nodes ask. */
  lemma DirectoryEquation(c: Config, run: seq<Choice>, n: NodeId)
    requires Sane(c) && IsFar(c, n)
    ensures InSystem(c, After(c, run), n) && Balanced(c, After(c, run), n)
  {
    ViewGood(c, run, n);
  }

  /** Responsibility never moves: home keeps its use count of one, so whoever asks, no transfer is ever sent.  Only
      the home has a directory, in which it does not list itself. */
  lemma HomeIsResp(c: Config, run: seq<Choice>, i: NodeId)
    requires Sane(c) && i < c.numNodes
    ensures InSystem(c, After(c, run), i) && (After(c, run).nodes[i].hdr.status == RESP <==> i == c.owner)
    ensures HomeNode(c, After(c, run)).hdr.usecount == 1 && NoTransfer(After(c, run))
    ensures After(c, run).nodes[i].shared != [] ==> i == c.owner && i !in After(c, run).nodes[i].shared
  {
    Safe(c, run);
    if i != c.owner { ViewGood(c, run, i); }
    var s := After(c, run);
    forall a: NodeId, b: NodeId, k | 0 <= k < |Chan(s, a, b)| ensures !Chan(s, a, b)[k].RespTransfer? {
      var n := if a == c.owner then b else a;
      assert FarGood(c, n, ViewOf(c, s, n), s.jobs);
      if b == c.owner { assert UpMsg(n, s.nodes[n], Chan(s, a, b)[k]); }
    }
  }

  ghost predicate NoTransfer(s: State) {
    forall a, b, k :: 0 <= k < |Chan(s, a, b)| ==> !Chan(s, a, b)[k].RespTransfer?
  }

  /** Every request for responsibility is on its way to home or waits there: a node's incrementors are its
      requests. */
  lemma RequestsWait(c: Config, run: seq<Choice>, n: NodeId)
    requires Sane(c) && IsFar(c, n)
    ensures InSystem(c, After(c, run), n)
    ensures var s := After(c, run); var home := HomeNode(c, s);
      && s.nodes[n].ev.incs == RWReqs(Chan(s, n, c.owner)) + WaitersFor(home.ev.zero, n)
      && (home.hdr.reserved <==> home.ev.zero != [])
      && forall i :: 0 <= i < |home.ev.zero| ==> (home.ev.zero[i].Transfer? <==> i == 0)
  {
    ViewGood(c, run, n);
    Safe(c, run);
  }

  /** A request that reaches home adds one waiting closure, sends nothing and changes nothing else. */
  lemma RequestOnlyWaits(c: Config, run: seq<Choice>, n: NodeId, th: nat)
    requires Sane(c) && IsFar(c, n) && After(c, run).stop.Running? && th < c.threads
    requires Chan(After(c, run), n, c.owner) != [] && Chan(After(c, run), n, c.owner)[0].RWReq?
    ensures InSystem(c, After(c, run), n)
    ensures var s := After(c, run); var home := HomeNode(c, s); var zero := home.ev.zero;
      var w := if zero == [] then Transfer(n, Chan(s, n, c.owner)[0].tag) else Retry(n, Chan(s, n, c.owner)[0].tag);
      Step(c, s, Deliver(n, c.owner, th)) ==
      Take(s, n, c.owner).(nodes :=
        s.nodes[c.owner := home.(ev := home.ev.(zero := zero + [w]), hdr := home.hdr.(reserved := true))])
  {
    Safe(c, run);
    var s := After(c, run);
    HeadIsUp(c, s, n);
    StepDelivers(c, s, n, c.owner, th);
    HandleIs(EnvOf(c, c.owner, th), HomeNode(c, s), n, Chan(s, n, c.owner)[0]);
    RequestWaits(EnvOf(c, c.owner, th), HomeNode(c, s), n, Chan(s, n, c.owner)[0].tag);
  }

  /** `get_next_resp`, with or without the header's hint, names the home at every other node: nothing is ever
      forwarded, and no message is sent to a node that has to pass it on. */
  lemma HintIsHome(c: Config, run: seq<Choice>, n: NodeId, th: nat)
    requires Sane(c) && IsFar(c, n)
    ensures InSystem(c, After(c, run), n)
    ensures NextResp(EnvOf(c, n, th), After(c, run).nodes[n]) == c.owner
      && HomeNode(c, After(c, run)).hdr.status == RESP
  {
    ViewGood(c, run, n);
    Safe(c, run);
  }

  ghost predicate Unchased(c: Config, s: State, n: NodeId)
    requires InSystem(c, s, n)
  {
    s.nodes[n].hdr.status == VALID && DoInvs(Down(c, s, n)) == 0
  }

  /** A valid copy with no DoInvalidate on its way has every write home applied before it last invalidated. */
  lemma Freshness(c: Config, run: seq<Choice>, n: NodeId)
    requires Sane(c) && IsFar(c, n)
    ensures InSystem(c, After(c, run), n)
    ensures Unchased(c, After(c, run), n) ==> Fresh(c, HomeNode(c, After(c, run)), After(c, run).nodes[n].content)
  {
    ViewGood(c, run, n);
  }

  // ---------------------------------------------------------------- which checks can stop a run

  /** Of all checks only "Overwriting a valid copy" can fire, and only at a node that home answered while the node
      was already in the directory. */
  lemma OnlyOverwriting(c: Config, run: seq<Choice>)
    requires Sane(c) && After(c, run).stop.Stopped?
    ensures var s := After(c, run); InSystem(c, s, s.stop.at) && s.stop.why == OverwritingValid && IsFar(c, s.stop.at)
    ensures After(c, run).stop.at in HomeNode(c, After(c, run)).tr.twice
  {
    Safe(c, run);
  }

  /** Delivering k messages from home to node n. */
  function Deliveries(c: Config, s: State, n: NodeId, k: nat): State
    decreases k
  {
    if k == 0 then s else Deliveries(c, Step(c, s, Deliver(c.owner, n, 0)), n, k - 1)
  }

  lemma ActedDown(c: Config, s: State, taken: State, n: NodeId, o: Outcome)
    requires IsFar(c, n) && InSystem(c, s, n) && TakenAt(c, s, taken, n) && (o.Ok? ==> AllTo(o.out, c.owner))
    ensures var s' := Act(s, taken, n, o);
      if o.Halt? then s' == s.(stop := Stopped(o.why, n))
      else
        s'.stop == taken.stop && InSystem(c, s', n) && Down(c, s', n) == Down(c, taken, n)
        && HomeNode(c, s') == HomeNode(c, s)
  {
    if o.Ok? {
      FarChannels(c, s, taken, n, o.node, o.out, c.owner, n);
      SendElse(taken.(nodes := taken.nodes[n := o.node]), n, o.out);
    }
  }

  /** One delivery: the channel loses its head, or the node's copy was valid already. */
  lemma OneDelivery(c: Config, s: State, n: NodeId)
    requires Inv(c, s) && s.stop.Running? && IsFar(c, n) && Down(c, s, n) != []
    ensures var s' := Step(c, s, Deliver(c.owner, n, 0));
      if s'.stop.Stopped? then n in HomeNode(c, s).tr.twice && s' == s.(stop := s'.stop)
      else Inv(c, s') && Down(c, s', n) == Down(c, s, n)[1..] && HomeNode(c, s') == HomeNode(c, s)
  {
    TakeDown(c, s, n);
    FarTakesIs(c, s, n, 0);
    ActedDown(c, s, Take(s, c.owner, n), n, Handle(EnvOf(c, n, 0), s.nodes[n], c.owner, Down(c, s, n)[0]));
    StepDelivers(c, s, c.owner, n, 0);
    FarTakesActs(c, s, n, EnvOf(c, n, 0));
  }

  lemma {:induction false} StoppedStays(c: Config, s: State, n: NodeId, k: nat)
    requires s.stop.Stopped?
    ensures Deliveries(c, s, n, k) == s
    decreases k
  {
    if k > 0 { StoppedStays(c, s, n, k - 1); }
  }

  /** Delivering everything stops the run if and only if home answered the node twice; otherwise it leaves the
      node's copy valid if and only if the directory lists the node. */
  ghost predicate DrainsUnlessTwice(c: Config, s: State, s': State, n: NodeId)
    requires InSystem(c, s, n)
  {
    && InSystem(c, s', n) && (s'.stop.Stopped? <==> n in HomeNode(c, s).tr.twice)
    && (s'.stop.Running? ==> (s'.nodes[n].hdr.status == VALID <==> n in HomeNode(c, s').shared))
  }

  lemma Drained(c: Config, s: State, n: NodeId)
    requires Inv(c, s) && s.stop.Running? && IsFar(c, n) && Down(c, s, n) == []
    ensures DrainsUnlessTwice(c, s, s, n)
  {
    assert FarGood(c, n, ViewOf(c, s, n), s.jobs);
  }

  lemma {:induction false} Draining(c: Config, s: State, n: NodeId)
    requires Inv(c, s) && s.stop.Running? && IsFar(c, n)
    ensures DrainsUnlessTwice(c, s, Deliveries(c, s, n, |Down(c, s, n)|), n)
    decreases |Down(c, s, n)|
  {
    if Down(c, s, n) == [] {
      Drained(c, s, n);
    } else {
      var s1 := Step(c, s, Deliver(c.owner, n, 0));
      OneDelivery(c, s, n);
      if s1.stop.Running? { Draining(c, s1, n); } else { StoppedStays(c, s1, n, |Down(c, s, n)| - 1); }
    }
  }

  /** Exactly when the check fires. */
  lemma StopsIffAnsweredTwice(c: Config, run: seq<Choice>, n: NodeId)
    requires Sane(c) && IsFar(c, n) && After(c, run).stop.Running?
    ensures InSystem(c, After(c, run), n)
    ensures DrainsUnlessTwice(c, After(c, run), Deliveries(c, After(c, run), n, |Down(c, After(c, run), n)|), n)
  {
    Safe(c, run);
    Draining(c, After(c, run), n);
  }

  /** With at most one request or answer in flight for each node, no check ever fires. */
  lemma PoliteRunsNeverStop(c: Config, run: seq<Choice>)
    requires Sane(c) && HomePolite.Polite(c, run)
    ensures After(c, run).stop.Running?
  {
    HomePolite.PoliteRuns(c, run);
  }

  // ---------------------------------------------------------------- publication

  /** The closure whose invalidation publication tx waits for. */
  ghost function InvalidationOf(c: Config, s: State, tx: Tx): Closure
    requires tx.node < |s.nodes|
  {
    if tx.node != c.owner && tx in s.nodes[tx.node].tr.asks then SendAck(tx.node, s.nodes[tx.node].tr.asks[tx])
    else DoTdecs(tx)
  }

  /** The invalidation has run, and every holder it was sent to has acked: neither the DoInvalidate nor its ack is
      still in flight. */
  ghost predicate HoldersAcked(c: Config, s: State, x: Closure)
    requires c.owner < |s.nodes|
  {
    var home := s.nodes[c.owner];
    && x in home.tr.waits
    && forall q :: q in home.tr.waits[x] ==> HolderAcked(c, s, home.tr.waits[x][q], q)
  }

  ghost predicate HolderAcked(c: Config, s: State, holder: NodeId, q: int)
    requires c.owner < |s.nodes|
  {
    && IsFar(c, holder) && q in s.nodes[c.owner].tr.invAcked
    && multiset(Chan(s, c.owner, holder))[DoInv(q)] == 0 && multiset(Chan(s, holder, c.owner))[AckInv(q)] == 0
  }

  lemma FinishedMeansAcked(c: Config, s: State, x: Closure)
    requires Inv(c, s) && x in s.nodes[c.owner].tr.waits && x !in s.nodes[c.owner].ev.sc
    ensures HoldersAcked(c, s, x)
  {
    var home := s.nodes[c.owner];
    forall q | q in home.tr.waits[x] ensures HolderAcked(c, s, home.tr.waits[x][q], q) {
      var m := home.tr.waits[x][q];
      assert HolderOk(c, home, x, q);
      NotWaiting(c, home, x, q);
      assert FarGood(c, m, ViewOf(c, s, m), s.jobs);
      assert InvFlowAt(m, home, Chan(s, m, c.owner), Chan(s, c.owner, m), q);
    }
  }

  /** A serial of a finished invalidation is registered no more. */
  lemma NotWaiting(c: Config, home: Node, x: Closure, q: int)
    requires ClosuresOk(c, home) && x in home.tr.waits && q in home.tr.waits[x] && x !in home.ev.sc
    ensures forall m :: !Waits(home, q, m)
    ensures q in home.tr.invAcked
  {
    assert HolderOk(c, home, x, q);
    assert Continuer(x) in home.ev.sc ==> ClosureOk(home, Continuer(x));
    assert q in home.ev.invs ==> AckWaits(home, q);
  }

  /** The i-th remote write of the publication has been applied exactly once and acked. */
  ghost predicate AppliedAndAcked(c: Config, s: State, tx: Tx, i: nat)
    requires InSystem(c, s, tx.node) && tx in s.jobs && i < |s.jobs[tx].ws| == |s.jobs[tx].serials|
  {
    var k := s.jobs[tx].serials[i];
    && multiset(HomeNode(c, s).tr.log)[Remote(tx.node, k, s.jobs[tx].ws[i])] == 1
    && HomeNode(c, s).tr.lastInv <= |HomeNode(c, s).tr.log|
    && Remote(tx.node, k, s.jobs[tx].ws[i]) in HomeNode(c, s).tr.log[..HomeNode(c, s).tr.lastInv]
    && k in s.nodes[tx.node].tr.acked && multiset(Down(c, s, tx.node))[RWriteAck(k)] == 0
  }

  /** The publication has issued its tdecs: once, after its writes, after its invalidation. */
  ghost predicate IssuedInOrder(c: Config, s: State, tx: Tx)
    requires InSystem(c, s, tx.node)
  {
    && tx in s.jobs && multiset(s.nodes[tx.node].tr.tdecs)[tx] == 1
    && |s.jobs[tx].serials| == |s.jobs[tx].ws| && Distinct(s.jobs[tx].serials)
    && (forall i: nat :: i < |s.jobs[tx].ws| ==> AppliedAndAcked(c, s, tx, i))
    && s.jobs[tx].at <= HomeNode(c, s).tr.lastInv
    && HoldersAcked(c, s, InvalidationOf(c, s, tx))
  }

  /** The ask of a publication that has issued its tdecs was served, and the invalidation it ran for is over. */
  lemma AskWasServed(c: Config, n: NodeId, v: View, tx: Tx, jobs: map<Tx, Job>)
    requires FarGood(c, n, v, jobs) && tx in v.far.tr.tdecs
    ensures tx in jobs && tx.node == n && tx in v.far.tr.asks
    ensures SendAck(n, v.far.tr.asks[tx]) in v.home.tr.waits && SendAck(n, v.far.tr.asks[tx]) !in v.home.ev.sc
  {
    assert JobOk(v.far, tx, jobs[tx]);
    var s := v.far.tr.asks[tx];
    assert AskOk(c.threads, v.far, tx, s);
    assert AskFlowAt(n, c.threads, v.far, v.home, v.up, v.dn, s);
  }

  lemma WritesWereApplied(c: Config, s: State, tx: Tx, i: nat)
    requires InSystem(c, s, tx.node) && tx in s.jobs && i < |s.jobs[tx].ws| == |s.jobs[tx].serials|
    requires FarGood(c, tx.node, ViewOf(c, s, tx.node), s.jobs) && tx in s.nodes[tx.node].tr.asks
    requires Swept(HomeNode(c, s), tx, s.jobs[tx])
    ensures AppliedAndAcked(c, s, tx, i)
  {
    var v := ViewOf(c, s, tx.node);
    var k := s.jobs[tx].serials[i];
    assert JobOk(v.far, tx, s.jobs[tx]);
    assert k !in Open(v.far, tx);
    assert SentFlow(tx.node, v.far, v.home.tr.log, v.up, v.dn, k);
  }

  lemma FarIssued(c: Config, s: State, tx: Tx)
    requires Inv(c, s) && IsFar(c, tx.node) && tx in s.nodes[tx.node].tr.tdecs
    ensures IssuedInOrder(c, s, tx)
  {
    var v := ViewOf(c, s, tx.node);
    AskWasServed(c, tx.node, v, tx, s.jobs);
    assert JobOk(v.far, tx, s.jobs[tx]);
    assert Swept(v.home, tx, s.jobs[tx]);
    forall i: nat | i < |s.jobs[tx].ws| ensures AppliedAndAcked(c, s, tx, i) { WritesWereApplied(c, s, tx, i); }
    FinishedMeansAcked(c, s, InvalidationOf(c, s, tx));
  }

  lemma HomeIssued(c: Config, s: State, tx: Tx)
    requires Inv(c, s) && tx.node == c.owner && tx in s.nodes[tx.node].tr.tdecs
    ensures IssuedInOrder(c, s, tx)
  {
    assert HomeJobOk(HomeNode(c, s), tx, s.jobs[tx]);
    FinishedMeansAcked(c, s, DoTdecs(tx));
  }

  /** Publish order: a publication issues its tdecs at most once, and then every remote write it made has been
      applied exactly once and acked, its invalidation ran after all of them, and every holder in the directory at
      that moment has acked. */
  lemma PublishOrder(c: Config, run: seq<Choice>, tx: Tx)
    requires Sane(c) && tx.node < c.numNodes
    ensures InSystem(c, After(c, run), tx.node)
    ensures tx in After(c, run).nodes[tx.node].tr.tdecs ==> IssuedInOrder(c, After(c, run), tx)
  {
    Safe(c, run);
    var s := After(c, run);
    if tx in s.nodes[tx.node].tr.tdecs {
      if tx.node == c.owner { HomeIssued(c, s, tx); } else { FarIssued(c, s, tx); }
    }
  }

  /** The copy is the page after a prefix of the home's log that has all writes of the publication, and every write
      home made before the publication began. */
  ghost predicate Shows(c: Config, s: State, n: NodeId, tx: Tx)
    requires InSystem(c, s, n) && tx in s.jobs
  {
    exists k :: ShowsUpTo(c, s, n, tx, k)
  }

  ghost predicate ShowsUpTo(c: Config, s: State, n: NodeId, tx: Tx, k: int)
    requires InSystem(c, s, n) && tx in s.jobs
  {
    var j := s.jobs[tx];
    var log := HomeNode(c, s).tr.log;
    && j.at <= k <= |log| && |j.serials| == |j.ws| && s.nodes[n].content == Replay(c.content, log[..k])
    && forall i :: 0 <= i < |j.ws| ==> Remote(tx.node, j.serials[i], j.ws[i]) in log[..k]
  }

  lemma PrefixKeeps(log: seq<Applied>, a: Applied, l: nat, k: nat)
    requires l <= k <= |log| && a in log[..l]
    ensures a in log[..k]
  {
    var q :| 0 <= q < l && log[..l][q] == a;
    assert log[..k][q] == a;
  }

  /** What publication is for: once the tdecs have been issued, a valid copy that is not about to be invalidated
      shows everything the publication wrote. */
  lemma IssuedMeansVisible(c: Config, run: seq<Choice>, tx: Tx, n: NodeId)
    requires Sane(c) && tx.node < c.numNodes && IsFar(c, n)
    ensures InSystem(c, After(c, run), tx.node) && InSystem(c, After(c, run), n)
    ensures tx in After(c, run).nodes[tx.node].tr.tdecs && Unchased(c, After(c, run), n) ==>
      tx in After(c, run).jobs && Shows(c, After(c, run), n, tx)
  {
    PublishOrder(c, run, tx);
    Freshness(c, run, n);
    var s := After(c, run);
    if tx in s.nodes[tx.node].tr.tdecs && Unchased(c, s, n) {
      var home := HomeNode(c, s);
      var j := s.jobs[tx];
      var k :| home.tr.lastInv <= k <= |home.tr.log| && s.nodes[n].content == Replay(c.content, home.tr.log[..k]);
      forall i | 0 <= i < |j.ws| ensures Remote(tx.node, j.serials[i], j.ws[i]) in home.tr.log[..k] {
        assert AppliedAndAcked(c, s, tx, i);
        PrefixKeeps(home.tr.log, Remote(tx.node, j.serials[i], j.ws[i]), home.tr.lastInv, k);
      }
      assert ShowsUpTo(c, s, n, tx, k);
    }
  }

  // ---------------------------------------------------------------- nothing is lost

  /** No message is in flight, and every publication has sent all its writes. */
  ghost predicate AtRest(s: State) {
    && (forall a, b :: Chan(s, a, b) == [])
    && (forall tx :: tx in s.jobs ==> |s.jobs[tx].serials| >= |s.jobs[tx].ws|)
  }

  lemma SomeAck(home: Node, x: Closure) returns (q: int)
    requires |Acks(home, x)| > 0
    ensures q in Acks(home, x)
  {
    assert (forall s: int :: s !in Acks(home, x)) ==> Acks(home, x) == {};
    q :| q in Acks(home, x);
  }

  lemma NoClosureAtRest(c: Config, s: State, x: Closure)
    requires Inv(c, s) && AtRest(s)
    ensures x !in HomeNode(c, s).ev.sc
  {
    var home := HomeNode(c, s);
    if x in home.ev.sc {
      assert ClosureOk(home, x);
      var y := if x.Continuer? then x.c else x;
      assert ClosureOk(home, Continuer(y));
      var q := SomeAck(home, y);
      assert AckWaits(home, q) && HolderOk(c, home, y, q);
      var m := home.tr.waits[y][q];
      assert FarGood(c, m, ViewOf(c, s, m), s.jobs);
      assert InvFlowAt(m, home, Chan(s, m, c.owner), Chan(s, c.owner, m), q);
      assert Waits(home, q, m);
      assert false;
    }
  }

  lemma FarDoneAtRest(c: Config, s: State, tx: Tx)
    requires Inv(c, s) && AtRest(s) && tx in s.jobs && IsFar(c, tx.node)
    ensures tx in s.nodes[tx.node].tr.tdecs
  {
    var n := tx.node;
    var v := ViewOf(c, s, n);
    assert FarGood(c, n, v, s.jobs) && JobOk(v.far, tx, s.jobs[tx]);
    forall k ensures k !in Open(v.far, tx) {
      assert k in v.far.tr.sent ==> SentFlow(n, v.far, v.home.tr.log, v.up, v.dn, k);
    }
    assert Open(v.far, tx) == {};
    var q := v.far.tr.asks[tx];
    assert AskOk(c.threads, v.far, tx, q);
    NoClosureAtRest(c, s, SendAck(n, q));
    assert AskFlowAt(n, c.threads, v.far, v.home, v.up, v.dn, q);
  }

  /** No tdec is lost: when nothing is in flight and every write has been sent, every publication that began has
      issued its tdecs. */
  lemma NoTdecIsLost(c: Config, run: seq<Choice>, tx: Tx)
    requires Sane(c) && AtRest(After(c, run)) && tx in After(c, run).jobs
    ensures InSystem(c, After(c, run), tx.node) && tx in After(c, run).nodes[tx.node].tr.tdecs
  {
    Safe(c, run);
    var s := After(c, run);
    if tx.node == c.owner {
      assert HomeJobOk(HomeNode(c, s), tx, s.jobs[tx]);
      NoClosureAtRest(c, s, DoTdecs(tx));
    } else {
      FarDoneAtRest(c, s, tx);
    }
  }

  /** Each ack on its way to a node fires exactly one registration: serials are never given out twice. */
  lemma AckFiresOneRegistration(c: Config, run: seq<Choice>, n: NodeId, i: nat)
    requires Sane(c) && IsFar(c, n) && i < |Down(c, After(c, run), n)|
    ensures InSystem(c, After(c, run), n)
    ensures var m := Down(c, After(c, run), n)[i]; var ev := After(c, run).nodes[n].ev;
      && (m.RWriteAck? ==> m.serial in ev.commits && |ev.commits[m.serial]| == 1)
      && (m.AckInv? ==> m.serial in ev.invs && |ev.invs[m.serial]| == 1)
  {
    ViewGood(c, run, n);
    var v := ViewOf(c, After(c, run), n);
    var m := v.dn[i];
    assert m in multiset(v.dn);
    if m.RWriteAck? {
      assert m.serial in v.far.tr.sent ==> SentFlow(n, v.far, v.home.tr.log, v.up, v.dn, m.serial);
    }
    if m.AckInv? {
      assert AskFlowAt(n, c.threads, v.far, v.home, v.up, v.dn, m.serial);
      assert AskWaits(v.far, m.serial);
    }
  }
}
