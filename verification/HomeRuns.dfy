/** Particular runs of every home system: what the theorems of `HomeTheorems` leave open does happen. */
module HomeRuns {
  import opened Protocol
  import opened Home
  import opened HomeHandlers
  import opened Coherence
  import opened HomeViews
  import opened HomeSafety
  import opened HomeTheorems
  import opened Invalidation
  import opened Publication

  // ---------------------------------------------------------------- one more step

  lemma AfterOneMore(c: Config, run: seq<Choice>, ch: Choice)
    ensures After(c, run + [ch]) == Step(c, After(c, run), ch)
  {
    assert (run + [ch])[..|run|] == run;
  }

  /** The state after node i has run a handler that sends one packet. */
  function Sends(taken: State, i: NodeId, n: Node, p: Packet): State
    requires i < |taken.nodes|
  {
    Push(taken.(nodes := taken.nodes[i := n]), i, p)
  }

  lemma SendOne(s: State, i: NodeId, p: Packet)
    ensures Send(s, i, [p]) == Push(s, i, p)
  {
    assert Send(s, i, [p]) == Send(Push(s, i, p), i, [p][1..]);
  }

  /** Node n, without a copy, asks. */
  lemma AfterRead(c: Config, run: seq<Choice>, n: NodeId)
    requires var s := After(c, run);
      s.stop.Running? && IsFar(c, n) && n < |s.nodes| && s.nodes[n] == FreshNode(c, false)
    ensures After(c, run + [Read(n)]) == Push(After(c, run), n, Packet(c.owner, DataReq(n)))
  {
    var s := After(c, run);
    AfterOneMore(c, run, Read(n));
    assert s.nodes[n := s.nodes[n]] == s.nodes;
    SendOne(s, n, Packet(c.owner, DataReq(n)));
  }

  /** Home answers. */
  lemma AfterAnswer(c: Config, run: seq<Choice>, n: NodeId)
    requires var s := After(c, run);
      && s.stop.Running? && IsFar(c, n) && c.owner < |s.nodes| && HomeNode(c, s).hdr.status == RESP && 0 < c.threads
      && Chan(s, n, c.owner) != [] && Chan(s, n, c.owner)[0] == DataReq(n)
    ensures var s := After(c, run); var home := HomeNode(c, s);
      After(c, run + [Deliver(n, c.owner, 0)]) ==
      Sends(Take(s, n, c.owner), c.owner, OnDataReq(EnvOf(c, c.owner, 0), home, n).node, Packet(n, Data(home.content)))
  {
    var s := After(c, run);
    AfterOneMore(c, run, Deliver(n, c.owner, 0));
    StepDelivers(c, s, n, c.owner, 0);
    HandleIs(EnvOf(c, c.owner, 0), HomeNode(c, s), n, DataReq(n));
    SendOne(Take(s, n, c.owner).(nodes := s.nodes[c.owner := OnDataReq(EnvOf(c, c.owner, 0), HomeNode(c, s), n).node]),
            c.owner, Packet(n, Data(HomeNode(c, s).content)));
  }

  lemma AnswerChannels(c: Config, s: State, n: NodeId, home': Node, m: Msg)
    requires IsFar(c, n) && c.owner < |s.nodes| && Chan(s, n, c.owner) != []
    ensures var s' := Sends(Take(s, n, c.owner), c.owner, home', Packet(n, m));
      Chan(s', n, c.owner) == Chan(s, n, c.owner)[1..] && Down(c, s', n) == Down(c, s, n) + [m]
  {
    var t := Take(s, n, c.owner).(nodes := s.nodes[c.owner := home']);
    PushChan(t, c.owner, Packet(n, m), n, c.owner);
    PushChan(t, c.owner, Packet(n, m), c.owner, n);
    TakeChan(s, n, c.owner, n, c.owner);
    TakeChan(s, n, c.owner, c.owner, n);
  }

  // ---------------------------------------------------------------- asking twice

  /** A node asks twice before its first answer arrives. */
  function AsksTwice(c: Config, n: NodeId): seq<Choice> {
    [Read(n), Read(n), Deliver(n, c.owner, 0), Deliver(n, c.owner, 0)]
  }

  lemma AfterOneRead(c: Config, n: NodeId)
    requires Sane(c) && IsFar(c, n)
    ensures var s := After(c, [Read(n)]);
      && s.stop.Running? && s.nodes == Init(c).nodes && s.next == 0 && Down(c, s, n) == []
      && Chan(s, n, c.owner) == [DataReq(n)]
  {
    AfterRead(c, [], n);
    assert [] + [Read(n)] == [Read(n)];
    PushChan(Init(c), n, Packet(c.owner, DataReq(n)), n, c.owner);
    PushChan(Init(c), n, Packet(c.owner, DataReq(n)), c.owner, n);
  }

  lemma AfterTwoReads(c: Config, n: NodeId)
    requires Sane(c) && IsFar(c, n)
    ensures var s := After(c, [Read(n), Read(n)]);
      && s.stop.Running? && s.nodes == Init(c).nodes && Down(c, s, n) == []
      && Chan(s, n, c.owner) == [DataReq(n), DataReq(n)]
  {
    var s := After(c, [Read(n)]);
    AfterOneRead(c, n);
    AfterRead(c, [Read(n)], n);
    assert [Read(n)] + [Read(n)] == [Read(n), Read(n)];
    PushChan(s, n, Packet(c.owner, DataReq(n)), n, c.owner);
    PushChan(s, n, Packet(c.owner, DataReq(n)), c.owner, n);
  }

  lemma AfterAskingTwice(c: Config, n: NodeId)
    requires Sane(c) && IsFar(c, n)
    ensures var s := After(c, AsksTwice(c, n));
      && InSystem(c, s, n) && s.stop.Running? && n in HomeNode(c, s).tr.twice && |Down(c, s, n)| == 2
  {
    var r2 := [Read(n), Read(n)];
    var d := [Deliver(n, c.owner, 0)];
    var s2, s3 := After(c, r2), After(c, r2 + d);
    AfterTwoReads(c, n);
    assert HomeNode(c, s2) == FreshNode(c, true);
    AfterAnswer(c, r2, n);
    AnswerChannels(c, s2, n, HomeNode(c, s3), Data(c.content));
    AfterAnswer(c, r2 + d, n);
    AnswerChannels(c, s3, n, OnDataReq(EnvOf(c, c.owner, 0), HomeNode(c, s3), n).node, Data(HomeNode(c, s3).content));
    assert r2 + d + d == AsksTwice(c, n);
  }

  /** The restriction is needed: in every system a node that asks twice before its first answer arrives ends up
      stopping the run. */
  lemma AskingTwiceStops(c: Config, n: NodeId)
    requires Sane(c) && IsFar(c, n)
    ensures var s := Deliveries(c, After(c, AsksTwice(c, n)), n, 2); s.stop.Stopped?
  {
    AfterAskingTwice(c, n);
    StopsIffAnsweredTwice(c, AsksTwice(c, n), n);
  }

  // ---------------------------------------------------------------- a second invalidation

  /** Home publishes. */
  lemma AfterHomeBegin(c: Config, run: seq<Choice>)
    requires Sane(c) && After(c, run).stop.Running?
    ensures var s, s' := After(c, run), After(c, run + [Begin(c.owner, 0, [])]);
      && InSystem(c, s, c.owner) && InSystem(c, s', c.owner) && s'.stop.Running? && s'.next == s.next + 1
      && HomeNode(c, s') == Begun(EnvOf(c, c.owner, 0), HomeNode(c, s), DoTdecs(Tx(c.owner, s.next)))
      && forall n :: IsFar(c, n) ==>
           SameAt(c, s, s', n, To(BegunOut(EnvOf(c, c.owner, 0), HomeNode(c, s), DoTdecs(Tx(c.owner, s.next))), n))
  {
    var s := After(c, run);
    Safe(c, run);
    AfterOneMore(c, run, Begin(c.owner, 0, []));
    BegunActs(c, s);
    StepBegins(c, s, c.owner, 0, []);
  }

  /** Node n is as before, and home has sent it ms. */
  ghost predicate SameAt(c: Config, s: State, s': State, n: NodeId, ms: seq<Msg>) {
    n < |s.nodes| == |s'.nodes| && s'.nodes[n] == s.nodes[n] && Down(c, s', n) == Down(c, s, n) + ms
  }

  lemma BegunActs(c: Config, s: State)
    requires Inv(c, s) && s.stop.Running?
    ensures var e, tx := EnvOf(c, c.owner, 0), Tx(c.owner, s.next); var home := HomeNode(c, s); var x := DoTdecs(tx);
      var s' := Act(s, BeginTaken(c, s, c.owner, []), c.owner, Protocol.Publish(e, home, tx, 0));
      && |s'.nodes| == |s.nodes| && s'.stop.Running? && s'.next == s.next + 1 && HomeNode(c, s') == Begun(e, home, x)
      && forall n :: IsFar(c, n) ==> SameAt(c, s, s', n, To(BegunOut(e, home, x), n))
  {
    var e, tx := EnvOf(c, c.owner, 0), Tx(c.owner, s.next);
    var home := HomeNode(c, s);
    PublishedHome(c, e, home, tx, s.jobs, s.next);
    PublishedIs(c, e, home, tx);
    SentByHome(c, s, BeginTaken(c, s, c.owner, []), Begun(e, home, DoTdecs(tx)), BegunOut(e, home, DoTdecs(tx)));
  }

  /** Home has run a handler that took no message. */
  lemma SentByHome(c: Config, s: State, taken: State, home': Node, out: seq<Packet>)
    requires c.owner < |s.nodes| == c.numNodes && taken.nodes == s.nodes && taken.chan == s.chan
    ensures var s' := Send(taken.(nodes := taken.nodes[c.owner := home']), c.owner, out);
      && |s'.nodes| == |s.nodes| && s'.stop == taken.stop && s'.next == taken.next && HomeNode(c, s') == home'
      && forall n :: IsFar(c, n) ==> SameAt(c, s, s', n, To(out, n))
  {
    var t := taken.(nodes := taken.nodes[c.owner := home']);
    SendElse(t, c.owner, out);
    forall n: NodeId | IsFar(c, n) ensures SameAt(c, s, Send(t, c.owner, out), n, To(out, n)) {
      SendChan(t, c.owner, out, c.owner, n);
      assert Chan(t, c.owner, n) == Chan(s, c.owner, n);
    }
  }

  /** No node but home has a copy or is being sent one. */
  ghost predicate NoCopies(c: Config, s: State) {
    && |s.nodes| == c.numNodes
    && forall n: NodeId :: IsFar(c, n) ==> s.nodes[n].hdr.status != VALID && Datas(Down(c, s, n)) == 0
  }

  ghost predicate NoInvalidations(c: Config, s: State) {
    forall n: NodeId :: IsFar(c, n) ==> DoInvs(Down(c, s, n)) == 0
  }

  /** An invalidation that finds an empty directory is over at once.  Exactly then is no copy left anywhere, when
      no DoInvalidate of an earlier invalidation is still on its way. */
  lemma OverAtOnce(c: Config, run: seq<Choice>)
    requires Sane(c) && After(c, run).stop.Running?
    ensures InSystem(c, After(c, run), c.owner)
    ensures var s, s' := After(c, run), After(c, run + [Begin(c.owner, 0, [])]);
      HomeNode(c, s).shared == [] ==>
        && InSystem(c, s', c.owner) && Tx(c.owner, s.next) in HomeNode(c, s').tr.tdecs
        && (NoCopies(c, s') <==> NoInvalidations(c, s'))
  {
    AfterHomeBegin(c, run);
    if HomeNode(c, After(c, run)).shared == [] { UnlistedCopies(c, run + [Begin(c.owner, 0, [])]); }
  }

  /** Home serves an AskInvalidate. */
  lemma ServedActs(c: Config, s: State, n: NodeId, q: int)
    requires Inv(c, s) && s.stop.Running? && IsFar(c, n) && Chan(s, n, c.owner) != []
    requires Chan(s, n, c.owner)[0] == AskInv(n, q) && HomeNode(c, s).shared == []
    ensures var s' := Step(c, s, Deliver(n, c.owner, 0));
      && s'.stop.Running? && InSystem(c, s', n) && HomeNode(c, s').shared == []
      && SendAck(n, q) in HomeNode(c, s').tr.waits
      && SendAck(n, q) !in HomeNode(c, s').ev.sc && Down(c, s', n) == Down(c, s, n) + [AckInv(q)]
  {
    var e, x, home := EnvOf(c, c.owner, 0), SendAck(n, q), HomeNode(c, s);
    ServesIs(c, s, e, n, q);
    BegunEmpty(c, e, home, x);
    NewIsAbsent(c, home, x);
    HandleIs(e, home, n, AskInv(n, q));
    StepDelivers(c, s, n, c.owner, 0);
    var t := Take(s, n, c.owner).(nodes := s.nodes[c.owner := Begun(e, home, x)]);
    SendOne(t, c.owner, Packet(n, AckInv(q)));
    PushChan(t, c.owner, Packet(n, AckInv(q)), c.owner, n);
    TakeChan(s, n, c.owner, c.owner, n);
  }

  /** The same for the invalidation another node has asked for: if the directory is empty, the answer leaves at once,
      and no copy is left anywhere if and only if no DoInvalidate is on its way. */
  lemma AnsweredAtOnce(c: Config, run: seq<Choice>, n: NodeId, q: int)
    requires Sane(c) && After(c, run).stop.Running? && IsFar(c, n)
    requires Chan(After(c, run), n, c.owner) != [] && Chan(After(c, run), n, c.owner)[0] == AskInv(n, q)
    ensures InSystem(c, After(c, run), n)
    ensures var s, s' := After(c, run), After(c, run + [Deliver(n, c.owner, 0)]);
      HomeNode(c, s).shared == [] ==>
        && InSystem(c, s', n) && SendAck(n, q) !in HomeNode(c, s').ev.sc
        && Down(c, s', n) == Down(c, s, n) + [AckInv(q)]
        && (NoCopies(c, s') <==> NoInvalidations(c, s'))
  {
    Safe(c, run);
    if HomeNode(c, After(c, run)).shared == [] {
      ServedActs(c, After(c, run), n, q);
      AfterOneMore(c, run, Deliver(n, c.owner, 0));
      UnlistedCopies(c, run + [Deliver(n, c.owner, 0)]);
    }
  }

  lemma UnlistedCopies(c: Config, run: seq<Choice>)
    requires Sane(c) && c.owner < |After(c, run).nodes| && HomeNode(c, After(c, run)).shared == []
    ensures NoCopies(c, After(c, run)) <==> NoInvalidations(c, After(c, run))
  {
    var s := After(c, run);
    HomeIsResp(c, run, c.owner);
    forall n: NodeId | IsFar(c, n)
      ensures (s.nodes[n].hdr.status != VALID && Datas(Down(c, s, n)) == 0) <==> DoInvs(Down(c, s, n)) == 0
    {
      DirectoryEquation(c, run, n);
    }
  }

  /** A node reads, home writes and publishes twice, and the DoInvalidate of the first publication has not arrived
      when the second one is over. */
  function PublishesTwice(c: Config, n: NodeId, w: Write): seq<Choice> {
    [Read(n), Deliver(n, c.owner, 0), Deliver(c.owner, n, 0), WriteLocally(c.owner, w),
     Begin(c.owner, 0, []), Begin(c.owner, 0, [])]
  }

  /** Data arrives at a node without a copy. */
  lemma AfterData(c: Config, run: seq<Choice>, n: NodeId, x: Content)
    requires var s := After(c, run);
      && s.stop.Running? && IsFar(c, n) && n < |s.nodes| && c.owner < |s.nodes| && 0 < c.threads
      && s.nodes[n].hdr.status == INVALID && Down(c, s, n) == [Data(x)]
    ensures var s, s' := After(c, run), After(c, run + [Deliver(c.owner, n, 0)]);
      && s'.stop.Running? && |s'.nodes| == |s.nodes| && s'.nodes[n].hdr.status == VALID && s'.nodes[n].content == x
      && HomeNode(c, s') == HomeNode(c, s) && s'.next == s.next && Down(c, s', n) == []
  {
    var s := After(c, run);
    AfterOneMore(c, run, Deliver(c.owner, n, 0));
    StepDelivers(c, s, c.owner, n, 0);
    HandleIs(EnvOf(c, n, 0), s.nodes[n], c.owner, Data(x));
    TakeChan(s, c.owner, n, c.owner, n);
  }

  lemma AfterLocalWrite(c: Config, run: seq<Choice>, w: Write)
    requires var s := After(c, run); s.stop.Running? && c.owner < |s.nodes| && HomeNode(c, s).hdr.status == RESP
    ensures After(c, run + [WriteLocally(c.owner, w)]) ==
      After(c, run).(nodes := After(c, run).nodes[c.owner := LocalWrite(HomeNode(c, After(c, run)), w)])
  {
    AfterOneMore(c, run, WriteLocally(c.owner, w));
  }

  lemma AfterHasCopy(c: Config, n: NodeId)
    requires Sane(c) && IsFar(c, n)
    ensures var s := After(c, [Read(n), Deliver(n, c.owner, 0), Deliver(c.owner, n, 0)]);
      var home := FreshNode(c, true);
      && s.stop.Running? && InSystem(c, s, n) && s.next == 0 && s.nodes[n].hdr.status == VALID
      && s.nodes[n].content == c.content
      && HomeNode(c, s) == home.(shared := [n]) && Down(c, s, n) == []
  {
    var r1, r2 := [Read(n)], [Read(n), Deliver(n, c.owner, 0)];
    var s1, s2 := After(c, r1), After(c, r2);
    AfterOneRead(c, n);
    assert HomeNode(c, s1) == FreshNode(c, true) && s1.next == 0;
    AfterAnswer(c, r1, n);
    assert r1 + [Deliver(n, c.owner, 0)] == r2;
    AnswerChannels(c, s1, n, HomeNode(c, s2), Data(c.content));
    assert [] + [Data(c.content)] == [Data(c.content)];
    AfterData(c, r2, n, c.content);
    assert r2 + [Deliver(c.owner, n, 0)] == [Read(n), Deliver(n, c.owner, 0), Deliver(c.owner, n, 0)];
  }

  /** "No stale copy anywhere" fails: in every system a node may hold the content from before a write while a
      publication that began after the write has issued its tdecs. */
  lemma StaleCopyStays(c: Config, n: NodeId, w: Write)
    requires Sane(c) && IsFar(c, n)
    ensures var s := After(c, PublishesTwice(c, n, w));
      && s.stop.Running? && InSystem(c, s, n) && Tx(c.owner, 1) in HomeNode(c, s).tr.tdecs
      && HomeNode(c, s).tr.log == [Local(w)] && s.nodes[n].hdr.status == VALID && s.nodes[n].content == c.content
  {
    var r3 := [Read(n), Deliver(n, c.owner, 0), Deliver(c.owner, n, 0)];
    var r4 := r3 + [WriteLocally(c.owner, w)];
    var b := [Begin(c.owner, 0, [])];
    AfterHasCopy(c, n);
    AfterLocalWrite(c, r3, w);
    AfterHomeBegin(c, r4);
    AfterHomeBegin(c, r4 + b);
    assert SameAt(c, After(c, r4), After(c, r4 + b), n,
      To(BegunOut(EnvOf(c, c.owner, 0), HomeNode(c, After(c, r4)), DoTdecs(Tx(c.owner, 0))), n));
    assert r4 + b + b == PublishesTwice(c, n, w);
  }
}
