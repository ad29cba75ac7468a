/** Particular runs of every system in which responsibility moves: a store that is lost, and sharers that a transfer
    drops. */
module MigrationRuns {
  import opened Protocol
  import opened Migration

  lemma AfterOneMore(c: Config, run: seq<Choice>, ch: Choice)
    ensures After(c, run + [ch]) == Step(c, After(c, run), ch)
  {
    assert (run + [ch])[..|run|] == run;
  }

  /** Two or three different nodes, the first of them the one where the page was allocated. */
  ghost predicate Nodes(c: Config, a: NodeId, b: NodeId) {
    Sane(c) && a < c.numNodes && b < c.numNodes && a != c.owner && b != c.owner
  }

  // ---------------------------------------------------------------- steps, one by one

  /** The use count of a page nobody waits for drops. */
  lemma LetsGo(c: Config, s: State, i: NodeId)
    requires s.stop.Running? && i < |s.nodes| && s.nodes[i].hdr.usecount > |HeldAt(s.stores, i)|
      && s.nodes[i].ev.zero == []
    ensures Step(c, s, LetGo(i)) ==
      Settle(s, i, s.nodes[i].(hdr := s.nodes[i].hdr.(usecount := s.nodes[i].hdr.usecount - 1)))
  {
    var n1 := s.nodes[i].(hdr := s.nodes[i].hdr.(usecount := s.nodes[i].hdr.usecount - 1));
    StepLetsGo(c, s, i);
    assert n1.(ev := n1.ev.(zero := [])) == n1;
    ActNone(s, i, n1);
  }

  lemma Asks(c: Config, s: State, i: NodeId)
    requires s.stop.Running? && i < |s.nodes| && s.nodes[i].hdr.status == INVALID
    ensures Step(c, s, AskData(i)) == Post(s, i, Packet(NextResp(EnvOf(c, i, 0), s.nodes[i]), DataReq(i)))
  {
    SettleSame(s, i);
    ActOne(s, i, s.nodes[i], Packet(NextResp(EnvOf(c, i, 0), s.nodes[i]), DataReq(i)));
  }

  lemma AsksResp(c: Config, s: State, i: NodeId)
    requires s.stop.Running? && i < |s.nodes| && s.nodes[i].hdr.status != RESP
    ensures Step(c, s, AskResp(i)) ==
      Post(Settle(Asking(s, i), i, s.nodes[i].(ev := s.nodes[i].ev.(incs := s.nodes[i].ev.incs + 1))), i,
           Packet(c.owner, RWReq(i, |s.h.asked|)))
  {
    ActOne(Asking(s, i), i, s.nodes[i].(ev := s.nodes[i].ev.(incs := s.nodes[i].ev.incs + 1)),
           Packet(c.owner, RWReq(i, |s.h.asked|)));
  }

  /** A delivery whose handler sends one packet, and one whose handler sends none. */
  lemma DeliversOne(c: Config, s: State, k: nat, n': Node, p: Packet)
    requires CanDeliver(c, s, k, 0) && Delivery(c, s, k, 0) == Ok(n', [p])
    ensures Step(c, s, Deliver(k, 0)) == Post(Settle(Without(s, k), s.net[k].to, n'), s.net[k].to, p)
  {
    StepDelivers(c, s, k, 0);
    ActOne(Without(s, k), s.net[k].to, n', p);
  }

  lemma DeliversNone(c: Config, s: State, k: nat, n': Node)
    requires CanDeliver(c, s, k, 0) && Delivery(c, s, k, 0) == Ok(n', [])
    ensures Step(c, s, Deliver(k, 0)) == Settle(Without(s, k), s.net[k].to, n')
  {
    StepDelivers(c, s, k, 0);
    ActNone(Without(s, k), s.net[k].to, n');
  }

  // ---------------------------------------------------------------- the state before anything is sent

  function Unused(c: Config): Node { FreshNode(c, true).(hdr := Header(RESP, 0, 0, false, true)) }

  /** The node that allocated the page has let go of it. */
  ghost predicate LetGoDone(c: Config, s: State) {
    && |s.nodes| == c.numNodes && c.owner < c.numNodes && s.stop.Running? && s.net == map[] && s.stores == map[]
    && s.nextId == 0 && s.h == Init(c).h && s.nodes[c.owner] == Unused(c)
    && forall i: NodeId :: i < |s.nodes| && i != c.owner ==> s.nodes[i] == FreshNode(c, false)
  }

  lemma AfterLetGo(c: Config)
    requires Sane(c)
    ensures LetGoDone(c, After(c, [LetGo(c.owner)]))
  {
    var s := Init(c);
    AfterOneMore(c, [], LetGo(c.owner));
    assert [] + [LetGo(c.owner)] == [LetGo(c.owner)];
    assert s.nodes[c.owner] == FreshNode(c, true) && HeldAt(s.stores, c.owner) == {};
    LetsGo(c, s, c.owner);
  }

  // ---------------------------------------------------------------- a store is lost

  /** Between the check and the store of a task that is no counted user, node b asks for the responsibility and gets
      it. */
  function CheckThenTransfer(c: Config, b: NodeId, w: Write): seq<Choice> {
    [LetGo(c.owner), Check(c.owner, w, false), AskResp(b), Deliver(1, 0)]
  }

  lemma AfterCheck(c: Config, w: Write)
    requires Sane(c)
    ensures var s1, s2 := After(c, [LetGo(c.owner)]), After(c, [LetGo(c.owner), Check(c.owner, w, false)]);
      LetGoDone(c, s1) && s2 == Checked(s1, c.owner, w, false)
  {
    AfterLetGo(c);
    AfterOneMore(c, [LetGo(c.owner)], Check(c.owner, w, false));
    assert [LetGo(c.owner)] + [Check(c.owner, w, false)] == [LetGo(c.owner), Check(c.owner, w, false)];
  }

  /** The request is about to overtake the store. */
  ghost predicate RequestComes(c: Config, s: State, w: Write) {
    && Overtakes(c, s, 0, 1, 0) && s.stores[0] == Store(c.owner, w, false) && s.nodes[c.owner] == Unused(c)
    && s.h.log == [] && s.h.lost == []
  }

  lemma CheckedThenAsked(c: Config, s: State, b: NodeId, w: Write)
    requires Sane(c) && LetGoDone(c, s) && b < c.numNodes && b != c.owner
    ensures RequestComes(c, Step(c, Checked(s, c.owner, w, false), AskResp(b)), w)
  {
    AsksResp(c, Checked(s, c.owner, w, false), b);
  }

  lemma AfterRequest(c: Config, b: NodeId, w: Write)
    requires Sane(c) && b < c.numNodes && b != c.owner
    ensures RequestComes(c, After(c, [LetGo(c.owner), Check(c.owner, w, false), AskResp(b)]), w)
  {
    var run := [LetGo(c.owner), Check(c.owner, w, false)];
    AfterCheck(c, w);
    AfterOneMore(c, run, AskResp(b));
    assert run + [AskResp(b)] == [LetGo(c.owner), Check(c.owner, w, false), AskResp(b)];
    CheckedThenAsked(c, After(c, [LetGo(c.owner)]), b, w);
  }

  /** In every system of two nodes or more a store can be lost: the check finds the node RESP at use count zero, the
      responsibility moves, and the store goes to a page that is authoritative no more. */
  lemma LosesAStore(c: Config, b: NodeId, w: Write)
    requires Sane(c) && b < c.numNodes && b != c.owner
    ensures var s := After(c, CheckThenTransfer(c, b, w) + [StoreNow(0)]);
      s.h.log == [] && s.h.lost == [Store(c.owner, w, false)]
  {
    var run := [LetGo(c.owner), Check(c.owner, w, false), AskResp(b)];
    AfterRequest(c, b, w);
    StoreLandsIffInUse(c, run, 0, 1, 0);
    AfterOneMore(c, run, Deliver(1, 0));
    assert run + [Deliver(1, 0)] == CheckThenTransfer(c, b, w);
    AfterOneMore(c, CheckThenTransfer(c, b, w), StoreNow(0));
  }

  // ---------------------------------------------------------------- a store is lost although the page was in use

  /** The use count is one at the check and when the request arrives; then the last user lets go. */
  function CheckThenLetGo(c: Config, b: NodeId, w: Write): seq<Choice> {
    [Check(c.owner, w, false), AskResp(b), Deliver(1, 0), LetGo(c.owner)]
  }

  lemma FreshNodes(c: Config)
    requires Sane(c)
    ensures |Init(c).nodes| == c.numNodes && Init(c).nodes[c.owner] == FreshNode(c, true)
    ensures forall b: NodeId :: b < c.numNodes && b != c.owner ==> Init(c).nodes[b] == FreshNode(c, false)
  {
  }

  lemma ChecksFirst(c: Config, s: State, i: NodeId, w: Write)
    requires s.stop.Running? && IsResp(s, i)
    ensures Step(c, s, Check(i, w, false)) == Checked(s, i, w, false)
  {
  }

  lemma AfterFirstCheck(c: Config, w: Write)
    requires Sane(c)
    ensures var s := After(c, [Check(c.owner, w, false)]);
      && s == Checked(Init(c), c.owner, w, false) && IsResp(s, c.owner) && s.nodes[c.owner] == FreshNode(c, true)
      && forall b: NodeId :: b < c.numNodes && b != c.owner ==> b < |s.nodes| && s.nodes[b] == FreshNode(c, false)
  {
    FreshNodes(c);
    ChecksFirst(c, Init(c), c.owner, w);
    AfterOneMore(c, [], Check(c.owner, w, false));
    assert [] + [Check(c.owner, w, false)] == [Check(c.owner, w, false)];
  }

  lemma AfterUsedRequest(c: Config, b: NodeId, w: Write)
    requires Sane(c) && b < c.numNodes && b != c.owner
    ensures var s := After(c, [Check(c.owner, w, false), AskResp(b)]);
      && Overtakes(c, s, 0, 1, 0) && s.stores == map[0 := Store(c.owner, w, false)]
      && s.nodes[c.owner] == FreshNode(c, true)
      && s.h.log == [] && s.h.lost == []
  {
    var check := [Check(c.owner, w, false)];
    AfterFirstCheck(c, w);
    AfterOneMore(c, check, AskResp(b));
    assert check + [AskResp(b)] == [Check(c.owner, w, false), AskResp(b)];
    AsksResp(c, After(c, check), b);
    assert Checked(Init(c), c.owner, w, false).stores == map[0 := Store(c.owner, w, false)];
  }

  /** The request waits, as the page is in use. */
  lemma AfterWaiting(c: Config, b: NodeId, w: Write)
    requires Sane(c) && b < c.numNodes && b != c.owner
    ensures var s := After(c, [Check(c.owner, w, false), AskResp(b), Deliver(1, 0)]);
      && s.stop.Running? && s.stores == map[0 := Store(c.owner, w, false)] && s.h.log == [] && s.h.lost == []
      && c.owner < |s.nodes| && s.nodes[c.owner].hdr.status == RESP && s.nodes[c.owner].hdr.usecount == 1
      && s.nodes[c.owner].ev.zero != []
  {
    var run := [Check(c.owner, w, false), AskResp(b)];
    var s := After(c, run);
    AfterUsedRequest(c, b, w);
    AfterOneMore(c, run, Deliver(1, 0));
    assert run + [Deliver(1, 0)] == [Check(c.owner, w, false), AskResp(b), Deliver(1, 0)];
    DeliversNone(c, s, 1, Delivery(c, s, 1, 0).node);
  }

  /** The last user lets go: the waiting transfer takes the responsibility away, between the check and the store. */
  lemma GivesUpInBetween(c: Config, b: NodeId, w: Write)
    requires Sane(c) && b < c.numNodes && b != c.owner
    ensures GoneSince(c, CheckThenLetGo(c, b, w), 1, c.owner)
  {
    var run := [Check(c.owner, w, false), AskResp(b), Deliver(1, 0)];
    AfterWaiting(c, b, w);
    assert HeldAt(After(c, run).stores, c.owner) == {};
    assert CheckThenLetGo(c, b, w) == run + [LetGo(c.owner)];
    GoneStep(c, run, LetGo(c.owner), 1, c.owner);
  }

  lemma AfterLastUse(c: Config, b: NodeId, w: Write)
    requires Sane(c) && b < c.numNodes && b != c.owner
    ensures var s := After(c, CheckThenLetGo(c, b, w));
      && s.stop.Running? && s.stores == map[0 := Store(c.owner, w, false)] && s.h.log == [] && s.h.lost == []
  {
    var run := [Check(c.owner, w, false), AskResp(b), Deliver(1, 0)];
    AfterWaiting(c, b, w);
    Safe(c, run);
    LastUse(c, After(c, run), c.owner);
    AfterOneMore(c, run, LetGo(c.owner));
    assert run + [LetGo(c.owner)] == CheckThenLetGo(c, b, w);
  }

  lemma LastUse(c: Config, s: State, i: NodeId)
    requires NodesOk(c, s) && s.stop.Running? && i < |s.nodes| && s.nodes[i].hdr.usecount == 1
      && s.nodes[i].ev.zero != []
    requires HeldAt(s.stores, i) == {}
    ensures var s' := Step(c, s, LetGo(i));
      s'.stop == s.stop && s'.stores == s.stores && s'.h.log == s.h.log && s'.h.lost == s.h.lost
  {
    assert NodeOk(c, s.nodes[i]);
    ReleaseAtZero(c, EnvOf(c, i, 0), s.nodes[i]);
    StepLetsGo(c, s, i);
    ActKeeps(s, i, Release(EnvOf(c, i, 0), s.nodes[i]));
  }

  lemma {:induction false} PostAllKeeps(s: State, i: NodeId, out: seq<Packet>)
    ensures var s' := PostAll(s, i, out);
      s'.stop == s.stop && s'.stores == s.stores && s'.h.log == s.h.log && s'.h.lost == s.h.lost
    decreases |out|
  {
    if out != [] { PostAllKeeps(Post(s, i, out[0]), i, out[1..]); }
  }

  /** A handler that applies no write leaves the pending stores and the log alone. */
  lemma ActKeeps(s: State, i: NodeId, o: Outcome)
    requires i < |s.nodes| && o.Ok? && o.node.tr.log == s.nodes[i].tr.log
    ensures var s' := Act(s, i, o);
      s'.stop == s.stop && s'.stores == s.stores && s'.h.log == s.h.log && s'.h.lost == s.h.lost
  {
    PostAllKeeps(Settle(s, i, o.node), i, o.out);
  }

  /** A use count that is not zero at the check, or when the request arrives, does not save the store of a task it
      does not count: in every system of two nodes or more the last user may let go before the store. */
  lemma LosesAStoreInUse(c: Config, b: NodeId, w: Write)
    requires Sane(c) && b < c.numNodes && b != c.owner
    ensures var s := After(c, CheckThenLetGo(c, b, w) + [StoreNow(0)]);
      s.h.log == [] && s.h.lost == [Store(c.owner, w, false)]
  {
    var run := CheckThenLetGo(c, b, w);
    AfterLastUse(c, b, w);
    GivesUpInBetween(c, b, w);
    AfterFirstCheck(c, w);
    assert run[..1] == [Check(c.owner, w, false)];
    StoreIsLostIff(c, run, 1, 0);
    AfterOneMore(c, run, StoreNow(0));
  }

  // ---------------------------------------------------------------- a transfer drops the sharers

  /** Node a reads the page, and then node b gets the responsibility. */
  function ReadsThenMoves(c: Config, a: NodeId, b: NodeId): seq<Choice> {
    [LetGo(c.owner), AskData(a), Deliver(0, 0), Deliver(1, 0), AskResp(b), Deliver(2, 0), Deliver(3, 0)]
  }

  /** Node a has a copy, and the node that allocated the page lists it. */
  ghost predicate CopyAt(c: Config, s: State, a: NodeId) {
    && |s.nodes| == c.numNodes && c.owner < c.numNodes && a < c.numNodes && s.stop.Running? && s.net == map[]
    && s.nextId == 2
    && s.nodes[c.owner] == Unused(c).(shared := [a]) && s.nodes[a].hdr.status == VALID && s.h.asked == map[]
    && forall i: NodeId :: i < |s.nodes| && i != c.owner && i != a ==> s.nodes[i] == FreshNode(c, false)
  }

  lemma AfterAsk(c: Config, a: NodeId)
    requires Sane(c) && a < c.numNodes && a != c.owner
    ensures var s1, s2 := After(c, [LetGo(c.owner)]), After(c, [LetGo(c.owner), AskData(a)]);
      LetGoDone(c, s1) && s2 == Post(s1, a, Packet(c.owner, DataReq(a)))
  {
    AfterLetGo(c);
    AfterOneMore(c, [LetGo(c.owner)], AskData(a));
    assert [LetGo(c.owner)] + [AskData(a)] == [LetGo(c.owner), AskData(a)];
    Asks(c, After(c, [LetGo(c.owner)]), a);
  }

  /** The answer is on its way. */
  ghost predicate AnswerFlies(c: Config, s: State, a: NodeId) {
    && |s.nodes| == c.numNodes && c.owner < c.numNodes && s.stop.Running? && s.nextId == 2 && s.h.asked == map[]
    && s.net == map[1 := Mail(c.owner, a, Data(c.content))] && s.nodes[c.owner] == Unused(c).(shared := [a])
    && forall i: NodeId :: i < |s.nodes| && i != c.owner ==> s.nodes[i] == FreshNode(c, false)
  }

  lemma AnswerIs(c: Config, a: NodeId)
    requires a != c.owner
    ensures OnDataReq(EnvOf(c, c.owner, 0), Unused(c), a) == Ok(Unused(c).(shared := [a]), [Packet(a, Data(c.content))])
  {
    assert [] + [a] == [a];
  }

  lemma AfterAnswer(c: Config, a: NodeId)
    requires Sane(c) && a < c.numNodes && a != c.owner
    ensures AnswerFlies(c, After(c, [LetGo(c.owner), AskData(a), Deliver(0, 0)]), a)
  {
    var run := [LetGo(c.owner), AskData(a)];
    var s := After(c, run);
    AfterAsk(c, a);
    AfterOneMore(c, run, Deliver(0, 0));
    assert run + [Deliver(0, 0)] == [LetGo(c.owner), AskData(a), Deliver(0, 0)];
    AnswerIs(c, a);
    assert s.net[0] == Mail(a, c.owner, DataReq(a)) && s.net - {0} == map[];
    DeliversOne(c, s, 0, Unused(c).(shared := [a]), Packet(a, Data(c.content)));
  }

  lemma AfterCopy(c: Config, a: NodeId)
    requires Sane(c) && a < c.numNodes && a != c.owner
    ensures CopyAt(c, After(c, [LetGo(c.owner), AskData(a), Deliver(0, 0), Deliver(1, 0)]), a)
  {
    var run := [LetGo(c.owner), AskData(a), Deliver(0, 0)];
    var s := After(c, run);
    AfterAnswer(c, a);
    AfterOneMore(c, run, Deliver(1, 0));
    assert run + [Deliver(1, 0)] == [LetGo(c.owner), AskData(a), Deliver(0, 0), Deliver(1, 0)];
    assert s.net - {1} == map[];
    DeliversNone(c, s, 1, Delivery(c, s, 1, 0).node);
  }

  /** Node b asks for the responsibility; the request has packet number 2 and tag 0. */
  lemma AsksForMove(c: Config, s: State, a: NodeId, b: NodeId)
    requires Nodes(c, a, b) && a != b && CopyAt(c, s, a)
    ensures var s' := Step(c, s, AskResp(b));
      && s'.stop.Running? && s'.nextId == 3 && s'.net == map[2 := Mail(b, c.owner, RWReq(b, 0))]
      && |s'.nodes| == c.numNodes
      && s'.nodes[c.owner] == s.nodes[c.owner] && s'.nodes[a] == s.nodes[a]
      && s'.nodes[b].hdr.status == INVALID && s'.nodes[b].shared == []
  {
    AsksResp(c, s, b);
  }

  /** The transfer: the sender keeps a valid copy, and sends an empty bitmap. */
  lemma MoveStarts(c: Config, s: State, a: NodeId, b: NodeId)
    requires Nodes(c, a, b) && a != b && s.stop.Running? && |s.nodes| == c.numNodes && s.nextId == 3
    requires s.net == map[2 := Mail(b, c.owner, RWReq(b, 0))] && s.nodes[c.owner] == Unused(c).(shared := [a])
    ensures var s' := Step(c, s, Deliver(2, 0));
      && s'.stop.Running? && |s'.nodes| == c.numNodes
      && s'.net == map[3 := Mail(c.owner, b, RespTransfer([], c.content, 0))]
      && s'.nodes[c.owner].hdr.status == VALID && s'.nodes[a] == s.nodes[a] && s'.nodes[b] == s.nodes[b]
  {
    var n := Unused(c).(shared := [a]);
    var o := DoRespTransfer(EnvOf(c, c.owner, 0), n, b, 0);
    assert Delivery(c, s, 2, 0) == o && s.net - {2} == map[];
    assert o == Ok(o.node, [Packet(b, RespTransfer([], c.content, 0))]);
    DeliversOne(c, s, 2, o.node, Packet(b, RespTransfer([], c.content, 0)));
  }

  lemma MoveEnds(c: Config, s: State, a: NodeId, b: NodeId)
    requires Nodes(c, a, b) && a != b && s.stop.Running? && |s.nodes| == c.numNodes
    requires s.net == map[3 := Mail(c.owner, b, RespTransfer([], c.content, 0))]
    requires s.nodes[b].hdr.status == INVALID && s.nodes[b].shared == []
    ensures var s' := Step(c, s, Deliver(3, 0));
      && s'.stop.Running? && |s'.nodes| == c.numNodes && s'.nodes[b].hdr.status == RESP && s'.nodes[b].shared == []
      && s'.nodes[a] == s.nodes[a] && s'.nodes[c.owner] == s.nodes[c.owner]
  {
    assert s.net - {3} == map[];
    DeliversNone(c, s, 3, Delivery(c, s, 3, 0).node);
  }

  lemma AfterMoveStarts(c: Config, a: NodeId, b: NodeId)
    requires Nodes(c, a, b) && a != b
    ensures var r4 := [LetGo(c.owner), AskData(a), Deliver(0, 0), Deliver(1, 0)];
      var s, s' := After(c, r4), After(c, r4 + [AskResp(b)]);
      && CopyAt(c, s, a) && s'.stop.Running? && s'.nextId == 3 && s'.net == map[2 := Mail(b, c.owner, RWReq(b, 0))]
      && |s'.nodes| == c.numNodes && s'.nodes[c.owner] == s.nodes[c.owner] && s'.nodes[a] == s.nodes[a]
      && s'.nodes[b].hdr.status == INVALID && s'.nodes[b].shared == []
  {
    var r4 := [LetGo(c.owner), AskData(a), Deliver(0, 0), Deliver(1, 0)];
    AfterCopy(c, a);
    AfterOneMore(c, r4, AskResp(b));
    AsksForMove(c, After(c, r4), a, b);
  }

  lemma AfterMove(c: Config, run: seq<Choice>, a: NodeId, b: NodeId)
    requires Nodes(c, a, b) && a != b
    requires var s := After(c, run);
      && s.stop.Running? && |s.nodes| == c.numNodes && s.nextId == 3 && s.net == map[2 := Mail(b, c.owner, RWReq(b, 0))]
      && s.nodes[c.owner] == Unused(c).(shared := [a]) && s.nodes[b].hdr.status == INVALID && s.nodes[b].shared == []
    ensures var s, s' := After(c, run), After(c, run + [Deliver(2, 0)] + [Deliver(3, 0)]);
      && s'.stop.Running? && |s'.nodes| == c.numNodes && s'.nodes[b].hdr.status == RESP && s'.nodes[b].shared == []
      && s'.nodes[a] == s.nodes[a] && s'.nodes[c.owner].hdr.status == VALID
  {
    AfterOneMore(c, run, Deliver(2, 0));
    MoveStarts(c, After(c, run), a, b);
    AfterOneMore(c, run + [Deliver(2, 0)], Deliver(3, 0));
    MoveEnds(c, After(c, run + [Deliver(2, 0)]), a, b);
  }

  /** In every system of three nodes or more a transfer can leave valid copies that no directory lists: the one of a
      sharer, and the one of the sender. */
  lemma DropsSharers(c: Config, a: NodeId, b: NodeId)
    requires Nodes(c, a, b) && a != b
    ensures var s := After(c, ReadsThenMoves(c, a, b));
      && s.stop.Running? && |s.nodes| == c.numNodes && s.nodes[b].hdr.status == RESP && s.nodes[b].shared == []
      && s.nodes[a].hdr.status == VALID && s.nodes[c.owner].hdr.status == VALID
  {
    var r5 := [LetGo(c.owner), AskData(a), Deliver(0, 0), Deliver(1, 0)] + [AskResp(b)];
    AfterMoveStarts(c, a, b);
    AfterMove(c, r5, a, b);
    assert r5 + [Deliver(2, 0)] + [Deliver(3, 0)] == ReadsThenMoves(c, a, b);
  }
}
