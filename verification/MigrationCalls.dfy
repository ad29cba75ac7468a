/** What the choices of a `Migration` run ask for is what happens: each step belongs to one node, what is sent and
    stored is what the tasks wrote, and the use count counts the calls. */
module MigrationCalls {
  import opened Protocol
  import opened Handlers
  import opened Migration

  // ---------------------------------------------------------------- each step belongs to one node

  /** The node whose step this is; no node for a choice that cannot be made. */
  ghost function Actor(s: State, ch: Choice): NodeId {
    match ch
    case Deliver(k, _) => if k in s.net then s.net[k].to else |s.nodes|
    case AskData(i) => i
    case AskResp(i) => i
    case Check(i, _, _) => i
    case StoreNow(id) => if id in s.stores then s.stores[id].node else |s.nodes|
    case WriteRemotely(i, _, _, _) => i
    case StartPublish(i, _, _, _) => i
    case LetGo(i) => i
  }

  /** Packets of node i have been added to the pool, and nothing else has changed there. */
  ghost predicate Adds(net: map<nat, Mail>, net': map<nat, Mail>, i: NodeId) {
    && (forall k :: k in net ==> k in net' && net'[k] == net[k])
    && (forall k :: k in net' && k !in net ==> net'[k].from == i)
  }

  lemma {:induction false} PostAllAdds(s: State, i: NodeId, out: seq<Packet>)
    requires NetOk(s)
    ensures var s' := PostAll(s, i, out);
      NetOk(s') && s'.nextId >= s.nextId && Adds(s.net, s'.net, i) && s'.nodes == s.nodes && s'.stores == s.stores
    ensures forall k :: k < s.nextId && k !in s.net ==> k !in PostAll(s, i, out).net
    decreases |out|
  {
    if out != [] { PostAllAdds(Post(s, i, out[0]), i, out[1..]); }
  }

  lemma ActAdds(s: State, i: NodeId, o: Outcome)
    requires i < |s.nodes| && NetOk(s)
    ensures var s' := Act(s, i, o);
      && Adds(s.net, s'.net, i) && s'.stores == s.stores
      && s'.nodes == if o.Ok? then s.nodes[i := o.node] else s.nodes
    ensures forall k :: k < s.nextId && k !in s.net ==> k !in Act(s, i, o).net
  {
    if o.Ok? { PostAllAdds(Settle(s, i, o.node), i, o.out); }
  }

  /** From s to s', only node i has changed, only packets of node i are new, and of the others `taken` is gone. */
  ghost predicate OnlyAt(s: State, s': State, i: NodeId, taken: set<nat>) {
    && |s'.nodes| == |s.nodes| && (forall x :: 0 <= x < |s.nodes| && x != i ==> s'.nodes[x] == s.nodes[x])
    && (forall k :: k in s.net && k !in taken ==> k in s'.net && s'.net[k] == s.net[k])
    && (forall k :: k in s'.net && k !in s.net ==> s'.net[k].from == i)
    && (forall k :: k in taken ==> k !in s'.net)
  }

  lemma ActLocal(s: State, s1: State, i: NodeId, o: Outcome, taken: set<nat>)
    requires NetOk(s) && i < |s.nodes| && s1.nodes == s.nodes && s1.net == s.net - taken && s1.nextId == s.nextId
    requires s1.stores == s.stores || NetOk(s1)
    requires forall k :: k in taken ==> k in s.net
    ensures OnlyAt(s, Act(s1, i, o), i, taken)
  {
    ActAdds(s1, i, o);
  }

  lemma DeliverIsLocal(c: Config, s: State, k: nat, th: nat)
    requires NetOk(s) && CanDeliver(c, s, k, th)
    ensures OnlyAt(s, Step(c, s, Deliver(k, th)), s.net[k].to, {k})
  {
    StepDelivers(c, s, k, th);
    ActLocal(s, Without(s, k), s.net[k].to, Delivery(c, s, k, th), {k});
  }

  lemma StoreIsLocal(c: Config, s: State, id: nat)
    requires NetOk(s) && s.stop.Running? && id in s.stores && s.stores[id].node < |s.nodes|
    ensures OnlyAt(s, Step(c, s, StoreNow(id)), s.stores[id].node, {})
  {
    var x := s.stores[id];
    ActLocal(s, Storing(s, id), x.node, Ok(StoredNode(s.nodes[x.node], x.w), []), {});
  }

  lemma LetGoIsLocal(c: Config, s: State, i: NodeId)
    requires NetOk(s)
    ensures OnlyAt(s, Step(c, s, LetGo(i)), i, {})
  {
    if s.stop.Running? && i < |s.nodes| && s.nodes[i].hdr.usecount > |HeldAt(s.stores, i)| {
      StepLetsGo(c, s, i);
      ActLocal(s, s, i, Release(EnvOf(c, i, 0), s.nodes[i]), {});
    }
  }

  lemma AskIsLocal(c: Config, s: State, i: NodeId)
    requires NetOk(s)
    ensures OnlyAt(s, Step(c, s, AskResp(i)), i, {})
  {
    if i < |s.nodes| { ActLocal(s, Asking(s, i), i, RequestResp(EnvOf(c, i, 0), s.nodes[i], |s.h.asked|), {}); }
  }

  lemma CallIsLocal(c: Config, s: State, ch: Choice)
    requires NetOk(s) && (ch.AskData? || ch.Check? || ch.WriteRemotely? || ch.StartPublish?)
    ensures OnlyAt(s, Step(c, s, ch), Actor(s, ch), {})
  {
    if s.stop.Running? {
      match ch
      case AskData(i) => if i < |s.nodes| { ActLocal(s, s, i, RequestData(EnvOf(c, i, 0), s.nodes[i]), {}); }
      case Check(_, _, _) =>
      case WriteRemotely(i, th, tx, w) =>
        if i < |s.nodes| { ActLocal(s, s, i, RemoteWrite(EnvOf(c, i, th), s.nodes[i], tx, w), {}); }
      case StartPublish(i, th, tx, count) =>
        if i < |s.nodes| { ActLocal(s, s, i, Publish(EnvOf(c, i, th), s.nodes[i], tx, count), {}); }
    }
  }

  ghost predicate IsLocal(c: Config, s: State, ch: Choice) {
    OnlyAt(s, Step(c, s, ch), Actor(s, ch), if ch.Deliver? && CanDeliver(c, s, ch.k, ch.th) then {ch.k} else {})
  }

  lemma StepLocal(c: Config, s: State, ch: Choice)
    requires NetOk(s) && s.stop.Running?
    ensures IsLocal(c, s, ch)
  {
    match ch
    case Deliver(k, th) => if CanDeliver(c, s, k, th) { DeliverIsLocal(c, s, k, th); }
    case StoreNow(id) => if id in s.stores && s.stores[id].node < |s.nodes| { StoreIsLocal(c, s, id); }
    case LetGo(i) => LetGoIsLocal(c, s, i);
    case AskResp(i) => AskIsLocal(c, s, i);
    case _ => CallIsLocal(c, s, ch);
  }

  /** A delivered packet is handled at the node it is addressed to and is then gone, a task's call runs at the node of
      the task: no other node changes, no other packet disappears, and every new packet comes from that node. */
  lemma StepIsLocal(c: Config, run: seq<Choice>, ch: Choice)
    requires Sane(c) && After(c, run).stop.Running?
    ensures IsLocal(c, After(c, run), ch)
  {
    Safe(c, run);
    StepLocal(c, After(c, run), ch);
  }

  // ---------------------------------------------------------------- the use count counts the calls

  lemma ReleaseKeeps(c: Config, e: Env, n: Node)
    requires NodeOk(c, n) && n.hdr.usecount > 0
    ensures var o := Release(e, n); o.Ok? && Keeps(n, o.node, [], -1)
  {
    if n.hdr.usecount == 1 && n.ev.zero != [] { GiveKeeps(c, e, n); }
  }

  /** The transfer, and the retries behind it. */
  lemma GiveKeeps(c: Config, e: Env, n: Node)
    requires NodeOk(c, n) && n.hdr.usecount == 1 && n.ev.zero != []
    ensures var o := Release(e, n); o.Ok? && Keeps(n, o.node, [], -1)
  {
    var n1 := n.(hdr := n.hdr.(usecount := 0));
    RunRetries(e, RunWaiter(e, n1, n.ev.zero[0]).node, n.ev.zero[1..]);
  }

  /** The last user lets go while a transfer waits: the transfer goes to the node that asked first, and every retry is
      the request of another, sent after it (to the owner, in a build that keeps no hints). */
  lemma RetriesFollowTransfer(c: Config, e: Env, n: Node)
    requires NodeOk(c, n) && n.hdr.usecount == 1 && n.ev.zero != [] && n.hdr.known
    ensures var o := Release(e, n); var target := n.ev.zero[0].target;
      && o.Ok? && |o.out| == |n.ev.zero| && o.out[0].to == target && o.out[0].msg.RespTransfer?
      && o.node.hdr.nextResp == target
      && forall j :: 1 <= j < |o.out| ==>
           && o.out[j].msg == RWReq(n.ev.zero[j].orig, n.ev.zero[j].tag)
           && o.out[j].to == if e.debug && target <= e.numNodes then target else e.owner
  {
    var n1 := n.(hdr := n.hdr.(usecount := 0));
    RetriesTo(e, RunWaiter(e, n1, n.ev.zero[0]).node, n.ev.zero[1..]);
  }

  lemma {:induction false} RetriesTo(e: Env, n: Node, ws: seq<Waiter>)
    requires AllRetry(ws)
    ensures var o := RunWaiters(e, n, ws);
      && o.Ok? && o.node == n && |o.out| == |ws|
      && forall j :: 0 <= j < |ws| ==> o.out[j] == Packet(NextResp(e, n), RWReq(ws[j].orig, ws[j].tag))
    decreases |ws|
  {
    if ws != [] { RetriesTo(e, n, ws[1..]); }
  }

  /** What a step adds to the users of the page at node i: one for a request, less one for a release. */
  ghost function UseChange(s: State, ch: Choice, i: NodeId): int
    requires i < |s.nodes|
  {
    match ch
    case AskResp(j) => if j == i && s.stop.Running? && s.nodes[i].hdr.status != RESP then 1 else 0
    case LetGo(j) =>
      if j == i && s.stop.Running? && s.nodes[i].hdr.usecount > |HeldAt(s.stores, i)| then -1 else 0
    case _ => 0
  }

  /** The calls in the run, and the use of the owner that allocated the page. */
  ghost function Uses(c: Config, run: seq<Choice>, i: NodeId): int {
    if run == [] then (if i == c.owner then 1 else 0)
    else
      var s := After(c, run[..|run| - 1]);
      Uses(c, run[..|run| - 1], i) + (if i < |s.nodes| then UseChange(s, run[|run| - 1], i) else 0)
  }

  ghost predicate UseFollows(s: State, s': State, ch: Choice, i: NodeId)
    requires i < |s.nodes|
  {
    && |s'.nodes| == |s.nodes|
    && s'.nodes[i].hdr.usecount + s'.nodes[i].ev.incs
       == s.nodes[i].hdr.usecount + s.nodes[i].ev.incs + UseChange(s, ch, i)
  }

  ghost predicate SentFollows(s: State, s': State, ch: Choice, i: NodeId)
    requires i < |s.nodes|
  {
    && |s'.nodes| == |s.nodes|
    && var sent, sent' := s.nodes[i].tr.sent, s'.nodes[i].tr.sent;
       forall x :: x in sent' ==>
         (x in sent && sent'[x] == sent[x]) || (ch.WriteRemotely? && ch.i == i && sent'[x] == Sent(ch.tx, ch.w))
  }

  ghost predicate NodeFollows(s: State, s': State, ch: Choice, i: NodeId)
    requires i < |s.nodes|
  {
    UseFollows(s, s', ch, i) && SentFollows(s, s', ch, i)
  }

  lemma DeliverDoes(c: Config, s: State, k: nat, th: nat, i: NodeId)
    requires NodesOk(c, s) && CanDeliver(c, s, k, th) && i < |s.nodes|
    ensures NodeFollows(s, Step(c, s, Deliver(k, th)), Deliver(k, th), i)
  {
    var m := s.net[k];
    StepDelivers(c, s, k, th);
    ActNodes(Without(s, k), m.to, Delivery(c, s, k, th));
    assert NodeOk(c, s.nodes[m.to]);
    HandleKeeps(EnvOf(c, m.to, th), s.nodes[m.to], m.from, m.msg);
  }

  lemma LetGoDoes(c: Config, s: State, j: NodeId, i: NodeId)
    requires NodesOk(c, s) && s.stop.Running? && i < |s.nodes|
    ensures NodeFollows(s, Step(c, s, LetGo(j)), LetGo(j), i)
  {
    if j < |s.nodes| && s.nodes[j].hdr.usecount > |HeldAt(s.stores, j)| {
      StepLetsGo(c, s, j);
      ActNodes(s, j, Release(EnvOf(c, j, 0), s.nodes[j]));
      assert NodeOk(c, s.nodes[j]);
      ReleaseKeeps(c, EnvOf(c, j, 0), s.nodes[j]);
    }
  }

  lemma AskDoes(c: Config, s: State, j: NodeId, i: NodeId)
    requires s.stop.Running? && i < |s.nodes|
    ensures NodeFollows(s, Step(c, s, AskResp(j)), AskResp(j), i)
  {
    if j < |s.nodes| { ActNodes(Asking(s, j), j, RequestResp(EnvOf(c, j, 0), s.nodes[j], |s.h.asked|)); }
  }

  lemma StoreDoes(c: Config, s: State, id: nat, i: NodeId)
    requires s.stop.Running? && i < |s.nodes|
    ensures NodeFollows(s, Step(c, s, StoreNow(id)), StoreNow(id), i)
  {
    if id in s.stores && s.stores[id].node < |s.nodes| {
      var x := s.stores[id];
      ActNodes(Storing(s, id), x.node, Ok(StoredNode(s.nodes[x.node], x.w), []));
    }
  }

  lemma WriteDoes(c: Config, s: State, j: NodeId, th: nat, tx: Tx, w: Write, i: NodeId)
    requires s.stop.Running? && i < |s.nodes|
    ensures NodeFollows(s, Step(c, s, WriteRemotely(j, th, tx, w)), WriteRemotely(j, th, tx, w), i)
  {
    if j < |s.nodes| {
      var o := RemoteWrite(EnvOf(c, j, th), s.nodes[j], tx, w);
      ActNodes(s, j, o);
    }
  }

  lemma PublishDoes(c: Config, s: State, j: NodeId, th: nat, tx: Tx, count: nat, i: NodeId)
    requires s.stop.Running? && i < |s.nodes|
    ensures NodeFollows(s, Step(c, s, StartPublish(j, th, tx, count)), StartPublish(j, th, tx, count), i)
  {
    if j < |s.nodes| {
      CalmPublish(EnvOf(c, j, th), s.nodes[j], tx, count);
      ActNodes(s, j, Publish(EnvOf(c, j, th), s.nodes[j], tx, count));
    }
  }

  lemma ReadDoes(c: Config, s: State, j: NodeId, i: NodeId)
    requires s.stop.Running? && i < |s.nodes|
    ensures NodeFollows(s, Step(c, s, AskData(j)), AskData(j), i)
  {
    if j < |s.nodes| { ActNodes(s, j, RequestData(EnvOf(c, j, 0), s.nodes[j])); }
  }

  lemma StepDoes(c: Config, s: State, ch: Choice, i: NodeId)
    requires NodesOk(c, s) && s.stop.Running? && i < |s.nodes|
    ensures NodeFollows(s, Step(c, s, ch), ch, i)
  {
    match ch
    case Deliver(k, th) => if CanDeliver(c, s, k, th) { DeliverDoes(c, s, k, th, i); }
    case AskData(j) => ReadDoes(c, s, j, i);
    case AskResp(j) => AskDoes(c, s, j, i);
    case Check(_, _, _) =>
    case StoreNow(id) => StoreDoes(c, s, id, i);
    case WriteRemotely(j, th, tx, w) => WriteDoes(c, s, j, th, tx, w, i);
    case StartPublish(j, th, tx, count) => PublishDoes(c, s, j, th, tx, count, i);
    case LetGo(j) => LetGoDoes(c, s, j, i);
  }

  lemma {:induction false} NodesStay(c: Config, run: seq<Choice>)
    requires Sane(c)
    ensures |After(c, run).nodes| == c.numNodes
  {
    if run != [] {
      var s := After(c, run[..|run| - 1]);
      NodesStay(c, run[..|run| - 1]);
      if s.stop.Running? && |s.nodes| > 0 {
        Safe(c, run[..|run| - 1]);
        StepDoes(c, s, run[|run| - 1], 0);
      }
    }
  }

  /** At every node, in every run: the use count and the incrementors that wait for the responsibility are together
      the requests that its tasks have made, one more at the owner, less the times a user has let go.  Nothing else
      makes the page used or unused, wherever the responsibility goes. */
  lemma {:induction false} UseCountIsCalls(c: Config, run: seq<Choice>, i: NodeId)
    requires Sane(c) && i < c.numNodes
    ensures |After(c, run).nodes| == c.numNodes
    ensures var n := After(c, run).nodes[i]; n.hdr.usecount + n.ev.incs == Uses(c, run, i)
  {
    NodesStay(c, run);
    if run == [] {
      assert Init(c).nodes[i] == FreshNode(c, i == c.owner);
    } else {
      var s := After(c, run[..|run| - 1]);
      UseCountIsCalls(c, run[..|run| - 1], i);
      if s.stop.Running? {
        Safe(c, run[..|run| - 1]);
        StepDoes(c, s, run[|run| - 1], i);
      }
    }
  }

  // ---------------------------------------------------------------- what is sent and stored

  /** Choice j of the run is a remote write of this by node i. */
  ghost predicate WritesAt(run: seq<Choice>, j: int, i: NodeId, x: Sent) {
    0 <= j < |run| && run[j].WriteRemotely? && run[j].i == i && Sent(run[j].tx, run[j].w) == x
  }

  lemma WritesAtLonger(run: seq<Choice>, j: int, i: NodeId, x: Sent)
    requires run != [] && WritesAt(run[..|run| - 1], j, i, x)
    ensures WritesAt(run, j, i, x)
  {
  }

  lemma NothingSent(c: Config, i: NodeId)
    requires i < c.numNodes
    ensures Init(c).nodes[i].tr.sent == map[]
  {
    assert Init(c).nodes[i] == FreshNode(c, i == c.owner);
  }

  /** What a node has noted as sent is what one of its tasks wrote. */
  lemma {:induction false} SentIsWritten(c: Config, run: seq<Choice>, i: NodeId, serial: int) returns (j: int)
    requires Sane(c) && i < |After(c, run).nodes| && serial in After(c, run).nodes[i].tr.sent
    ensures WritesAt(run, j, i, After(c, run).nodes[i].tr.sent[serial])
  {
    NodesStay(c, run);
    NothingSent(c, i);
    var before, s' := run[..|run| - 1], After(c, run);
    var s := After(c, before);
    NodesStay(c, before);
    if s.stop.Running? {
      Safe(c, before);
      StepDoes(c, s, run[|run| - 1], i);
    }
    if serial in s.nodes[i].tr.sent && s.nodes[i].tr.sent[serial] == s'.nodes[i].tr.sent[serial] {
      j := SentIsWritten(c, before, i, serial);
      WritesAtLonger(run, j, i, s'.nodes[i].tr.sent[serial]);
    } else {
      j := |run| - 1;
    }
  }

  /** Choice j of the run is the check of this store, at a node that was RESP then. */
  ghost predicate ChecksAt(c: Config, run: seq<Choice>, j: int, x: Store) {
    0 <= j < |run| && run[j] == Check(x.node, x.w, x.held) && IsResp(After(c, run[..j]), x.node)
  }

  lemma ChecksAtLonger(c: Config, run: seq<Choice>, j: int, x: Store)
    requires run != [] && ChecksAt(c, run[..|run| - 1], j, x)
    ensures ChecksAt(c, run, j, x)
  {
    assert run[..|run| - 1][..j] == run[..j];
  }

  /** A store that is about to be made was checked, at a RESP node, by a choice of the run. */
  lemma {:induction false} StoreWasChecked(c: Config, run: seq<Choice>, id: nat) returns (j: int)
    requires id in After(c, run).stores
    ensures ChecksAt(c, run, j, After(c, run).stores[id])
  {
    var before, ch := run[..|run| - 1], run[|run| - 1];
    var s, s' := After(c, before), After(c, run);
    StoresStep(c, s, ch);
    if id in s.stores && s'.stores[id] == s.stores[id] {
      j := StoreWasChecked(c, before, id);
      ChecksAtLonger(c, run, j, s.stores[id]);
    } else {
      j := |run| - 1;
    }
  }

  lemma {:induction false} PostAllStores(s: State, i: NodeId, out: seq<Packet>)
    ensures PostAll(s, i, out).stores == s.stores && PostAll(s, i, out).h.log == s.h.log
    decreases |out|
  {
    if out != [] { PostAllStores(Post(s, i, out[0]), i, out[1..]); }
  }

  lemma ActStores(s: State, i: NodeId, o: Outcome)
    requires i < |s.nodes|
    ensures Act(s, i, o).stores == s.stores
    ensures Act(s, i, o).h.log ==
      if o.Ok? && |o.node.tr.log| > |s.nodes[i].tr.log| then s.h.log + [o.node.tr.log[|s.nodes[i].tr.log|]] else s.h.log
  {
    if o.Ok? { PostAllStores(Settle(s, i, o.node), i, o.out); }
  }

  lemma StoresStep(c: Config, s: State, ch: Choice)
    ensures forall id :: id in Step(c, s, ch).stores ==>
      || (id in s.stores && Step(c, s, ch).stores[id] == s.stores[id])
      || (ch.Check? && s.stop.Running? && IsResp(s, ch.i) && Step(c, s, ch).stores[id] == Store(ch.i, ch.w, ch.held))
  {
    if s.stop.Running? {
      match ch
      case Deliver(k, th) =>
        if CanDeliver(c, s, k, th) { ActStores(Without(s, k), s.net[k].to, Delivery(c, s, k, th)); }
      case Check(_, _, _) =>
      case StoreNow(id) =>
        if id in s.stores && s.stores[id].node < |s.nodes| {
          var x := s.stores[id];
          ActStores(Storing(s, id), x.node, Ok(StoredNode(s.nodes[x.node], x.w), []));
        }
      case LetGo(i) => if i < |s.nodes| { ActStores(s, i, Release(EnvOf(c, i, 0), s.nodes[i])); }
      case _ => CallLogs(c, s, ch);
    }
  }

  /** What a step adds to the writes that the page has gone through. */
  ghost function Logged(c: Config, s: State, ch: Choice): seq<Applied> {
    match ch
    case Deliver(k, th) => if CanDeliver(c, s, k, th) then LoggedBy(s.nodes[s.net[k].to], s.net[k].msg) else []
    case StoreNow(id) => if id in s.stores && IsResp(s, s.stores[id].node) then [Local(s.stores[id].w)] else []
    case _ => []
  }

  lemma LogStep(c: Config, s: State, ch: Choice)
    requires NodesOk(c, s) && s.stop.Running?
    ensures Step(c, s, ch).h.log == s.h.log + Logged(c, s, ch)
  {
    if ch.AskData? || ch.AskResp? || ch.WriteRemotely? || ch.StartPublish? {
      CallLogs(c, s, ch);
    } else {
      match ch
      case Deliver(k, th) => if CanDeliver(c, s, k, th) { DeliverLogs(c, s, k, th); }
      case Check(_, _, _) =>
      case StoreNow(id) => if id in s.stores && s.stores[id].node < |s.nodes| { StepStores(c, s, id); }
      case LetGo(i) =>
        if i < |s.nodes| && s.nodes[i].hdr.usecount > |HeldAt(s.stores, i)| { LetGoLogs(c, s, i); }
    }
  }

  lemma CallLogs(c: Config, s: State, ch: Choice)
    requires s.stop.Running? && (ch.AskData? || ch.AskResp? || ch.WriteRemotely? || ch.StartPublish?)
    ensures Step(c, s, ch).h.log == s.h.log && Step(c, s, ch).stores == s.stores
  {
    match ch
    case AskData(i) => if i < |s.nodes| { ActStores(s, i, RequestData(EnvOf(c, i, 0), s.nodes[i])); }
    case AskResp(i) =>
      if i < |s.nodes| { ActStores(Asking(s, i), i, RequestResp(EnvOf(c, i, 0), s.nodes[i], |s.h.asked|)); }
    case WriteRemotely(i, th, tx, w) =>
      if i < |s.nodes| { ActStores(s, i, RemoteWrite(EnvOf(c, i, th), s.nodes[i], tx, w)); }
    case StartPublish(i, th, tx, count) =>
      if i < |s.nodes| {
        CalmPublish(EnvOf(c, i, th), s.nodes[i], tx, count);
        ActStores(s, i, Publish(EnvOf(c, i, th), s.nodes[i], tx, count));
      }
  }

  lemma DeliverLogs(c: Config, s: State, k: nat, th: nat)
    requires NodesOk(c, s) && CanDeliver(c, s, k, th)
    ensures Step(c, s, Deliver(k, th)).h.log == s.h.log + Logged(c, s, Deliver(k, th))
  {
    var m := s.net[k];
    StepDelivers(c, s, k, th);
    assert NodeOk(c, s.nodes[m.to]);
    HandleKeeps(EnvOf(c, m.to, th), s.nodes[m.to], m.from, m.msg);
    ActStores(Without(s, k), m.to, Delivery(c, s, k, th));
  }

  lemma LetGoLogs(c: Config, s: State, i: NodeId)
    requires NodesOk(c, s) && s.stop.Running? && i < |s.nodes| && s.nodes[i].hdr.usecount > |HeldAt(s.stores, i)|
    ensures Step(c, s, LetGo(i)).h.log == s.h.log
  {
    StepLetsGo(c, s, i);
    assert NodeOk(c, s.nodes[i]);
    ReleaseKeeps(c, EnvOf(c, i, 0), s.nodes[i]);
    ActStores(s, i, Release(EnvOf(c, i, 0), s.nodes[i]));
  }

  /** Choice j of the run is the write of this entry of the log: a checked store, or a remote write of that node. */
  ghost predicate Wrote(c: Config, run: seq<Choice>, j: int, a: Applied) {
    0 <= j < |run| &&
    match a
    case Local(w) => run[j].Check? && run[j].w == w && IsResp(After(c, run[..j]), run[j].i)
    case Remote(orig, _, w) => run[j].WriteRemotely? && run[j].i == orig && run[j].w == w
  }

  lemma WroteLonger(c: Config, run: seq<Choice>, j: int, a: Applied)
    requires run != [] && Wrote(c, run[..|run| - 1], j, a)
    ensures Wrote(c, run, j, a)
  {
    assert run[..|run| - 1][..j] == run[..j];
  }

  lemma RemoteWasWritten(c: Config, run: seq<Choice>, k: nat) returns (j: int)
    requires Sane(c) && After(c, run).stop.Running? && k < |After(c, run).h.log| && After(c, run).h.log[k].Remote?
    ensures Wrote(c, run, j, After(c, run).h.log[k])
  {
    Safe(c, run);
    var s := After(c, run);
    var a := s.h.log[k];
    assert Carries(s, a.orig, a.serial, a.w);
    j := SentIsWritten(c, run, a.orig, a.serial);
  }

  lemma {:induction false} LocalWasWritten(c: Config, run: seq<Choice>, k: nat) returns (j: int)
    requires Sane(c) && After(c, run).stop.Running? && k < |After(c, run).h.log| && After(c, run).h.log[k].Local?
    ensures Wrote(c, run, j, After(c, run).h.log[k])
  {
    var before, ch := run[..|run| - 1], run[|run| - 1];
    var s, a := After(c, before), After(c, run).h.log[k];
    Safe(c, before);
    LogStep(c, s, ch);
    if k < |s.h.log| {
      j := LocalWasWritten(c, before, k);
    } else {
      j := StoreWasChecked(c, before, ch.id);
      ChecksAtLonger(c, run, j, s.stores[ch.id]);
      return;
    }
    WroteLonger(c, run, j, a);
  }

  /** The page goes through what was written: each write in the log is one that a task made, a store checked at a RESP
      node, or a remote write from the node that the entry names. */
  lemma LogIsWritten(c: Config, run: seq<Choice>, k: nat) returns (j: int)
    requires Sane(c) && After(c, run).stop.Running? && k < |After(c, run).h.log|
    ensures Wrote(c, run, j, After(c, run).h.log[k])
  {
    if After(c, run).h.log[k].Remote? { j := RemoteWasWritten(c, run, k); } else { j := LocalWasWritten(c, run, k); }
  }

  /** A step appends exactly the store it makes at a RESP node, or the remote write it delivers at one. */
  lemma LogGrowsByWrites(c: Config, run: seq<Choice>, ch: Choice)
    requires Sane(c) && After(c, run).stop.Running?
    ensures Step(c, After(c, run), ch).h.log == After(c, run).h.log + Logged(c, After(c, run), ch)
  {
    Safe(c, run);
    LogStep(c, After(c, run), ch);
  }
}
