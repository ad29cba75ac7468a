/** Responsibility for one page moving between nodes: the handlers of `Protocol` on a whole system, with tasks
    that request the page, request responsibility, write locally and remotely, publish, and let go of the page.
    A local write is two steps, as in `provide`: the check that the node is RESP, and the store; neither runs in
    the delegator, so anything may happen in between.

    Messages in flight form an unordered pool: delivery in any order includes MPI's, so every theorem here holds
    for non-overtaking channels too.  `get_next_resp` follows the header's hint, so requests may be forwarded
    any number of times.  A run is a schedule of choices; a `CFATAL` stops it. */
module Migration {
  import opened Protocol
  import opened Handlers
  import SerialNumbers

  datatype Mail = Mail(from: NodeId, to: NodeId, msg: Msg)

  /** Where the responsibility is: at a node, or in the packet with this number. */
  datatype Token = At(i: NodeId) | Flying(k: nat)

  /** Where a remote write is: in a packet, or at this place of the log. */
  datatype WritePlace = InFlight(k: nat) | AppliedAt(j: nat)

  /** Where a responsibility request is: in a packet, the i-th closure waiting at a node, or answered. */
  datatype ReqPlace = InNet(k: nat) | Waiting(node: NodeId, i: nat) | Answered(j: nat)

  /** History of the system: the token, the writes that went through the page in order, the place of every
      remote write (by sender and serial) and request (by tag), who made each request, transfers sent, and the
      stores that found their node no longer RESP. */
  datatype History = History(
    token: Token, log: seq<Applied>, writes: map<(NodeId, int), WritePlace>,
    reqs: map<nat, ReqPlace>, asked: map<nat, NodeId>, answers: seq<(nat, NodeId)>, lost: seq<Store>)

  datatype Stop = Running | Stopped(why: Fatal)

  /** A task that found its node RESP and has not stored yet; `held` when it is a user of the page that the use
      count counts, and so lets go only after the store. */
  datatype Store = Store(node: NodeId, w: Write, held: bool)

  datatype State = State(
    nodes: seq<Node>, net: map<nat, Mail>, stores: map<nat, Store>, nextId: nat, stop: Stop, h: History)

  function Init(c: Config): State {
    State(seq(c.numNodes, i => FreshNode(c, i == c.owner)), map[], map[], 0, Running,
          History(At(c.owner), [], map[], map[], map[], [], []))
  }

  // ---------------------------------------------------------------- steps

  /** Delivery of a packet, or a task's call.  `th` is the thread that runs it. */
  datatype Choice =
    | Deliver(k: nat, th: nat)
    | AskData(i: NodeId)
    | AskResp(i: NodeId)
    | Check(i: NodeId, w: Write, held: bool)
    | StoreNow(id: nat)
    | WriteRemotely(i: NodeId, th: nat, tx: Tx, w: Write)
    | StartPublish(i: NodeId, th: nat, tx: Tx, count: nat)
    | LetGo(i: NodeId)

  function Note(h: History, k: nat, p: Packet): History {
    match p.msg
    case RWReq(_, tag) => h.(reqs := h.reqs[tag := InNet(k)])
    case RespTransfer(_, _, tag) =>
      h.(reqs := h.reqs[tag := Answered(|h.answers|)], answers := h.answers + [(tag, p.to)], token := Flying(k))
    case RWrite(orig, serial, _) => h.(writes := h.writes[(orig, serial) := InFlight(k)])
    case _ => h
  }

  function Post(s: State, i: NodeId, p: Packet): State {
    s.(net := s.net[s.nextId := Mail(i, p.to, p.msg)], nextId := s.nextId + 1, h := Note(s.h, s.nextId, p))
  }

  function PostAll(s: State, i: NodeId, out: seq<Packet>): State
    decreases |out|
  {
    if out == [] then s else PostAll(Post(s, i, out[0]), i, out[1..])
  }

  /** History of node i going from n to n'. */
  function Settled(h: History, i: NodeId, n: Node, n': Node): History {
    var h1 := if n'.hdr.status == RESP && n.hdr.status != RESP then h.(token := At(i)) else h;
    var h2 := if |n'.ev.zero| > |n.ev.zero|
              then h1.(reqs := h1.reqs[n'.ev.zero[|n.ev.zero|].tag := Waiting(i, |n.ev.zero|)]) else h1;
    if |n'.tr.log| > |n.tr.log| then
      var a := n'.tr.log[|n.tr.log|];
      h2.(log := h2.log + [a],
          writes := if a.Remote? then h2.writes[(a.orig, a.serial) := AppliedAt(|h2.log|)] else h2.writes)
    else h2
  }

  function Settle(s: State, i: NodeId, n': Node): State
    requires i < |s.nodes|
  {
    s.(nodes := s.nodes[i := n'], h := Settled(s.h, i, s.nodes[i], n'))
  }

  function Act(s: State, i: NodeId, o: Outcome): State
    requires i < |s.nodes|
  {
    match o
    case Halt(why) => s.(stop := Stopped(why))
    case Ok(n', out) => PostAll(Settle(s, i, n'), i, out)
  }

  /** The stores that counted users of the page at node i have begun. */
  function HeldAt(stores: map<nat, Store>, i: NodeId): set<nat> {
    set id | id in stores && stores[id].held && stores[id].node == i
  }

  function StoredNode(n: Node, w: Write): Node {
    if n.hdr.status == RESP then LocalWrite(n, w) else n.(content := Apply(n.content, w))
  }

  /** The store with this number is no longer pending; at a node that is not RESP it is lost. */
  function Storing(s: State, id: nat): State
    requires id in s.stores && s.stores[id].node < |s.nodes|
  {
    s.(stores := s.stores - {id},
       h := if s.nodes[s.stores[id].node].hdr.status == RESP then s.h else s.h.(lost := s.h.lost + [s.stores[id]]))
  }

  function Step(c: Config, s: State, ch: Choice): State {
    if s.stop.Stopped? then s
    else
      match ch
      case Deliver(k, th) =>
        if k !in s.net || s.net[k].to >= |s.nodes| || th >= c.threads then s
        else
          var m := s.net[k];
          Act(s.(net := s.net - {k}), m.to, Handle(EnvOf(c, m.to, th), s.nodes[m.to], m.from, m.msg))
      case AskData(i) =>
        if i >= |s.nodes| || s.nodes[i].hdr.status != INVALID then s
        else Act(s, i, RequestData(EnvOf(c, i, 0), s.nodes[i]))
      case AskResp(i) =>
        if i >= |s.nodes| || s.nodes[i].hdr.status == RESP then s
        else
          var tag := |s.h.asked|;
          Act(s.(h := s.h.(asked := s.h.asked[tag := i])), i, RequestResp(EnvOf(c, i, 0), s.nodes[i], tag))
      case Check(i, w, held) =>
        if i >= |s.nodes| || s.nodes[i].hdr.status != RESP then s
        else if held && s.nodes[i].hdr.usecount <= |HeldAt(s.stores, i)| then s
        else s.(stores := s.stores[s.nextId := Store(i, w, held)], nextId := s.nextId + 1)
      case StoreNow(id) =>
        if id !in s.stores || s.stores[id].node >= |s.nodes| then s
        else
          var x := s.stores[id];
          Act(Storing(s, id), x.node, Ok(StoredNode(s.nodes[x.node], x.w), []))
      case WriteRemotely(i, th, tx, w) =>
        if i >= |s.nodes| || th >= c.threads then s
        else Act(s, i, RemoteWrite(EnvOf(c, i, th), s.nodes[i], tx, w))
      case StartPublish(i, th, tx, count) =>
        if i >= |s.nodes| || th >= c.threads then s
        else Act(s, i, Publish(EnvOf(c, i, th), s.nodes[i], tx, count))
      case LetGo(i) =>
        // A user that is about to store does not let go.
        if i >= |s.nodes| || s.nodes[i].hdr.usecount <= |HeldAt(s.stores, i)| then s
        else Act(s, i, Release(EnvOf(c, i, 0), s.nodes[i]))
  }

  function After(c: Config, run: seq<Choice>): State {
    if run == [] then Init(c) else Step(c, After(c, run[..|run| - 1]), run[|run| - 1])
  }

  // ---------------------------------------------------------------- the invariant

  /** Closures wait for usecount zero only at a RESP, reserved, busy node; the transfer comes first. */
  ghost predicate NodeOk(c: Config, n: Node) {
    && 0 <= n.hdr.usecount && |n.ser.write| == c.threads
    && (n.hdr.status != RESP ==> n.hdr.usecount == 0 && n.ev.zero == [] && n.shared == [])
    && (n.hdr.status == RESP ==> (n.hdr.reserved <==> n.ev.zero != []))
    && (n.ev.zero != [] ==> 0 < n.hdr.usecount && n.ev.zero[0].Transfer?)
    && (forall i :: 0 < i < |n.ev.zero| ==> n.ev.zero[i].Retry?)
  }

  ghost predicate NodesOk(c: Config, s: State) {
    |s.nodes| == c.numNodes && forall i :: 0 <= i < |s.nodes| ==> NodeOk(c, s.nodes[i])
  }

  ghost predicate NetOk(s: State) {
    (forall k :: k in s.net ==> k < s.nextId) && (forall k :: k in s.stores ==> k < s.nextId)
  }

  /** The use count covers the stores its users have begun; only other stores are ever lost. */
  ghost predicate StoresOk(s: State) {
    && (forall i: NodeId :: i < |s.nodes| ==> |HeldAt(s.stores, i)| <= s.nodes[i].hdr.usecount)
    && (forall id :: id in s.stores ==> s.stores[id].node < |s.nodes|)
    && (forall j :: 0 <= j < |s.h.lost| ==> !s.h.lost[j].held)
  }

  /** Exactly one node is RESP, or exactly one RespTransfer is in flight; `loose` is the moment in between. */
  ghost predicate TokenOk(s: State, loose: bool) {
    && (forall i :: 0 <= i < |s.nodes| ==> (s.nodes[i].hdr.status == RESP <==> !loose && s.h.token == At(i)))
    && (forall k :: k in s.net ==> (s.net[k].msg.RespTransfer? <==> !loose && s.h.token == Flying(k)))
    && (!loose && s.h.token.At? ==> s.h.token.i < |s.nodes|)
    && (!loose && s.h.token.Flying? ==> s.h.token.k in s.net)
  }

  /** The one authoritative copy: at the RESP node, in the transfer, or (while loose) x. */
  ghost predicate ContentOk(c: Config, s: State, loose: bool, x: Content) {
    var want := Replay(c.content, s.h.log);
    if loose then x == want
    else match s.h.token
         case At(i) => i < |s.nodes| && s.nodes[i].content == want
         case Flying(k) => k in s.net && s.net[k].msg.RespTransfer? && s.net[k].msg.content == want
  }

  ghost predicate Issued(c: Config, s: State, w: (NodeId, int)) {
    w.0 < |s.nodes| && SerialNumbers.UsedWrite(s.nodes[w.0].ser.write, c.threads, w.1)
  }

  /** Node `orig` sent this write under this serial. */
  ghost predicate Carries(s: State, orig: NodeId, serial: int, w: Write) {
    orig < |s.nodes| && serial in s.nodes[orig].tr.sent && s.nodes[orig].tr.sent[serial].w == w
  }

  ghost predicate Genuine(c: Config, s: State, orig: NodeId, serial: int, w: Write) {
    Issued(c, s, (orig, serial)) && Carries(s, orig, serial, w)
  }

  ghost predicate SourcesOk(c: Config, s: State) {
    forall i :: 0 <= i < |s.nodes| ==> SerialNumbers.SourcesOk(s.nodes[i].ser.write, c.threads)
  }

  /** Every remote write outside `limbo` is in exactly one packet or at exactly one place of the log. */
  ghost predicate WritesOk(c: Config, s: State, limbo: set<(NodeId, int)>) {
    && (forall k :: k in s.net && s.net[k].msg.RWrite? ==>
          var w := (s.net[k].msg.orig, s.net[k].msg.serial);
          && w in s.h.writes && s.h.writes[w] == InFlight(k) && w !in limbo
          && Carries(s, s.net[k].msg.orig, s.net[k].msg.serial, s.net[k].msg.w))
    && (forall j :: 0 <= j < |s.h.log| && s.h.log[j].Remote? ==>
          var w := (s.h.log[j].orig, s.h.log[j].serial);
          && w in s.h.writes && s.h.writes[w] == AppliedAt(j) && w !in limbo
          && Carries(s, s.h.log[j].orig, s.h.log[j].serial, s.h.log[j].w))
    && (forall w {:trigger WriteHere(s, w)} :: w in s.h.writes && w !in limbo ==> WriteHere(s, w))
    && (forall w {:trigger Issued(c, s, w)} :: w in s.h.writes ==> Issued(c, s, w))
  }

  ghost predicate WriteThere(s: State, w: (NodeId, int), p: WritePlace) {
    match p
    case InFlight(k) => k in s.net && s.net[k].msg.RWrite? && w == (s.net[k].msg.orig, s.net[k].msg.serial)
    case AppliedAt(j) => j < |s.h.log| && s.h.log[j].Remote? && w == (s.h.log[j].orig, s.h.log[j].serial)
  }

  ghost predicate WriteHere(s: State, w: (NodeId, int)) {
    w in s.h.writes && WriteThere(s, w, s.h.writes[w])
  }

  /** Every request outside `limbo` is in exactly one packet, one waiting closure, or answered by exactly one
      transfer to the node that made it. */
  ghost predicate ReqsOk(s: State, limbo: set<nat>) {
    && (forall k :: k in s.net && s.net[k].msg.RWReq? ==>
          var t := s.net[k].msg.tag;
          && t in s.h.reqs && s.h.reqs[t] == InNet(k) && t !in limbo
          && t in s.h.asked && s.h.asked[t] == s.net[k].msg.orig)
    && (forall i, j :: 0 <= i < |s.nodes| && 0 <= j < |s.nodes[i].ev.zero| ==>
          var t := s.nodes[i].ev.zero[j].tag;
          t in s.h.reqs && s.h.reqs[t] == Waiting(i, j) && t !in limbo
          && t in s.h.asked && s.h.asked[t] == Origin(s.nodes[i].ev.zero[j]))
    && (forall j :: 0 <= j < |s.h.answers| ==>
          var t := s.h.answers[j].0;
          && t in s.h.reqs && s.h.reqs[t] == Answered(j) && t !in limbo
          && t in s.h.asked && s.h.asked[t] == s.h.answers[j].1)
    && (forall t :: t in s.h.asked <==> 0 <= t < |s.h.asked|)
    && (forall t {:trigger ReqHere(s, t)} :: t in s.h.asked && t !in limbo ==> ReqHere(s, t))
    && (forall t :: t in s.h.reqs ==> t in s.h.asked)
  }

  function Origin(w: Waiter): NodeId { if w.Transfer? then w.target else w.orig }

  ghost predicate ReqThere(s: State, t: nat, p: ReqPlace) {
    match p
    case InNet(k) => k in s.net && s.net[k].msg.RWReq? && s.net[k].msg.tag == t
    case Waiting(i, j) => i < |s.nodes| && j < |s.nodes[i].ev.zero| && s.nodes[i].ev.zero[j].tag == t
    case Answered(j) => j < |s.h.answers| && s.h.answers[j].0 == t
  }

  ghost predicate ReqHere(s: State, t: nat) {
    t in s.h.reqs && ReqThere(s, t, s.h.reqs[t])
  }

  /** The invariant with some of its parts in limbo: the responsibility (then x is the authoritative content),
      some requests, some writes. */
  ghost predicate Good(c: Config, s: State, loose: bool, x: Content, reqs: set<nat>, writes: set<(NodeId, int)>) {
    && s.stop.Running? && NodesOk(c, s) && NetOk(s) && TokenOk(s, loose) && ContentOk(c, s, loose, x)
    && WritesOk(c, s, writes) && SourcesOk(c, s) && ReqsOk(s, reqs) && StoresOk(s)
  }

  ghost predicate Inv(c: Config, s: State) {
    s.stop.Running? ==> Good(c, s, false, map[], {}, {})
  }

  /** A step kept the invariant, and none of the checks on transfers stopped it. */
  ghost predicate Fine(c: Config, s: State) {
    Inv(c, s) && (s.stop.Stopped? ==> !TransferCheck(s.stop.why))
  }

  ghost function WriteLimbo(m: Msg): set<(NodeId, int)> { if m.RWrite? then {(m.orig, m.serial)} else {} }

  ghost function ReqLimbo(m: Msg): set<nat> { if m.RWReq? then {m.tag} else {} }

  // ---------------------------------------------------------------- taking a packet out of the pool

  function Without(s: State, k: nat): State { s.(net := s.net - {k}) }

  lemma TokenTake(s: State, k: nat)
    requires TokenOk(s, false) && k in s.net
    ensures TokenOk(Without(s, k), s.net[k].msg.RespTransfer?)
  {
  }

  lemma WritesTake(c: Config, s: State, k: nat)
    requires WritesOk(c, s, {}) && k in s.net
    ensures WritesOk(c, Without(s, k), WriteLimbo(s.net[k].msg))
    ensures s.net[k].msg.RWrite? ==> Genuine(c, s, s.net[k].msg.orig, s.net[k].msg.serial, s.net[k].msg.w)
  {
    var s' := Without(s, k);
    forall w | w in s.h.writes && w !in WriteLimbo(s.net[k].msg) ensures WriteHere(s', w) {
      assert WriteHere(s, w);
    }
    forall w | w in s'.h.writes ensures Issued(c, s', w) { assert Issued(c, s, w); }
    if s.net[k].msg.RWrite? { assert (s.net[k].msg.orig, s.net[k].msg.serial) in s.h.writes; }
  }

  lemma ReqsTake(s: State, k: nat)
    requires ReqsOk(s, {}) && k in s.net
    ensures ReqsOk(Without(s, k), ReqLimbo(s.net[k].msg))
    ensures s.net[k].msg.RWReq? ==> s.net[k].msg.tag in s.h.asked && s.h.asked[s.net[k].msg.tag] == s.net[k].msg.orig
  {
    var s' := Without(s, k);
    forall t | t in s.h.asked && t !in ReqLimbo(s.net[k].msg) ensures ReqHere(s', t) {
      assert ReqHere(s, t);
    }
  }

  lemma TakePacket(c: Config, s: State, k: nat)
    requires Good(c, s, false, map[], {}, {}) && k in s.net
    ensures var m := s.net[k].msg;
      && Good(c, Without(s, k), m.RespTransfer?,
              if m.RespTransfer? then m.content else map[], ReqLimbo(m), WriteLimbo(m))
      && (m.RWReq? ==> m.tag in s.h.asked && s.h.asked[m.tag] == m.orig)
      && (m.RWrite? ==> Genuine(c, s, m.orig, m.serial, m.w))
  {
    TokenTake(s, k);
    WritesTake(c, s, k);
    ReqsTake(s, k);
  }

  // ---------------------------------------------------------------- posting packets

  lemma TokenPost(s: State, i: NodeId, p: Packet, loose: bool)
    requires TokenOk(s, loose) && NetOk(s) && (p.msg.RespTransfer? ==> loose)
    ensures TokenOk(Post(s, i, p), loose && !p.msg.RespTransfer?)
  {
  }

  lemma WritesPost(c: Config, s: State, i: NodeId, p: Packet, limbo: set<(NodeId, int)>)
    requires WritesOk(c, s, limbo) && NetOk(s)
    requires p.msg.RWrite? ==>
      && ((p.msg.orig, p.msg.serial) in s.h.writes ==> (p.msg.orig, p.msg.serial) in limbo)
      && Genuine(c, s, p.msg.orig, p.msg.serial, p.msg.w)
    ensures WritesOk(c, Post(s, i, p), limbo - WriteLimbo(p.msg))
  {
    if p.msg.RWrite? { WritesPostWrite(c, s, i, p, limbo); } else { WritesPostOther(c, s, i, p, limbo); }
  }

  lemma NoteOther(h: History, k: nat, p: Packet)
    requires !p.msg.RWrite?
    ensures Note(h, k, p).writes == h.writes && Note(h, k, p).log == h.log
  {
  }

  lemma WritesPostOther(c: Config, s: State, i: NodeId, p: Packet, limbo: set<(NodeId, int)>)
    requires WritesOk(c, s, limbo) && NetOk(s) && !p.msg.RWrite?
    ensures WritesOk(c, Post(s, i, p), limbo)
  {
    NoteOther(s.h, s.nextId, p);
    WritesMore(c, s, Post(s, i, p), limbo);
  }

  lemma WritesMore(c: Config, s: State, s': State, limbo: set<(NodeId, int)>)
    requires WritesOk(c, s, limbo) && s'.nodes == s.nodes && s'.h.writes == s.h.writes && s'.h.log == s.h.log
    requires s.nextId !in s.net && s.nextId in s'.net && !s'.net[s.nextId].msg.RWrite?
    requires s'.net == s.net[s.nextId := s'.net[s.nextId]]
    ensures WritesOk(c, s', limbo)
  {
    forall w | w in s'.h.writes && w !in limbo ensures WriteHere(s', w) {
      assert WriteHere(s, w);
    }
    forall w | w in s'.h.writes ensures Issued(c, s', w) { assert Issued(c, s, w); }
  }

  lemma WritesPostWrite(c: Config, s: State, i: NodeId, p: Packet, limbo: set<(NodeId, int)>)
    requires WritesOk(c, s, limbo) && NetOk(s) && p.msg.RWrite?
    requires (p.msg.orig, p.msg.serial) in s.h.writes ==> (p.msg.orig, p.msg.serial) in limbo
    requires Genuine(c, s, p.msg.orig, p.msg.serial, p.msg.w)
    ensures WritesOk(c, Post(s, i, p), limbo - WriteLimbo(p.msg))
  {
    var s' := Post(s, i, p);
    var v := (p.msg.orig, p.msg.serial);
    forall w | w in s'.h.writes && w !in limbo - {v} ensures WriteHere(s', w) {
      if w != v { assert WriteHere(s, w); }
    }
    forall w | w in s'.h.writes ensures Issued(c, s', w) {
      if w != v { assert Issued(c, s, w); }
    }
  }

  ghost function ReqOf(m: Msg): set<nat> { if m.RWReq? || m.RespTransfer? then {m.tag} else {} }

  lemma ReqsPost(s: State, i: NodeId, p: Packet, limbo: set<nat>)
    requires ReqsOk(s, limbo) && NetOk(s) && ReqOf(p.msg) <= limbo
    requires p.msg.RWReq? ==> p.msg.tag in s.h.asked && s.h.asked[p.msg.tag] == p.msg.orig
    requires p.msg.RespTransfer? ==> p.msg.tag in s.h.asked && s.h.asked[p.msg.tag] == p.to
    ensures ReqsOk(Post(s, i, p), limbo - ReqOf(p.msg))
  {
    if p.msg.RWReq? { ReqsPostRequest(s, i, p, limbo); }
    else if p.msg.RespTransfer? { ReqsPostAnswer(s, i, p, limbo); }
    else { ReqsPostOther(s, i, p, limbo); }
  }

  lemma ReqsPostRequest(s: State, i: NodeId, p: Packet, limbo: set<nat>)
    requires ReqsOk(s, limbo) && NetOk(s) && p.msg.RWReq? && p.msg.tag in limbo
    requires p.msg.tag in s.h.asked && s.h.asked[p.msg.tag] == p.msg.orig
    ensures ReqsOk(Post(s, i, p), limbo - {p.msg.tag})
  {
    var s' := Post(s, i, p);
    forall t | t in s'.h.asked && t !in limbo - {p.msg.tag} ensures ReqHere(s', t) {
      if t != p.msg.tag { assert ReqHere(s, t); }
    }
  }

  lemma ReqsPostAnswer(s: State, i: NodeId, p: Packet, limbo: set<nat>)
    requires ReqsOk(s, limbo) && NetOk(s) && p.msg.RespTransfer? && p.msg.tag in limbo
    requires p.msg.tag in s.h.asked && s.h.asked[p.msg.tag] == p.to
    ensures ReqsOk(Post(s, i, p), limbo - {p.msg.tag})
  {
    var s' := Post(s, i, p);
    forall t | t in s'.h.asked && t !in limbo - {p.msg.tag} ensures ReqHere(s', t) {
      if t != p.msg.tag { assert ReqHere(s, t); }
    }
  }

  lemma ReqsPostOther(s: State, i: NodeId, p: Packet, limbo: set<nat>)
    requires ReqsOk(s, limbo) && NetOk(s) && !p.msg.RWReq? && !p.msg.RespTransfer?
    ensures ReqsOk(Post(s, i, p), limbo)
  {
    var s' := Post(s, i, p);
    assert s'.h.reqs == s.h.reqs && s'.h.asked == s.h.asked && s'.h.answers == s.h.answers;
    forall t | t in s'.h.asked && t !in limbo ensures ReqHere(s', t) {
      assert ReqHere(s, t);
    }
  }

  lemma ContentPost(c: Config, s: State, i: NodeId, p: Packet, loose: bool, x: Content)
    requires ContentOk(c, s, loose, x) && NetOk(s) && (p.msg.RespTransfer? ==> loose && p.msg.content == x)
    ensures ContentOk(c, Post(s, i, p), loose && !p.msg.RespTransfer?, x)
  {
  }

  /** Posting a packet changes no node. */
  lemma NodesPost(c: Config, s: State, i: NodeId, p: Packet)
    requires NodesOk(c, s) && NetOk(s) && SourcesOk(c, s) && StoresOk(s)
    ensures var s' := Post(s, i, p);
      && NodesOk(c, s') && NetOk(s') && SourcesOk(c, s') && StoresOk(s')
      && s'.h.asked == s.h.asked && s'.nodes == s.nodes && s'.stop == s.stop
  {
  }

  lemma PostPacket(c: Config, s: State, i: NodeId, p: Packet, loose: bool, x: Content, reqs: set<nat>,
                   writes: set<(NodeId, int)>)
    requires Good(c, s, loose, x, reqs, writes)
    requires p.msg.RespTransfer? ==> loose && p.msg.content == x
    requires p.msg.RWrite? ==>
      && ((p.msg.orig, p.msg.serial) in s.h.writes ==> (p.msg.orig, p.msg.serial) in writes)
      && Genuine(c, s, p.msg.orig, p.msg.serial, p.msg.w)
    requires ReqOf(p.msg) <= reqs
    requires p.msg.RWReq? ==> p.msg.tag in s.h.asked && s.h.asked[p.msg.tag] == p.msg.orig
    requires p.msg.RespTransfer? ==> p.msg.tag in s.h.asked && s.h.asked[p.msg.tag] == p.to
    ensures Good(c, Post(s, i, p), loose && !p.msg.RespTransfer?, x, reqs - ReqOf(p.msg), writes - WriteLimbo(p.msg))
    ensures Post(s, i, p).h.asked == s.h.asked && Post(s, i, p).nodes == s.nodes
  {
    NodesPost(c, s, i, p);
    TokenPost(s, i, p, loose);
    WritesPost(c, s, i, p, writes);
    ReqsPost(s, i, p, reqs);
    ContentPost(c, s, i, p, loose, x);
  }

  lemma {:induction false} PostAllCalm(c: Config, s: State, i: NodeId, out: seq<Packet>)
    requires Good(c, s, false, map[], {}, {}) && CalmOut(out)
    ensures Good(c, PostAll(s, i, out), false, map[], {}, {})
    decreases |out|
  {
    if out != [] {
      assert Calm(out[0].msg);
      PostPacket(c, s, i, out[0], false, map[], {}, {});
      PostAllCalm(c, Post(s, i, out[0]), i, out[1..]);
    }
  }

  // ---------------------------------------------------------------- changing a node

  ghost predicate NodeChanges(s: State, s': State, i: NodeId) {
    && i < |s.nodes| && |s'.nodes| == |s.nodes| && s'.nodes == s.nodes[i := s'.nodes[i]]
    && s'.net == s.net && s'.stores == s.stores && s'.nextId == s.nextId && s'.stop == s.stop
  }

  lemma StoresSettle(s: State, s': State, i: NodeId)
    requires StoresOk(s) && NodeChanges(s, s', i) && s'.h.lost == s.h.lost
    requires |HeldAt(s.stores, i)| <= s'.nodes[i].hdr.usecount
    ensures StoresOk(s')
  {
    forall j: NodeId | j < |s'.nodes| ensures |HeldAt(s'.stores, j)| <= s'.nodes[j].hdr.usecount {
      assert j != i ==> s'.nodes[j] == s.nodes[j];
    }
  }

  /** The serial generator of a thread only moves forward, so every serial used stays used. */
  lemma WritesSettle(c: Config, s: State, s': State, i: NodeId, limbo: set<(NodeId, int)>)
    requires WritesOk(c, s, limbo) && NodeChanges(s, s', i)
    requires s'.nodes[i].ser.write == s.nodes[i].ser.write && s'.h.writes == s.h.writes && s'.h.log == s.h.log
    requires s'.nodes[i].tr.sent == s.nodes[i].tr.sent
    ensures WritesOk(c, s', limbo)
  {
    forall w | w in s'.h.writes ensures Issued(c, s', w) { assert Issued(c, s, w); }
    forall w | w in s'.h.writes && w !in limbo ensures WriteHere(s', w) {
      assert WriteHere(s, w);
    }
  }

  lemma SourcesSettle(c: Config, s: State, s': State, i: NodeId)
    requires SourcesOk(c, s) && NodeChanges(s, s', i) && s'.nodes[i].ser.write == s.nodes[i].ser.write
    ensures SourcesOk(c, s')
  {
  }

  lemma ReqsSettle(s: State, s': State, i: NodeId, limbo: set<nat>)
    requires ReqsOk(s, limbo) && NodeChanges(s, s', i)
    requires s'.nodes[i].ev.zero == s.nodes[i].ev.zero
    requires s'.h.reqs == s.h.reqs && s'.h.asked == s.h.asked && s'.h.answers == s.h.answers
    ensures ReqsOk(s', limbo)
  {
    forall j, k | 0 <= j < |s'.nodes| && 0 <= k < |s'.nodes[j].ev.zero|
      ensures s'.nodes[j].ev.zero[k] == s.nodes[j].ev.zero[k]
    {
    }
    forall t | t in s'.h.asked && t !in limbo ensures ReqHere(s', t) {
      assert ReqHere(s, t);
    }
  }

  lemma TokenSettle(s: State, s': State, i: NodeId, loose: bool)
    requires TokenOk(s, loose) && NodeChanges(s, s', i) && s'.h.token == s.h.token
    requires s'.nodes[i].hdr.status == RESP <==> s.nodes[i].hdr.status == RESP
    ensures TokenOk(s', loose)
  {
  }

  /** Any handler that leaves the core alone. */
  lemma SettleCalm(c: Config, s: State, i: NodeId, n': Node)
    requires Good(c, s, false, map[], {}, {}) && i < |s.nodes| && SameCore(s.nodes[i], n')
    ensures Good(c, Settle(s, i, n'), false, map[], {}, {})
  {
    var s' := Settle(s, i, n');
    WritesSettle(c, s, s', i, {});
    SourcesSettle(c, s, s', i);
    ReqsSettle(s, s', i, {});
    TokenSettle(s, s', i, false);
    StoresSettle(s, s', i);
  }

  lemma SettleUse(c: Config, s: State, i: NodeId, n': Node)
    requires Good(c, s, false, map[], {}, {}) && i < |s.nodes| && s.nodes[i].hdr.usecount > 1
    requires s.nodes[i].hdr.usecount > |HeldAt(s.stores, i)|
    requires n' == s.nodes[i].(hdr := s.nodes[i].hdr.(usecount := s.nodes[i].hdr.usecount - 1))
    ensures Good(c, Settle(s, i, n'), false, map[], {}, {})
  {
    var s' := Settle(s, i, n');
    WritesSettle(c, s, s', i, {});
    SourcesSettle(c, s, s', i);
    ReqsSettle(s, s', i, {});
    TokenSettle(s, s', i, false);
    StoresSettle(s, s', i);
  }

  lemma SendersStay(c: Config, s: State, s': State, i: NodeId)
    requires NodeChanges(s, s', i) && s'.nodes[i].ser.write == s.nodes[i].ser.write
      && s'.nodes[i].tr.sent == s.nodes[i].tr.sent
    ensures forall w :: Issued(c, s', w) <==> Issued(c, s, w)
    ensures forall o, x, u :: Carries(s', o, x, u) <==> Carries(s, o, x, u)
  {
  }

  lemma WritesApply(c: Config, s: State, s': State, i: NodeId, a: Applied, limbo: set<(NodeId, int)>)
    requires WritesOk(c, s, limbo) && NodeChanges(s, s', i) && s'.nodes[i].ser.write == s.nodes[i].ser.write
    requires s'.h.log == s.h.log + [a]
    requires a.Local? ==> limbo == {} && s'.h.writes == s.h.writes
    requires s'.nodes[i].tr.sent == s.nodes[i].tr.sent
    requires a.Remote? ==> limbo == {(a.orig, a.serial)} && Genuine(c, s, a.orig, a.serial, a.w)
    requires a.Remote? ==> s'.h.writes == s.h.writes[(a.orig, a.serial) := AppliedAt(|s.h.log|)]
    ensures WritesOk(c, s', {})
  {
    SendersStay(c, s, s', i);
    forall w | w in s'.h.writes ensures WriteHere(s', w) {
      if w !in limbo { assert WriteHere(s, w); }
    }
  }

  lemma ContentApply(c: Config, s: State, i: NodeId, n': Node, a: Applied)
    requires ContentOk(c, s, false, map[]) && TokenOk(s, false) && i < |s.nodes| && s.nodes[i].hdr.status == RESP
    requires n' ==
      s.nodes[i].(content := Apply(s.nodes[i].content, a.w), tr := s.nodes[i].tr.(log := s.nodes[i].tr.log + [a]))
    ensures ContentOk(c, Settle(s, i, n'), false, map[]) && Settle(s, i, n').h.log == s.h.log + [a]
  {
    ReplayGrows(c.content, s.h.log, a);
  }

  /** A write enters the authoritative content and the log together. */
  lemma SettleApply(c: Config, s: State, i: NodeId, n': Node, a: Applied, writes: set<(NodeId, int)>)
    requires Good(c, s, false, map[], {}, writes) && i < |s.nodes| && s.nodes[i].hdr.status == RESP
    requires n' ==
      s.nodes[i].(content := Apply(s.nodes[i].content, a.w), tr := s.nodes[i].tr.(log := s.nodes[i].tr.log + [a]))
    requires if a.Local? then writes == {} else writes == {(a.orig, a.serial)} && Genuine(c, s, a.orig, a.serial, a.w)
    ensures Good(c, Settle(s, i, n'), false, map[], {}, {})
  {
    var s' := Settle(s, i, n');
    ContentApply(c, s, i, n', a);
    assert NodeOk(c, s.nodes[i]);
    NodesSettle(c, s, s', i);
    WritesApply(c, s, s', i, a, writes);
    SourcesSettle(c, s, s', i);
    ReqsSettle(s, s', i, {});
    TokenSettle(s, s', i, false);
    StoresSettle(s, s', i);
  }

  lemma ReqsWait(s: State, s': State, i: NodeId, w: Waiter)
    requires ReqsOk(s, {w.tag}) && NodeChanges(s, s', i) && w.tag in s.h.asked && s.h.asked[w.tag] == Origin(w)
    requires s'.nodes[i].ev.zero == s.nodes[i].ev.zero + [w]
    requires s'.h.reqs == s.h.reqs[w.tag := Waiting(i, |s.nodes[i].ev.zero|)]
    requires s'.h.asked == s.h.asked && s'.h.answers == s.h.answers
    ensures ReqsOk(s', {})
  {
    forall t | t in s'.h.asked ensures ReqHere(s', t) {
      if t != w.tag { assert ReqHere(s, t); }
    }
  }

  lemma NodesSettle(c: Config, s: State, s': State, i: NodeId)
    requires NodesOk(c, s) && NodeChanges(s, s', i) && NodeOk(c, s'.nodes[i])
    ensures NodesOk(c, s')
  {
  }

  lemma WaitNodeOk(c: Config, n: Node, w: Waiter)
    requires NodeOk(c, n) && n.hdr.status == RESP && n.hdr.usecount > 0 && (w.Transfer? <==> !n.hdr.reserved)
    ensures NodeOk(c, n.(ev := n.ev.(zero := n.ev.zero + [w]), hdr := n.hdr.(reserved := true)))
  {
  }

  lemma SettleWait(c: Config, s: State, i: NodeId, n': Node, w: Waiter)
    requires i < |s.nodes| && Good(c, s, false, map[], {w.tag}, {}) && w.tag in s.h.asked
      && s.h.asked[w.tag] == Origin(w)
    requires var n := s.nodes[i];
      && n.hdr.status == RESP && n.hdr.usecount > 0
      && n' == n.(ev := n.ev.(zero := n.ev.zero + [w]), hdr := n.hdr.(reserved := true))
      && (w.Transfer? <==> !n.hdr.reserved)
    ensures Good(c, Settle(s, i, n'), false, map[], {}, {})
  {
    var s' := Settle(s, i, n');
    WaitNodeOk(c, s.nodes[i], w);
    NodesSettle(c, s, s', i);
    ReqsWait(s, s', i, w);
    WritesSettle(c, s, s', i, {});
    SourcesSettle(c, s, s', i);
    TokenSettle(s, s', i, false);
    StoresSettle(s, s', i);
  }

  ghost function Tags(ws: seq<Waiter>): set<nat> { set j | 0 <= j < |ws| :: ws[j].tag }

  lemma ReqsGive(s: State, s': State, i: NodeId, reqs: set<nat>)
    requires ReqsOk(s, reqs) && NodeChanges(s, s', i) && s'.nodes[i].ev.zero == []
    requires s'.h.reqs == s.h.reqs && s'.h.asked == s.h.asked && s'.h.answers == s.h.answers
    ensures ReqsOk(s', reqs + Tags(s.nodes[i].ev.zero))
  {
    var tags := Tags(s.nodes[i].ev.zero);
    forall t | t in tags ensures t in s.h.reqs && s.h.reqs[t].Waiting? && s.h.reqs[t].node == i {
      var j :| 0 <= j < |s.nodes[i].ev.zero| && s.nodes[i].ev.zero[j].tag == t;
    }
    forall t | t in s'.h.asked && t !in reqs + tags ensures ReqHere(s', t) {
      assert ReqHere(s, t);
    }
  }

  /** A node gives the responsibility up, with its waiters in limbo. */
  lemma SettleGive(c: Config, s: State, i: NodeId, n': Node, reqs: set<nat>)
    requires i < |s.nodes| && Good(c, s, false, map[], reqs, {})
    requires var n := s.nodes[i];
      && n.hdr.status == RESP && n'.hdr.status == VALID && n'.hdr.usecount == 0 && n'.ev.zero == [] && n'.shared == []
      && n'.ser.write == n.ser.write && n'.tr == n.tr && HeldAt(s.stores, i) == {}
    ensures Good(c, Settle(s, i, n'), true, s.nodes[i].content, reqs + Tags(s.nodes[i].ev.zero), {})
  {
    var s' := Settle(s, i, n');
    ReqsGive(s, s', i, reqs);
    WritesSettle(c, s, s', i, {});
    SourcesSettle(c, s, s', i);
    TokenGive(s, s', i);
    StoresSettle(s, s', i);
  }

  lemma TokenGive(s: State, s': State, i: NodeId)
    requires TokenOk(s, false) && NodeChanges(s, s', i) && s'.h.token == s.h.token
    requires s.nodes[i].hdr.status == RESP && s'.nodes[i].hdr.status != RESP
    ensures TokenOk(s', true) && s.h.token == At(i)
  {
  }

  lemma SettleReceive(c: Config, s: State, i: NodeId, n': Node, x: Content)
    requires i < |s.nodes| && Good(c, s, true, x, {}, {})
    requires var n := s.nodes[i];
      && n'.hdr.status == RESP && n'.content == x && n'.hdr.usecount >= 0 && !n'.hdr.reserved && n'.ev.zero == n.ev.zero
      && n'.ser.write == n.ser.write && n'.tr == n.tr
    ensures Good(c, Settle(s, i, n'), false, map[], {}, {})
  {
    assert s.nodes[i].hdr.status != RESP && NodeOk(c, s.nodes[i]);
    var s' := Settle(s, i, n');
    WritesSettle(c, s, s', i, {});
    SourcesSettle(c, s, s', i);
    ReqsSettle(s, s', i, {});
    TokenReceive(s, s', i);
    StoresSettle(s, s', i);
  }

  lemma TokenReceive(s: State, s': State, i: NodeId)
    requires TokenOk(s, true) && NodeChanges(s, s', i) && s'.h.token == At(i) && s'.nodes[i].hdr.status == RESP
    ensures TokenOk(s', false)
  {
  }

  /** Nothing changes at the node. */
  lemma SettleSame(s: State, i: NodeId)
    requires i < |s.nodes|
    ensures Settle(s, i, s.nodes[i]) == s
  {
  }

  // ---------------------------------------------------------------- steps

  lemma ActNone(s: State, i: NodeId, n': Node)
    requires i < |s.nodes|
    ensures Act(s, i, Ok(n', [])) == Settle(s, i, n')
  {
  }

  lemma ActOne(s: State, i: NodeId, n': Node, p: Packet)
    requires i < |s.nodes|
    ensures Act(s, i, Ok(n', [p])) == Post(Settle(s, i, n'), i, p)
  {
    var s1 := Settle(s, i, n');
    assert PostAll(s1, i, [p]) == PostAll(Post(s1, i, p), i, [p][1..]);
  }

  lemma ActCalm(c: Config, s: State, i: NodeId, o: Outcome)
    requires Good(c, s, false, map[], {}, {}) && i < |s.nodes| && CalmOutcome(s.nodes[i], o)
    ensures Fine(c, Act(s, i, o))
  {
    if o.Ok? {
      SettleCalm(c, s, i, o.node);
      PostAllCalm(c, Settle(s, i, o.node), i, o.out);
    }
  }

  /** A node that is not RESP passes the message on; the request or write it carries stays in one packet. */
  lemma ActForward(c: Config, s: State, i: NodeId, e: Env, orig: NodeId, m: Msg)
    requires i < |s.nodes| && (m.RWrite? || m.RWReq?) && Good(c, s, false, map[], ReqOf(m), WriteLimbo(m))
    requires m.RWrite? ==> Genuine(c, s, m.orig, m.serial, m.w)
    requires m.RWReq? ==> m.tag in s.h.asked && s.h.asked[m.tag] == m.orig
    ensures Fine(c, Act(s, i, Forward(e, s.nodes[i], orig, m)))
  {
    if Forward(e, s.nodes[i], orig, m).Ok? { ActPass(c, s, i, Packet(NextResp(e, s.nodes[i]), m)); }
  }

  lemma ActPass(c: Config, s: State, i: NodeId, p: Packet)
    requires i < |s.nodes|
    requires var m := p.msg; (m.RWrite? || m.RWReq?) && Good(c, s, false, map[], ReqOf(m), WriteLimbo(m))
    requires p.msg.RWrite? ==> Genuine(c, s, p.msg.orig, p.msg.serial, p.msg.w)
    requires p.msg.RWReq? ==> p.msg.tag in s.h.asked && s.h.asked[p.msg.tag] == p.msg.orig
    ensures Good(c, Act(s, i, Ok(s.nodes[i], [p])), false, map[], {}, {})
  {
    SettleSame(s, i);
    ActOne(s, i, s.nodes[i], p);
    PostForward(c, s, i, p);
  }

  lemma PostForward(c: Config, s: State, i: NodeId, p: Packet)
    requires var m := p.msg; (m.RWrite? || m.RWReq?) && Good(c, s, false, map[], ReqOf(m), WriteLimbo(m))
    requires p.msg.RWrite? ==> Genuine(c, s, p.msg.orig, p.msg.serial, p.msg.w)
    requires p.msg.RWReq? ==> p.msg.tag in s.h.asked && s.h.asked[p.msg.tag] == p.msg.orig
    ensures Good(c, Post(s, i, p), false, map[], {}, {})
  {
    PostPacket(c, s, i, p, false, map[], ReqOf(p.msg), WriteLimbo(p.msg));
    assert ReqOf(p.msg) - ReqOf(p.msg) == {} && WriteLimbo(p.msg) - WriteLimbo(p.msg) == {};
  }

  lemma ActWrite(c: Config, s: State, i: NodeId, e: Env, orig: NodeId, serial: int, w: Write)
    requires i < |s.nodes| && Good(c, s, false, map[], {}, {(orig, serial)}) && Genuine(c, s, orig, serial, w)
    ensures Fine(c, Act(s, i, OnRWrite(e, s.nodes[i], orig, serial, w)))
  {
    var n := s.nodes[i];
    if n.hdr.status == RESP {
      var a := Remote(orig, serial, w);
      var n' := n.(content := Apply(n.content, w), tr := n.tr.(log := n.tr.log + [a]));
      ActOne(s, i, n', Packet(orig, RWriteAck(serial)));
      SettleApply(c, s, i, n', a, {(orig, serial)});
      PostOneCalm(c, Settle(s, i, n'), i, Packet(orig, RWriteAck(serial)));
    } else {
      ActForward(c, s, i, e, orig, RWrite(orig, serial, w));
    }
  }

  lemma PostOneCalm(c: Config, s: State, i: NodeId, p: Packet)
    requires Good(c, s, false, map[], {}, {}) && Calm(p.msg)
    ensures Good(c, Post(s, i, p), false, map[], {}, {})
  {
    PostPacket(c, s, i, p, false, map[], {}, {});
  }

  lemma ActRequest(c: Config, s: State, i: NodeId, e: Env, orig: NodeId, t: nat)
    requires i < |s.nodes| && Good(c, s, false, map[], {t}, {}) && t in s.h.asked && s.h.asked[t] == orig
    ensures Fine(c, Act(s, i, OnRWReq(e, s.nodes[i], orig, t)))
  {
    var n := s.nodes[i];
    if n.hdr.status != RESP {
      ActForward(c, s, i, e, orig, RWReq(orig, t));
    } else if n.hdr.usecount == 0 {
      ActTransfer(c, s, i, e, orig, t);
    } else {
      assert NodeOk(c, n);
      var w := if n.hdr.reserved then Retry(orig, t) else Transfer(orig, t);
      var n' := n.(ev := n.ev.(zero := n.ev.zero + [w]), hdr := n.hdr.(reserved := true));
      assert OnRWReq(e, n, orig, t) == Ok(n', []);
      ActNone(s, i, n');
      SettleWait(c, s, i, n', w);
    }
  }

  lemma ActTransfer(c: Config, s: State, i: NodeId, e: Env, orig: NodeId, t: nat)
    requires i < |s.nodes| && Good(c, s, false, map[], {t}, {}) && t in s.h.asked && s.h.asked[t] == orig
    requires s.nodes[i].hdr.status == RESP && s.nodes[i].hdr.usecount == 0
    ensures Fine(c, Act(s, i, OnRWReq(e, s.nodes[i], orig, t)))
  {
    var n := s.nodes[i];
    assert NodeOk(c, n);
    var o := DoRespTransfer(e, n, orig, t);
    ActOne(s, i, o.node, o.out[0]);
    SettleGive(c, s, i, o.node, {t});
    assert {t} + Tags(n.ev.zero) == {t};
    PostTransfer(c, Settle(s, i, o.node), i, o.out[0], {t});
    assert {t} - {t} == {};
  }

  /** The transfer leaves the limbo with the authoritative content. */
  lemma PostTransfer(c: Config, s: State, i: NodeId, p: Packet, reqs: set<nat>)
    requires p.msg.RespTransfer? && Good(c, s, true, p.msg.content, reqs, {}) && p.msg.tag in reqs
    requires p.msg.tag in s.h.asked && s.h.asked[p.msg.tag] == p.to
    ensures Good(c, Post(s, i, p), false, map[], reqs - {p.msg.tag}, {})
    ensures Post(s, i, p).h.asked == s.h.asked
  {
    PostPacket(c, s, i, p, true, p.msg.content, reqs, {});
  }

  lemma ActReceive(c: Config, s: State, i: NodeId, e: Env, sharers: seq<NodeId>, x: Content)
    requires i < |s.nodes| && Good(c, s, true, x, {}, {})
    ensures Fine(c, Act(s, i, OnRespTransfer(e, s.nodes[i], sharers, x)))
  {
    assert s.nodes[i].hdr.status != RESP;
    var o := OnRespTransfer(e, s.nodes[i], sharers, x);
    ActNone(s, i, o.node);
    SettleReceive(c, s, i, o.node, x);
  }

  ghost predicate CanDeliver(c: Config, s: State, k: nat, th: nat) {
    s.stop.Running? && k in s.net && s.net[k].to < |s.nodes| && th < c.threads
  }

  function Delivery(c: Config, s: State, k: nat, th: nat): Outcome
    requires k in s.net && s.net[k].to < |s.nodes|
  {
    Handle(EnvOf(c, s.net[k].to, th), s.nodes[s.net[k].to], s.net[k].from, s.net[k].msg)
  }

  lemma StepDelivers(c: Config, s: State, k: nat, th: nat)
    requires CanDeliver(c, s, k, th)
    ensures Step(c, s, Deliver(k, th)) == Act(Without(s, k), s.net[k].to, Delivery(c, s, k, th))
  {
  }

  lemma Dispatch(c: Config, s: State, k: nat, th: nat)
    requires CanDeliver(c, s, k, th)
    ensures var m := s.net[k]; var e := EnvOf(c, m.to, th); var n := s.nodes[m.to];
      && (m.msg.RWrite? ==> Delivery(c, s, k, th) == OnRWrite(e, n, m.msg.orig, m.msg.serial, m.msg.w))
      && (m.msg.RWReq? ==> Delivery(c, s, k, th) == OnRWReq(e, n, m.msg.orig, m.msg.tag))
      && (m.msg.RespTransfer? ==> Delivery(c, s, k, th) == OnRespTransfer(e, n, m.msg.sharers, m.msg.content))
  {
  }

  lemma DeliverCalm(c: Config, s: State, k: nat, th: nat)
    requires Good(c, s, false, map[], {}, {}) && CanDeliver(c, s, k, th) && Calm(s.net[k].msg)
    ensures Fine(c, Act(Without(s, k), s.net[k].to, Delivery(c, s, k, th)))
  {
    var m := s.net[k];
    TakePacket(c, s, k);
    CalmHandle(EnvOf(c, m.to, th), s.nodes[m.to], m.from, m.msg);
    ActCalm(c, Without(s, k), m.to, Delivery(c, s, k, th));
  }

  lemma DeliverWrite(c: Config, s: State, k: nat, e: Env)
    requires Good(c, s, false, map[], {}, {}) && k in s.net && s.net[k].to < |s.nodes| && s.net[k].msg.RWrite?
    ensures var m := s.net[k];
      Fine(c, Act(Without(s, k), m.to, OnRWrite(e, s.nodes[m.to], m.msg.orig, m.msg.serial, m.msg.w)))
  {
    var m := s.net[k];
    TakePacket(c, s, k);
    assert Genuine(c, Without(s, k), m.msg.orig, m.msg.serial, m.msg.w);
    ActWrite(c, Without(s, k), m.to, e, m.msg.orig, m.msg.serial, m.msg.w);
  }

  lemma DeliverReq(c: Config, s: State, k: nat, e: Env)
    requires Good(c, s, false, map[], {}, {}) && k in s.net && s.net[k].to < |s.nodes| && s.net[k].msg.RWReq?
    ensures var m := s.net[k];
      Fine(c, Act(Without(s, k), m.to, OnRWReq(e, s.nodes[m.to], m.msg.orig, m.msg.tag)))
  {
    var m := s.net[k];
    TakePacket(c, s, k);
    ActRequest(c, Without(s, k), m.to, e, m.msg.orig, m.msg.tag);
  }

  lemma DeliverTransfer(c: Config, s: State, k: nat, e: Env)
    requires Good(c, s, false, map[], {}, {}) && k in s.net && s.net[k].to < |s.nodes| && s.net[k].msg.RespTransfer?
    ensures var m := s.net[k];
      Fine(c, Act(Without(s, k), m.to, OnRespTransfer(e, s.nodes[m.to], m.msg.sharers, m.msg.content)))
  {
    var m := s.net[k];
    TakePacket(c, s, k);
    ActReceive(c, Without(s, k), m.to, e, m.msg.sharers, m.msg.content);
  }

  lemma AskDataKeeps(c: Config, s: State, i: NodeId)
    requires Good(c, s, false, map[], {}, {})
    ensures Fine(c, Step(c, s, AskData(i)))
  {
    if i < |s.nodes| && s.nodes[i].hdr.status == INVALID {
      var o := RequestData(EnvOf(c, i, 0), s.nodes[i]);
      SettleSame(s, i);
      ActOne(s, i, s.nodes[i], o.out[0]);
      PostOneCalm(c, s, i, o.out[0]);
    }
  }

  ghost function Asking(s: State, i: NodeId): State {
    s.(h := s.h.(asked := s.h.asked[|s.h.asked| := i]))
  }

  lemma NewTag(s: State, i: NodeId)
    requires ReqsOk(s, {})
    ensures ReqsOk(Asking(s, i), {|s.h.asked|})
  {
    var s1 := Asking(s, i);
    var tag := |s.h.asked|;
    assert tag !in s.h.asked;
    OneMore(s.h.asked, i);
    forall t | t in s1.h.asked && t != tag ensures ReqHere(s1, t) {
      assert ReqHere(s, t);
    }
  }

  lemma OneMore(m: map<nat, NodeId>, i: NodeId)
    requires |m| !in m
    ensures |m[|m| := i]| == |m| + 1
  {
    var m1 := m[|m| := i];
    assert m1.Keys == m.Keys + {|m|} && |m1.Keys| == |m.Keys| + 1;
  }

  lemma WritesIgnoreAsked(c: Config, s: State, s1: State)
    requires WritesOk(c, s, {}) && s1 == s.(h := s.h.(asked := s1.h.asked))
    ensures WritesOk(c, s1, {})
  {
    forall w | w in s1.h.writes ensures Issued(c, s1, w) && WriteHere(s1, w) {
      assert Issued(c, s, w) && WriteHere(s, w);
    }
  }

  lemma AskingGood(c: Config, s: State, i: NodeId)
    requires Good(c, s, false, map[], {}, {})
    ensures Good(c, Asking(s, i), false, map[], {|s.h.asked|}, {})
  {
    NewTag(s, i);
    WritesIgnoreAsked(c, s, Asking(s, i));
  }

  lemma SettleAsk(c: Config, s: State, i: NodeId, n': Node, reqs: set<nat>)
    requires Good(c, s, false, map[], reqs, {}) && i < |s.nodes| && SameCore(s.nodes[i], n')
    ensures Good(c, Settle(s, i, n'), false, map[], reqs, {})
  {
    var s' := Settle(s, i, n');
    WritesSettle(c, s, s', i, {});
    SourcesSettle(c, s, s', i);
    ReqsSettle(s, s', i, reqs);
    TokenSettle(s, s', i, false);
    StoresSettle(s, s', i);
  }

  lemma ActAsk(c: Config, s: State, i: NodeId, n': Node, p: Packet, t: nat)
    requires i < |s.nodes| && Good(c, s, false, map[], {t}, {}) && SameCore(s.nodes[i], n')
    requires p.msg == RWReq(i, t) && t in s.h.asked && s.h.asked[t] == i
    ensures Good(c, Act(s, i, Ok(n', [p])), false, map[], {}, {})
  {
    ActOne(s, i, n', p);
    SettleAsk(c, s, i, n', {t});
    PostPacket(c, Settle(s, i, n'), i, p, false, map[], {t}, {});
    assert {t} - ReqOf(p.msg) == {};
  }

  lemma AskRespKeeps(c: Config, s: State, i: NodeId)
    requires Good(c, s, false, map[], {}, {})
    ensures Fine(c, Step(c, s, AskResp(i)))
  {
    if i < |s.nodes| && s.nodes[i].hdr.status != RESP { ActRequestCall(c, s, i, EnvOf(c, i, 0)); }
  }

  lemma ActRequestCall(c: Config, s: State, i: NodeId, e: Env)
    requires Good(c, s, false, map[], {}, {}) && i < |s.nodes| && s.nodes[i].hdr.status != RESP && e.self == i
    ensures Fine(c, Act(Asking(s, i), i, RequestResp(e, s.nodes[i], |s.h.asked|)))
  {
    AskingGood(c, s, i);
    var o := RequestResp(e, s.nodes[i], |s.h.asked|);
    assert o == Ok(o.node, [o.out[0]]);
    ActAsk(c, Asking(s, i), i, o.node, o.out[0], |s.h.asked|);
  }

  lemma HeldMore(stores: map<nat, Store>, id: nat, x: Store, i: NodeId)
    requires id !in stores
    ensures HeldAt(stores[id := x], i) ==
      (if x.held && x.node == i then HeldAt(stores, i) + {id} else HeldAt(stores, i))
  {
  }

  function Checked(s: State, i: NodeId, w: Write, held: bool): State {
    s.(stores := s.stores[s.nextId := Store(i, w, held)], nextId := s.nextId + 1)
  }

  lemma CheckedStores(s: State, i: NodeId, w: Write, held: bool)
    requires StoresOk(s) && NetOk(s) && i < |s.nodes| && (held ==> s.nodes[i].hdr.usecount > |HeldAt(s.stores, i)|)
    ensures StoresOk(Checked(s, i, w, held))
  {
    var s' := Checked(s, i, w, held);
    forall j: NodeId | j < |s.nodes| ensures |HeldAt(s'.stores, j)| <= s'.nodes[j].hdr.usecount {
      HeldMore(s.stores, s.nextId, Store(i, w, held), j);
    }
  }

  lemma CheckedGood(c: Config, s: State, i: NodeId, w: Write, held: bool)
    requires Good(c, s, false, map[], {}, {}) && i < |s.nodes|
      && (held ==> s.nodes[i].hdr.usecount > |HeldAt(s.stores, i)|)
    ensures Good(c, Checked(s, i, w, held), false, map[], {}, {})
  {
    CheckedStores(s, i, w, held);
    SameWrites(c, s, Checked(s, i, w, held));
    SameReqs(s, Checked(s, i, w, held));
  }

  lemma CheckKeeps(c: Config, s: State, i: NodeId, w: Write, held: bool)
    requires Good(c, s, false, map[], {}, {})
    ensures Fine(c, Step(c, s, Check(i, w, held)))
  {
    if i < |s.nodes| && (held ==> s.nodes[i].hdr.usecount > |HeldAt(s.stores, i)|) { CheckedGood(c, s, i, w, held); }
  }

  ghost predicate SameSystem(s: State, s': State) {
    s'.nodes == s.nodes && s'.net == s.net && s'.stop == s.stop && s'.h == s.h.(lost := s'.h.lost)
  }

  lemma SameWrites(c: Config, s: State, s': State)
    requires WritesOk(c, s, {}) && SameSystem(s, s')
    ensures WritesOk(c, s', {})
  {
    forall w | w in s'.h.writes ensures Issued(c, s', w) && WriteHere(s', w) {
      assert Issued(c, s, w) && WriteHere(s, w);
    }
  }

  lemma SameReqs(s: State, s': State)
    requires ReqsOk(s, {}) && SameSystem(s, s')
    ensures ReqsOk(s', {})
  {
    forall t | t in s'.h.asked ensures ReqHere(s', t) { assert ReqHere(s, t); }
  }

  lemma HeldFewer(stores: map<nat, Store>, id: nat, i: NodeId)
    requires id in stores
    ensures HeldAt(stores - {id}, i) == HeldAt(stores, i) - {id} && |HeldAt(stores - {id}, i)| <= |HeldAt(stores, i)|
  {
    assert HeldAt(stores - {id}, i) == HeldAt(stores, i) - {id};
  }

  lemma StoringGood(c: Config, s: State, id: nat)
    requires Good(c, s, false, map[], {}, {}) && id in s.stores && s.stores[id].node < |s.nodes|
    ensures Good(c, Storing(s, id), false, map[], {}, {})
  {
    var s' := Storing(s, id);
    var i := s.stores[id].node;
    forall j: NodeId | j < |s.nodes| ensures |HeldAt(s'.stores, j)| <= s'.nodes[j].hdr.usecount {
      HeldFewer(s.stores, id, j);
    }
    if s.nodes[i].hdr.status != RESP { UnheldAt(c, s, id); }
    SameWrites(c, s, s');
    SameReqs(s, s');
  }

  /** A store begun by a counted user finds its node RESP. */
  lemma UnheldAt(c: Config, s: State, id: nat)
    requires NodesOk(c, s) && StoresOk(s) && id in s.stores
    ensures s.stores[id].held ==> s.nodes[s.stores[id].node].hdr.status == RESP
  {
    var i := s.stores[id].node;
    assert NodeOk(c, s.nodes[i]);
    assert s.stores[id].held ==> id in HeldAt(s.stores, i);
  }

  lemma StoredGood(c: Config, s: State, id: nat, x: Store)
    requires Good(c, s, false, map[], {}, {}) && id in s.stores && s.stores[id] == x && x.node < |s.nodes|
    ensures Fine(c, Act(Storing(s, id), x.node, Ok(StoredNode(s.nodes[x.node], x.w), [])))
  {
    StoringGood(c, s, id);
    ActStore(c, Storing(s, id), x.node, x.w);
  }

  lemma StoreKeeps(c: Config, s: State, id: nat)
    requires Good(c, s, false, map[], {}, {})
    ensures Fine(c, Step(c, s, StoreNow(id)))
  {
    if id in s.stores && s.stores[id].node < |s.nodes| { StoredGood(c, s, id, s.stores[id]); }
  }

  lemma ActStore(c: Config, s: State, i: NodeId, w: Write)
    requires Good(c, s, false, map[], {}, {}) && i < |s.nodes|
    ensures Fine(c, Act(s, i, Ok(StoredNode(s.nodes[i], w), [])))
  {
    var n' := StoredNode(s.nodes[i], w);
    ActNone(s, i, n');
    if s.nodes[i].hdr.status == RESP { SettleApply(c, s, i, n', Local(w), {}); } else { SettleCalm(c, s, i, n'); }
  }

  /** The node notes the write it sends under its next serial. */
  ghost predicate SendsMore(n: Node, n': Node, th: nat, w: Write) {
    var x := WriteSerial(n.ser, th);
    x in n'.tr.sent && n'.tr.sent == n.tr.sent[x := n'.tr.sent[x]] && n'.tr.sent[x].w == w
  }

  lemma IssuedAdvance(c: Config, s: State, s': State, i: NodeId, th: nat, v: (NodeId, int))
    requires Issued(c, s, v) && SourcesOk(c, s) && NodeChanges(s, s', i) && th < c.threads
    requires s'.nodes[i].ser.write == SerialNumbers.NextWrite(s.nodes[i].ser, th)
    ensures Issued(c, s', v)
  {
    if v.0 == i { SerialNumbers.WriteStaysUsed(s.nodes[i].ser, c.threads, th, v.1); }
  }

  lemma CarriesAdvance(s: State, s': State, i: NodeId, th: nat, w: Write)
    requires NodeChanges(s, s', i) && SendsMore(s.nodes[i], s'.nodes[i], th, w)
    ensures forall o: NodeId, x, u ::
      Carries(s, o, x, u) && (o, x) != (i, WriteSerial(s.nodes[i].ser, th)) ==> Carries(s', o, x, u)
  {
  }

  lemma WritesAdvance(c: Config, s: State, s': State, i: NodeId, th: nat, w: Write)
    requires WritesOk(c, s, {}) && SourcesOk(c, s) && NodeChanges(s, s', i) && th < c.threads
    requires s'.nodes[i].ser.write == SerialNumbers.NextWrite(s.nodes[i].ser, th)
    requires s'.h.writes == s.h.writes && s'.h.log == s.h.log && SendsMore(s.nodes[i], s'.nodes[i], th, w)
    ensures WritesOk(c, s', {})
  {
    FreshSerial(c, s, i, th);
    CarriesAdvance(s, s', i, th, w);
    forall v | v in s'.h.writes ensures Issued(c, s', v) {
      assert Issued(c, s, v);
      IssuedAdvance(c, s, s', i, th, v);
    }
    forall v | v in s'.h.writes ensures WriteHere(s', v) { assert WriteHere(s, v); }
  }

  /** The serial `ask_or_do_rwrite_then` takes has never been used before by this node. */
  lemma FreshSerial(c: Config, s: State, i: NodeId, th: nat)
    requires SourcesOk(c, s) && WritesOk(c, s, {}) && i < |s.nodes| && th < c.threads
    ensures (i, WriteSerial(s.nodes[i].ser, th)) !in s.h.writes
  {
    var x := WriteSerial(s.nodes[i].ser, th);
    SerialNumbers.WriteIsNew(s.nodes[i].ser, c.threads, th);
    assert (i, x) in s.h.writes ==> Issued(c, s, (i, x));
  }

  lemma NodesAdvance(c: Config, s: State, i: NodeId, n': Node)
    requires NodesOk(c, s) && i < |s.nodes| && |n'.ser.write| == c.threads
      && SameCore(s.nodes[i], n'.(ser := s.nodes[i].ser, tr := s.nodes[i].tr)) && n'.tr.log == s.nodes[i].tr.log
    ensures NodesOk(c, Settle(s, i, n')) && Settle(s, i, n').h == s.h
  {
    assert NodeOk(c, s.nodes[i]);
    assert NodeOk(c, n');
  }

  lemma SettleSerial(c: Config, s: State, i: NodeId, n': Node, th: nat, w: Write)
    requires Good(c, s, false, map[], {}, {}) && i < |s.nodes| && th < c.threads
    requires |s.nodes[i].ser.write| == c.threads && n'.ser.write == SerialNumbers.NextWrite(s.nodes[i].ser, th)
    requires SendsMore(s.nodes[i], n', th, w)
    requires SameCore(s.nodes[i], n'.(ser := s.nodes[i].ser, tr := s.nodes[i].tr)) && n'.tr.log == s.nodes[i].tr.log
    ensures Good(c, Settle(s, i, n'), false, map[], {}, {})
    ensures Genuine(c, Settle(s, i, n'), i, WriteSerial(s.nodes[i].ser, th), w)
      && Settle(s, i, n').h.writes == s.h.writes
  {
    var s' := Settle(s, i, n');
    NodesAdvance(c, s, i, n');
    SerialNumbers.WriteIsNew(s.nodes[i].ser, c.threads, th);
    WritesAdvance(c, s, s', i, th, w);
    ReqsSettle(s, s', i, {});
    TokenSettle(s, s', i, false);
    StoresSettle(s, s', i);
  }

  lemma ActRemoteWrite(c: Config, s: State, i: NodeId, n': Node, p: Packet, th: nat, w: Write)
    requires Good(c, s, false, map[], {}, {}) && i < |s.nodes| && th < c.threads
    requires |s.nodes[i].ser.write| == c.threads && n'.ser.write == SerialNumbers.NextWrite(s.nodes[i].ser, th)
    requires SendsMore(s.nodes[i], n', th, w)
    requires SameCore(s.nodes[i], n'.(ser := s.nodes[i].ser, tr := s.nodes[i].tr)) && n'.tr.log == s.nodes[i].tr.log
    requires var x := WriteSerial(s.nodes[i].ser, th); p.msg == RWrite(i, x, w) && (i, x) !in s.h.writes
    ensures Good(c, Act(s, i, Ok(n', [p])), false, map[], {}, {})
  {
    ActOne(s, i, n', p);
    SettleSerial(c, s, i, n', th, w);
    PostNewWrite(c, Settle(s, i, n'), i, p);
  }

  lemma PostNewWrite(c: Config, s: State, i: NodeId, p: Packet)
    requires Good(c, s, false, map[], {}, {}) && p.msg.RWrite? && (p.msg.orig, p.msg.serial) !in s.h.writes
    requires Genuine(c, s, p.msg.orig, p.msg.serial, p.msg.w)
    ensures Good(c, Post(s, i, p), false, map[], {}, {})
  {
    PostPacket(c, s, i, p, false, map[], {}, {});
  }

  lemma WriteRemotelyKeeps(c: Config, s: State, i: NodeId, th: nat, tx: Tx, w: Write)
    requires Sane(c) && Good(c, s, false, map[], {}, {})
    ensures Fine(c, Step(c, s, WriteRemotely(i, th, tx, w)))
  {
    if i < |s.nodes| && th < c.threads { ActWriteCall(c, s, i, EnvOf(c, i, th), tx, w); }
  }

  lemma RemoteWriteIs(e: Env, n: Node, tx: Tx, w: Write)
    requires n.hdr.status != RESP && e.th < |n.ser.write|
    ensures var o := RemoteWrite(e, n, tx, w); var n' := o.node;
      && o.Ok? && |o.out| == 1 && o.out[0].msg == RWrite(e.self, WriteSerial(n.ser, e.th), w)
      && n'.ser.write == SerialNumbers.NextWrite(n.ser, e.th) && SendsMore(n, n', e.th, w)
      && SameCore(n, n'.(ser := n.ser, tr := n.tr)) && n'.tr.log == n.tr.log
  {
  }

  lemma ActWriteCall(c: Config, s: State, i: NodeId, e: Env, tx: Tx, w: Write)
    requires Sane(c) && Good(c, s, false, map[], {}, {}) && i < |s.nodes| && e.self == i && e.th < c.threads
    ensures Fine(c, Act(s, i, RemoteWrite(e, s.nodes[i], tx, w)))
  {
    if s.nodes[i].hdr.status != RESP {
      assert NodeOk(c, s.nodes[i]);
      FreshSerial(c, s, i, e.th);
      RemoteWriteIs(e, s.nodes[i], tx, w);
      var o := RemoteWrite(e, s.nodes[i], tx, w);
      assert o.out == [o.out[0]];
      ActRemoteWrite(c, s, i, o.node, o.out[0], e.th, w);
    }
  }

  lemma StartPublishKeeps(c: Config, s: State, i: NodeId, th: nat, tx: Tx, count: nat)
    requires Good(c, s, false, map[], {}, {})
    ensures Fine(c, Step(c, s, StartPublish(i, th, tx, count)))
  {
    if i < |s.nodes| && th < c.threads {
      CalmPublish(EnvOf(c, i, th), s.nodes[i], tx, count);
      ActCalm(c, s, i, Publish(EnvOf(c, i, th), s.nodes[i], tx, count));
    }
  }

  // ---------------------------------------------------------------- usecount zero

  /** The packets re-send the requests of the waiting retries. */
  ghost predicate Resends(ws: seq<Waiter>, out: seq<Packet>) {
    && |out| == |ws|
    && forall j :: 0 <= j < |ws| ==> ws[j].Retry? && out[j].msg == RWReq(ws[j].orig, ws[j].tag)
  }

  ghost predicate AllRetry(ws: seq<Waiter>) { forall j :: 0 <= j < |ws| ==> ws[j].Retry? }

  lemma {:induction false} RunRetries(e: Env, n: Node, ws: seq<Waiter>)
    requires AllRetry(ws)
    ensures var o := RunWaiters(e, n, ws); o.Ok? && o.node == n && Resends(ws, o.out)
    decreases |ws|
  {
    if ws != [] { RunRetries(e, n, ws[1..]); }
  }

  /** What a release at zero does: the first waiter's transfer, which finds its node RESP and unused. */
  ghost predicate Gives(n: Node, n': Node, p: Packet) {
    && n.hdr.status == RESP && n.ev.zero != [] && n.ev.zero[0].Transfer?
    && n'.hdr.status == VALID && n'.hdr.usecount == 0 && n'.ev.zero == [] && n'.shared == [] && n'.ser == n.ser
    && n'.tr == n.tr
    && p.to == n.ev.zero[0].target && p.msg.RespTransfer? && p.msg.content == n.content && p.msg.tag == n.ev.zero[0].tag
  }

  lemma ReleaseAtZero(c: Config, e: Env, n: Node)
    requires NodeOk(c, n) && n.hdr.usecount == 1 && n.ev.zero != []
    ensures var o := Release(e, n);
      o.Ok? && o.out != [] && Gives(n, o.node, o.out[0]) && Resends(n.ev.zero[1..], o.out[1..])
  {
    var n1 := n.(hdr := n.hdr.(usecount := 0));
    RunRetries(e, RunWaiter(e, n1, n.ev.zero[0]).node, n.ev.zero[1..]);
  }

  ghost predicate TagsDiffer(ws: seq<Waiter>) { forall j, k :: 0 <= j < k < |ws| ==> ws[j].tag != ws[k].tag }

  ghost predicate WaitersAsked(s: State, ws: seq<Waiter>) {
    forall j :: 0 <= j < |ws| ==> ws[j].tag in s.h.asked && s.h.asked[ws[j].tag] == Origin(ws[j])
  }

  /** Posting the retries takes their requests out of limbo one by one. */
  lemma {:induction false} PostRetries(c: Config, s: State, i: NodeId, ws: seq<Waiter>, out: seq<Packet>)
    requires Good(c, s, false, map[], Tags(ws), {}) && TagsDiffer(ws) && Resends(ws, out) && WaitersAsked(s, ws)
    ensures Good(c, PostAll(s, i, out), false, map[], {}, {})
    decreases |out|
  {
    if out == [] {
      assert Tags(ws) == {};
    } else {
      PostRetry(c, s, i, ws, out[0]);
      RetriesRest(s, Post(s, i, out[0]), ws, out);
      PostRetries(c, Post(s, i, out[0]), i, ws[1..], out[1..]);
    }
  }

  lemma RetriesRest(s: State, s': State, ws: seq<Waiter>, out: seq<Packet>)
    requires ws != [] && TagsDiffer(ws) && Resends(ws, out) && WaitersAsked(s, ws) && s'.h.asked == s.h.asked
    ensures TagsDiffer(ws[1..]) && Resends(ws[1..], out[1..]) && WaitersAsked(s', ws[1..])
  {
  }

  lemma PostRetry(c: Config, s: State, i: NodeId, ws: seq<Waiter>, p: Packet)
    requires ws != [] && Good(c, s, false, map[], Tags(ws), {}) && TagsDiffer(ws) && WaitersAsked(s, ws)
    requires ws[0].Retry? && p.msg == RWReq(ws[0].orig, ws[0].tag)
    ensures Good(c, Post(s, i, p), false, map[], Tags(ws[1..]), {}) && Post(s, i, p).h.asked == s.h.asked
  {
    assert ws[0].tag in Tags(ws);
    PostPacket(c, s, i, p, false, map[], Tags(ws), {});
    TagsRest(ws);
    assert Tags(ws) - ReqOf(p.msg) == Tags(ws[1..]);
  }

  lemma TagsRest(ws: seq<Waiter>)
    requires ws != [] && TagsDiffer(ws)
    ensures Tags(ws[1..]) == Tags(ws) - {ws[0].tag}
  {
    forall t | t in Tags(ws) - {ws[0].tag} ensures t in Tags(ws[1..]) {
      var j :| 0 <= j < |ws| && ws[j].tag == t;
      assert ws[1..][j - 1].tag == t;
    }
    forall t | t in Tags(ws[1..]) ensures t in Tags(ws) && t != ws[0].tag {
      var j :| 0 <= j < |ws[1..]| && ws[1..][j].tag == t;
      assert ws[j + 1].tag == t;
    }
  }

  lemma WaitersDiffer(s: State, i: NodeId)
    requires ReqsOk(s, {}) && i < |s.nodes|
    ensures TagsDiffer(s.nodes[i].ev.zero) && WaitersAsked(s, s.nodes[i].ev.zero)
  {
    var ws := s.nodes[i].ev.zero;
    forall j, k | 0 <= j < k < |ws| ensures ws[j].tag != ws[k].tag {
      assert s.h.reqs[ws[j].tag] == Waiting(i, j) && s.h.reqs[ws[k].tag] == Waiting(i, k);
    }
  }

  lemma GiveTransfer(c: Config, s: State, i: NodeId, n': Node, p: Packet)
    requires i < |s.nodes| && Good(c, s, false, map[], {}, {}) && Gives(s.nodes[i], n', p) && HeldAt(s.stores, i) == {}
    ensures var s' := Post(Settle(s, i, n'), i, p);
      Good(c, s', false, map[], Tags(s.nodes[i].ev.zero[1..]), {}) && s'.h.asked == s.h.asked
  {
    var ws := s.nodes[i].ev.zero;
    WaitersDiffer(s, i);
    SettleGive(c, s, i, n', {});
    assert {} + Tags(ws) == Tags(ws) && ws[0].tag in Tags(ws);
    PostTransfer(c, Settle(s, i, n'), i, p, Tags(ws));
    TagsRest(ws);
  }

  lemma ActGive(c: Config, s: State, i: NodeId, n': Node, p: Packet, rest: seq<Packet>)
    requires i < |s.nodes| && Good(c, s, false, map[], {}, {}) && HeldAt(s.stores, i) == {}
    requires Gives(s.nodes[i], n', p) && Resends(s.nodes[i].ev.zero[1..], rest)
    ensures Good(c, PostAll(Post(Settle(s, i, n'), i, p), i, rest), false, map[], {}, {})
  {
    WaitersDiffer(s, i);
    GiveTransfer(c, s, i, n', p);
    PostRetries(c, Post(Settle(s, i, n'), i, p), i, s.nodes[i].ev.zero[1..], rest);
  }

  lemma ActLetGo(c: Config, s: State, i: NodeId, e: Env)
    requires Good(c, s, false, map[], {}, {}) && i < |s.nodes| && s.nodes[i].hdr.usecount > |HeldAt(s.stores, i)|
    ensures Fine(c, Act(s, i, Release(e, s.nodes[i])))
  {
    var n := s.nodes[i];
    assert NodeOk(c, n);
    var n1 := n.(hdr := n.hdr.(usecount := n.hdr.usecount - 1));
    if n.hdr.usecount > 1 {
      ActNone(s, i, n1);
      SettleUse(c, s, i, n1);
    } else if n.ev.zero == [] {
      ActNone(s, i, n1);
      SettleLast(c, s, i, n1);
    } else {
      ReleaseAtZero(c, e, n);
      var o := Release(e, n);
      ActGive(c, s, i, o.node, o.out[0], o.out[1..]);
    }
  }

  lemma LetGoKeeps(c: Config, s: State, i: NodeId)
    requires Good(c, s, false, map[], {}, {})
    ensures Fine(c, Step(c, s, LetGo(i)))
  {
    if i < |s.nodes| && s.nodes[i].hdr.usecount > |HeldAt(s.stores, i)| {
      StepLetsGo(c, s, i);
      ActLetGo(c, s, i, EnvOf(c, i, 0));
    }
  }

  lemma StepLetsGo(c: Config, s: State, i: NodeId)
    requires s.stop.Running? && i < |s.nodes| && s.nodes[i].hdr.usecount > |HeldAt(s.stores, i)|
    ensures Step(c, s, LetGo(i)) == Act(s, i, Release(EnvOf(c, i, 0), s.nodes[i]))
  {
  }

  lemma SettleLast(c: Config, s: State, i: NodeId, n': Node)
    requires Good(c, s, false, map[], {}, {}) && i < |s.nodes| && s.nodes[i].hdr.usecount == 1
      && s.nodes[i].ev.zero == []
    requires HeldAt(s.stores, i) == {}
    requires n' == s.nodes[i].(hdr := s.nodes[i].hdr.(usecount := 0))
    ensures Good(c, Settle(s, i, n'), false, map[], {}, {})
  {
    var s' := Settle(s, i, n');
    assert NodeOk(c, s.nodes[i]);
    WritesSettle(c, s, s', i, {});
    SourcesSettle(c, s, s', i);
    ReqsSettle(s, s', i, {});
    TokenSettle(s, s', i, false);
    StoresSettle(s, s', i);
  }

  // ---------------------------------------------------------------- theorems over every run

  lemma StepKeeps(c: Config, s: State, ch: Choice)
    requires Sane(c) && Good(c, s, false, map[], {}, {})
    ensures Fine(c, Step(c, s, ch))
  {
    match ch
    case Deliver(k, th) => DeliverKeeps(c, s, k, th);
    case AskData(i) => AskDataKeeps(c, s, i);
    case AskResp(i) => AskRespKeeps(c, s, i);
    case Check(i, w, held) => CheckKeeps(c, s, i, w, held);
    case StoreNow(id) => StoreKeeps(c, s, id);
    case WriteRemotely(i, th, tx, w) => WriteRemotelyKeeps(c, s, i, th, tx, w);
    case StartPublish(i, th, tx, count) => StartPublishKeeps(c, s, i, th, tx, count);
    case LetGo(i) => LetGoKeeps(c, s, i);
  }

  lemma DeliverKeeps(c: Config, s: State, k: nat, th: nat)
    requires Good(c, s, false, map[], {}, {})
    ensures Fine(c, Step(c, s, Deliver(k, th)))
  {
    if CanDeliver(c, s, k, th) {
      var e := EnvOf(c, s.net[k].to, th);
      StepDelivers(c, s, k, th);
      Dispatch(c, s, k, th);
      match s.net[k].msg
      case RWrite(_, _, _) => DeliverWrite(c, s, k, e);
      case RWReq(_, _) => DeliverReq(c, s, k, e);
      case RespTransfer(_, _, _) => DeliverTransfer(c, s, k, e);
      case _ => DeliverCalm(c, s, k, th);
    }
  }

  lemma InitNodes(c: Config)
    requires Sane(c)
    ensures var s := Init(c);
      NodesOk(c, s) && SourcesOk(c, s) && StoresOk(s) && TokenOk(s, false) && ContentOk(c, s, false, map[])
  {
    var s := Init(c);
    assert forall i :: 0 <= i < |s.nodes| ==> s.nodes[i] == FreshNode(c, i == c.owner);
    assert forall i :: HeldAt(s.stores, i) == {};
  }

  lemma InitGood(c: Config)
    requires Sane(c)
    ensures Good(c, Init(c), false, map[], {}, {})
  {
    var s := Init(c);
    InitNodes(c);
    assert forall i :: 0 <= i < |s.nodes| ==> s.nodes[i] == FreshNode(c, i == c.owner);
    assert forall i :: 0 <= i < |s.nodes| ==> s.nodes[i].ev.zero == [];
  }

  lemma {:induction false} Safe(c: Config, run: seq<Choice>)
    requires Sane(c)
    ensures Inv(c, After(c, run))
  {
    if run == [] {
      InitGood(c);
    } else {
      var s := After(c, run[..|run| - 1]);
      Safe(c, run[..|run| - 1]);
      if s.stop.Running? { StepKeeps(c, s, run[|run| - 1]); }
    }
  }

  ghost predicate Flies(s: State, k: nat) { k in s.net && s.net[k].msg.RespTransfer? }

  ghost predicate IsResp(s: State, i: nat) { i < |s.nodes| && s.nodes[i].hdr.status == RESP }

  /** In every run that has not stopped, exactly one of "one node is RESP" and "one RespTransfer is in flight"
      holds, and there is one authoritative content: the page's initial content with every write applied so far,
      in the order they were applied. */
  lemma OneResponsible(c: Config, run: seq<Choice>)
    requires Sane(c) && After(c, run).stop.Running?
    ensures var s := After(c, run);
      || (exists i: nat ::
            && IsResp(s, i) && (forall j: nat :: IsResp(s, j) ==> j == i) && (forall k: nat :: !Flies(s, k))
            && s.nodes[i].content == Replay(c.content, s.h.log))
      || (exists k: nat ::
            && Flies(s, k) && (forall k': nat :: Flies(s, k') ==> k' == k) && (forall j: nat :: !IsResp(s, j))
            && s.net[k].msg.content == Replay(c.content, s.h.log))
  {
    Safe(c, run);
    var s := After(c, run);
    match s.h.token
    case At(i) => assert IsResp(s, i);
    case Flying(k) => assert Flies(s, k);
  }

  /** Closures wait for usecount zero only at a node that is RESP, reserved and in use, the transfer first. */
  lemma WaitersOnlyAtResp(c: Config, run: seq<Choice>, i: nat)
    requires Sane(c) && After(c, run).stop.Running? && i < |After(c, run).nodes| && After(c, run).nodes[i].ev.zero != []
    ensures var n := After(c, run).nodes[i];
      && n.hdr.status == RESP && n.hdr.reserved && n.hdr.usecount > 0 && n.ev.zero[0].Transfer?
      && forall j :: 0 < j < |n.ev.zero| ==> n.ev.zero[j].Retry?
  {
    Safe(c, run);
    assert NodeOk(c, After(c, run).nodes[i]);
  }

  /** The status and usecount checks of `doRespTransfer` and the already-RESP check of `onRespTransfer` never fire. */
  lemma {:induction false} TransferChecksNeverFire(c: Config, run: seq<Choice>)
    requires Sane(c) && After(c, run).stop.Stopped?
    ensures !TransferCheck(After(c, run).stop.why)
  {
    if run != [] {
      var s := After(c, run[..|run| - 1]);
      if s.stop.Running? {
        Safe(c, run[..|run| - 1]);
        StepKeeps(c, s, run[|run| - 1]);
      } else {
        TransferChecksNeverFire(c, run[..|run| - 1]);
      }
    }
  }

  ghost predicate WriteIn(s: State, w: (NodeId, int), k: nat) {
    k in s.net && s.net[k].msg.RWrite? && w == (s.net[k].msg.orig, s.net[k].msg.serial)
  }

  ghost predicate WriteAt(s: State, w: (NodeId, int), j: nat) {
    j < |s.h.log| && s.h.log[j].Remote? && w == (s.h.log[j].orig, s.h.log[j].serial)
  }

  /** Each remote write is in exactly one packet, forwarded or not, or applied at exactly one place of the log; and
      there it is the write that its sender sent under that serial. */
  ghost predicate WriteOnce(s: State, w: (NodeId, int)) {
    || (exists k: nat ::
          && WriteIn(s, w, k) && (forall k': nat :: WriteIn(s, w, k') ==> k' == k)
          && (forall j: nat :: !WriteAt(s, w, j))
          && Carries(s, w.0, w.1, s.net[k].msg.w))
    || (exists j: nat ::
          && WriteAt(s, w, j) && (forall j': nat :: WriteAt(s, w, j') ==> j' == j)
          && (forall k: nat :: !WriteIn(s, w, k))
          && Carries(s, w.0, w.1, s.h.log[j].w))
  }

  lemma OneWritePlace(c: Config, s: State, w: (NodeId, int))
    requires WritesOk(c, s, {}) && w in s.h.writes
    ensures WriteOnce(s, w)
  {
    assert WriteHere(s, w);
    match s.h.writes[w]
    case InFlight(k) => assert WriteIn(s, w, k);
    case AppliedAt(j) => assert WriteAt(s, w, j);
  }

  lemma EachWriteOnce(c: Config, run: seq<Choice>, w: (NodeId, int))
    requires Sane(c) && After(c, run).stop.Running? && w in After(c, run).h.writes
    ensures WriteOnce(After(c, run), w)
  {
    Safe(c, run);
    OneWritePlace(c, After(c, run), w);
  }

  // ---------------------------------------------------------------- local writes

  /** The store begun by a user that the use count counts finds its node RESP, whatever happens in between: only
      other stores are ever lost. */
  lemma HeldStoresLand(c: Config, run: seq<Choice>)
    requires Sane(c) && After(c, run).stop.Running?
    ensures var s := After(c, run);
      && (forall id :: id in s.stores && s.stores[id].held ==> IsResp(s, s.stores[id].node))
      && (forall j :: 0 <= j < |s.h.lost| ==> !s.h.lost[j].held)
  {
    Safe(c, run);
    var s := After(c, run);
    forall id | id in s.stores && s.stores[id].held ensures IsResp(s, s.stores[id].node) { UnheldAt(c, s, id); }
  }

  /** The write has become the last one the authoritative content went through, or it is lost. */
  ghost predicate Landed(s: State, s': State, w: Write) { s'.h.log == s.h.log + [Local(w)] && s'.h.lost == s.h.lost }

  ghost predicate IsLost(s: State, s': State, x: Store) { s'.h.log == s.h.log && s'.h.lost == s.h.lost + [x] }

  /** A request that arrives between the check and the store. */
  ghost predicate Overtakes(c: Config, s: State, id: nat, k: nat, th: nat) {
    && CanDeliver(c, s, k, th) && s.net[k].msg.RWReq? && id in s.stores && s.net[k].to == s.stores[id].node
    && IsResp(s, s.net[k].to)
  }

  lemma StepStores(c: Config, s: State, id: nat)
    requires s.stop.Running? && id in s.stores && s.stores[id].node < |s.nodes|
    ensures var s' := Step(c, s, StoreNow(id)); var x := s.stores[id];
      if s.nodes[x.node].hdr.status == RESP then Landed(s, s', x.w) else IsLost(s, s', x)
  {
    ActNone(Storing(s, id), s.stores[id].node, StoredNode(s.nodes[s.stores[id].node], s.stores[id].w));
  }

  lemma StepRequests(c: Config, s: State, k: nat, th: nat)
    requires Good(c, s, false, map[], {}, {}) && CanDeliver(c, s, k, th) && s.net[k].msg.RWReq?
      && IsResp(s, s.net[k].to)
    ensures var s' := Step(c, s, Deliver(k, th));
      && s'.stop.Running? && s'.stores == s.stores && |s'.nodes| == |s.nodes| && s'.h.log == s.h.log
      && s'.h.lost == s.h.lost
      && (IsResp(s', s.net[k].to) <==> s.nodes[s.net[k].to].hdr.usecount > 0)
  {
    var i := s.net[k].to;
    assert NodeOk(c, s.nodes[i]);
    StepDelivers(c, s, k, th);
    Dispatch(c, s, k, th);
    var o := Delivery(c, s, k, th);
    if s.nodes[i].hdr.usecount > 0 {
      ActNone(Without(s, k), i, o.node);
    } else {
      ActOne(Without(s, k), i, o.node, o.out[0]);
    }
  }

  /** A store made right after a request for responsibility has arrived lands if and only if the page is in use. */
  lemma StoreLandsIffInUse(c: Config, run: seq<Choice>, id: nat, k: nat, th: nat)
    requires Sane(c) && Overtakes(c, After(c, run), id, k, th)
    ensures var s := After(c, run); var s' := Step(c, Step(c, s, Deliver(k, th)), StoreNow(id)); var x := s.stores[id];
      if s.nodes[x.node].hdr.usecount > 0 then Landed(s, s', x.w) else IsLost(s, s', x)
  {
    Safe(c, run);
    StepRequests(c, After(c, run), k, th);
    StepStores(c, Step(c, After(c, run), Deliver(k, th)), id);
  }

  // ---------------------------------------------------------------- when a node stops being responsible

  /** Node i, RESP, gives the responsibility up: a request arrives at use count zero, or the last user lets go while
      a transfer waits. */
  ghost predicate GivesUp(c: Config, s: State, ch: Choice, i: NodeId) {
    && s.stop.Running? && IsResp(s, i)
    && match ch
       case Deliver(k, th) =>
         CanDeliver(c, s, k, th) && s.net[k].to == i && s.net[k].msg.RWReq? && s.nodes[i].hdr.usecount == 0
       case LetGo(j) =>
         j == i && s.nodes[i].hdr.usecount == 1 && HeldAt(s.stores, i) == {} && s.nodes[i].ev.zero != []
       case _ => false
  }

  /** A transfer arrives at node i. */
  ghost predicate TakesOver(c: Config, s: State, ch: Choice, i: NodeId) {
    ch.Deliver? && CanDeliver(c, s, ch.k, ch.th) && s.net[ch.k].to == i && s.net[ch.k].msg.RespTransfer?
  }

  lemma {:induction false} PostAllNodes(s: State, i: NodeId, out: seq<Packet>)
    ensures PostAll(s, i, out).nodes == s.nodes
    decreases |out|
  {
    if out != [] { PostAllNodes(Post(s, i, out[0]), i, out[1..]); }
  }

  /** A handler changes no node but its own. */
  lemma ActNodes(s: State, i: NodeId, o: Outcome)
    requires i < |s.nodes|
    ensures Act(s, i, o).nodes == if o.Ok? then s.nodes[i := o.node] else s.nodes
  {
    if o.Ok? { PostAllNodes(Settle(s, i, o.node), i, o.out); }
  }

  /** After a handler at node j, node i is RESP if and only if it was, or the handler made it so. */
  ghost predicate Becomes(s: State, s': State, i: NodeId, j: NodeId, resp: bool) {
    |s'.nodes| == |s.nodes| && (IsResp(s', i) <==> if i == j then resp else IsResp(s, i))
  }

  lemma ActBecomes(s: State, i: NodeId, j: NodeId, o: Outcome)
    requires j < |s.nodes|
    ensures Becomes(s, Act(s, j, o), i, j, if o.Ok? then o.node.hdr.status == RESP else IsResp(s, j))
  {
    ActNodes(s, j, o);
  }

  lemma DeliveryBecomes(c: Config, s: State, k: nat, th: nat)
    requires Good(c, s, false, map[], {}, {}) && CanDeliver(c, s, k, th)
    ensures var o := Delivery(c, s, k, th); var j := s.net[k].to;
      (if o.Ok? then o.node.hdr.status == RESP else IsResp(s, j)) <==>
      (IsResp(s, j) && !GivesUp(c, s, Deliver(k, th), j)) || TakesOver(c, s, Deliver(k, th), j)
  {
    var m := s.net[k];
    Dispatch(c, s, k, th);
    if Calm(m.msg) {
      CalmHandle(EnvOf(c, m.to, th), s.nodes[m.to], m.from, m.msg);
    } else if m.msg.RespTransfer? {
      TransferLands(c, s, k);
    }
  }

  /** While a transfer is in flight no node is RESP. */
  lemma TransferLands(c: Config, s: State, k: nat)
    requires TokenOk(s, false) && k in s.net && s.net[k].msg.RespTransfer?
    ensures forall i: NodeId :: !IsResp(s, i)
  {
  }

  lemma ReleaseBecomes(c: Config, s: State, i: NodeId)
    requires Good(c, s, false, map[], {}, {}) && i < |s.nodes| && s.nodes[i].hdr.usecount > |HeldAt(s.stores, i)|
    ensures var o := Release(EnvOf(c, i, 0), s.nodes[i]);
      o.Ok? && (o.node.hdr.status == RESP <==> !GivesUp(c, s, LetGo(i), i))
  {
    var n := s.nodes[i];
    assert NodeOk(c, n);
    if n.hdr.usecount == 1 && n.ev.zero != [] { ReleaseAtZero(c, EnvOf(c, i, 0), n); }
  }

  /** What a step does to the responsibility of node i. */
  ghost predicate Follows(c: Config, s: State, ch: Choice, i: NodeId) {
    IsResp(Step(c, s, ch), i) <==> (IsResp(s, i) && !GivesUp(c, s, ch, i)) || TakesOver(c, s, ch, i)
  }

  lemma DeliverFollows(c: Config, s: State, k: nat, th: nat, i: NodeId)
    requires Good(c, s, false, map[], {}, {})
    ensures Follows(c, s, Deliver(k, th), i)
  {
    if CanDeliver(c, s, k, th) {
      StepDelivers(c, s, k, th);
      ActBecomes(Without(s, k), i, s.net[k].to, Delivery(c, s, k, th));
      DeliveryBecomes(c, s, k, th);
    }
  }

  lemma LetGoFollows(c: Config, s: State, j: NodeId, i: NodeId)
    requires Good(c, s, false, map[], {}, {})
    ensures Follows(c, s, LetGo(j), i)
  {
    if j < |s.nodes| && s.nodes[j].hdr.usecount > |HeldAt(s.stores, j)| {
      StepLetsGo(c, s, j);
      ActBecomes(s, i, j, Release(EnvOf(c, j, 0), s.nodes[j]));
      ReleaseBecomes(c, s, j);
      assert NodeOk(c, s.nodes[j]);
    }
  }

  /** A call by a task at node j that keeps its node RESP or not RESP. */
  lemma CallFollows(s: State, s': State, i: NodeId, j: NodeId, o: Outcome)
    requires j < |s.nodes| && s'.nodes == s.nodes && (o.Ok? ==> (o.node.hdr.status == RESP <==> IsResp(s, j)))
    ensures IsResp(Act(s', j, o), i) <==> IsResp(s, i)
  {
    ActBecomes(s', i, j, o);
  }

  lemma CallsFollow(c: Config, s: State, ch: Choice, i: NodeId)
    requires Good(c, s, false, map[], {}, {}) && !ch.Deliver? && !ch.LetGo?
    ensures Follows(c, s, ch, i)
  {
    match ch
    case AskData(j) => if j < |s.nodes| { CallFollows(s, s, i, j, RequestData(EnvOf(c, j, 0), s.nodes[j])); }
    case AskResp(j) => AskFollows(c, s, j, i);
    case Check(_, _, _) =>
    case StoreNow(id) => StoreFollows(c, s, id, i);
    case WriteRemotely(j, th, tx, w) => RemoteFollows(c, s, j, th, tx, w, i);
    case StartPublish(j, th, tx, count) => PublishFollows(c, s, j, th, tx, count, i);
  }

  lemma AskFollows(c: Config, s: State, j: NodeId, i: NodeId)
    ensures Follows(c, s, AskResp(j), i)
  {
    if j < |s.nodes| { CallFollows(s, Asking(s, j), i, j, RequestResp(EnvOf(c, j, 0), s.nodes[j], |s.h.asked|)); }
  }

  lemma RemoteFollows(c: Config, s: State, j: NodeId, th: nat, tx: Tx, w: Write, i: NodeId)
    ensures Follows(c, s, WriteRemotely(j, th, tx, w), i)
  {
    if j < |s.nodes| { CallFollows(s, s, i, j, RemoteWrite(EnvOf(c, j, th), s.nodes[j], tx, w)); }
  }

  lemma StoreFollows(c: Config, s: State, id: nat, i: NodeId)
    ensures Follows(c, s, StoreNow(id), i)
  {
    if id in s.stores && s.stores[id].node < |s.nodes| {
      var x := s.stores[id];
      CallFollows(s, Storing(s, id), i, x.node, Ok(StoredNode(s.nodes[x.node], x.w), []));
    }
  }

  lemma PublishFollows(c: Config, s: State, j: NodeId, th: nat, tx: Tx, count: nat, i: NodeId)
    ensures Follows(c, s, StartPublish(j, th, tx, count), i)
  {
    if j < |s.nodes| {
      CalmPublish(EnvOf(c, j, th), s.nodes[j], tx, count);
      CallFollows(s, s, i, j, Publish(EnvOf(c, j, th), s.nodes[j], tx, count));
    }
  }

  /** Exactly which steps move the responsibility, over all steps from all reachable states: node i is RESP after a
      step if and only if it was and did not give it up, or a transfer has arrived there. */
  lemma RespFollows(c: Config, run: seq<Choice>, ch: Choice, i: NodeId)
    requires Sane(c) && After(c, run).stop.Running?
    ensures Follows(c, After(c, run), ch, i)
  {
    Safe(c, run);
    var s := After(c, run);
    if ch.Deliver? { DeliverFollows(c, s, ch.k, ch.th, i); }
    else if ch.LetGo? { LetGoFollows(c, s, ch.i, i); }
    else { CallsFollow(c, s, ch, i); }
  }

  // ---------------------------------------------------------------- exactly which stores are lost

  /** Since step k node i has given the responsibility up, and no transfer has come back. */
  ghost predicate GoneSince(c: Config, run: seq<Choice>, k: nat, i: NodeId) {
    exists j :: k <= j < |run| && GivesUpAt(c, run, j, i) && forall l :: j < l < |run| ==> !TakesOverAt(c, run, l, i)
  }

  ghost predicate GivesUpAt(c: Config, run: seq<Choice>, j: int, i: NodeId) {
    0 <= j < |run| && GivesUp(c, After(c, run[..j]), run[j], i)
  }

  ghost predicate TakesOverAt(c: Config, run: seq<Choice>, j: int, i: NodeId) {
    0 <= j < |run| && TakesOver(c, After(c, run[..j]), run[j], i)
  }

  lemma GoneStep(c: Config, run: seq<Choice>, ch: Choice, k: nat, i: NodeId)
    requires k <= |run|
    ensures GoneSince(c, run + [ch], k, i) <==>
      GivesUp(c, After(c, run), ch, i) || (GoneSince(c, run, k, i) && !TakesOver(c, After(c, run), ch, i))
  {
    var run' := run + [ch];
    assert run'[..|run|] == run;
    forall j | 0 <= j < |run|
      ensures (GivesUpAt(c, run', j, i) <==> GivesUpAt(c, run, j, i))
           && (TakesOverAt(c, run', j, i) <==> TakesOverAt(c, run, j, i))
    {
      assert run'[..j] == run[..j];
    }
    assert GivesUpAt(c, run', |run|, i) <==> GivesUp(c, After(c, run), ch, i);
    assert TakesOverAt(c, run', |run|, i) <==> TakesOver(c, After(c, run), ch, i);
  }

  lemma {:induction false} RespUnlessGone(c: Config, run: seq<Choice>, k: nat, i: NodeId)
    requires Sane(c) && k <= |run| && After(c, run).stop.Running? && IsResp(After(c, run[..k]), i)
    ensures IsResp(After(c, run), i) <==> !GoneSince(c, run, k, i)
    decreases |run|
  {
    if k == |run| {
      assert run[..k] == run;
    } else {
      var before, ch := run[..|run| - 1], run[|run| - 1];
      assert before[..k] == run[..k] && run == before + [ch];
      RespUnlessGone(c, before, k, i);
      RespFollows(c, before, ch, i);
      GoneStep(c, before, ch, k, i);
    }
  }

  /** A store is lost if and only if, since a moment when its node was RESP (its check is one), the node has given
      the responsibility up, whether to a request that arrived at use count zero or when its last user let go, and
      has not got it back. */
  lemma StoreIsLostIff(c: Config, run: seq<Choice>, k: nat, id: nat)
    requires Sane(c) && k <= |run| && After(c, run).stop.Running? && id in After(c, run).stores
    requires IsResp(After(c, run[..k]), After(c, run).stores[id].node)
    ensures var s := After(c, run); var s' := Step(c, s, StoreNow(id)); var x := s.stores[id];
      if GoneSince(c, run, k, x.node) then IsLost(s, s', x) else Landed(s, s', x.w)
  {
    var s := After(c, run);
    Safe(c, run);
    RespUnlessGone(c, run, k, s.stores[id].node);
    StepStores(c, s, id);
  }

  // ---------------------------------------------------------------- the directory of a transfer

  /** The directory after a transfer lists the sender, now an ordinary sharer, and every sharer the sender listed
      (but the new responsible node) if and only if the sender had listed itself and nobody else but the target. */
  lemma TransferKeepsDirectory(e: Env, n: Node, e': Env, n': Node, tag: nat)
    requires n.hdr.status == RESP && n.hdr.usecount == 0 && n'.hdr.status != RESP && n'.shared == []
      && e.self != e'.self
    ensures var o := DoRespTransfer(e, n, e'.self, tag);
      && o.Ok? && |o.out| == 1 && o.out[0].msg.RespTransfer?
      && var o' := OnRespTransfer(e', n', o.out[0].msg.sharers, o.out[0].msg.content);
      && o'.Ok? && (forall x :: x in o'.node.shared ==> x == e.self && x in n.shared)
      && ((e.self in o'.node.shared && forall x :: x in n.shared && x != e'.self ==> x in o'.node.shared) <==>
          (e.self in n.shared && forall x :: x in n.shared ==> x == e.self || x == e'.self))
  {
    var sharers := if e.self in n.shared then [e.self] else [];
    assert sharers != [] ==> Others(sharers, e'.self) == [e.self] + Others(sharers[1..], e'.self);
  }

  /** Only the RESP node has a directory. */
  lemma DirectoryAtResp(c: Config, run: seq<Choice>, i: nat)
    requires Sane(c) && After(c, run).stop.Running? && i < |After(c, run).nodes| && After(c, run).nodes[i].shared != []
    ensures IsResp(After(c, run), i)
  {
    Safe(c, run);
    assert NodeOk(c, After(c, run).nodes[i]);
  }

  ghost predicate ReqIn(s: State, t: nat, k: nat) { k in s.net && s.net[k].msg.RWReq? && s.net[k].msg.tag == t }

  ghost predicate ReqWaits(s: State, t: nat, i: nat, j: nat) {
    i < |s.nodes| && j < |s.nodes[i].ev.zero| && s.nodes[i].ev.zero[j].tag == t
  }

  ghost predicate ReqAnswered(s: State, t: nat, j: nat) {
    j < |s.h.answers| && s.h.answers[j].0 == t
  }

  /** Each responsibility request is exactly one of: an RWReq in flight, one closure waiting for usecount zero,
      or answered, by one transfer and to the node that made it. */
  ghost predicate RequestOnce(s: State, t: nat)
    requires t in s.h.asked
  {
    || (exists k: nat ::
          && ReqIn(s, t, k) && (forall k': nat :: ReqIn(s, t, k') ==> k' == k)
          && (forall i: nat, j: nat :: !ReqWaits(s, t, i, j)) && (forall j: nat :: !ReqAnswered(s, t, j)))
    || (exists i: nat, j: nat ::
          && ReqWaits(s, t, i, j) && (forall i': nat, j': nat :: ReqWaits(s, t, i', j') ==> i' == i && j' == j)
          && (forall k: nat :: !ReqIn(s, t, k)) && (forall j': nat :: !ReqAnswered(s, t, j')))
    || (exists j: nat ::
          && ReqAnswered(s, t, j) && (forall j': nat :: ReqAnswered(s, t, j') ==> j' == j)
          && (forall k: nat :: !ReqIn(s, t, k)) && (forall i: nat, j': nat :: !ReqWaits(s, t, i, j'))
          && s.h.answers[j].1 == s.h.asked[t])
  }

  lemma OnePlace(s: State, t: nat)
    requires ReqsOk(s, {}) && t in s.h.asked
    ensures RequestOnce(s, t)
  {
    assert ReqHere(s, t);
    match s.h.reqs[t]
    case InNet(k) => assert ReqIn(s, t, k);
    case Waiting(i, j) => assert ReqWaits(s, t, i, j);
    case Answered(j) => assert ReqAnswered(s, t, j);
  }

  lemma EachRequestOnce(c: Config, run: seq<Choice>, t: nat)
    requires Sane(c) && After(c, run).stop.Running? && t in After(c, run).h.asked
    ensures RequestOnce(After(c, run), t)
  {
    Safe(c, run);
    OnePlace(After(c, run), t);
  }
}
