/** What the choices of a home run ask for is what happens: publications are the calls that began them, the log of the
    home is what was written, and each step belongs to one node. */
module HomeCalls {
  import opened Protocol
  import opened Handlers
  import opened Home
  import opened Publication
  import opened HomeViews
  import opened HomeSafety

  // ---------------------------------------------------------------- publications

  /** Choice j of the run began this publication: by a call at its node, with these writes, when home's log was so
      long. */
  ghost predicate BegunAt(c: Config, run: seq<Choice>, j: int, tx: Tx, job: Job) {
    0 <= j < |run| &&
    var s := After(c, run[..j]);
    && s.stop.Running? && run[j].Begin? && tx == Tx(run[j].i, s.next)
    && job.ws == run[j].ws && job.at == LogLength(c, s)
  }

  lemma BegunLonger(c: Config, run: seq<Choice>, j: int, tx: Tx, job: Job)
    requires run != [] && BegunAt(c, run[..|run| - 1], j, tx, job)
    ensures BegunAt(c, run, j, tx, job)
  {
    assert run[..|run| - 1][..j] == run[..j];
  }

  lemma ActJobs(s: State, taken: State, i: NodeId, o: Outcome)
    requires i < |taken.nodes|
    ensures Act(s, taken, i, o).jobs == if o.Ok? then taken.jobs else s.jobs
  {
    if o.Ok? { SendElse(taken.(nodes := taken.nodes[i := o.node]), i, o.out); }
  }

  /** A step begins a publication, or notes the serial of a write of one. */
  ghost predicate JobsFollow(c: Config, s: State, s': State, ch: Choice) {
    forall tx :: tx in s'.jobs ==>
      || (tx in s.jobs && s'.jobs[tx].ws == s.jobs[tx].ws && s'.jobs[tx].at == s.jobs[tx].at)
      || (ch.Begin? && tx == Tx(ch.i, s.next) && s'.jobs[tx] == Job(ch.ws, [], LogLength(c, s)))
  }

  lemma JobsStep(c: Config, s: State, ch: Choice)
    requires s.stop.Running?
    ensures JobsFollow(c, s, Step(c, s, ch), ch)
  {
    match ch
    case Deliver(a, b, th) =>
      if b < |s.nodes| && th < c.threads && Chan(s, a, b) != [] {
        ActJobs(s, Take(s, a, b), b, Handle(EnvOf(c, b, th), s.nodes[b], a, Chan(s, a, b)[0]));
      }
    case Read(i) => if i < |s.nodes| { ActJobs(s, s, i, RequestData(EnvOf(c, i, 0), s.nodes[i])); }
    case AskResp(i) =>
      if i < |s.nodes| { ActJobs(s, s.(next := s.next + 1), i, RequestResp(EnvOf(c, i, 0), s.nodes[i], s.next)); }
    case WriteLocally(i, w) => if i < |s.nodes| { ActJobs(s, s, i, Ok(LocalWrite(s.nodes[i], w), [])); }
    case Begin(i, th, ws) =>
      if i < |s.nodes| && th < c.threads && (s.nodes[i].hdr.status == RESP ==> ws == []) {
        StepBegins(c, s, i, th, ws);
        ActJobs(s, BeginTaken(c, s, i, ws), i, Protocol.Publish(EnvOf(c, i, th), s.nodes[i], Tx(i, s.next), |ws|));
      }
    case SendWrite(tx, th) =>
      if MaySend(c, s, tx, th) {
        StepSends(c, s, tx, th);
        ActJobs(s, SendTaken(s, tx, th), tx.node,
          RemoteWrite(EnvOf(c, tx.node, th), s.nodes[tx.node], tx, s.jobs[tx].ws[|s.jobs[tx].serials|]));
      }
    case Tick(i, th) =>
      if i < |s.nodes| && th < |s.nodes[i].ser.write| {
        ActJobs(s, s, i, Ok(s.nodes[i].(ser := TickSerials(s.nodes[i].ser, th)), []));
      }
  }

  /** A publication is a call of `process_commits`: it makes the writes it was begun with. */
  lemma {:induction false} JobsAreBegun(c: Config, run: seq<Choice>, tx: Tx) returns (j: int)
    requires tx in After(c, run).jobs
    ensures BegunAt(c, run, j, tx, After(c, run).jobs[tx])
  {
    var before, ch := run[..|run| - 1], run[|run| - 1];
    var s, s' := After(c, before), After(c, run);
    if s.stop.Running? { JobsStep(c, s, ch); }
    if tx in s.jobs && s'.jobs[tx].ws == s.jobs[tx].ws && s'.jobs[tx].at == s.jobs[tx].at {
      j := JobsAreBegun(c, before, tx);
      BegunLonger(c, run, j, tx, s'.jobs[tx]);
    } else {
      j := |run| - 1;
    }
  }

  lemma BegunStep(c: Config, s: State, i: NodeId, th: nat, ws: seq<Write>)
    requires s.stop.Running? && i < |s.nodes| && th < c.threads && (s.nodes[i].hdr.status == RESP ==> ws == [])
    ensures var s' := Step(c, s, Begin(i, th, ws));
      s'.stop.Running? ==> Tx(i, s.next) in s'.jobs && s'.jobs[Tx(i, s.next)].ws == ws
  {
    var o := Protocol.Publish(EnvOf(c, i, th), s.nodes[i], Tx(i, s.next), |ws|);
    StepBegins(c, s, i, th, ws);
    ActJobs(s, BeginTaken(c, s, i, ws), i, o);
  }

  /** Every such call is a new publication; at home a task has written in place, and publishes no remote writes. */
  lemma BegunIsJob(c: Config, run: seq<Choice>, i: NodeId, th: nat, ws: seq<Write>)
    requires Sane(c) && After(c, run).stop.Running? && i < c.numNodes && th < c.threads && (i == c.owner ==> ws == [])
    ensures var s, s' := After(c, run), Step(c, After(c, run), Begin(i, th, ws)); var tx := Tx(i, s.next);
      tx !in s.jobs && (s'.stop.Running? ==> tx in s'.jobs && s'.jobs[tx].ws == ws)
  {
    Safe(c, run);
    RespIsOwner(c, After(c, run), i);
    BeginTakenJobs(c, After(c, run), i, ws);
    BegunStep(c, After(c, run), i, th, ws);
  }

  lemma RespIsOwner(c: Config, s: State, i: NodeId)
    requires Inv(c, s) && i < c.numNodes
    ensures |s.nodes| == c.numNodes && (s.nodes[i].hdr.status == RESP <==> i == c.owner)
  {
    if i != c.owner { assert FarGood(c, i, ViewOf(c, s, i), s.jobs); }
  }

  // ---------------------------------------------------------------- the log

  lemma ActHome(c: Config, s: State, taken: State, i: NodeId, o: Outcome)
    requires i < |s.nodes| && taken.nodes == s.nodes && c.owner < |s.nodes|
    ensures Act(s, taken, i, o).nodes == if o.Ok? then s.nodes[i := o.node] else s.nodes
    ensures Act(s, taken, i, o).stop == if o.Ok? then taken.stop else Stopped(o.why, i)
  {
    if o.Ok? { SendElse(taken.(nodes := taken.nodes[i := o.node]), i, o.out); }
  }

  /** What a step adds to the home's log: a write delivered there, or one made there. */
  ghost function Logged(c: Config, s: State, ch: Choice): seq<Applied>
    requires c.owner < |s.nodes|
  {
    match ch
    case Deliver(a, b, th) =>
      if b == c.owner && th < c.threads && Chan(s, a, b) != [] then LoggedBy(s.nodes[b], Chan(s, a, b)[0]) else []
    case WriteLocally(i, w) => if i == c.owner then [Local(w)] else []
    case _ => []
  }

  ghost predicate LogFollows(c: Config, s: State, s': State, ch: Choice)
    requires c.owner < |s.nodes|
  {
    && |s'.nodes| == |s.nodes|
    && (s'.stop.Running? ==> s'.nodes[c.owner].tr.log == s.nodes[c.owner].tr.log + Logged(c, s, ch))
    && (s'.stop.Stopped? ==> s'.nodes == s.nodes)
  }

  lemma DeliverLogs(c: Config, s: State, a: NodeId, b: NodeId, th: nat)
    requires Inv(c, s) && s.stop.Running? && c.owner < |s.nodes|
    ensures LogFollows(c, s, Step(c, s, Deliver(a, b, th)), Deliver(a, b, th))
  {
    if b < |s.nodes| && th < c.threads && Chan(s, a, b) != [] {
      var m := Chan(s, a, b)[0];
      StepDelivers(c, s, a, b, th);
      ActHome(c, s, Take(s, a, b), b, Handle(EnvOf(c, b, th), s.nodes[b], a, m));
      if b == c.owner { HandleKeeps(EnvOf(c, b, th), s.nodes[b], a, m); }
    }
  }

  lemma WriteLogs(c: Config, s: State, i: NodeId, w: Write)
    requires Inv(c, s) && s.stop.Running? && c.owner < |s.nodes|
    ensures LogFollows(c, s, Step(c, s, WriteLocally(i, w)), WriteLocally(i, w))
  {
    if i < |s.nodes| {
      RespIsOwner(c, s, i);
      ActHome(c, s, s, i, Ok(LocalWrite(s.nodes[i], w), []));
    }
  }

  /** The other calls log nothing. */
  lemma CallLogs(c: Config, s: State, ch: Choice)
    requires s.stop.Running? && c.owner < |s.nodes| && !ch.Deliver? && !ch.WriteLocally?
    ensures LogFollows(c, s, Step(c, s, ch), ch)
  {
    match ch
    case Read(i) => if i < |s.nodes| { ActHome(c, s, s, i, RequestData(EnvOf(c, i, 0), s.nodes[i])); }
    case AskResp(i) =>
      if i < |s.nodes| { ActHome(c, s, s.(next := s.next + 1), i, RequestResp(EnvOf(c, i, 0), s.nodes[i], s.next)); }
    case Begin(i, th, ws) =>
      if i < |s.nodes| && th < c.threads && (s.nodes[i].hdr.status == RESP ==> ws == []) {
        var tx := Tx(i, s.next);
        StepBegins(c, s, i, th, ws);
        CalmPublish(EnvOf(c, i, th), s.nodes[i], tx, |ws|);
        ActHome(c, s, BeginTaken(c, s, i, ws), i, Protocol.Publish(EnvOf(c, i, th), s.nodes[i], tx, |ws|));
      }
    case SendWrite(tx, th) =>
      if MaySend(c, s, tx, th) {
        StepSends(c, s, tx, th);
        ActHome(c, s, SendTaken(s, tx, th), tx.node,
          RemoteWrite(EnvOf(c, tx.node, th), s.nodes[tx.node], tx, s.jobs[tx].ws[|s.jobs[tx].serials|]));
      }
    case Tick(i, th) =>
      if i < |s.nodes| && th < |s.nodes[i].ser.write| {
        ActHome(c, s, s, i, Ok(s.nodes[i].(ser := TickSerials(s.nodes[i].ser, th)), []));
      }
  }

  lemma LogStep(c: Config, s: State, ch: Choice)
    requires Inv(c, s) && s.stop.Running? && c.owner < |s.nodes|
    ensures LogFollows(c, s, Step(c, s, ch), ch)
  {
    match ch
    case Deliver(a, b, th) => DeliverLogs(c, s, a, b, th);
    case WriteLocally(i, w) => WriteLogs(c, s, i, w);
    case _ => CallLogs(c, s, ch);
  }

  /** Choice j of the run is the write of this entry: a local write at home, or the delivery there of a remote write. */
  ghost predicate LoggedAt(c: Config, run: seq<Choice>, j: int, a: Applied) {
    0 <= j < |run| &&
    match a
    case Local(w) => run[j] == WriteLocally(c.owner, w)
    case Remote(orig, serial, w) =>
      && run[j].Deliver? && run[j].b == c.owner
      && Chan(After(c, run[..j]), run[j].a, c.owner) != []
      && Chan(After(c, run[..j]), run[j].a, c.owner)[0] == RWrite(orig, serial, w)
  }

  lemma LoggedLonger(c: Config, run: seq<Choice>, j: int, a: Applied)
    requires run != [] && LoggedAt(c, run[..|run| - 1], j, a)
    ensures LoggedAt(c, run, j, a)
  {
    assert run[..|run| - 1][..j] == run[..j];
  }

  lemma HomeStays(c: Config, run: seq<Choice>)
    requires Sane(c)
    ensures c.owner < |After(c, run).nodes| == c.numNodes
  {
    Safe(c, run);
  }

  lemma {:induction false} LogIsLogged(c: Config, run: seq<Choice>, k: nat) returns (j: int)
    requires Sane(c) && c.owner < |After(c, run).nodes| && k < |After(c, run).nodes[c.owner].tr.log|
    ensures LoggedAt(c, run, j, After(c, run).nodes[c.owner].tr.log[k])
  {
    NothingLogged(c);
    var before, ch := run[..|run| - 1], run[|run| - 1];
    var s, a := After(c, before), After(c, run).nodes[c.owner].tr.log[k];
    HomeStays(c, before);
    Safe(c, before);
    if s.stop.Running? { LogStep(c, s, ch); }
    if k < |s.nodes[c.owner].tr.log| {
      j := LogIsLogged(c, before, k);
      LoggedLonger(c, run, j, a);
    } else {
      j := |run| - 1;
    }
  }

  lemma NothingLogged(c: Config)
    requires Sane(c)
    ensures Init(c).nodes[c.owner].tr.log == []
  {
    assert Init(c).nodes[c.owner] == FreshNode(c, true);
  }

  /** The write is one of a publication of the node that it names. */
  ghost predicate Publishes(s: State, tx: Tx, i: nat, a: Applied) {
    && a.Remote? && tx in s.jobs && tx.node == a.orig && i < |s.jobs[tx].serials| <= |s.jobs[tx].ws|
    && s.jobs[tx].serials[i] == a.serial && s.jobs[tx].ws[i] == a.w
  }

  lemma SenderIsFar(c: Config, s: State, n: NodeId)
    requires Inv(c, s) && Chan(s, n, c.owner) != [] && Chan(s, n, c.owner)[0].RWrite?
    ensures IsFar(c, n) && Chan(s, n, c.owner)[0].orig == n
  {
    HeadIsUp(c, s, n);
  }

  lemma LoggedIsPublished(c: Config, s: State, a: Applied) returns (tx: Tx, i: nat)
    requires Inv(c, s) && a in s.nodes[c.owner].tr.log && a.Remote? && IsFar(c, a.orig)
    ensures Publishes(s, tx, i, a)
  {
    var far := s.nodes[a.orig];
    assert FarGood(c, a.orig, ViewOf(c, s, a.orig), s.jobs);
    assert Remote(a.orig, a.serial, a.w) in s.nodes[c.owner].tr.log;
    tx := far.tr.sent[a.serial].tx;
    assert JobOk(far, tx, s.jobs[tx]);
    i :| i < |s.jobs[tx].serials| && s.jobs[tx].serials[i] == a.serial;
  }

  /** The home's page goes through what was written, and only that: every local write in its log is one that was made
      there, and every remote write is one of a publication, as it was begun, of the node that the entry names. */
  lemma LogIsWritten(c: Config, run: seq<Choice>, k: nat) returns (j: int, tx: Tx, i: nat)
    requires Sane(c) && c.owner < |After(c, run).nodes| && k < |After(c, run).nodes[c.owner].tr.log|
    ensures var s := After(c, run); var a := s.nodes[c.owner].tr.log[k];
      match a
      case Local(w) => 0 <= j < |run| && run[j] == WriteLocally(c.owner, w)
      case Remote(_, _, _) =>
        Publishes(s, tx, i, a) && BegunAt(c, run, j, tx, s.jobs[tx])
  {
    var s := After(c, run);
    var a := s.nodes[c.owner].tr.log[k];
    j := LogIsLogged(c, run, k);
    if a.Local? {
      tx, i := Tx(0, 0), 0;
    } else {
      Safe(c, run[..j]);
      SenderIsFar(c, After(c, run[..j]), run[j].a);
      Safe(c, run);
      tx, i := LoggedIsPublished(c, s, a);
      j := JobsAreBegun(c, run, tx);
    }
  }

  /** A step appends exactly the write it delivers to the home, or makes there. */
  lemma LogGrowsByWrites(c: Config, run: seq<Choice>, ch: Choice)
    requires Sane(c) && After(c, run).stop.Running?
    ensures c.owner < |After(c, run).nodes| && LogFollows(c, After(c, run), Step(c, After(c, run), ch), ch)
  {
    Safe(c, run);
    LogStep(c, After(c, run), ch);
  }

  // ---------------------------------------------------------------- each step belongs to one node

  /** The node whose step this is. */
  ghost function Actor(ch: Choice): NodeId {
    match ch
    case Deliver(_, b, _) => b
    case Read(i) => i
    case AskResp(i) => i
    case WriteLocally(i, _) => i
    case Begin(i, _, _) => i
    case SendWrite(tx, _) => tx.node
    case Tick(i, _) => i
  }

  /** From s to s', only node i has changed, and only channels that leave it have got longer; a step that delivers takes
      the first message of its channel. */
  ghost predicate OnlyAt(s: State, s': State, i: NodeId, taken: State) {
    && |s'.nodes| == |s.nodes| && (forall x :: 0 <= x < |s.nodes| && x != i ==> s'.nodes[x] == s.nodes[x])
    && (forall a, b :: a != i ==> Chan(s', a, b) == Chan(taken, a, b))
    && (forall b :: Chan(taken, i, b) <= Chan(s', i, b))
  }

  lemma ActLocal(s: State, taken: State, i: NodeId, o: Outcome)
    requires i < |s.nodes| && taken.nodes == s.nodes && Act(s, taken, i, o).stop.Running?
    ensures OnlyAt(s, Act(s, taken, i, o), i, taken)
  {
    var next := taken.(nodes := taken.nodes[i := o.node]);
    SendElse(next, i, o.out);
    forall a, b ensures Chan(Send(next, i, o.out), a, b) == Chan(taken, a, b) + if a == i then To(o.out, b) else [] {
      SendChan(next, i, o.out, a, b);
    }
  }

  lemma CallLocal(c: Config, s: State, ch: Choice)
    requires s.stop.Running? && Step(c, s, ch).stop.Running? && !ch.Deliver?
    ensures OnlyAt(s, Step(c, s, ch), Actor(ch), s)
  {
    match ch
    case Read(i) => if i < |s.nodes| { CalledLocal(s, s, i, RequestData(EnvOf(c, i, 0), s.nodes[i])); }
    case AskResp(i) =>
      if i < |s.nodes| { CalledLocal(s, s.(next := s.next + 1), i, RequestResp(EnvOf(c, i, 0), s.nodes[i], s.next)); }
    case WriteLocally(i, w) => if i < |s.nodes| { CalledLocal(s, s, i, Ok(LocalWrite(s.nodes[i], w), [])); }
    case Begin(i, th, ws) =>
      if i < |s.nodes| && th < c.threads && (s.nodes[i].hdr.status == RESP ==> ws == []) {
        StepBegins(c, s, i, th, ws);
        CalledLocal(s, BeginTaken(c, s, i, ws), i,
          Protocol.Publish(EnvOf(c, i, th), s.nodes[i], Tx(i, s.next), |ws|));
      }
    case SendWrite(tx, th) =>
      if MaySend(c, s, tx, th) {
        StepSends(c, s, tx, th);
        CalledLocal(s, SendTaken(s, tx, th), tx.node,
          RemoteWrite(EnvOf(c, tx.node, th), s.nodes[tx.node], tx, s.jobs[tx].ws[|s.jobs[tx].serials|]));
      }
    case Tick(i, th) =>
      if i < |s.nodes| && th < |s.nodes[i].ser.write| {
        CalledLocal(s, s, i, Ok(s.nodes[i].(ser := TickSerials(s.nodes[i].ser, th)), []));
      }
  }

  lemma CalledLocal(s: State, taken: State, i: NodeId, o: Outcome)
    requires i < |s.nodes| && taken.nodes == s.nodes && taken.chan == s.chan
    ensures Act(s, taken, i, o).stop.Running? ==> OnlyAt(s, Act(s, taken, i, o), i, s)
  {
    if Act(s, taken, i, o).stop.Running? {
      ActLocal(s, taken, i, o);
      forall a, b ensures Chan(taken, a, b) == Chan(s, a, b) { }
    }
  }

  /** A message is handled at the node it is addressed to and is then gone, a task's call runs at the node of the task:
      no other node changes, no other message disappears, and every new one comes from that node. */
  lemma StepIsLocal(c: Config, s: State, ch: Choice)
    requires s.stop.Running? && Step(c, s, ch).stop.Running?
    ensures OnlyAt(s, Step(c, s, ch), Actor(ch),
      if ch.Deliver? && ch.b < |s.nodes| && ch.th < c.threads && Chan(s, ch.a, ch.b) != []
      then Take(s, ch.a, ch.b) else s)
  {
    match ch
    case Deliver(a, b, th) =>
      if b < |s.nodes| && th < c.threads && Chan(s, a, b) != [] {
        StepDelivers(c, s, a, b, th);
        ActLocal(s, Take(s, a, b), b, Handle(EnvOf(c, b, th), s.nodes[b], a, Chan(s, a, b)[0]));
      }
    case _ => CallLocal(c, s, ch);
  }
}
