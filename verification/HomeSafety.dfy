/** Every run of a home system: the invariant, and what it says about the directory, the copies, the checks that
    stop a run, and publication. */
module HomeSafety {
  import opened Protocol
  import opened SerialNumbers
  import opened Home
  import opened HomeHandlers
  import opened Coherence
  import opened Publication
  import opened Invalidation
  import opened HomeViews

  // ---------------------------------------------------------------- the invariant

  function ViewOf(c: Config, s: State, n: NodeId): View
    requires c.owner < |s.nodes| && n < |s.nodes|
  {
    View(s.nodes[n], s.nodes[c.owner], Chan(s, n, c.owner), Chan(s, c.owner, n))
  }

  ghost predicate Star(c: Config, s: State) {
    forall a, b :: Chan(s, a, b) != [] ==> (a == c.owner && IsFar(c, b)) || (b == c.owner && IsFar(c, a))
  }

  ghost predicate AllGood(c: Config, s: State) {
    && c.owner < |s.nodes| == c.numNodes
    && forall n {:trigger ViewOf(c, s, n)} :: IsFar(c, n) ==> FarGood(c, n, ViewOf(c, s, n), s.jobs)
  }

  ghost predicate Inv(c: Config, s: State) {
    Sane(c) && AllGood(c, s) && HomeGood(c, s.nodes[c.owner], s.jobs, s.next) && Star(c, s)
  }

  /** Only one check can stop a run: a Data arriving at a valid copy, at a node that home answered while it was
      already in the directory. */
  ghost predicate StopOk(c: Config, s: State) {
    s.stop.Stopped? ==>
      && s.stop.why == OverwritingValid && IsFar(c, s.stop.at)
      && c.owner < |s.nodes| && s.stop.at in s.nodes[c.owner].tr.twice
  }

  // ---------------------------------------------------------------- a node that is not the home acts

  /** Only the publications of node n have changed. */
  ghost predicate JobsOf(n: NodeId, jobs: map<Tx, Job>, jobs': map<Tx, Job>) {
    && (forall tx: Tx :: tx.node != n ==> (tx in jobs' <==> tx in jobs))
    && (forall tx: Tx :: tx.node != n && tx in jobs ==> jobs'[tx] == jobs[tx])
  }

  lemma OtherJobs(c: Config, n: NodeId, m: NodeId, v: View, jobs: map<Tx, Job>, jobs': map<Tx, Job>)
    requires FarGood(c, m, v, jobs) && JobsOf(n, jobs, jobs') && m != n
    ensures FarGood(c, m, v, jobs')
  {
    forall tx | tx in jobs' && tx.node == m ensures JobOk(v.far, tx, jobs'[tx]) { assert JobOk(v.far, tx, jobs[tx]); }
    forall k | k in v.far.tr.sent ensures v.far.tr.sent[k].tx in jobs' && k in jobs'[v.far.tr.sent[k].tx].serials {
      assert v.far.tr.sent[k].tx.node == m;
    }
    forall tx | tx in jobs' && tx.node == m && tx in v.far.tr.asks && SendAck(m, v.far.tr.asks[tx]) in v.home.tr.waits
      ensures Swept(v.home, tx, jobs'[tx])
    {
      assert Swept(v.home, tx, jobs[tx]);
    }
  }

  lemma OtherHomeJobs(c: Config, n: NodeId, home: Node, jobs: map<Tx, Job>, jobs': map<Tx, Job>)
    requires HomeJobsOk(c, home, jobs) && JobsOf(n, jobs, jobs') && n != c.owner
    ensures HomeJobsOk(c, home, jobs')
  {
    forall tx | tx in jobs' && tx.node == c.owner ensures HomeJobOk(home, tx, jobs'[tx]) {
      assert HomeJobOk(home, tx, jobs[tx]);
    }
  }

  /** The channels of `taken` are those of s, except the one from home to node i. */
  ghost predicate TakenAt(c: Config, s: State, taken: State, i: NodeId) {
    && taken.nodes == s.nodes
    && forall a: NodeId, b: NodeId :: (a, b) != (c.owner, i) ==> Chan(taken, a, b) == Chan(s, a, b)
  }

  lemma FarChannels(c: Config, s: State, taken: State, i: NodeId, far': Node, out: seq<Packet>, a: NodeId, b: NodeId)
    requires TakenAt(c, s, taken, i) && AllTo(out, c.owner) && i < |s.nodes| && i != c.owner
    ensures Chan(Send(taken.(nodes := taken.nodes[i := far']), i, out), a, b) ==
      if (a, b) == (i, c.owner) then Chan(s, i, c.owner) + To(out, c.owner)
      else if (a, b) == (c.owner, i) then Chan(taken, c.owner, i) else Chan(s, a, b)
  {
    var t := taken.(nodes := taken.nodes[i := far']);
    SendChan(t, i, out, a, b);
    assert Chan(t, a, b) == Chan(taken, a, b);
    if a == i && b != c.owner { ToOthers(out, c.owner, b); }
  }

  lemma FarActsViews(c: Config, s: State, taken: State, i: NodeId, far': Node, out: seq<Packet>)
    requires AllGood(c, s) && IsFar(c, i) && TakenAt(c, s, taken, i) && AllTo(out, c.owner)
      && JobsOf(i, s.jobs, taken.jobs)
    requires FarGood(
      c, i, View(far', s.nodes[c.owner], Chan(s, i, c.owner) + To(out, c.owner), Chan(taken, c.owner, i)), taken.jobs)
    ensures AllGood(c, Send(taken.(nodes := taken.nodes[i := far']), i, out))
  {
    var s' := Send(taken.(nodes := taken.nodes[i := far']), i, out);
    SendElse(taken.(nodes := taken.nodes[i := far']), i, out);
    forall n: NodeId | IsFar(c, n) ensures FarGood(c, n, ViewOf(c, s', n), s'.jobs) {
      FarChannels(c, s, taken, i, far', out, n, c.owner);
      FarChannels(c, s, taken, i, far', out, c.owner, n);
      if n != i { OtherJobs(c, i, n, ViewOf(c, s, n), s.jobs, taken.jobs); }
    }
  }

  lemma FarActsStar(c: Config, s: State, taken: State, i: NodeId, far': Node, out: seq<Packet>)
    requires Star(c, s) && |s.nodes| == c.numNodes && IsFar(c, i) && TakenAt(c, s, taken, i) && AllTo(out, c.owner)
    ensures Star(c, Send(taken.(nodes := taken.nodes[i := far']), i, out))
  {
    var s' := Send(taken.(nodes := taken.nodes[i := far']), i, out);
    forall a, b | Chan(s', a, b) != [] ensures (a == c.owner && IsFar(c, b)) || (b == c.owner && IsFar(c, a)) {
      FarChannels(c, s, taken, i, far', out, a, b);
    }
  }

  lemma FarActs(c: Config, s: State, taken: State, i: NodeId, far': Node, out: seq<Packet>)
    requires Inv(c, s) && IsFar(c, i) && TakenAt(c, s, taken, i) && AllTo(out, c.owner)
    requires JobsOf(i, s.jobs, taken.jobs) && JobsKnown(c, s.nodes[c.owner], taken.jobs, taken.next)
    requires FarGood(
      c, i, View(far', s.nodes[c.owner], Chan(s, i, c.owner) + To(out, c.owner), Chan(taken, c.owner, i)), taken.jobs)
    ensures Inv(c, Send(taken.(nodes := taken.nodes[i := far']), i, out))
  {
    SendElse(taken.(nodes := taken.nodes[i := far']), i, out);
    OtherHomeJobs(c, i, s.nodes[c.owner], s.jobs, taken.jobs);
    FarActsStar(c, s, taken, i, far', out);
    FarActsViews(c, s, taken, i, far', out);
  }

  // ---------------------------------------------------------------- the home acts

  ghost predicate TakenFrom(c: Config, s: State, taken: State) {
    && taken.nodes == s.nodes
    && (forall a: NodeId, b: NodeId :: b != c.owner ==> Chan(taken, a, b) == Chan(s, a, b))
    && (forall a: NodeId, b: NodeId :: Chan(taken, a, b) != [] ==> Chan(s, a, b) != [])
  }

  ghost predicate AllFar(c: Config, out: seq<Packet>) { forall i :: 0 <= i < |out| ==> IsFar(c, out[i].to) }

  lemma {:induction false} ToSomeone(c: Config, out: seq<Packet>, b: NodeId)
    requires AllFar(c, out)
    ensures To(out, b) != [] ==> IsFar(c, b)
  {
    if out != [] { ToSomeone(c, out[1..], b); }
  }

  /** What the home may do: run on, keeping the invariant of every view, and sending only to other nodes. */
  ghost predicate HomeResult(c: Config, s: State, taken: State, o: Outcome) {
    && o.Ok? && AllFar(c, o.out) && c.owner < |s.nodes| == c.numNodes && HomeGood(c, o.node, taken.jobs, taken.next)
    && ViewsGood(c, s, taken, o)
  }

  ghost predicate ViewsGood(c: Config, s: State, taken: State, o: Outcome)
    requires o.Ok? && |s.nodes| == c.numNodes
  {
    forall n {:trigger HomeView(c, s, taken, o, n)} ::
      IsFar(c, n) ==> FarGood(c, n, HomeView(c, s, taken, o, n), taken.jobs)
  }

  ghost function HomeView(c: Config, s: State, taken: State, o: Outcome, n: NodeId): View
    requires o.Ok? && n < |s.nodes|
  {
    View(s.nodes[n], o.node, Chan(taken, n, c.owner), Chan(s, c.owner, n) + To(o.out, n))
  }

  lemma HomeChannels(c: Config, s: State, taken: State, home': Node, out: seq<Packet>, a: NodeId, b: NodeId)
    requires TakenFrom(c, s, taken) && c.owner < |s.nodes|
    ensures Chan(Send(taken.(nodes := taken.nodes[c.owner := home']), c.owner, out), a, b) ==
      Chan(taken, a, b) + (if a == c.owner then To(out, b) else [])
  {
    var t := taken.(nodes := taken.nodes[c.owner := home']);
    SendChan(t, c.owner, out, a, b);
    assert Chan(t, a, b) == Chan(taken, a, b);
  }

  lemma HomeStar(c: Config, s: State, taken: State, home': Node, out: seq<Packet>)
    requires Star(c, s) && TakenFrom(c, s, taken) && AllFar(c, out) && c.owner < |s.nodes|
    ensures Star(c, Send(taken.(nodes := taken.nodes[c.owner := home']), c.owner, out))
  {
    var s' := Send(taken.(nodes := taken.nodes[c.owner := home']), c.owner, out);
    forall a: NodeId, b: NodeId | Chan(s', a, b) != []
      ensures (a == c.owner && IsFar(c, b)) || (b == c.owner && IsFar(c, a))
    {
      HomeChannels(c, s, taken, home', out, a, b);
      ToSomeone(c, out, b);
      assert Chan(taken, a, b) != [] ==> Chan(s, a, b) != [];
    }
  }

  lemma HomeActs(c: Config, s: State, taken: State, o: Outcome)
    requires Inv(c, s) && TakenFrom(c, s, taken) && HomeResult(c, s, taken, o)
    ensures Inv(c, Send(taken.(nodes := taken.nodes[c.owner := o.node]), c.owner, o.out))
  {
    var s' := Send(taken.(nodes := taken.nodes[c.owner := o.node]), c.owner, o.out);
    SendElse(taken.(nodes := taken.nodes[c.owner := o.node]), c.owner, o.out);
    HomeStar(c, s, taken, o.node, o.out);
    forall n: NodeId | IsFar(c, n) ensures FarGood(c, n, ViewOf(c, s', n), s'.jobs) {
      HomeViewIs(c, s, taken, o, n);
    }
  }

  lemma HomeViewIs(c: Config, s: State, taken: State, o: Outcome, n: NodeId)
    requires o.Ok? && IsFar(c, n) && c.owner < |s.nodes| == c.numNodes && TakenFrom(c, s, taken)
    ensures |Send(taken.(nodes := taken.nodes[c.owner := o.node]), c.owner, o.out).nodes| == c.numNodes
    ensures ViewOf(c, Send(taken.(nodes := taken.nodes[c.owner := o.node]), c.owner, o.out), n) ==
      HomeView(c, s, taken, o, n)
  {
    SendElse(taken.(nodes := taken.nodes[c.owner := o.node]), c.owner, o.out);
    HomeChannels(c, s, taken, o.node, o.out, n, c.owner);
    HomeChannels(c, s, taken, o.node, o.out, c.owner, n);
  }

  lemma TakeUp(c: Config, s: State, n: NodeId)
    requires Inv(c, s) && IsFar(c, n) && Chan(s, n, c.owner) != []
    ensures TakenFrom(c, s, Take(s, n, c.owner))
    ensures forall m ::
      Chan(Take(s, n, c.owner), m, c.owner) == if m == n then Chan(s, n, c.owner)[1..] else Chan(s, m, c.owner)
  {
    forall a: NodeId, b: NodeId
      ensures Chan(Take(s, n, c.owner), a, b) ==
        if (a, b) == (n, c.owner) then Chan(s, n, c.owner)[1..] else Chan(s, a, b)
    {
      TakeChan(s, n, c.owner, a, b);
    }
  }

  // ---------------------------------------------------------------- messages at the home

  /** The channel from node m to home once the first message from n has been taken. */
  function Rest(up: seq<Msg>, m: NodeId, n: NodeId): seq<Msg> {
    if m == n && up != [] then up[1..] else up
  }

  lemma TakenView(c: Config, s: State, n: NodeId, o: Outcome, m: NodeId)
    requires Chan(s, n, c.owner) != [] && c.owner < |s.nodes| && m < |s.nodes| && o.Ok?
    ensures HomeView(c, s, Take(s, n, c.owner), o, m) ==
      View(s.nodes[m], o.node, Rest(Chan(s, m, c.owner), m, n), Chan(s, c.owner, m) + To(o.out, m))
  {
    TakeChan(s, n, c.owner, m, c.owner);
  }

  lemma ReadView(c: Config, n: NodeId, m: NodeId, v: View, home': Node, jobs: map<Tx, Job>)
    requires FarGood(c, m, v, jobs) && HomeOk(c, v.home) && (m == n ==> v.up != [] && v.up[0].DataReq?)
    requires Answers(n, v.home, home') && SameDuties(v.home, home') && home'.ev.zero == v.home.ev.zero
    ensures FarGood(c, m, View(v.far, home', Rest(v.up, m, n), v.dn + To([Packet(n, Data(v.home.content))], m)), jobs)
  {
    ToOne(Packet(n, Data(v.home.content)), m);
    if m == n {
      ReadSender(c, n, v, home', jobs);
    } else {
      ReadOther(c, n, m, v, home', jobs);
      assert v.dn + [] == v.dn;
    }
  }

  lemma HomeReads(c: Config, s: State, e: Env, n: NodeId)
    requires AllGood(c, s) && HomeGood(c, s.nodes[c.owner], s.jobs, s.next) && IsFar(c, n)
    requires Chan(s, n, c.owner) != [] && Chan(s, n, c.owner)[0] == DataReq(n)
    ensures HomeResult(c, s, Take(s, n, c.owner), OnDataReq(e, s.nodes[c.owner], n))
  {
    ReadHome(c, s.nodes[c.owner], OnDataReq(e, s.nodes[c.owner], n).node, n, s.jobs, s.next);
    HomeReadsViews(c, s, e, n);
  }

  lemma HomeReadsViews(c: Config, s: State, e: Env, n: NodeId)
    requires AllGood(c, s) && HomeOk(c, s.nodes[c.owner]) && Chan(s, n, c.owner) != []
      && Chan(s, n, c.owner)[0] == DataReq(n)
    ensures ViewsGood(c, s, Take(s, n, c.owner), OnDataReq(e, s.nodes[c.owner], n))
  {
    var o := OnDataReq(e, s.nodes[c.owner], n);
    forall m: NodeId | IsFar(c, m) ensures FarGood(c, m, HomeView(c, s, Take(s, n, c.owner), o, m), s.jobs) {
      HomeReadsView(c, s, e, n, m);
    }
  }

  lemma HomeReadsView(c: Config, s: State, e: Env, n: NodeId, m: NodeId)
    requires c.owner < |s.nodes| && m < |s.nodes| && Chan(s, n, c.owner) != [] && Chan(s, n, c.owner)[0] == DataReq(n)
    requires FarGood(c, m, ViewOf(c, s, m), s.jobs) && HomeOk(c, s.nodes[c.owner])
    ensures FarGood(c, m, HomeView(c, s, Take(s, n, c.owner), OnDataReq(e, s.nodes[c.owner], n), m), s.jobs)
  {
    var o := OnDataReq(e, s.nodes[c.owner], n);
    ReadView(c, n, m, ViewOf(c, s, m), o.node, s.jobs);
    TakenView(c, s, n, o, m);
  }

  lemma WriteView(c: Config, n: NodeId, m: NodeId, v: View, k: int, w: Write, jobs: map<Tx, Job>)
    requires FarGood(c, m, v, jobs) && HomeOk(c, v.home) && (m == n ==> v.up != [] && v.up[0] == RWrite(n, k, w))
    ensures FarGood(c, m, View(v.far, AppliedNode(v.home, Remote(n, k, w)), Rest(v.up, m, n),
                               v.dn + To([Packet(n, RWriteAck(k))], m)), jobs)
  {
    ToOne(Packet(n, RWriteAck(k)), m);
    if m == n {
      WriteSender(c, n, v, k, w, jobs);
    } else {
      WriteOther(c, m, v, Remote(n, k, w), jobs);
      assert v.dn + [] == v.dn;
    }
  }

  /** The home sends no data and answers nobody. */
  ghost predicate Discreet(home: Node, o: Outcome) {
    o.Ok? && (forall i :: 0 <= i < |o.out| ==> !o.out[i].msg.Data?) && o.node.tr.twice == home.tr.twice
  }

  lemma WriteIs(e: Env, home: Node, n: NodeId, k: int, w: Write)
    requires home.hdr.status == RESP
    ensures OnRWrite(e, home, n, k, w) == Ok(AppliedNode(home, Remote(n, k, w)), [Packet(n, RWriteAck(k))])
    ensures Discreet(home, OnRWrite(e, home, n, k, w))
  {
  }

  lemma HomeWrites(c: Config, s: State, e: Env, n: NodeId, k: int, w: Write)
    requires Inv(c, s) && IsFar(c, n) && Chan(s, n, c.owner) != [] && Chan(s, n, c.owner)[0] == RWrite(n, k, w)
    ensures HomeResult(c, s, Take(s, n, c.owner), OnRWrite(e, s.nodes[c.owner], n, k, w))
    ensures Discreet(s.nodes[c.owner], OnRWrite(e, s.nodes[c.owner], n, k, w))
  {
    WriteIs(e, s.nodes[c.owner], n, k, w);
    WrittenResult(c, s, n, k, w);
  }

  lemma WrittenResult(c: Config, s: State, n: NodeId, k: int, w: Write)
    requires AllGood(c, s) && HomeGood(c, s.nodes[c.owner], s.jobs, s.next) && IsFar(c, n)
    requires Chan(s, n, c.owner) != [] && Chan(s, n, c.owner)[0] == RWrite(n, k, w)
    ensures HomeResult(
      c, s, Take(s, n, c.owner), Ok(AppliedNode(s.nodes[c.owner], Remote(n, k, w)), [Packet(n, RWriteAck(k))]))
  {
    WriteHome(c, s.nodes[c.owner], Remote(n, k, w), s.jobs, s.next);
    HomeWritesViews(c, s, n, k, w);
  }

  lemma HomeWritesViews(c: Config, s: State, n: NodeId, k: int, w: Write)
    requires AllGood(c, s) && HomeOk(c, s.nodes[c.owner]) && Chan(s, n, c.owner) != []
      && Chan(s, n, c.owner)[0] == RWrite(n, k, w)
    ensures ViewsGood(
      c, s, Take(s, n, c.owner), Ok(AppliedNode(s.nodes[c.owner], Remote(n, k, w)), [Packet(n, RWriteAck(k))]))
  {
    var o := Ok(AppliedNode(s.nodes[c.owner], Remote(n, k, w)), [Packet(n, RWriteAck(k))]);
    forall m: NodeId | IsFar(c, m) ensures FarGood(c, m, HomeView(c, s, Take(s, n, c.owner), o, m), s.jobs) {
      HomeWritesView(c, s, n, k, w, m);
    }
  }

  lemma HomeWritesView(c: Config, s: State, n: NodeId, k: int, w: Write, m: NodeId)
    requires c.owner < |s.nodes| && m < |s.nodes| && Chan(s, n, c.owner) != []
      && Chan(s, n, c.owner)[0] == RWrite(n, k, w)
    requires FarGood(c, m, ViewOf(c, s, m), s.jobs) && HomeOk(c, s.nodes[c.owner])
    ensures var o := Ok(AppliedNode(s.nodes[c.owner], Remote(n, k, w)), [Packet(n, RWriteAck(k))]);
      FarGood(c, m, HomeView(c, s, Take(s, n, c.owner), o, m), s.jobs)
  {
    WriteView(c, n, m, ViewOf(c, s, m), k, w, s.jobs);
    TakenView(c, s, n, Ok(AppliedNode(s.nodes[c.owner], Remote(n, k, w)), [Packet(n, RWriteAck(k))]), m);
  }

  lemma HomeWaits(c: Config, s: State, e: Env, n: NodeId, tag: nat)
    requires Inv(c, s) && IsFar(c, n) && Chan(s, n, c.owner) != [] && Chan(s, n, c.owner)[0] == RWReq(n, tag)
    ensures HomeResult(c, s, Take(s, n, c.owner), OnRWReq(e, s.nodes[c.owner], n, tag))
    ensures Discreet(s.nodes[c.owner], OnRWReq(e, s.nodes[c.owner], n, tag))
  {
    var home := s.nodes[c.owner];
    RequestWaits(e, home, n, tag);
    WaitHome(c, home, n, tag, s.jobs, s.next);
    forall m: NodeId | IsFar(c, m)
      ensures FarGood(c, m, HomeView(c, s, Take(s, n, c.owner), Ok(Waiting(home, n, tag), []), m), s.jobs)
    {
      HomeWaitsView(c, s, n, tag, m);
    }
  }

  lemma HomeWaitsView(c: Config, s: State, n: NodeId, tag: nat, m: NodeId)
    requires c.owner < |s.nodes| && m < |s.nodes| && Chan(s, n, c.owner) != []
      && Chan(s, n, c.owner)[0] == RWReq(n, tag)
    requires FarGood(c, m, ViewOf(c, s, m), s.jobs)
    ensures FarGood(c, m, HomeView(c, s, Take(s, n, c.owner), Ok(Waiting(s.nodes[c.owner], n, tag), []), m), s.jobs)
  {
    TakenView(c, s, n, Ok(Waiting(s.nodes[c.owner], n, tag), []), m);
    NothingTo(s, c.owner, m);
    if m == n {
      WaitSender(c, n, ViewOf(c, s, m), tag, s.jobs);
    } else {
      WaitOther(c, n, m, ViewOf(c, s, m), tag, s.jobs);
    }
  }

  lemma BegunGoesFar(c: Config, e: Env, home: Node, x: Closure)
    requires HomeOk(c, home) && NewClosure(c, home, x)
    ensures AllFar(c, BegunOut(e, home, x)) && Discreet(home, Ok(Begun(e, home, x), BegunOut(e, home, x)))
  {
  }

  lemma ServesIs(c: Config, s: State, e: Env, n: NodeId, q: int)
    requires Inv(c, s) && IsFar(c, n) && EnvAt(c, e, c.owner)
    requires Chan(s, n, c.owner) != [] && Chan(s, n, c.owner)[0] == AskInv(n, q)
    ensures var home := s.nodes[c.owner]; var x := SendAck(n, q);
      NewClosure(c, home, x) && OnAskInv(e, home, n, q) == Ok(Begun(e, home, x), BegunOut(e, home, x))
  {
    var home := s.nodes[c.owner];
    var x := SendAck(n, q);
    AskIsNewAtHome(c, n, ViewOf(c, s, n), q, s.jobs);
    InvalidateIs(e, WithClosure(home, x, 1), x);
  }

  lemma ServesView(c: Config, s: State, e: Env, n: NodeId, q: int, m: NodeId)
    requires c.owner < |s.nodes| && IsFar(c, m) && m < |s.nodes| && FarGood(c, m, ViewOf(c, s, m), s.jobs)
    requires HomeGood(c, s.nodes[c.owner], s.jobs, s.next) && IsFar(c, n) && EnvAt(c, e, c.owner)
    requires Chan(s, n, c.owner) != [] && Chan(s, n, c.owner)[0] == AskInv(n, q)
      && NewClosure(c, s.nodes[c.owner], SendAck(n, q))
    ensures var home := s.nodes[c.owner]; var x := SendAck(n, q);
      FarGood(c, m, HomeView(c, s, Take(s, n, c.owner), Ok(Begun(e, home, x), BegunOut(e, home, x)), m), s.jobs)
  {
    var home := s.nodes[c.owner];
    var x := SendAck(n, q);
    TakenView(c, s, n, Ok(Begun(e, home, x), BegunOut(e, home, x)), m);
    if m == n {
      AskSender(c, e, n, ViewOf(c, s, n), q, s.jobs, s.next);
    } else {
      BegunOther(c, e, m, ViewOf(c, s, m), x, s.jobs);
    }
  }

  lemma HomeServes(c: Config, s: State, e: Env, n: NodeId, q: int)
    requires Inv(c, s) && IsFar(c, n) && EnvAt(c, e, c.owner)
    requires Chan(s, n, c.owner) != [] && Chan(s, n, c.owner)[0] == AskInv(n, q)
    ensures HomeResult(c, s, Take(s, n, c.owner), OnAskInv(e, s.nodes[c.owner], n, q))
    ensures Discreet(s.nodes[c.owner], OnAskInv(e, s.nodes[c.owner], n, q))
  {
    var home := s.nodes[c.owner];
    var x := SendAck(n, q);
    ServesIs(c, s, e, n, q);
    BegunGoesFar(c, e, home, x);
    ServedHome(c, e, home, x, s.jobs, s.next);
    forall m: NodeId | IsFar(c, m)
      ensures FarGood(c, m, HomeView(c, s, Take(s, n, c.owner), Ok(Begun(e, home, x), BegunOut(e, home, x)), m), s.jobs)
    {
      ServesView(c, s, e, n, q, m);
    }
  }

  lemma ServedHome(c: Config, e: Env, home: Node, x: Closure, jobs: map<Tx, Job>, next: nat)
    requires HomeGood(c, home, jobs, next) && NewClosure(c, home, x) && x.SendAck? && e.th < c.threads
    ensures HomeGood(c, Begun(e, home, x), jobs, next)
  {
    BegunHome(c, e, home, x);
    BegunClosures(c, e, home, x);
    BegunHomeJobs(c, e, home, x, jobs);
  }

  lemma CountsIs(c: Config, s: State, e: Env, n: NodeId, q: int) returns (x: Closure)
    requires Inv(c, s) && IsFar(c, n) && EnvAt(c, e, c.owner)
    requires Chan(s, n, c.owner) != [] && Chan(s, n, c.owner)[0] == AckInv(q)
    ensures var home := s.nodes[c.owner]; var o := OnAckInv(e, home, n, q);
      && o.Ok? && Counts(home, o.node, q, x) && o.out == AckCountedOut(home, x) && Discreet(home, o)
      && Waits(home, q, n)
  {
    var home := s.nodes[c.owner];
    assert FarGood(c, n, ViewOf(c, s, n), s.jobs);
    AckIsExpected(c, n, home, Chan(s, n, c.owner), Chan(s, c.owner, n), q);
    x := home.ev.invs[q][0].c;
    assert home.ev.invs[q] == [Continuer(x)];
    HomeAckIs(e, home, n, q, x);
  }

  /** The counted serial was sent to one node only. */
  lemma OneHolder(c: Config, s: State, q: int, m: NodeId, n: NodeId)
    requires c.owner < |s.nodes| && Waits(s.nodes[c.owner], q, n)
    ensures Waits(s.nodes[c.owner], q, m) <==> m == n
  {
  }

  lemma HomeCounts(c: Config, s: State, e: Env, n: NodeId, q: int)
    requires Inv(c, s) && IsFar(c, n) && EnvAt(c, e, c.owner)
    requires Chan(s, n, c.owner) != [] && Chan(s, n, c.owner)[0] == AckInv(q)
    ensures HomeResult(c, s, Take(s, n, c.owner), OnAckInv(e, s.nodes[c.owner], n, q))
    ensures Discreet(s.nodes[c.owner], OnAckInv(e, s.nodes[c.owner], n, q))
  {
    var x := CountsIs(c, s, e, n, q);
    var o := OnAckInv(e, s.nodes[c.owner], n, q);
    CountedHomeGood(c, s.nodes[c.owner], o.node, q, x, s.jobs, s.next);
    forall m: NodeId | IsFar(c, m) ensures FarGood(c, m, HomeView(c, s, Take(s, n, c.owner), o, m), s.jobs) {
      CountsView(c, s, n, q, x, o, m);
    }
  }

  lemma CountsView(c: Config, s: State, n: NodeId, q: int, x: Closure, o: Outcome, m: NodeId)
    requires c.owner < |s.nodes| && m < |s.nodes| && FarGood(c, m, ViewOf(c, s, m), s.jobs)
    requires HomeOk(c, s.nodes[c.owner]) && ClosuresOk(c, s.nodes[c.owner]) && Waits(s.nodes[c.owner], q, n)
    requires Chan(s, n, c.owner) != [] && Chan(s, n, c.owner)[0] == AckInv(q)
    requires o.Ok? && Counts(s.nodes[c.owner], o.node, q, x) && o.out == AckCountedOut(s.nodes[c.owner], x)
    ensures FarGood(c, m, HomeView(c, s, Take(s, n, c.owner), o, m), s.jobs)
  {
    TakenView(c, s, n, o, m);
    OneHolder(c, s, q, m, n);
    CountedView(c, m, ViewOf(c, s, m), o.node, q, x, Rest(Chan(s, m, c.owner), m, n), s.jobs);
  }

  lemma CountedHomeGood(c: Config, home: Node, h: Node, q: int, x: Closure, jobs: map<Tx, Job>, next: nat)
    requires HomeGood(c, home, jobs, next) && Counts(home, h, q, x)
    ensures HomeGood(c, h, jobs, next) && AllFar(c, AckCountedOut(home, x))
  {
    CountedHome(c, home, h, q, x);
    CountedOk(c, home, h, q, x);
    CountedHomeJobs(c, home, h, q, x, jobs);
    assert ClosureOk(home, Continuer(x)) && ClosureOk(home, x);
  }

  /** What the home does with a message from node n. */
  ghost predicate HomeDoes(c: Config, s: State, n: NodeId, m: Msg, o: Outcome)
    requires c.owner < |s.nodes| && Chan(s, n, c.owner) != []
  {
    HomeResult(c, s, Take(s, n, c.owner), o) && (!m.DataReq? ==> Discreet(s.nodes[c.owner], o))
  }

  lemma HomeTakesRead(c: Config, s: State, e: Env, n: NodeId, m: Msg)
    requires Inv(c, s) && IsFar(c, n) && Chan(s, n, c.owner) != [] && Chan(s, n, c.owner)[0] == m && m == DataReq(n)
    ensures HomeDoes(c, s, n, m, Handle(e, s.nodes[c.owner], n, m))
  {
    HomeReads(c, s, e, n);
    HandleIs(e, s.nodes[c.owner], n, m);
  }

  lemma HomeTakesWrite(c: Config, s: State, e: Env, n: NodeId, m: Msg)
    requires Inv(c, s) && IsFar(c, n) && Chan(s, n, c.owner) != [] && Chan(s, n, c.owner)[0] == m && m.RWrite?
      && m.orig == n
    ensures HomeDoes(c, s, n, m, Handle(e, s.nodes[c.owner], n, m))
  {
    HomeWrites(c, s, e, n, m.serial, m.w);
    HandleIs(e, s.nodes[c.owner], n, m);
  }

  lemma HomeTakesAsk(c: Config, s: State, e: Env, n: NodeId, m: Msg)
    requires Inv(c, s) && IsFar(c, n) && EnvAt(c, e, c.owner)
    requires Chan(s, n, c.owner) != [] && Chan(s, n, c.owner)[0] == m && m.AskInv? && m.orig == n
    ensures HomeDoes(c, s, n, m, Handle(e, s.nodes[c.owner], n, m))
  {
    HomeServes(c, s, e, n, m.serial);
    HandleIs(e, s.nodes[c.owner], n, m);
  }

  lemma HomeTakesAck(c: Config, s: State, e: Env, n: NodeId, m: Msg)
    requires Inv(c, s) && IsFar(c, n) && EnvAt(c, e, c.owner)
    requires Chan(s, n, c.owner) != [] && Chan(s, n, c.owner)[0] == m && m.AckInv?
    ensures HomeDoes(c, s, n, m, Handle(e, s.nodes[c.owner], n, m))
  {
    HomeCounts(c, s, e, n, m.serial);
    HandleIs(e, s.nodes[c.owner], n, m);
  }

  lemma HomeTakesRequest(c: Config, s: State, e: Env, n: NodeId, m: Msg)
    requires Inv(c, s) && IsFar(c, n)
    requires Chan(s, n, c.owner) != [] && Chan(s, n, c.owner)[0] == m && m.RWReq? && m.orig == n
    ensures HomeDoes(c, s, n, m, Handle(e, s.nodes[c.owner], n, m))
  {
    HomeWaits(c, s, e, n, m.tag);
    HandleIs(e, s.nodes[c.owner], n, m);
  }

  lemma HomeTakes(c: Config, s: State, e: Env, n: NodeId)
    requires Inv(c, s) && IsFar(c, n) && EnvAt(c, e, c.owner) && Chan(s, n, c.owner) != []
    ensures HomeDoes(c, s, n, Chan(s, n, c.owner)[0], Handle(e, s.nodes[c.owner], n, Chan(s, n, c.owner)[0]))
  {
    var m := Chan(s, n, c.owner)[0];
    HeadIsUp(c, s, n);
    if m.DataReq? { HomeTakesRead(c, s, e, n, m); }
    else if m.RWrite? { HomeTakesWrite(c, s, e, n, m); }
    else if m.AskInv? { HomeTakesAsk(c, s, e, n, m); }
    else if m.RWReq? { HomeTakesRequest(c, s, e, n, m); }
    else { HomeTakesAck(c, s, e, n, m); }
  }

  lemma HeadIsUp(c: Config, s: State, n: NodeId)
    requires Inv(c, s) && IsFar(c, n) && Chan(s, n, c.owner) != []
    ensures var m := Chan(s, n, c.owner)[0];
      && (m.DataReq? || m.RWrite? || m.AskInv? || m.RWReq? || m.AckInv?)
      && (m.DataReq? || m.RWrite? || m.AskInv? || m.RWReq? ==> m.orig == n)
  {
    assert FarGood(c, n, ViewOf(c, s, n), s.jobs) && UpMsg(n, s.nodes[n], Chan(s, n, c.owner)[0]);
  }

  // ---------------------------------------------------------------- calls by tasks at the home

  lemma Untaken(c: Config, s: State, taken: State)
    requires c.owner < |s.nodes| && taken.nodes == s.nodes && taken.chan == s.chan
    ensures TakenFrom(c, s, taken) && forall i :: TakenAt(c, s, taken, i)
  {
    forall a, b ensures Chan(taken, a, b) == Chan(s, a, b) { }
  }

  lemma NothingTo(s: State, a: NodeId, b: NodeId)
    ensures Chan(s, a, b) + To([], b) == Chan(s, a, b)
  {
  }

  lemma HomeWritesLocally(c: Config, s: State, w: Write)
    requires Inv(c, s)
    ensures HomeResult(c, s, s, Ok(LocalWrite(s.nodes[c.owner], w), []))
  {
    var home := s.nodes[c.owner];
    var o := Ok(LocalWrite(home, w), []);
    WriteHome(c, home, Local(w), s.jobs, s.next);
    forall m: NodeId | IsFar(c, m) ensures FarGood(c, m, HomeView(c, s, s, o, m), s.jobs) {
      WriteOther(c, m, ViewOf(c, s, m), Local(w), s.jobs);
      NothingTo(s, c.owner, m);
    }
  }

  lemma HomeTicks(c: Config, s: State, th: nat)
    requires Inv(c, s) && th < c.threads
    ensures HomeResult(c, s, s, Ok(s.nodes[c.owner].(ser := TickSerials(s.nodes[c.owner].ser, th)), []))
  {
    var home := s.nodes[c.owner];
    var o := Ok(home.(ser := TickSerials(home.ser, th)), []);
    TickHome(c, th, home, s.jobs, s.next);
    forall m: NodeId | IsFar(c, m) ensures FarGood(c, m, HomeView(c, s, s, o, m), s.jobs) {
      TickOther(c, m, ViewOf(c, s, m), o.node, s.jobs);
      NothingTo(s, c.owner, m);
    }
  }

  lemma HomeBegins(c: Config, s: State, e: Env, taken: State, tx: Tx)
    requires Inv(c, s) && EnvAt(c, e, c.owner) && tx == Tx(c.owner, s.next)
    requires taken == s.(jobs := s.jobs[tx := Job([], [], |s.nodes[c.owner].tr.log|)], next := s.next + 1)
    ensures HomeResult(c, s, taken, Publish(e, s.nodes[c.owner], tx, 0))
    ensures Discreet(s.nodes[c.owner], Publish(e, s.nodes[c.owner], tx, 0))
  {
    var home := s.nodes[c.owner];
    var o := Ok(Begun(e, home, DoTdecs(tx)), BegunOut(e, home, DoTdecs(tx)));
    PublishedHome(c, e, home, tx, s.jobs, s.next);
    PublishedIs(c, e, home, tx);
    forall m: NodeId | IsFar(c, m) ensures FarGood(c, m, HomeView(c, s, taken, o, m), taken.jobs) {
      PublishedStateView(c, s, e, taken, tx, m);
    }
  }

  lemma PublishedStateView(c: Config, s: State, e: Env, taken: State, tx: Tx, m: NodeId)
    requires c.owner < |s.nodes| && IsFar(c, m) && m < |s.nodes| && FarGood(c, m, ViewOf(c, s, m), s.jobs)
      && EnvAt(c, e, c.owner)
    requires HomeOk(c, s.nodes[c.owner]) && ClosuresOk(c, s.nodes[c.owner])
      && NewClosure(c, s.nodes[c.owner], DoTdecs(tx))
    requires tx.node == c.owner && taken.chan == s.chan && JobsOf(c.owner, s.jobs, taken.jobs)
    ensures var home := s.nodes[c.owner]; var x := DoTdecs(tx);
      FarGood(c, m, HomeView(c, s, taken, Ok(Begun(e, home, x), BegunOut(e, home, x)), m), taken.jobs)
  {
    PublishedView(c, e, m, ViewOf(c, s, m), tx, s.jobs, taken.jobs);
  }

  lemma BegunKnown(c: Config, e: Env, home: Node, x: Closure, tx: Tx, jobs: map<Tx, Job>, next: nat)
    requires JobsKnown(c, home, jobs, next) && tx == Tx(c.owner, next) && c.owner < c.numNodes
    ensures JobsKnown(c, Begun(e, home, x), jobs[tx := Job([], [], |home.tr.log|)], next + 1)
  {
  }

  lemma PublishedHome(c: Config, e: Env, home: Node, tx: Tx, jobs: map<Tx, Job>, next: nat)
    requires HomeGood(c, home, jobs, next) && EnvAt(c, e, c.owner) && tx == Tx(c.owner, next) && c.owner < c.numNodes
    ensures var x := DoTdecs(tx); var jobs' := jobs[tx := Job([], [], |home.tr.log|)];
      NewClosure(c, home, x) && HomeGood(c, Begun(e, home, x), jobs', next + 1)
  {
    var x := DoTdecs(tx);
    assert tx !in jobs;
    BegunHomeJob(c, e, home, tx, jobs, Job([], [], |home.tr.log|));
    BegunHome(c, e, home, x);
    BegunClosures(c, e, home, x);
    BegunKnown(c, e, home, x, tx, jobs, next);
  }

  lemma PublishedIs(c: Config, e: Env, home: Node, tx: Tx)
    requires HomeOk(c, home) && NewClosure(c, home, DoTdecs(tx))
    ensures var x := DoTdecs(tx);
      && Publish(e, home, tx, 0) == Ok(Begun(e, home, x), BegunOut(e, home, x))
      && AllFar(c, BegunOut(e, home, x)) && Discreet(home, Publish(e, home, tx, 0))
  {
    var x := DoTdecs(tx);
    InvalidateIs(e, WithClosure(home, x, 1), x);
    BegunGoesFar(c, e, home, x);
  }

  lemma PublishedView(c: Config, e: Env, m: NodeId, v: View, tx: Tx, jobs: map<Tx, Job>, jobs': map<Tx, Job>)
    requires FarGood(c, m, v, jobs) && HomeOk(c, v.home) && ClosuresOk(c, v.home) && NewClosure(c, v.home, DoTdecs(tx))
    requires e.th < c.threads && m != tx.node && JobsOf(tx.node, jobs, jobs')
    ensures var x := DoTdecs(tx);
      FarGood(c, m, View(v.far, Begun(e, v.home, x), v.up, v.dn + To(BegunOut(e, v.home, x), m)), jobs')
  {
    var x := DoTdecs(tx);
    BegunOther(c, e, m, v, x, jobs);
    OtherJobs(c, tx.node, m, View(v.far, Begun(e, v.home, x), v.up, v.dn + To(BegunOut(e, v.home, x), m)), jobs, jobs');
  }

  // ---------------------------------------------------------------- every step, every run

  ghost predicate Kept(c: Config, s: State) { Inv(c, s) && StopOk(c, s) }

  lemma StopKeeps(c: Config, s: State, why: Fatal, i: NodeId)
    requires Inv(c, s)
    ensures Inv(c, s.(stop := Stopped(why, i)))
  {
    var s' := s.(stop := Stopped(why, i));
    forall a, b ensures Chan(s', a, b) == Chan(s, a, b) { }
    forall n: NodeId | IsFar(c, n) ensures FarGood(c, n, ViewOf(c, s', n), s'.jobs) {
      assert ViewOf(c, s', n) == ViewOf(c, s, n);
    }
  }

  /** A node that is not the home ran a handler. */
  lemma FarStep(c: Config, s: State, taken: State, i: NodeId, o: Outcome)
    requires Inv(c, s) && s.stop.Running? && IsFar(c, i) && TakenAt(c, s, taken, i)
    requires JobsOf(i, s.jobs, taken.jobs) && JobsKnown(c, s.nodes[c.owner], taken.jobs, taken.next)
      && taken.stop == s.stop
    requires FarResult(c, i, ViewOf(c, s, i), o, Chan(taken, c.owner, i), taken.jobs)
    ensures Kept(c, Act(s, taken, i, o))
  {
    match o
    case Halt(why) => StopKeeps(c, s, why, i);
    case Ok(far', out) =>
      FarActs(c, s, taken, i, far', out);
      SendElse(taken.(nodes := taken.nodes[i := far']), i, out);
  }

  lemma HomeStep(c: Config, s: State, taken: State, o: Outcome)
    requires Inv(c, s) && s.stop.Running? && TakenFrom(c, s, taken) && taken.stop == s.stop
      && HomeResult(c, s, taken, o)
    ensures Kept(c, Act(s, taken, c.owner, o))
  {
    HomeActs(c, s, taken, o);
    SendElse(taken.(nodes := taken.nodes[c.owner := o.node]), c.owner, o.out);
  }

  lemma TakeDown(c: Config, s: State, n: NodeId)
    requires Chan(s, c.owner, n) != []
    ensures TakenAt(c, s, Take(s, c.owner, n), n) && Chan(Take(s, c.owner, n), c.owner, n) == Chan(s, c.owner, n)[1..]
  {
    forall a: NodeId, b: NodeId | (a, b) != (c.owner, n) ensures Chan(Take(s, c.owner, n), a, b) == Chan(s, a, b) {
      TakeChan(s, c.owner, n, a, b);
    }
    TakeChan(s, c.owner, n, c.owner, n);
  }

  /** What a delivery to such a node may do. */
  lemma FarTakesIs(c: Config, s: State, n: NodeId, th: nat)
    requires Inv(c, s) && IsFar(c, n) && th < c.threads && Chan(s, c.owner, n) != []
    ensures var m := Chan(s, c.owner, n)[0]; var o := Handle(EnvOf(c, n, th), s.nodes[n], c.owner, m);
      && (o.Halt? ==> n in s.nodes[c.owner].tr.twice) && (o.Ok? ==> AllTo(o.out, c.owner))
      && Obeys(ViewOf(c, s, n), o, m)
  {
    FarTakes(c, EnvOf(c, n, th), n, ViewOf(c, s, n), s.jobs);
  }

  lemma FarTakesActs(c: Config, s: State, n: NodeId, e: Env)
    requires Inv(c, s) && s.stop.Running? && IsFar(c, n) && EnvAt(c, e, n) && Chan(s, c.owner, n) != []
    ensures Kept(c, Act(s, Take(s, c.owner, n), n, Handle(e, s.nodes[n], c.owner, Chan(s, c.owner, n)[0])))
  {
    TakeDown(c, s, n);
    FarTakes(c, e, n, ViewOf(c, s, n), s.jobs);
    FarStep(c, s, Take(s, c.owner, n), n, Handle(e, s.nodes[n], c.owner, Chan(s, c.owner, n)[0]));
  }

  lemma HomeTakesActs(c: Config, s: State, n: NodeId, e: Env)
    requires Inv(c, s) && s.stop.Running? && IsFar(c, n) && EnvAt(c, e, c.owner) && Chan(s, n, c.owner) != []
    ensures Kept(c, Act(s, Take(s, n, c.owner), c.owner, Handle(e, s.nodes[c.owner], n, Chan(s, n, c.owner)[0])))
  {
    TakeUp(c, s, n);
    HomeTakes(c, s, e, n);
    HomeStep(c, s, Take(s, n, c.owner), Handle(e, s.nodes[c.owner], n, Chan(s, n, c.owner)[0]));
  }

  lemma StepDelivers(c: Config, s: State, a: NodeId, b: NodeId, th: nat)
    requires s.stop.Running? && b < |s.nodes| && th < c.threads && Chan(s, a, b) != []
    ensures Step(c, s, Deliver(a, b, th)) ==
      Act(s, Take(s, a, b), b, Handle(EnvOf(c, b, th), s.nodes[b], a, Chan(s, a, b)[0]))
  {
  }

  lemma DeliverKeeps(c: Config, s: State, a: NodeId, b: NodeId, th: nat)
    requires Inv(c, s) && s.stop.Running?
    ensures Kept(c, Step(c, s, Deliver(a, b, th)))
  {
    if b < |s.nodes| && th < c.threads && Chan(s, a, b) != [] {
      StepDelivers(c, s, a, b, th);
      if b == c.owner { HomeTakesActs(c, s, a, EnvOf(c, b, th)); } else { FarTakesActs(c, s, b, EnvOf(c, b, th)); }
    }
  }

  lemma ReadKeeps(c: Config, s: State, i: NodeId)
    requires Inv(c, s) && s.stop.Running?
    ensures Kept(c, Step(c, s, Read(i)))
  {
    if i < |s.nodes| && s.nodes[i].hdr.status == INVALID {
      Untaken(c, s, s);
      FarReads(c, EnvOf(c, i, 0), i, ViewOf(c, s, i), s.jobs);
      FarStep(c, s, s, i, RequestData(EnvOf(c, i, 0), s.nodes[i]));
    }
  }

  lemma AskRespActs(c: Config, s: State, taken: State, i: NodeId)
    requires Inv(c, s) && s.stop.Running? && IsFar(c, i) && taken == s.(next := s.next + 1)
    ensures Kept(c, Act(s, taken, i, RequestResp(EnvOf(c, i, 0), s.nodes[i], s.next)))
  {
    Untaken(c, s, taken);
    FarAsksResp(c, EnvOf(c, i, 0), i, ViewOf(c, s, i), s.jobs, s.next);
    FarStep(c, s, taken, i, RequestResp(EnvOf(c, i, 0), s.nodes[i], s.next));
  }

  lemma AskRespKeeps(c: Config, s: State, i: NodeId)
    requires Inv(c, s) && s.stop.Running?
    ensures Kept(c, Step(c, s, AskResp(i)))
  {
    if i < |s.nodes| && s.nodes[i].hdr.status != RESP { AskRespActs(c, s, s.(next := s.next + 1), i); }
  }

  lemma WriteKeeps(c: Config, s: State, i: NodeId, w: Write)
    requires Inv(c, s) && s.stop.Running?
    ensures Kept(c, Step(c, s, WriteLocally(i, w)))
  {
    if i < |s.nodes| && s.nodes[i].hdr.status == RESP {
      assert i != c.owner ==> FarGood(c, i, ViewOf(c, s, i), s.jobs);
      Untaken(c, s, s);
      HomeWritesLocally(c, s, w);
      HomeStep(c, s, s, Ok(LocalWrite(s.nodes[i], w), []));
    }
  }

  function BeginTaken(c: Config, s: State, i: NodeId, ws: seq<Write>): State {
    s.(jobs := s.jobs[Tx(i, s.next) := Job(ws, [], LogLength(c, s))], next := s.next + 1)
  }

  lemma StepBegins(c: Config, s: State, i: NodeId, th: nat, ws: seq<Write>)
    requires s.stop.Running? && i < |s.nodes| && th < c.threads && (s.nodes[i].hdr.status == RESP ==> ws == [])
    ensures Step(c, s, Begin(i, th, ws)) ==
      Act(s, BeginTaken(c, s, i, ws), i, Protocol.Publish(EnvOf(c, i, th), s.nodes[i], Tx(i, s.next), |ws|))
  {
  }

  lemma BeginTakenJobs(c: Config, s: State, i: NodeId, ws: seq<Write>)
    requires c.owner < |s.nodes| && i < c.numNodes && JobsKnown(c, s.nodes[c.owner], s.jobs, s.next)
    ensures var taken := BeginTaken(c, s, i, ws);
      && Tx(i, s.next) !in s.jobs && JobsOf(i, s.jobs, taken.jobs)
      && JobsKnown(c, s.nodes[c.owner], taken.jobs, taken.next)
  {
  }

  lemma FarBeginActs(c: Config, s: State, i: NodeId, th: nat, ws: seq<Write>)
    requires Inv(c, s) && s.stop.Running? && IsFar(c, i) && th < c.threads
    ensures Kept(
      c, Act(s, BeginTaken(c, s, i, ws), i, Protocol.Publish(EnvOf(c, i, th), s.nodes[i], Tx(i, s.next), |ws|)))
  {
    var taken := BeginTaken(c, s, i, ws);
    Untaken(c, s, taken);
    BeginTakenJobs(c, s, i, ws);
    FarBegins(c, EnvOf(c, i, th), i, ViewOf(c, s, i), s.jobs, Tx(i, s.next), Job(ws, [], LogLength(c, s)));
    FarStep(c, s, taken, i, Protocol.Publish(EnvOf(c, i, th), s.nodes[i], Tx(i, s.next), |ws|));
  }

  lemma HomeBeginActs(c: Config, s: State, th: nat)
    requires Inv(c, s) && s.stop.Running? && th < c.threads
    ensures Kept(c, Act(s, BeginTaken(c, s, c.owner, []), c.owner,
                        Protocol.Publish(EnvOf(c, c.owner, th), s.nodes[c.owner], Tx(c.owner, s.next), 0)))
  {
    var taken := BeginTaken(c, s, c.owner, []);
    Untaken(c, s, taken);
    HomeBegins(c, s, EnvOf(c, c.owner, th), taken, Tx(c.owner, s.next));
    HomeStep(c, s, taken, Protocol.Publish(EnvOf(c, c.owner, th), s.nodes[c.owner], Tx(c.owner, s.next), 0));
  }

  lemma BeginKeeps(c: Config, s: State, i: NodeId, th: nat, ws: seq<Write>)
    requires Inv(c, s) && s.stop.Running?
    ensures Kept(c, Step(c, s, Begin(i, th, ws)))
  {
    if i < |s.nodes| && th < c.threads && (s.nodes[i].hdr.status == RESP ==> ws == []) {
      StepBegins(c, s, i, th, ws);
      if i == c.owner { HomeBeginActs(c, s, th); } else { FarBeginActs(c, s, i, th, ws); }
    }
  }

  function SendTaken(s: State, tx: Tx, th: nat): State
    requires tx in s.jobs && tx.node < |s.nodes|
  {
    var j := s.jobs[tx];
    s.(jobs := s.jobs[tx := j.(serials := j.serials + [WriteSerial(s.nodes[tx.node].ser, th)])])
  }

  /** A write of the publication is still to be sent. */
  ghost predicate MaySend(c: Config, s: State, tx: Tx, th: nat) {
    tx.node < |s.nodes| && th < c.threads && tx in s.jobs && |s.jobs[tx].serials| < |s.jobs[tx].ws|
  }

  lemma StepSends(c: Config, s: State, tx: Tx, th: nat)
    requires s.stop.Running? && MaySend(c, s, tx, th)
    ensures Step(c, s, SendWrite(tx, th)) == Act(s, SendTaken(s, tx, th), tx.node,
      RemoteWrite(EnvOf(c, tx.node, th), s.nodes[tx.node], tx, s.jobs[tx].ws[|s.jobs[tx].serials|]))
  {
  }

  lemma OnlyFarSends(c: Config, home: Node, jobs: map<Tx, Job>, tx: Tx)
    requires HomeJobsOk(c, home, jobs) && tx in jobs && |jobs[tx].serials| < |jobs[tx].ws|
    ensures tx.node != c.owner
  {
  }

  lemma SendTakenJobs(c: Config, s: State, tx: Tx, th: nat)
    requires tx in s.jobs && tx.node < |s.nodes| && c.owner < |s.nodes|
      && JobsKnown(c, s.nodes[c.owner], s.jobs, s.next)
    ensures var taken := SendTaken(s, tx, th);
      JobsOf(tx.node, s.jobs, taken.jobs) && JobsKnown(c, s.nodes[c.owner], taken.jobs, taken.next)
  {
    var taken := SendTaken(s, tx, th);
    forall x | x in taken.jobs
      ensures taken.jobs[x].at <= |s.nodes[c.owner].tr.log| && x.num < s.next && x.node < c.numNodes
    {
      assert x in s.jobs && taken.jobs[x].at == s.jobs[x].at;
    }
  }

  lemma SendActs(c: Config, s: State, tx: Tx, th: nat)
    requires Inv(c, s) && s.stop.Running? && MaySend(c, s, tx, th) && tx.node != c.owner
    ensures Kept(c, Act(s, SendTaken(s, tx, th), tx.node,
                        RemoteWrite(EnvOf(c, tx.node, th), s.nodes[tx.node], tx, s.jobs[tx].ws[|s.jobs[tx].serials|])))
  {
    var n := tx.node;
    var taken := SendTaken(s, tx, th);
    Untaken(c, s, taken);
    SendTakenJobs(c, s, tx, th);
    FarSends(c, EnvOf(c, n, th), n, ViewOf(c, s, n), s.jobs, tx);
    FarStep(c, s, taken, n, RemoteWrite(EnvOf(c, n, th), s.nodes[n], tx, s.jobs[tx].ws[|s.jobs[tx].serials|]));
  }

  lemma SendKeeps(c: Config, s: State, tx: Tx, th: nat)
    requires Inv(c, s) && s.stop.Running?
    ensures Kept(c, Step(c, s, SendWrite(tx, th)))
  {
    if MaySend(c, s, tx, th) {
      StepSends(c, s, tx, th);
      OnlyFarSends(c, s.nodes[c.owner], s.jobs, tx);
      SendActs(c, s, tx, th);
    }
  }

  lemma TickActs(c: Config, s: State, i: NodeId, th: nat)
    requires Inv(c, s) && s.stop.Running? && i < |s.nodes| && th < c.threads == |s.nodes[i].ser.write|
    ensures Kept(c, Act(s, s, i, Ok(s.nodes[i].(ser := TickSerials(s.nodes[i].ser, th)), [])))
  {
    var o := Ok(s.nodes[i].(ser := TickSerials(s.nodes[i].ser, th)), []);
    Untaken(c, s, s);
    if i == c.owner {
      HomeTicks(c, s, th);
      HomeStep(c, s, s, o);
    } else {
      FarTicks(c, th, i, ViewOf(c, s, i), s.jobs);
      FarStep(c, s, s, i, o);
    }
  }

  lemma ThreadsOf(c: Config, s: State, i: NodeId)
    requires Inv(c, s) && i < |s.nodes|
    ensures |s.nodes[i].ser.write| == |s.nodes[i].ser.inv| == c.threads
  {
    assert i != c.owner ==> FarGood(c, i, ViewOf(c, s, i), s.jobs);
  }

  lemma TickKeeps(c: Config, s: State, i: NodeId, th: nat)
    requires Inv(c, s) && s.stop.Running?
    ensures Kept(c, Step(c, s, Tick(i, th)))
  {
    if i < |s.nodes| {
      ThreadsOf(c, s, i);
      if th < c.threads { TickActs(c, s, i, th); }
    }
  }

  lemma StepKeeps(c: Config, s: State, ch: Choice)
    requires Inv(c, s) && s.stop.Running?
    ensures Kept(c, Step(c, s, ch))
  {
    match ch
    case Deliver(a, b, th) => DeliverKeeps(c, s, a, b, th);
    case Read(i) => ReadKeeps(c, s, i);
    case AskResp(i) => AskRespKeeps(c, s, i);
    case WriteLocally(i, w) => WriteKeeps(c, s, i, w);
    case Begin(i, th, ws) => BeginKeeps(c, s, i, th, ws);
    case SendWrite(tx, th) => SendKeeps(c, s, tx, th);
    case Tick(i, th) => TickKeeps(c, s, i, th);
  }

  lemma FreshSerials(c: Config)
    requires 0 < c.threads
    ensures var ser := FreshNode(c, true).ser; SourcesOk(ser.write, c.threads) && |ser.inv| == c.threads
  {
  }

  lemma InitHome(c: Config)
    requires Sane(c)
    ensures HomeGood(c, FreshNode(c, true), map[], 0)
  {
    FreshSerials(c);
  }

  lemma InitView(c: Config, n: NodeId)
    requires Sane(c) && IsFar(c, n)
    ensures FarGood(c, n, View(FreshNode(c, false), FreshNode(c, true), [], []), map[])
  {
    FreshSerials(c);
    assert FreshNode(c, false).ser == FreshNode(c, true).ser;
  }

  lemma InitKept(c: Config)
    requires Sane(c)
    ensures Kept(c, Init(c))
  {
    InitHome(c);
    forall n: NodeId | IsFar(c, n) ensures FarGood(c, n, ViewOf(c, Init(c), n), map[]) { InitView(c, n); }
  }

  lemma {:induction false} Safe(c: Config, run: seq<Choice>)
    requires Sane(c)
    ensures Kept(c, After(c, run))
  {
    if run == [] {
      InitKept(c);
    } else {
      var s := After(c, run[..|run| - 1]);
      Safe(c, run[..|run| - 1]);
      if s.stop.Running? { StepKeeps(c, s, run[|run| - 1]); }
    }
  }
}
