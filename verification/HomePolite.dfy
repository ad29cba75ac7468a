/** Runs in which a node asks for the page only when it has neither a request nor an answer in flight: no check
    ever fires. */
module HomePolite {
  import opened Protocol
  import opened Home
  import opened HomeHandlers
  import opened Coherence
  import opened Publication
  import opened HomeViews
  import opened HomeSafety

  /** The requests of node n in flight, and the answers. */
  function Outstanding(c: Config, s: State, n: NodeId): nat {
    multiset(Chan(s, n, c.owner))[DataReq(n)] + Datas(Chan(s, c.owner, n))
  }

  ghost predicate Polite(c: Config, run: seq<Choice>) {
    run == [] ||
    var last := run[|run| - 1];
    Polite(c, run[..|run| - 1]) && (last.Read? ==> Outstanding(c, After(c, run[..|run| - 1]), last.i) == 0)
  }

  // ---------------------------------------------------------------- the invariant

  /** At most one request or answer is in flight, a request only from a node without a copy, and home has never
      answered a node that was in the directory. */
  ghost predicate PoliteAt(n: NodeId, v: View) {
    && multiset(v.up)[DataReq(n)] + Datas(v.dn) <= 1
    && (multiset(v.up)[DataReq(n)] > 0 ==> v.far.hdr.status == INVALID) && n !in v.home.tr.twice
  }

  ghost predicate PoliteOk(c: Config, s: State) {
    |s.nodes| == c.numNodes && c.owner < c.numNodes && forall n :: IsFar(c, n) ==> PoliteAt(n, ViewOf(c, s, n))
  }

  lemma {:induction false} NoneTo(out: seq<Packet>, b: NodeId, m: Msg)
    requires forall i :: 0 <= i < |out| ==> out[i].msg != m
    ensures multiset(To(out, b))[m] == 0
    decreases |out|
  {
    if out != [] {
      NoneTo(out[1..], b, m);
      var head := if out[0].to == b then [out[0].msg] else [];
      Pushed(head, To(out[1..], b), m);
    }
  }

  lemma {:induction false} NoDataTo(out: seq<Packet>, b: NodeId)
    requires forall i :: 0 <= i < |out| ==> !out[i].msg.Data?
    ensures Datas(To(out, b)) == 0
    decreases |out|
  {
    if out != [] {
      NoDataTo(out[1..], b);
      CountPush(if out[0].to == b then [out[0].msg] else [], To(out[1..], b));
    }
  }

  // ---------------------------------------------------------------- a node that is not the home acts

  lemma FarPolite(c: Config, s: State, taken: State, i: NodeId, o: Outcome)
    requires PoliteOk(c, s) && IsFar(c, i) && TakenAt(c, s, taken, i) && o.Ok? && AllTo(o.out, c.owner)
    requires PoliteAt(
      i, View(o.node, s.nodes[c.owner], Chan(s, i, c.owner) + To(o.out, c.owner), Chan(taken, c.owner, i)))
    ensures PoliteOk(c, Act(s, taken, i, o))
  {
    var s' := Act(s, taken, i, o);
    SendElse(taken.(nodes := taken.nodes[i := o.node]), i, o.out);
    forall n: NodeId | IsFar(c, n) ensures PoliteAt(n, ViewOf(c, s', n)) {
      FarChannels(c, s, taken, i, o.node, o.out, n, c.owner);
      FarChannels(c, s, taken, i, o.node, o.out, c.owner, n);
      assert PoliteAt(n, ViewOf(c, s, n));
    }
  }

  /** A call that asks for no data. */
  lemma SteadyPolite(c: Config, s: State, taken: State, i: NodeId, o: Outcome)
    requires PoliteOk(c, s) && IsFar(c, i) && TakenAt(c, s, taken, i) && o.Ok? && AllTo(o.out, c.owner)
    requires Chan(taken, c.owner, i) == Chan(s, c.owner, i) && Steady(ViewOf(c, s, i), o)
    ensures PoliteOk(c, Act(s, taken, i, o))
  {
    NoneTo(o.out, c.owner, DataReq(i));
    Pushed(Chan(s, i, c.owner), To(o.out, c.owner), DataReq(i));
    assert PoliteAt(i, ViewOf(c, s, i));
    FarPolite(c, s, taken, i, o);
  }

  lemma TakenPolite(c: Config, s: State, n: NodeId, o: Outcome)
    requires PoliteOk(c, s) && IsFar(c, n) && Chan(s, c.owner, n) != [] && o.Ok? && AllTo(o.out, c.owner)
    requires Obeys(ViewOf(c, s, n), o, Chan(s, c.owner, n)[0])
    ensures PoliteOk(c, Act(s, Take(s, c.owner, n), n, o))
  {
    TakeDown(c, s, n);
    NoneTo(o.out, c.owner, DataReq(n));
    Pushed(Chan(s, n, c.owner), To(o.out, c.owner), DataReq(n));
    assert PoliteAt(n, ViewOf(c, s, n));
    FarPolite(c, s, Take(s, c.owner, n), n, o);
  }

  lemma ReadPolite(c: Config, s: State, i: NodeId)
    requires PoliteOk(c, s) && IsFar(c, i) && s.nodes[i].hdr.status == INVALID && Outstanding(c, s, i) == 0
    ensures PoliteOk(c, Act(s, s, i, Ok(s.nodes[i], [Packet(c.owner, DataReq(i))])))
  {
    var p := Packet(c.owner, DataReq(i));
    ToOne(p, c.owner);
    Pushed(Chan(s, i, c.owner), [DataReq(i)], DataReq(i));
    One(DataReq(i), DataReq(i));
    assert PoliteAt(i, ViewOf(c, s, i));
    Untaken(c, s, s);
    FarPolite(c, s, s, i, Ok(s.nodes[i], [p]));
  }

  // ---------------------------------------------------------------- the home acts

  lemma HomePolite(c: Config, s: State, taken: State, o: Outcome)
    requires PoliteOk(c, s) && TakenFrom(c, s, taken) && o.Ok?
    requires forall n :: IsFar(c, n) ==> PoliteAt(n, HomeView(c, s, taken, o, n))
    ensures PoliteOk(c, Act(s, taken, c.owner, o))
  {
    SendElse(taken.(nodes := taken.nodes[c.owner := o.node]), c.owner, o.out);
    forall n: NodeId | IsFar(c, n) ensures PoliteAt(n, ViewOf(c, Act(s, taken, c.owner, o), n)) {
      HomeViewIs(c, s, taken, o, n);
    }
  }

  lemma DiscreetPolite(c: Config, s: State, taken: State, o: Outcome)
    requires PoliteOk(c, s) && TakenFrom(c, s, taken) && Discreet(s.nodes[c.owner], o)
    requires forall n :: IsFar(c, n) ==>
      multiset(Chan(taken, n, c.owner))[DataReq(n)] <= multiset(Chan(s, n, c.owner))[DataReq(n)]
    ensures PoliteOk(c, Act(s, taken, c.owner, o))
  {
    forall n: NodeId | IsFar(c, n) ensures PoliteAt(n, HomeView(c, s, taken, o, n)) {
      NoDataTo(o.out, n);
      CountPush(Chan(s, c.owner, n), To(o.out, n));
      assert PoliteAt(n, ViewOf(c, s, n));
    }
    HomePolite(c, s, taken, o);
  }

  /** The directory equation: a node that is waiting for its answer is not in the directory. */
  lemma AskerIsNotListed(c: Config, n: NodeId, v: View)
    requires PoliteAt(n, v) && Coherent(c, n, v.home, v.far, v.dn) && v.up != [] && v.up[0] == DataReq(n)
    ensures n !in v.home.shared && Datas(v.dn) == 0 && multiset(v.up)[DataReq(n)] == 1
  {
    HeadCounts(v.up);
    assert n in v.home.shared ==> multiset(v.home.shared)[n] > 0;
  }

  lemma AnswerPolite(c: Config, s: State, e: Env, n: NodeId)
    requires PoliteOk(c, s) && Inv(c, s) && IsFar(c, n) && Chan(s, n, c.owner) != []
      && Chan(s, n, c.owner)[0] == DataReq(n)
    ensures PoliteOk(c, Act(s, Take(s, n, c.owner), c.owner, OnDataReq(e, s.nodes[c.owner], n)))
  {
    var o := OnDataReq(e, s.nodes[c.owner], n);
    var taken := Take(s, n, c.owner);
    TakeUp(c, s, n);
    assert FarGood(c, n, ViewOf(c, s, n), s.jobs);
    AskerIsNotListed(c, n, ViewOf(c, s, n));
    forall m: NodeId | IsFar(c, m) ensures PoliteAt(m, HomeView(c, s, taken, o, m)) {
      assert PoliteAt(m, ViewOf(c, s, m));
      TakenView(c, s, n, o, m);
      ToOne(o.out[0], m);
      AnswerCounts(Chan(s, m, c.owner), Chan(s, c.owner, m), m, n, s.nodes[c.owner].content);
    }
    HomePolite(c, s, taken, o);
  }

  lemma AnswerCounts(up: seq<Msg>, dn: seq<Msg>, m: NodeId, n: NodeId, x: Content)
    requires m == n ==> up != [] && up[0] == DataReq(n)
    ensures multiset(Rest(up, m, n))[DataReq(m)] == multiset(up)[DataReq(m)] - (if m == n then 1 else 0)
    ensures Datas(dn + [Data(x)]) == Datas(dn) + 1 && dn + [] == dn
  {
    if m == n { Popped(up, DataReq(n)); }
    CountPush(dn, [Data(x)]);
    assert [Data(x)][1..] == [];
  }

  // ---------------------------------------------------------------- every step

  lemma DeliverFarPolite(c: Config, s: State, n: NodeId, th: nat)
    requires PoliteOk(c, s) && Inv(c, s) && s.stop.Running? && IsFar(c, n) && th < c.threads
      && Chan(s, c.owner, n) != []
    ensures var s' := Step(c, s, Deliver(c.owner, n, th)); s'.stop.Running? ==> PoliteOk(c, s')
  {
    var o := Handle(EnvOf(c, n, th), s.nodes[n], c.owner, Chan(s, c.owner, n)[0]);
    FarTakesIs(c, s, n, th);
    if o.Ok? { TakenPolite(c, s, n, o); }
  }

  lemma OtherMessagePolite(c: Config, s: State, n: NodeId, o: Outcome)
    requires PoliteOk(c, s) && IsFar(c, n) && Chan(s, n, c.owner) != [] && TakenFrom(c, s, Take(s, n, c.owner))
    requires Discreet(s.nodes[c.owner], o)
    ensures PoliteOk(c, Act(s, Take(s, n, c.owner), c.owner, o))
  {
    forall q: NodeId | IsFar(c, q)
      ensures multiset(Chan(Take(s, n, c.owner), q, c.owner))[DataReq(q)] <= multiset(Chan(s, q, c.owner))[DataReq(q)]
    {
      TakeChan(s, n, c.owner, q, c.owner);
      if q == n { Popped(Chan(s, n, c.owner), DataReq(q)); }
    }
    DiscreetPolite(c, s, Take(s, n, c.owner), o);
  }

  lemma HomeTakesPolite(c: Config, s: State, e: Env, n: NodeId)
    requires PoliteOk(c, s) && Inv(c, s) && IsFar(c, n) && EnvAt(c, e, c.owner) && Chan(s, n, c.owner) != []
    ensures PoliteOk(c, Act(s, Take(s, n, c.owner), c.owner, Handle(e, s.nodes[c.owner], n, Chan(s, n, c.owner)[0])))
  {
    var m := Chan(s, n, c.owner)[0];
    HeadIsUp(c, s, n);
    if m.DataReq? {
      HandleIs(e, s.nodes[c.owner], n, m);
      AnswerPolite(c, s, e, n);
    } else {
      TakeUp(c, s, n);
      HomeTakes(c, s, e, n);
      OtherMessagePolite(c, s, n, Handle(e, s.nodes[c.owner], n, m));
    }
  }

  lemma DeliverHomePolite(c: Config, s: State, n: NodeId, th: nat)
    requires PoliteOk(c, s) && Inv(c, s) && s.stop.Running? && IsFar(c, n) && th < c.threads
      && Chan(s, n, c.owner) != []
    ensures var s' := Step(c, s, Deliver(n, c.owner, th)); s'.stop.Running? ==> PoliteOk(c, s')
  {
    HomeTakesPolite(c, s, EnvOf(c, c.owner, th), n);
  }

  lemma DeliverPolite(c: Config, s: State, a: NodeId, b: NodeId, th: nat)
    requires PoliteOk(c, s) && Inv(c, s) && s.stop.Running?
    ensures var s' := Step(c, s, Deliver(a, b, th)); s'.stop.Running? ==> PoliteOk(c, s')
  {
    if b < |s.nodes| && th < c.threads && Chan(s, a, b) != [] {
      if b == c.owner { DeliverHomePolite(c, s, a, th); } else { DeliverFarPolite(c, s, b, th); }
    }
  }

  lemma AskPolite(c: Config, s: State, i: NodeId)
    requires PoliteOk(c, s) && Inv(c, s) && s.stop.Running? && Outstanding(c, s, i) == 0
    ensures var s' := Step(c, s, Read(i)); s'.stop.Running? ==> PoliteOk(c, s')
  {
    if i < |s.nodes| && s.nodes[i].hdr.status == INVALID {
      var e := EnvOf(c, i, 0);
      Untaken(c, s, s);
      FarReads(c, e, i, ViewOf(c, s, i), s.jobs);
      assert RequestData(e, s.nodes[i]).out[0].to == c.owner;
      ReadPolite(c, s, i);
    }
  }

  lemma AskRespPolite(c: Config, s: State, i: NodeId)
    requires PoliteOk(c, s) && Inv(c, s) && s.stop.Running?
    ensures var s' := Step(c, s, AskResp(i)); s'.stop.Running? ==> PoliteOk(c, s')
  {
    if i < |s.nodes| && s.nodes[i].hdr.status != RESP {
      assert FarGood(c, i, ViewOf(c, s, i), s.jobs);
      AskRespActsPolitely(c, s, s.(next := s.next + 1), i);
    }
  }

  lemma AskRespActsPolitely(c: Config, s: State, taken: State, i: NodeId)
    requires PoliteOk(c, s) && IsFar(c, i) && FarOk(c, i, s.nodes[i]) && taken == s.(next := s.next + 1)
      && 0 < c.threads
    ensures var s' := Act(s, taken, i, RequestResp(EnvOf(c, i, 0), s.nodes[i], s.next));
      s'.stop.Running? ==> PoliteOk(c, s')
  {
    RespRequestIs(c, EnvOf(c, i, 0), i, ViewOf(c, s, i), s.next);
    FarCallPolite(c, s, taken, i, RequestResp(EnvOf(c, i, 0), s.nodes[i], s.next));
  }

  lemma FarCallPolite(c: Config, s: State, taken: State, i: NodeId, o: Outcome)
    requires PoliteOk(c, s) && IsFar(c, i) && taken.nodes == s.nodes && taken.chan == s.chan
      && Steady(ViewOf(c, s, i), o)
    requires o.Ok? ==> AllTo(o.out, c.owner)
    ensures var s' := Act(s, taken, i, o); s'.stop.Running? ==> o.Halt? || PoliteOk(c, s')
  {
    if o.Ok? {
      Untaken(c, s, taken);
      SteadyPolite(c, s, taken, i, o);
    }
  }

  lemma HomeCallPolite(c: Config, s: State, taken: State, o: Outcome)
    requires PoliteOk(c, s) && taken.nodes == s.nodes && taken.chan == s.chan && Discreet(s.nodes[c.owner], o)
    ensures PoliteOk(c, Act(s, taken, c.owner, o))
  {
    Untaken(c, s, taken);
    DiscreetPolite(c, s, taken, o);
  }

  lemma BeginPolite(c: Config, s: State, i: NodeId, th: nat, ws: seq<Write>)
    requires PoliteOk(c, s) && Inv(c, s) && s.stop.Running?
    ensures var s' := Step(c, s, Begin(i, th, ws)); s'.stop.Running? ==> PoliteOk(c, s')
  {
    if i < |s.nodes| && th < c.threads && (s.nodes[i].hdr.status == RESP ==> ws == []) {
      StepBegins(c, s, i, th, ws);
      var e := EnvOf(c, i, th);
      var tx := Tx(i, s.next);
      if i == c.owner {
        HomeBegins(c, s, e, BeginTaken(c, s, i, []), tx);
        HomeCallPolite(c, s, BeginTaken(c, s, i, []), Protocol.Publish(e, s.nodes[i], tx, 0));
      } else {
        FarBegins(c, e, i, ViewOf(c, s, i), s.jobs, tx, Job(ws, [], LogLength(c, s)));
        FarCallPolite(c, s, BeginTaken(c, s, i, ws), i, Protocol.Publish(e, s.nodes[i], tx, |ws|));
      }
    }
  }

  lemma WriteSteady(c: Config, e: Env, n: NodeId, v: View, tx: Tx, w: Write)
    requires FarOk(c, n, v.far) && EnvAt(c, e, n)
    ensures var o := RemoteWrite(e, v.far, tx, w); o.Ok? && AllTo(o.out, c.owner) && Steady(v, o)
  {
  }

  lemma SendSteady(c: Config, s: State, tx: Tx, th: nat)
    requires Inv(c, s) && MaySend(c, s, tx, th) && tx.node != c.owner
    ensures var o := RemoteWrite(EnvOf(c, tx.node, th), s.nodes[tx.node], tx, s.jobs[tx].ws[|s.jobs[tx].serials|]);
      o.Ok? && AllTo(o.out, c.owner) && Steady(ViewOf(c, s, tx.node), o)
  {
    assert FarGood(c, tx.node, ViewOf(c, s, tx.node), s.jobs);
    WriteSteady(c, EnvOf(c, tx.node, th), tx.node, ViewOf(c, s, tx.node), tx, s.jobs[tx].ws[|s.jobs[tx].serials|]);
  }

  lemma SendPolite(c: Config, s: State, tx: Tx, th: nat)
    requires PoliteOk(c, s) && Inv(c, s) && s.stop.Running?
    ensures var s' := Step(c, s, SendWrite(tx, th)); s'.stop.Running? ==> PoliteOk(c, s')
  {
    if MaySend(c, s, tx, th) {
      StepSends(c, s, tx, th);
      OnlyFarSends(c, s.nodes[c.owner], s.jobs, tx);
      SendSteady(c, s, tx, th);
      FarCallPolite(c, s, SendTaken(s, tx, th), tx.node,
        RemoteWrite(EnvOf(c, tx.node, th), s.nodes[tx.node], tx, s.jobs[tx].ws[|s.jobs[tx].serials|]));
    }
  }

  lemma TickPolite(c: Config, s: State, i: NodeId, th: nat)
    requires PoliteOk(c, s) && Inv(c, s) && s.stop.Running?
    ensures var s' := Step(c, s, Tick(i, th)); s'.stop.Running? ==> PoliteOk(c, s')
  {
    if i < |s.nodes| && th < |s.nodes[i].ser.write| {
      var o := Ok(s.nodes[i].(ser := TickSerials(s.nodes[i].ser, th)), []);
      if i == c.owner { HomeCallPolite(c, s, s, o); } else { FarCallPolite(c, s, s, i, o); }
    }
  }

  lemma WritePolite(c: Config, s: State, i: NodeId, w: Write)
    requires PoliteOk(c, s) && Inv(c, s) && s.stop.Running?
    ensures var s' := Step(c, s, WriteLocally(i, w)); s'.stop.Running? ==> PoliteOk(c, s')
  {
    if i < |s.nodes| && s.nodes[i].hdr.status == RESP {
      assert i != c.owner ==> FarGood(c, i, ViewOf(c, s, i), s.jobs);
      HomeCallPolite(c, s, s, Ok(LocalWrite(s.nodes[i], w), []));
    }
  }

  lemma StepPolite(c: Config, s: State, ch: Choice)
    requires PoliteOk(c, s) && Inv(c, s) && s.stop.Running? && (ch.Read? ==> Outstanding(c, s, ch.i) == 0)
    ensures var s' := Step(c, s, ch); s'.stop.Running? ==> PoliteOk(c, s')
  {
    match ch
    case Deliver(a, b, th) => DeliverPolite(c, s, a, b, th);
    case Read(i) => AskPolite(c, s, i);
    case AskResp(i) => AskRespPolite(c, s, i);
    case WriteLocally(i, w) => WritePolite(c, s, i, w);
    case Begin(i, th, ws) => BeginPolite(c, s, i, th, ws);
    case SendWrite(tx, th) => SendPolite(c, s, tx, th);
    case Tick(i, th) => TickPolite(c, s, i, th);
  }

  lemma ActStops(s: State, taken: State, i: NodeId, o: Outcome)
    requires i < |taken.nodes| && taken.stop == s.stop && s.stop.Running?
    ensures Act(s, taken, i, o).stop.Stopped? ==> Act(s, taken, i, o).nodes == s.nodes
  {
    if o.Ok? { SendElse(taken.(nodes := taken.nodes[i := o.node]), i, o.out); }
  }

  /** A failing handler changes nothing. */
  lemma StopChangesNothing(c: Config, s: State, ch: Choice)
    requires s.stop.Running?
    ensures Step(c, s, ch).stop.Stopped? ==> Step(c, s, ch).nodes == s.nodes
  {
    forall taken: State, i: NodeId, o: Outcome | i < |taken.nodes| && taken.stop == s.stop
      ensures Act(s, taken, i, o).stop.Stopped? ==> Act(s, taken, i, o).nodes == s.nodes
    {
      ActStops(s, taken, i, o);
    }
  }

  lemma InitPolite(c: Config)
    requires Sane(c)
    ensures PoliteOk(c, Init(c))
  {
    forall n: NodeId | IsFar(c, n) ensures PoliteAt(n, ViewOf(c, Init(c), n)) {
      assert ViewOf(c, Init(c), n) == View(FreshNode(c, false), FreshNode(c, true), [], []);
    }
  }

  lemma {:induction false} PoliteRuns(c: Config, run: seq<Choice>)
    requires Sane(c) && Polite(c, run)
    ensures After(c, run).stop.Running? && PoliteOk(c, After(c, run))
  {
    if run == [] {
      InitPolite(c);
    } else {
      var s := After(c, run[..|run| - 1]);
      var ch := run[|run| - 1];
      PoliteRuns(c, run[..|run| - 1]);
      Safe(c, run[..|run| - 1]);
      Safe(c, run);
      StepPolite(c, s, ch);
      StopChangesNothing(c, s, ch);
      NobodyTwice(c, s, Step(c, s, ch));
    }
  }

  lemma NobodyTwice(c: Config, s: State, s': State)
    requires PoliteOk(c, s) && StopOk(c, s') && (s'.stop.Stopped? ==> s'.nodes == s.nodes)
    ensures s'.stop.Running?
  {
    assert s'.stop.Stopped? && IsFar(c, s'.stop.at) ==> PoliteAt(s'.stop.at, ViewOf(c, s, s'.stop.at));
  }
}
