/** What the home's invalidations do to the invariants of `Publication`: an invalidation gives every directory
    entry a serial of its own, and each ack is counted once, for the invalidation that gave it out. */
module Invalidation {
  import opened Protocol
  import opened SerialNumbers
  import opened Home
  import opened HomeHandlers
  import opened Publication

  // ---------------------------------------------------------------- the serials of one invalidation

  /** Which entry of the directory the serial belongs to, if it is one of the first k. */
  function Idx(e: Env, n: Node, s: int): int
    requires n.ser.inv != []
  {
    s / |n.ser.inv| - Ticket(n.ser, e.th)
  }

  ghost predicate InRange(e: Env, n: Node, s: int, k: nat) {
    n.ser.inv != [] && 0 <= Idx(e, n, s) < k && NthSerial(e, n, Idx(e, n, s)) == s
  }

  lemma NthInRange(e: Env, n: Node, i: nat, k: nat)
    requires e.th < |n.ser.inv|
    ensures Idx(e, n, NthSerial(e, n, i)) == i && (InRange(e, n, NthSerial(e, n, i), k) <==> i < k)
  {
    InvIsNew(e, n, i, k);
  }

  lemma RangeGrows(e: Env, n: Node, s: int, k: nat)
    requires e.th < |n.ser.inv| && k > 0
    ensures InRange(e, n, s, k) <==> InRange(e, n, s, k - 1) || s == NthSerial(e, n, k - 1)
  {
    NthInRange(e, n, k - 1, k);
  }

  lemma RangeIsNew(e: Env, n: Node, s: int, k: nat)
    requires e.th < |n.ser.inv| && InRange(e, n, s, k)
    ensures !UsedInv(n.ser.inv, |n.ser.inv|, s) && UsedInv(Advance(n.ser, e.th, k).inv, |n.ser.inv|, s)
  {
    InvIsNew(e, n, Idx(e, n, s), k);
  }

  lemma {:induction false} HoldersAre(e: Env, n: Node, k: nat, s: int)
    requires k <= |n.shared| && e.th < |n.ser.inv|
    ensures s in HoldersUpTo(e, n, k) <==> InRange(e, n, s, k)
    ensures InRange(e, n, s, k) ==> HoldersUpTo(e, n, k)[s] == n.shared[Idx(e, n, s)]
  {
    if k > 0 {
      HoldersAre(e, n, k - 1, s);
      RangeGrows(e, n, s, k);
      NthInRange(e, n, k - 1, k);
    }
  }

  lemma {:induction false} RegisteredAre(e: Env, n: Node, m: map<int, seq<Closure>>, c: Closure, k: nat, s: int)
    requires e.th < |n.ser.inv| && forall q :: q in m ==> UsedInv(n.ser.inv, |n.ser.inv|, q)
    ensures var r := RegisterAll(e, n, m, c, k);
      && (s in r <==> s in m || InRange(e, n, s, k))
      && (InRange(e, n, s, k) ==> r[s] == [c]) && (s in m ==> r[s] == m[s])
  {
    if k > 0 {
      var x := NthSerial(e, n, k - 1);
      RegisteredAre(e, n, m, c, k - 1, s);
      RegisteredAre(e, n, m, c, k - 1, x);
      RangeGrows(e, n, s, k);
      NthInRange(e, n, k - 1, k - 1);
      InvIsNew(e, n, k - 1, k);
      assert [] + [c] == [c];
    }
  }

  ghost function SerialsUpTo(e: Env, n: Node, k: nat): set<int> {
    if k == 0 then {} else SerialsUpTo(e, n, k - 1) + {NthSerial(e, n, k - 1)}
  }

  lemma {:induction false} SerialsAre(e: Env, n: Node, k: nat)
    requires e.th < |n.ser.inv|
    ensures |SerialsUpTo(e, n, k)| == k && forall s :: s in SerialsUpTo(e, n, k) <==> InRange(e, n, s, k)
  {
    if k > 0 {
      SerialsAre(e, n, k - 1);
      NthInRange(e, n, k - 1, k - 1);
      forall s ensures s in SerialsUpTo(e, n, k) <==> InRange(e, n, s, k) { RangeGrows(e, n, s, k); }
    }
  }

  // ---------------------------------------------------------------- the messages of one invalidation

  lemma {:induction false} ToSnoc(out: seq<Packet>, p: Packet, b: NodeId)
    ensures To(out + [p], b) == To(out, b) + (if p.to == b then [p.msg] else [])
  {
    var last := if p.to == b then [p.msg] else [];
    if out == [] {
      assert out + [p] == [p];
      ToOne(p, b);
    } else {
      assert (out + [p])[1..] == out[1..] + [p] && (out + [p])[0] == out[0];
      ToSnoc(out[1..], p, b);
      Associates(if out[0].to == b then [out[0].msg] else [], To(out[1..], b), last);
    }
  }

  /** The DoInvalidates that the first k entries of the directory send to node b. */
  ghost function InvsFor(e: Env, n: Node, k: nat, b: NodeId): seq<Msg>
    requires k <= |n.shared|
  {
    if k == 0 then []
    else InvsFor(e, n, k - 1, b) + (if n.shared[k - 1] == b then [DoInv(NthSerial(e, n, k - 1))] else [])
  }

  lemma {:induction false} InvsTo(e: Env, n: Node, k: nat, b: NodeId)
    requires k <= |n.shared|
    ensures To(Invalidations(e, n)[..k], b) == InvsFor(e, n, k, b)
  {
    if k > 0 {
      var out := Invalidations(e, n);
      InvsTo(e, n, k - 1, b);
      assert out[..k] == out[..k - 1] + [out[k - 1]];
      ToSnoc(out[..k - 1], out[k - 1], b);
    }
  }

  lemma {:induction false} InvsSize(e: Env, n: Node, k: nat, b: NodeId)
    requires k <= |n.shared|
    ensures var ms := InvsFor(e, n, k, b);
      (forall i :: 0 <= i < |ms| ==> ms[i].DoInv?) && |ms| == multiset(n.shared[..k])[b]
  {
    if k > 0 {
      InvsSize(e, n, k - 1, b);
      assert n.shared[..k] == n.shared[..k - 1] + [n.shared[k - 1]];
    }
  }

  /** Each entry of the directory is sent exactly its own serial. */
  lemma {:induction false} InvsCount(e: Env, n: Node, k: nat, b: NodeId, s: int)
    requires k <= |n.shared| && e.th < |n.ser.inv|
    ensures multiset(InvsFor(e, n, k, b))[DoInv(s)] ==
      if InRange(e, n, s, k) && n.shared[Idx(e, n, s)] == b then 1 else 0
  {
    if k > 0 {
      InvsCount(e, n, k - 1, b, s);
      RangeGrows(e, n, s, k);
      NthInRange(e, n, k - 1, k - 1);
      Pushed(InvsFor(e, n, k - 1, b), [DoInv(NthSerial(e, n, k - 1))], DoInv(s));
      One(DoInv(NthSerial(e, n, k - 1)), DoInv(s));
    }
  }

  lemma AllInvsTo(e: Env, n: Node, b: NodeId, s: int)
    requires e.th < |n.ser.inv|
    ensures var ms := To(Invalidations(e, n), b);
      && (forall i :: 0 <= i < |ms| ==> ms[i].DoInv?) && |ms| == multiset(n.shared)[b]
      && multiset(ms)[DoInv(s)] == if InRange(e, n, s, |n.shared|) && n.shared[Idx(e, n, s)] == b then 1 else 0
  {
    InvsTo(e, n, |n.shared|, b);
    InvsSize(e, n, |n.shared|, b);
    InvsCount(e, n, |n.shared|, b, s);
    assert Invalidations(e, n)[..|n.shared|] == Invalidations(e, n) && n.shared[..|n.shared|] == n.shared;
  }

  // ---------------------------------------------------------------- an invalidation begins

  /** A closure that no invalidation has run for yet. */
  ghost predicate NewClosure(c: Config, home: Node, x: Closure) {
    Simple(x) && x !in home.tr.waits && (x.SendAck? ==> x.client != c.owner && x.client < c.numNodes)
  }

  lemma NewIsAbsent(c: Config, home: Node, x: Closure)
    requires ClosuresOk(c, home) && NewClosure(c, home, x)
    ensures x !in home.ev.sc && Continuer(x) !in home.ev.sc
  {
    assert x in home.ev.sc ==> ClosureOk(home, x);
    assert Continuer(x) in home.ev.sc ==> ClosureOk(home, Continuer(x));
  }

  lemma InvsUsed(c: Config, home: Node, s: int)
    requires ClosuresOk(c, home) && s in home.ev.invs
    ensures UsedInv(home.ser.inv, c.threads, s)
  {
    assert AckWaits(home, s);
    assert HolderOk(c, home, home.ev.invs[s][0].c, s);
  }

  /** The home's state after an invalidation has begun for x; with an empty directory it is over at once. */
  function Begun(e: Env, home: Node, x: Closure): Node { Invalidated(e, WithClosure(home, x, 1), x) }

  function BegunOut(e: Env, home: Node, x: Closure): seq<Packet> { InvalidatedOut(e, WithClosure(home, x, 1), x) }

  lemma BegunEmpty(c: Config, e: Env, home: Node, x: Closure)
    requires ClosuresOk(c, home) && NewClosure(c, home, x) && home.shared == []
    ensures var h := Begun(e, home, x);
      && h.ev == home.ev && h.ser == home.ser && h.shared == [] && h.tr.waits == home.tr.waits[x := map[]]
      && h.tr.invAcked == home.tr.invAcked && BegunOut(e, home, x) == FinishedOut(x)
  {
    NewIsAbsent(c, home, x);
    assert home.ev.sc[x := 1] - {x} == home.ev.sc;
    assert Holders(e, WithClosure(home, x, 1)) == map[];
  }

  lemma BegunEmptyClosures(c: Config, e: Env, home: Node, x: Closure)
    requires ClosuresOk(c, home) && NewClosure(c, home, x) && home.shared == []
    ensures ClosuresOk(c, Begun(e, home, x))
  {
    BegunEmpty(c, e, home, x);
    var h := Begun(e, home, x);
    forall y | y in h.ev.sc ensures ClosureOk(h, y) {
      assert ClosureOk(home, y);
      if y.Continuer? { assert Acks(h, y.c) == Acks(home, y.c); }
    }
    forall s | s in h.ev.invs ensures AckWaits(h, s) { assert AckWaits(home, s); }
    forall y, s | y in h.tr.waits && s in h.tr.waits[y] ensures HolderOk(c, h, y, s) { assert HolderOk(c, home, y, s); }
  }

  /** With a directory, every serial of the invalidation is registered for the closure that counts its acks. */
  ghost predicate Registered(e: Env, home: Node, h: Node, x: Closure) {
    && h.ev.sc == home.ev.sc[x := 1][Continuer(x) := |home.shared|]
    && h.ser == Advance(home.ser, e.th, |home.shared|) && h.tr.invAcked == home.tr.invAcked
    && h.tr.waits.Keys == home.tr.waits.Keys + {x}
    && (forall y :: y in home.tr.waits && y != x ==> h.tr.waits[y] == home.tr.waits[y])
    && (forall s :: RegisteredAt(e, home, h, x, s))
  }

  ghost predicate RegisteredAt(e: Env, home: Node, h: Node, x: Closure, s: int) {
    var mine := InRange(e, home, s, |home.shared|);
    && (s in h.ev.invs <==> s in home.ev.invs || mine)
    && (mine ==> h.ev.invs[s] == [Continuer(x)] && s !in home.ev.invs)
    && (s in home.ev.invs ==> h.ev.invs[s] == home.ev.invs[s])
    && x in h.tr.waits && (s in h.tr.waits[x] <==> mine) && (mine ==> h.tr.waits[x][s] == home.shared[Idx(e, home, s)])
  }

  lemma RangeSame(e: Env, home: Node, x: Closure, s: int, k: nat)
    requires e.th < |home.ser.inv|
    ensures InRange(e, WithClosure(home, x, 1), s, k) <==> InRange(e, home, s, k)
    ensures Idx(e, WithClosure(home, x, 1), s) == Idx(e, home, s)
  {
    var n := WithClosure(home, x, 1);
    assert n.ser == home.ser;
    assert NthSerial(e, n, 0) == NthSerial(e, home, 0);
  }

  lemma BegunRegisters(c: Config, e: Env, home: Node, x: Closure)
    requires HomeOk(c, home) && ClosuresOk(c, home) && NewClosure(c, home, x) && home.shared != [] && e.th < c.threads
    ensures var h := Begun(e, home, x);
      Registered(e, home, h, x) && BegunOut(e, home, x) == Invalidations(e, WithClosure(home, x, 1))
  {
    var n := WithClosure(home, x, 1);
    var h := Begun(e, home, x);
    forall q | q in home.ev.invs ensures UsedInv(home.ser.inv, |home.ser.inv|, q) { InvsUsed(c, home, q); }
    forall s ensures RegisteredAt(e, home, h, x, s) {
      RangeSame(e, home, x, s, |home.shared|);
      HoldersAre(e, n, |home.shared|, s);
      RegisteredAre(e, n, home.ev.invs, Continuer(x), |home.shared|, s);
      if InRange(e, home, s, |home.shared|) { RangeIsNew(e, home, s, |home.shared|); }
    }
  }

  lemma RegisteredClosures(c: Config, e: Env, home: Node, h: Node, x: Closure)
    requires HomeOk(c, home) && ClosuresOk(c, home) && NewClosure(c, home, x) && home.shared != [] && e.th < c.threads
    requires Registered(e, home, h, x)
    ensures forall y :: y in h.ev.sc ==> ClosureOk(h, y)
    ensures forall s :: s in h.ev.invs ==> AckWaits(h, s)
  {
    NewIsAbsent(c, home, x);
    SerialsAre(e, home, |home.shared|);
    forall y | y in h.ev.sc ensures ClosureOk(h, y) {
      if y == Continuer(x) {
        forall s ensures s in Acks(h, x) <==> s in SerialsUpTo(e, home, |home.shared|) {
          assert RegisteredAt(e, home, h, x, s);
          assert s in home.ev.invs ==> AckWaits(home, s);
        }
        assert Acks(h, x) == SerialsUpTo(e, home, |home.shared|);
      } else if y != x {
        assert ClosureOk(home, y);
        if y.Continuer? {
          forall s ensures s in Acks(h, y.c) <==> s in Acks(home, y.c) { assert RegisteredAt(e, home, h, x, s); }
          assert Acks(h, y.c) == Acks(home, y.c);
        }
      }
    }
    forall s | s in h.ev.invs ensures AckWaits(h, s) {
      assert RegisteredAt(e, home, h, x, s);
      assert s in home.ev.invs ==> AckWaits(home, s);
    }
  }

  lemma RegisteredHolders(c: Config, e: Env, home: Node, h: Node, x: Closure)
    requires HomeOk(c, home) && ClosuresOk(c, home) && NewClosure(c, home, x) && home.shared != [] && e.th < c.threads
    requires Registered(e, home, h, x)
    ensures forall y, s :: y in h.tr.waits && s in h.tr.waits[y] ==> HolderOk(c, h, y, s)
  {
    forall y, s | y in h.tr.waits && s in h.tr.waits[y] ensures HolderOk(c, h, y, s) {
      assert RegisteredAt(e, home, h, x, s);
      if y == x {
        RangeIsNew(e, home, s, |home.shared|);
      } else {
        assert HolderOk(c, home, y, s);
        InvStaysUsed(home.ser, e.th, |home.shared|, s);
        if InRange(e, home, s, |home.shared|) { RangeIsNew(e, home, s, |home.shared|); }
      }
    }
  }

  lemma BegunClosures(c: Config, e: Env, home: Node, x: Closure)
    requires HomeOk(c, home) && ClosuresOk(c, home) && NewClosure(c, home, x) && e.th < c.threads
    ensures ClosuresOk(c, Begun(e, home, x))
  {
    if home.shared == [] {
      BegunEmptyClosures(c, e, home, x);
    } else {
      BegunRegisters(c, e, home, x);
      RegisteredClosures(c, e, home, Begun(e, home, x), x);
      RegisteredHolders(c, e, home, Begun(e, home, x), x);
    }
  }

  lemma BegunHome(c: Config, e: Env, home: Node, x: Closure)
    requires HomeOk(c, home)
    ensures HomeOk(c, Begun(e, home, x))
  {
  }

  // ---------------------------------------------------------------- the flows when an invalidation begins

  lemma BegunInvFlow(c: Config, e: Env, b: NodeId, home: Node, x: Closure, up: seq<Msg>, dn: seq<Msg>)
    requires HomeOk(c, home) && ClosuresOk(c, home) && NewClosure(c, home, x) && e.th < c.threads
    requires InvFlow(b, home, up, dn)
    ensures InvFlow(b, Begun(e, home, x), up, dn + To(BegunOut(e, home, x), b))
  {
    var h := Begun(e, home, x);
    var ms := To(BegunOut(e, home, x), b);
    forall s ensures InvFlowAt(b, h, up, dn + ms, s) {
      assert InvFlowAt(b, home, up, dn, s);
      Pushed(dn, ms, DoInv(s));
      if home.shared == [] {
        BegunEmptyFlow(c, e, b, home, x, s);
      } else {
        BegunRegisters(c, e, home, x);
        RegisteredFlow(c, e, b, home, h, x, s);
        AllInvsTo(e, WithClosure(home, x, 1), b, s);
        RangeSame(e, home, x, s, |home.shared|);
      }
    }
  }

  lemma BegunEmptyFlow(c: Config, e: Env, b: NodeId, home: Node, x: Closure, s: int)
    requires ClosuresOk(c, home) && NewClosure(c, home, x) && home.shared == []
    ensures Waits(Begun(e, home, x), s, b) <==> Waits(home, s, b)
    ensures multiset(To(BegunOut(e, home, x), b))[DoInv(s)] == 0
  {
    BegunEmpty(c, e, home, x);
    if x.SendAck? { ToOne(Packet(x.client, AckInv(x.serial)), b); }
    assert s in home.ev.invs ==> AckWaits(home, s);
  }

  lemma RegisteredFlow(c: Config, e: Env, b: NodeId, home: Node, h: Node, x: Closure, s: int)
    requires HomeOk(c, home) && ClosuresOk(c, home) && NewClosure(c, home, x) && home.shared != [] && e.th < c.threads
    requires Registered(e, home, h, x)
    ensures Waits(h, s, b) <==>
      Waits(home, s, b) || (InRange(e, home, s, |home.shared|) && home.shared[Idx(e, home, s)] == b)
    ensures InRange(e, home, s, |home.shared|) ==> !Waits(home, s, b)
  {
    assert RegisteredAt(e, home, h, x, s);
    assert s in home.ev.invs ==> AckWaits(home, s);
  }

  /** The asking node: its ask has been taken from the channel, and is now being served or answered. */
  lemma BegunAskFlow(c: Config, e: Env, b: NodeId, far: Node, home: Node, s: int, up: seq<Msg>, dn: seq<Msg>)
    requires HomeOk(c, home) && ClosuresOk(c, home) && NewClosure(c, home, SendAck(b, s)) && e.th < c.threads
    requires AskFlow(b, c.threads, far, home, up, dn) && AsksOk(c.threads, far) && up != [] && up[0] == AskInv(b, s)
    ensures var x := SendAck(b, s);
      AskFlow(b, c.threads, far, Begun(e, home, x), up[1..], dn + To(BegunOut(e, home, x), b))
  {
    var x := SendAck(b, s);
    var h := Begun(e, home, x);
    var ms := To(BegunOut(e, home, x), b);
    HeadCounts(up);
    assert AskFlowAt(b, c.threads, far, home, up, dn, s);
    assert AskWaits(far, s) && AskOk(c.threads, far, far.ev.invs[s][0].tx, s);
    forall q ensures AskFlowAt(b, c.threads, far, h, up[1..], dn + ms, q) {
      assert AskFlowAt(b, c.threads, far, home, up, dn, q);
      Popped(up, AskInv(b, q));
      Pushed(dn, ms, AckInv(q));
      BegunHeld(c, e, home, x, b, q);
    }
  }

  lemma BegunHeld(c: Config, e: Env, home: Node, x: Closure, b: NodeId, q: int)
    requires HomeOk(c, home) && ClosuresOk(c, home) && NewClosure(c, home, x) && e.th < c.threads
    ensures var h := Begun(e, home, x);
      && (SendAck(b, q) in h.tr.waits <==> SendAck(b, q) in home.tr.waits || x == SendAck(b, q))
      && Held(h, SendAck(b, q)) + multiset(To(BegunOut(e, home, x), b))[AckInv(q)] ==
         Held(home, SendAck(b, q)) + (if x == SendAck(b, q) then 1 else 0)
      && (x != SendAck(b, q) ==> multiset(To(BegunOut(e, home, x), b))[AckInv(q)] == 0)
  {
    NewIsAbsent(c, home, x);
    var ms := To(BegunOut(e, home, x), b);
    if home.shared == [] {
      BegunEmpty(c, e, home, x);
      if x.SendAck? {
        ToOne(Packet(x.client, AckInv(x.serial)), b);
        One(AckInv(x.serial), AckInv(q));
      }
    } else {
      BegunRegisters(c, e, home, x);
      AllInvsTo(e, WithClosure(home, x, 1), b, 0);
      Absent(ms, AckInv(q));
    }
  }

  /** Any other node. */
  lemma BegunAskFlowOther(c: Config, e: Env, b: NodeId, far: Node, home: Node, x: Closure, up: seq<Msg>, dn: seq<Msg>)
    requires HomeOk(c, home) && ClosuresOk(c, home) && NewClosure(c, home, x) && e.th < c.threads
    requires AskFlow(b, c.threads, far, home, up, dn) && (x.SendAck? ==> x.client != b)
    ensures AskFlow(b, c.threads, far, Begun(e, home, x), up, dn + To(BegunOut(e, home, x), b))
  {
    var h := Begun(e, home, x);
    var ms := To(BegunOut(e, home, x), b);
    forall q ensures AskFlowAt(b, c.threads, far, h, up, dn + ms, q) {
      assert AskFlowAt(b, c.threads, far, home, up, dn, q);
      Pushed(dn, ms, AckInv(q));
      BegunHeld(c, e, home, x, b, q);
    }
  }

  lemma BegunWriteFlow(c: Config, e: Env, b: NodeId, far: Node, home: Node, x: Closure, up: seq<Msg>, dn: seq<Msg>)
    requires HomeOk(c, home) && ClosuresOk(c, home) && NewClosure(c, home, x) && e.th < c.threads
    requires WriteFlow(b, far, home.tr.log, up, dn)
    ensures Begun(e, home, x).tr.log == home.tr.log
    ensures WriteFlow(b, far, home.tr.log, up, dn + To(BegunOut(e, home, x), b))
  {
    var ms := To(BegunOut(e, home, x), b);
    forall i | 0 <= i < |ms| ensures !ms[i].RWriteAck? {
      if home.shared == [] {
        BegunEmpty(c, e, home, x);
        if x.SendAck? { ToOne(Packet(x.client, AckInv(x.serial)), b); }
      } else {
        BegunRegisters(c, e, home, x);
        AllInvsTo(e, WithClosure(home, x, 1), b, 0);
      }
    }
    forall k ensures Like(dn, dn + ms, RWriteAck(k)) { PushLike(dn, ms, RWriteAck(k)); }
    WriteFlowFrame(b, far, far, home.tr.log, home.tr.log, up, up, dn, dn + ms);
  }

  lemma BegunDn(c: Config, e: Env, b: NodeId, home: Node, x: Closure, dn: seq<Msg>)
    requires HomeOk(c, home) && ClosuresOk(c, home) && NewClosure(c, home, x) && e.th < c.threads && DnOk(dn)
    ensures DnOk(dn + To(BegunOut(e, home, x), b))
  {
    var ms := To(BegunOut(e, home, x), b);
    if home.shared == [] {
      BegunEmpty(c, e, home, x);
      if x.SendAck? { ToOne(Packet(x.client, AckInv(x.serial)), b); }
    } else {
      BegunRegisters(c, e, home, x);
      AllInvsTo(e, WithClosure(home, x, 1), b, 0);
    }
  }

  // ---------------------------------------------------------------- order, when an invalidation begins

  /** When its ask is served, every write of a publication is in the log. */
  lemma ServedIsSwept(b: NodeId, c: Config, far: Node, home: Node, h: Node, jobs: map<Tx, Job>, tx: Tx, up: seq<Msg>,
                      dn: seq<Msg>)
    requires JobsOk(b, far, jobs) && CommitsOk(b, c.threads, far) && WriteFlow(b, far, home.tr.log, up, dn)
    requires tx in jobs && tx.node == b && tx in far.tr.asks && jobs[tx].at <= |home.tr.log|
    requires h.tr.log == home.tr.log && h.tr.lastInv == |home.tr.log|
    ensures Swept(h, tx, jobs[tx])
  {
    var j := jobs[tx];
    assert JobOk(far, tx, j);
    assert h.tr.log[..h.tr.lastInv] == home.tr.log;
    forall i | 0 <= i < |j.ws| ensures Remote(b, j.serials[i], j.ws[i]) in home.tr.log {
      var k := j.serials[i];
      assert k !in Open(far, tx);
      AckedIsLogged(b, far, home.tr.log, up, dn, k);
    }
  }

  lemma BegunOrdered(c: Config, e: Env, b: NodeId, far: Node, home: Node, s: int, jobs: map<Tx, Job>, up: seq<Msg>,
                     dn: seq<Msg>)
    requires HomeOk(c, home) && ClosuresOk(c, home) && NewClosure(c, home, SendAck(b, s)) && e.th < c.threads
    requires Ordered(b, far, home, jobs) && JobsOk(b, far, jobs) && CommitsOk(b, c.threads, far)
    requires WriteFlow(b, far, home.tr.log, up, dn) && forall tx :: tx in jobs ==> jobs[tx].at <= |home.tr.log|
    ensures Ordered(b, far, Begun(e, home, SendAck(b, s)), jobs)
  {
    var x := SendAck(b, s);
    var h := Begun(e, home, x);
    forall tx | tx in jobs && tx.node == b && tx in far.tr.asks && SendAck(b, far.tr.asks[tx]) in h.tr.waits
      ensures Swept(h, tx, jobs[tx])
    {
      ServedIsSwept(b, c, far, home, h, jobs, tx, up, dn);
    }
  }

  lemma BegunOrderedOther(c: Config, e: Env, b: NodeId, far: Node, home: Node, x: Closure, jobs: map<Tx, Job>,
                          jobs': map<Tx, Job>)
    requires HomeOk(c, home) && ClosuresOk(c, home) && NewClosure(c, home, x) && e.th < c.threads
    requires Ordered(b, far, home, jobs) && (x.SendAck? ==> x.client != b)
    requires forall tx :: tx in far.tr.asks && tx in jobs' && tx.node == b ==> tx in jobs && jobs'[tx] == jobs[tx]
    ensures Ordered(b, far, Begun(e, home, x), jobs')
  {
    forall s ensures SendAck(b, s) in Begun(e, home, x).tr.waits <==> SendAck(b, s) in home.tr.waits {
      BegunHeld(c, e, home, x, b, s);
    }
    OrderedFrame(b, far, far, home, Begun(e, home, x), jobs, jobs');
  }

  /** Serving another node's ask changes no publication of the home's own. */
  lemma BegunHomeJobs(c: Config, e: Env, home: Node, x: Closure, jobs: map<Tx, Job>)
    requires HomeOk(c, home) && ClosuresOk(c, home) && NewClosure(c, home, x) && x.SendAck? && e.th < c.threads
    requires HomeJobsOk(c, home, jobs)
    ensures HomeJobsOk(c, Begun(e, home, x), jobs)
  {
    var h := Begun(e, home, x);
    NewIsAbsent(c, home, x);
    if home.shared == [] { BegunEmpty(c, e, home, x); } else { BegunRegisters(c, e, home, x); }
    forall tx | tx in jobs && tx.node == c.owner ensures HomeJobOk(h, tx, jobs[tx]) {
      assert HomeJobOk(home, tx, jobs[tx]);
    }
  }

  lemma BegunHomeOthers(c: Config, e: Env, home: Node, tx: Tx, jobs: map<Tx, Job>, y: Tx)
    requires HomeOk(c, home) && ClosuresOk(c, home) && e.th < c.threads && NewClosure(c, home, DoTdecs(tx))
    requires y != tx && y in jobs && HomeJobOk(home, y, jobs[y])
    ensures HomeJobOk(Begun(e, home, DoTdecs(tx)), y, jobs[y])
  {
    var x := DoTdecs(tx);
    NewIsAbsent(c, home, x);
    if home.shared == [] { BegunEmpty(c, e, home, x); } else { BegunRegisters(c, e, home, x); }
    assert multiset(home.tr.tdecs + [tx])[y] == multiset(home.tr.tdecs)[y];
  }

  lemma BegunHomeOwn(c: Config, e: Env, home: Node, tx: Tx, j: Job)
    requires HomeOk(c, home) && ClosuresOk(c, home) && e.th < c.threads && NewClosure(c, home, DoTdecs(tx))
    requires tx !in home.tr.tdecs && j.ws == [] && j.serials == [] && j.at == |home.tr.log|
    ensures HomeJobOk(Begun(e, home, DoTdecs(tx)), tx, j)
  {
    var x := DoTdecs(tx);
    NewIsAbsent(c, home, x);
    if home.shared == [] { BegunEmpty(c, e, home, x); } else { BegunRegisters(c, e, home, x); }
    assert multiset(home.tr.tdecs + [tx])[tx] == multiset(home.tr.tdecs)[tx] + 1;
  }

  /** The home's own publication. */
  lemma BegunHomeJob(c: Config, e: Env, home: Node, tx: Tx, jobs: map<Tx, Job>, j: Job)
    requires HomeOk(c, home) && ClosuresOk(c, home) && e.th < c.threads && HomeJobsOk(c, home, jobs)
    requires tx !in jobs && tx.node == c.owner && j.ws == [] && j.serials == [] && j.at == |home.tr.log|
    ensures NewClosure(c, home, DoTdecs(tx)) && HomeJobsOk(c, Begun(e, home, DoTdecs(tx)), jobs[tx := j])
  {
    var h := Begun(e, home, DoTdecs(tx));
    BegunHomeOwn(c, e, home, tx, j);
    forall y | y in jobs && y.node == c.owner ensures HomeJobOk(h, y, jobs[y]) {
      BegunHomeOthers(c, e, home, tx, jobs, y);
    }
    BegunHomeKnown(c, e, home, tx);
    HomeJobsAdd(c, home, h, jobs, tx, j);
  }

  lemma HomeJobsAdd(c: Config, home: Node, h: Node, jobs: map<Tx, Job>, tx: Tx, j: Job)
    requires HomeJobsOk(c, home, jobs) && tx.node == c.owner && HomeJobOk(h, tx, j)
    requires forall y :: y in jobs && y.node == c.owner ==> HomeJobOk(h, y, jobs[y])
    requires forall y :: DoTdecs(y) in h.tr.waits ==> y == tx || DoTdecs(y) in home.tr.waits
    requires forall y :: y in h.tr.tdecs ==> y == tx || y in home.tr.tdecs
    ensures HomeJobsOk(c, h, jobs[tx := j])
  {
  }

  lemma BegunHomeKnown(c: Config, e: Env, home: Node, tx: Tx)
    ensures var h := Begun(e, home, DoTdecs(tx));
      && (forall y :: DoTdecs(y) in h.tr.waits ==> y == tx || DoTdecs(y) in home.tr.waits)
      && (forall y :: y in h.tr.tdecs ==> y == tx || y in home.tr.tdecs)
  {
  }

  // ---------------------------------------------------------------- the home receives an ack

  lemma AckIsExpected(c: Config, b: NodeId, home: Node, up: seq<Msg>, dn: seq<Msg>, s: int)
    requires ClosuresOk(c, home) && InvFlow(b, home, up, dn) && up != [] && up[0] == AckInv(s)
    ensures s in home.ev.invs && |home.ev.invs[s]| == 1 && home.ev.invs[s][0].Continuer?
    ensures var x := home.ev.invs[s][0].c;
      && Simple(x) && x in home.ev.sc && home.ev.sc[x] == 1 && (x.SendAck? ==> x.client != c.owner)
      && Continuer(x) in home.ev.sc && home.ev.sc[Continuer(x)] > 0 && x in home.tr.waits && s in home.tr.waits[x]
    ensures Waits(home, s, b)
  {
    HeadCounts(up);
    assert InvFlowAt(b, home, up, dn, s);
    assert AckWaits(home, s);
    var x := home.ev.invs[s][0].c;
    assert ClosureOk(home, Continuer(x)) && ClosureOk(home, x);
  }

  /** Home counted the ack of serial s for x. */
  ghost predicate Counts(home: Node, h: Node, s: int, x: Closure) {
    && s in home.ev.invs && home.ev.invs[s] == [Continuer(x)] && Continuer(x) in home.ev.sc
    && h == InvSignalled(AckCounted(home, x), s)
  }

  lemma CountedAcks(home: Node, h: Node, s: int, x: Closure)
    requires Counts(home, h, s, x)
    ensures Acks(h, x) == Acks(home, x) - {s} && s in Acks(home, x) && |Acks(h, x)| == |Acks(home, x)| - 1
    ensures forall y :: y != x ==> Acks(h, y) == Acks(home, y)
  {
    assert Acks(h, x) == Acks(home, x) - {s};
    forall y | y != x ensures Acks(h, y) == Acks(home, y) { }
  }

  lemma CountedCounter(c: Config, home: Node, h: Node, s: int, x: Closure, y: Closure)
    requires ClosuresOk(c, home) && Counts(home, h, s, x) && Continuer(y) in h.ev.sc
    ensures ClosureOk(h, Continuer(y))
  {
    CountedAcks(home, h, s, x);
    assert ClosureOk(home, Continuer(x)) && ClosureOk(home, Continuer(y));
  }

  lemma CountedSimple(c: Config, home: Node, h: Node, s: int, x: Closure, y: Closure)
    requires ClosuresOk(c, home) && Counts(home, h, s, x) && y in h.ev.sc && !y.Continuer?
    ensures ClosureOk(h, y)
  {
    assert ClosureOk(home, Continuer(x)) && ClosureOk(home, y);
    CountedLive(home, h, s, x);
  }

  lemma CountedClosures(c: Config, home: Node, h: Node, s: int, x: Closure)
    requires ClosuresOk(c, home) && Counts(home, h, s, x)
    ensures forall y :: y in h.ev.sc ==> ClosureOk(h, y)
  {
    forall y | y in h.ev.sc ensures ClosureOk(h, y) {
      if y.Continuer? { CountedCounter(c, home, h, s, x, y.c); } else { CountedSimple(c, home, h, s, x, y); }
    }
  }

  lemma CountedWaits(c: Config, home: Node, h: Node, s: int, x: Closure)
    requires ClosuresOk(c, home) && Counts(home, h, s, x)
    ensures forall q :: q in h.ev.invs ==> AckWaits(h, q)
  {
    CountedAcks(home, h, s, x);
    assert ClosureOk(home, Continuer(x));
    forall q | q in h.ev.invs ensures AckWaits(h, q) {
      assert AckWaits(home, q);
      assert home.ev.invs[q] == [home.ev.invs[q][0]];
      assert home.ev.invs[q][0] == Continuer(x) ==> q in Acks(h, x);
    }
  }

  lemma CountedOk(c: Config, home: Node, h: Node, s: int, x: Closure)
    requires ClosuresOk(c, home) && Counts(home, h, s, x)
    ensures ClosuresOk(c, h)
  {
    CountedClosures(c, home, h, s, x);
    CountedWaits(c, home, h, s, x);
    assert h.tr.waits == home.tr.waits;
    forall y, q | y in h.tr.waits && q in h.tr.waits[y] ensures HolderOk(c, h, y, q) { assert HolderOk(c, home, y, q); }
  }

  lemma CountedHome(c: Config, home: Node, h: Node, s: int, x: Closure)
    requires HomeOk(c, home) && Counts(home, h, s, x)
    ensures HomeOk(c, h) && h.shared == home.shared && h.content == home.content && h.tr.log == home.tr.log
    ensures h.tr.lastInv == home.tr.lastInv && h.tr.twice == home.tr.twice && h.tr.waits == home.tr.waits
  {
  }

  lemma CountedInvFlow(b: NodeId, home: Node, h: Node, s: int, x: Closure, up: seq<Msg>, up': seq<Msg>, dn: seq<Msg>,
                       ms: seq<Msg>)
    requires InvFlow(b, home, up, dn) && Counts(home, h, s, x)
    requires if Waits(home, s, b) then up != [] && up[0] == AckInv(s) && up' == up[1..] else up' == up
    requires forall i :: 0 <= i < |ms| ==> !ms[i].DoInv?
    ensures InvFlow(b, h, up', dn + ms)
  {
    assert h.tr.waits == home.tr.waits;
    forall q ensures InvFlowAt(b, h, up', dn + ms, q) {
      assert InvFlowAt(b, home, up, dn, q) && InvFlowAt(b, home, up, dn, s);
      Pushed(dn, ms, DoInv(q));
      Absent(ms, DoInv(q));
      if Waits(home, s, b) {
        HeadCounts(up);
        Popped(up, AckInv(q));
      }
    }
  }

  lemma CountedHeld(c: Config, b: NodeId, home: Node, h: Node, s: int, x: Closure, q: int)
    requires ClosuresOk(c, home) && Counts(home, h, s, x)
    ensures Held(h, SendAck(b, q)) + multiset(To(AckCountedOut(home, x), b))[AckInv(q)] == Held(home, SendAck(b, q))
    ensures SendAck(b, q) in h.tr.waits <==> SendAck(b, q) in home.tr.waits
  {
    assert ClosureOk(home, Continuer(x)) && ClosureOk(home, x);
    CountedLive(home, h, s, x);
    if x.SendAck? {
      ToOne(Packet(x.client, AckInv(x.serial)), b);
      One(AckInv(x.serial), AckInv(q));
    }
  }

  /** Which closures are live once the ack has been counted. */
  lemma CountedLive(home: Node, h: Node, s: int, x: Closure)
    requires Counts(home, h, s, x) && x in home.ev.sc
    ensures h.tr.waits == home.tr.waits
    ensures forall y :: Simple(y) ==>
      (y in h.ev.sc <==> y in home.ev.sc && (y != x || home.ev.sc[Continuer(x)] != 1))
  {
  }

  /** The last ack of an invalidation sends the answer, if it was another node's. */
  lemma CountedAskFlow(c: Config, b: NodeId, far: Node, home: Node, h: Node, s: int, x: Closure,
                       up: seq<Msg>, up': seq<Msg>, dn: seq<Msg>)
    requires AskFlow(b, c.threads, far, home, up, dn) && ClosuresOk(c, home) && Counts(home, h, s, x)
    requires forall q :: Like(up, up', AskInv(b, q))
    ensures AskFlow(b, c.threads, far, h, up', dn + To(AckCountedOut(home, x), b))
  {
    var ms := To(AckCountedOut(home, x), b);
    forall q ensures AskFlowAt(b, c.threads, far, h, up', dn + ms, q) {
      assert AskFlowAt(b, c.threads, far, home, up, dn, q);
      assert Like(up, up', AskInv(b, q));
      Pushed(dn, ms, AckInv(q));
      CountedHeld(c, b, home, h, s, x, q);
    }
  }

  lemma CountedOut(b: NodeId, home: Node, x: Closure, dn: seq<Msg>)
    requires Continuer(x) in home.ev.sc && DnOk(dn)
    ensures var ms := To(AckCountedOut(home, x), b);
      DnOk(dn + ms) && forall i :: 0 <= i < |ms| ==> ms[i].AckInv?
  {
    if x.SendAck? { ToOne(Packet(x.client, AckInv(x.serial)), b); }
  }

  lemma CountedHomeJob(c: Config, home: Node, h: Node, s: int, x: Closure, tx: Tx, j: Job)
    requires ClosuresOk(c, home) && HomeJobOk(home, tx, j) && Counts(home, h, s, x)
    ensures HomeJobOk(h, tx, j)
  {
    assert ClosureOk(home, Continuer(x)) && ClosureOk(home, x);
    if x.DoTdecs? {
      assert multiset(home.tr.tdecs + [x.tx])[tx] == multiset(home.tr.tdecs)[tx] + if tx == x.tx then 1 else 0;
    }
  }

  lemma CountedHomeJobs(c: Config, home: Node, h: Node, s: int, x: Closure, jobs: map<Tx, Job>)
    requires ClosuresOk(c, home) && HomeJobsOk(c, home, jobs) && Counts(home, h, s, x)
    ensures HomeJobsOk(c, h, jobs)
  {
    assert ClosureOk(home, Continuer(x)) && ClosureOk(home, x);
    forall tx | tx in jobs && tx.node == c.owner ensures HomeJobOk(h, tx, jobs[tx]) {
      CountedHomeJob(c, home, h, s, x, tx, jobs[tx]);
    }
    assert h.tr.tdecs == home.tr.tdecs || (x.DoTdecs? && h.tr.tdecs == home.tr.tdecs + [x.tx]);
  }

  // ---------------------------------------------------------------- the home applies a write

  lemma ApplyWriteFlow(b: NodeId, far: Node, log: seq<Applied>, up: seq<Msg>, dn: seq<Msg>, k: int, w: Write)
    requires WriteFlow(b, far, log, up, dn) && up != [] && up[0] == RWrite(b, k, w) && UpOk(b, far, up)
    ensures WriteFlow(b, far, log + [Remote(b, k, w)], up[1..], dn + [RWriteAck(k)])
  {
    var log' := log + [Remote(b, k, w)];
    assert UpMsg(b, far, up[0]);
    forall q | q in far.tr.sent ensures SentFlow(b, far, log', up[1..], dn + [RWriteAck(k)], q) {
      assert SentFlow(b, far, log, up, dn, q);
      Popped(up, RWrite(b, q, far.tr.sent[q].w));
      Pushed(dn, [RWriteAck(k)], RWriteAck(q));
      One(RWriteAck(k), RWriteAck(q));
      assert multiset(log')[Remote(b, q, far.tr.sent[q].w)] ==
        multiset(log)[Remote(b, q, far.tr.sent[q].w)] + if q == k then 1 else 0;
    }
    forall q | q !in far.tr.sent ensures multiset(dn + [RWriteAck(k)])[RWriteAck(q)] == 0 {
      Pushed(dn, [RWriteAck(k)], RWriteAck(q));
      One(RWriteAck(k), RWriteAck(q));
    }
  }

  lemma ApplyOther(b: NodeId, far: Node, log: seq<Applied>, a: Applied, up: seq<Msg>, dn: seq<Msg>)
    requires WriteFlow(b, far, log, up, dn) && (a.Remote? ==> a.orig != b)
    ensures WriteFlow(b, far, log + [a], up, dn)
  {
    forall k, w ensures multiset(log + [a])[Remote(b, k, w)] == multiset(log)[Remote(b, k, w)] { }
    WriteFlowFrame(b, far, far, log, log + [a], up, up, dn, dn);
  }

  lemma ApplyHome(c: Config, home: Node, a: Applied)
    requires HomeOk(c, home)
    ensures HomeOk(c, home.(content := Apply(home.content, a.w), tr := home.tr.(log := home.tr.log + [a])))
  {
    ReplayGrows(c.content, home.tr.log, a);
  }
}
