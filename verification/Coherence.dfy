/** Directory, copies and freshness for one page whose responsibility stays at its home, seen from one other
    node: the home node `home`, the node `far`, and the channel `ch` of messages from home to it.  Only Data and
    DoInvalidate messages matter here. */
module Coherence {
  import opened Protocol

  // ---------------------------------------------------------------- counting messages in a channel

  function Datas(ch: seq<Msg>): nat {
    if ch == [] then 0 else (if ch[0].Data? then 1 else 0) + Datas(ch[1..])
  }

  function DoInvs(ch: seq<Msg>): nat {
    if ch == [] then 0 else (if ch[0].DoInv? then 1 else 0) + DoInvs(ch[1..])
  }

  ghost predicate Quiet(ms: seq<Msg>) {
    forall i :: 0 <= i < |ms| ==> !ms[i].Data? && !ms[i].DoInv?
  }

  ghost predicate AllDoInv(ms: seq<Msg>) {
    forall i :: 0 <= i < |ms| ==> ms[i].DoInv?
  }

  lemma {:induction false} CountPush(ch: seq<Msg>, ms: seq<Msg>)
    ensures Datas(ch + ms) == Datas(ch) + Datas(ms) && DoInvs(ch + ms) == DoInvs(ch) + DoInvs(ms)
  {
    if ch == [] {
      assert ch + ms == ms;
    } else {
      assert (ch + ms)[1..] == ch[1..] + ms;
      CountPush(ch[1..], ms);
    }
  }

  lemma {:induction false} CountQuiet(ms: seq<Msg>)
    requires Quiet(ms)
    ensures Datas(ms) == 0 && DoInvs(ms) == 0
  {
    if ms != [] { CountQuiet(ms[1..]); }
  }

  lemma {:induction false} CountDoInvs(ms: seq<Msg>)
    requires AllDoInv(ms)
    ensures Datas(ms) == 0 && DoInvs(ms) == |ms|
  {
    if ms != [] { CountDoInvs(ms[1..]); }
  }

  // ---------------------------------------------------------------- delivering everything in a channel

  /** What happens if everything in the channel is delivered to a node whose copy is valid or not. */
  datatype Fate = Ends(valid: bool) | Overwrites | DoublyInvalidates

  function Drain(valid: bool, ch: seq<Msg>): Fate
    decreases |ch|
  {
    if ch == [] then Ends(valid)
    else match ch[0]
      case Data(_) => if valid then Overwrites else Drain(true, ch[1..])
      case DoInv(_) => if valid then Drain(false, ch[1..]) else DoublyInvalidates
      case _ => Drain(valid, ch[1..])
  }

  lemma {:induction false} DrainPush(valid: bool, ch: seq<Msg>, ms: seq<Msg>)
    ensures Drain(valid, ch + ms) == (match Drain(valid, ch) case Ends(v) => Drain(v, ms) case stuck => stuck)
    decreases |ch|
  {
    if ch == [] {
      assert ch + ms == ms;
    } else {
      assert (ch + ms)[1..] == ch[1..] + ms;
      DrainPush(if ch[0].Data? then true else if ch[0].DoInv? then false else valid, ch[1..], ms);
    }
  }

  lemma {:induction false} DrainQuiet(valid: bool, ms: seq<Msg>)
    requires Quiet(ms)
    ensures Drain(valid, ms) == Ends(valid)
  {
    if ms != [] { DrainQuiet(valid, ms[1..]); }
  }

  // ---------------------------------------------------------------- the invariant for one node

  /** The content after some write at or after the last invalidation. */
  ghost predicate Fresh(c: Config, home: Node, x: Content) {
    exists k :: home.tr.lastInv <= k <= |home.tr.log| && x == Replay(c.content, home.tr.log[..k])
  }

  /** A copy that no DoInvalidate is chasing is fresh, and its holder is in the directory. */
  ghost predicate Covered(c: Config, n: NodeId, home: Node, x: Content) {
    Fresh(c, home, x) && multiset(home.shared)[n] > 0
  }

  ghost predicate CopiesIn(c: Config, n: NodeId, home: Node, ch: seq<Msg>) {
    || ch == []
    || ((ch[0].Data? && DoInvs(ch[1..]) == 0 ==> Covered(c, n, home, ch[0].content)) && CopiesIn(c, n, home, ch[1..]))
  }

  ghost predicate CopyAt(c: Config, n: NodeId, home: Node, far: Node, ch: seq<Msg>) {
    far.hdr.status == VALID && DoInvs(ch) == 0 ==> Covered(c, n, home, far.content)
  }

  function Mult(home: Node, n: NodeId): nat { multiset(home.shared)[n] }

  /** The directory equation. */
  ghost predicate DirectoryOk(n: NodeId, home: Node, far: Node, ch: seq<Msg>) {
    Mult(home, n) + DoInvs(ch) == (if far.hdr.status == VALID then 1 else 0) + Datas(ch)
  }

  /** Unless home answered the node twice, the channel drains and leaves the copy as the directory says; if it
      did, the channel cannot be drained: a Data finds a valid copy. */
  ghost predicate FateOk(n: NodeId, home: Node, far: Node, ch: seq<Msg>) {
    var fate := Drain(far.hdr.status == VALID, ch);
    if n in home.tr.twice then fate == Overwrites
    else Mult(home, n) <= 1 && fate == Ends(Mult(home, n) == 1)
  }

  ghost predicate Coherent(c: Config, n: NodeId, home: Node, far: Node, ch: seq<Msg>) {
    && DirectoryOk(n, home, far, ch) && FateOk(n, home, far, ch)
    && CopyAt(c, n, home, far, ch) && CopiesIn(c, n, home, ch)
  }

  // ---------------------------------------------------------------- freshness only moves forward

  /** Home's log grows and its invalidation mark stays. */
  ghost predicate LogGrows(home: Node, home': Node) {
    home.tr.log <= home'.tr.log && home'.tr.lastInv == home.tr.lastInv
  }

  lemma FreshStays(c: Config, home: Node, home': Node, x: Content)
    requires Fresh(c, home, x) && LogGrows(home, home')
    ensures Fresh(c, home', x)
  {
    var k :| home.tr.lastInv <= k <= |home.tr.log| && x == Replay(c.content, home.tr.log[..k]);
    assert home'.tr.log[..k] == home.tr.log[..k];
  }

  lemma {:induction false} CopiesStay(c: Config, n: NodeId, home: Node, home': Node, ch: seq<Msg>)
    requires CopiesIn(c, n, home, ch) && LogGrows(home, home') && (Mult(home, n) > 0 ==> Mult(home', n) > 0)
    ensures CopiesIn(c, n, home', ch)
  {
    if ch != [] {
      CopiesStay(c, n, home, home', ch[1..]);
      if ch[0].Data? && DoInvs(ch[1..]) == 0 { FreshStays(c, home, home', ch[0].content); }
    }
  }

  lemma CopyStays(c: Config, n: NodeId, home: Node, home': Node, far: Node, ch: seq<Msg>)
    requires CopyAt(c, n, home, far, ch) && LogGrows(home, home') && (Mult(home, n) > 0 ==> Mult(home', n) > 0)
    ensures CopyAt(c, n, home', far, ch)
  {
    if far.hdr.status == VALID && DoInvs(ch) == 0 { FreshStays(c, home, home', far.content); }
  }

  /** Messages that are no Data keep every claim; a DoInvalidate removes them all. */
  lemma {:induction false} CopiesPush(c: Config, n: NodeId, home: Node, ch: seq<Msg>, ms: seq<Msg>)
    requires CopiesIn(c, n, home, ch) && CopiesIn(c, n, home, ms)
    ensures CopiesIn(c, n, home, ch + ms)
  {
    if ch == [] {
      assert ch + ms == ms;
    } else {
      assert (ch + ms)[1..] == ch[1..] + ms;
      CountPush(ch[1..], ms);
      CopiesPush(c, n, home, ch[1..], ms);
    }
  }

  /** With a DoInvalidate behind them, copies in the channel claim nothing. */
  lemma {:induction false} CopiesChased(c: Config, n: NodeId, home: Node, ch: seq<Msg>, ms: seq<Msg>)
    requires DoInvs(ms) > 0 && AllDoInv(ms)
    ensures CopiesIn(c, n, home, ch + ms)
  {
    if ch == [] {
      assert ch + ms == ms;
      CountDoInvs(ms);
      CopiesNoData(c, n, home, ms);
    } else {
      assert (ch + ms)[1..] == ch[1..] + ms;
      CountPush(ch[1..], ms);
      CopiesChased(c, n, home, ch[1..], ms);
    }
  }

  lemma {:induction false} CopiesNoData(c: Config, n: NodeId, home: Node, ms: seq<Msg>)
    requires Datas(ms) == 0
    ensures CopiesIn(c, n, home, ms)
  {
    if ms != [] { CopiesNoData(c, n, home, ms[1..]); }
  }

  // ---------------------------------------------------------------- what steps do to it

  /** Home does something else: applies a write, runs closures, or sends messages that do not matter here. */
  lemma HomeElse(c: Config, n: NodeId, home: Node, home': Node, far: Node, ch: seq<Msg>, ms: seq<Msg>)
    requires Coherent(c, n, home, far, ch) && LogGrows(home, home') && Quiet(ms)
    requires Mult(home', n) == Mult(home, n) && (n in home'.tr.twice <==> n in home.tr.twice)
    ensures Coherent(c, n, home', far, ch + ms)
  {
    CountPush(ch, ms);
    CountQuiet(ms);
    DrainPush(far.hdr.status == VALID, ch, ms);
    if n !in home.tr.twice { DrainQuiet(Mult(home, n) == 1, ms); }
    CopyStays(c, n, home, home', far, ch);
    CopiesStay(c, n, home, home', ch);
    CopiesNoData(c, n, home', ms);
    CopiesPush(c, n, home', ch, ms);
  }

  /** Home answers a request of the node. */
  ghost predicate Answers(n: NodeId, home: Node, home': Node) {
    && home'.shared == home.shared + [n] && home'.tr.log == home.tr.log && home'.tr.lastInv == home.tr.lastInv
    && home'.tr.twice == (if n in home.shared then home.tr.twice + {n} else home.tr.twice)
  }

  lemma AnswerCopies(c: Config, n: NodeId, home: Node, home': Node, far: Node, ch: seq<Msg>)
    requires CopyAt(c, n, home, far, ch) && CopiesIn(c, n, home, ch) && Answers(n, home, home')
    requires home.tr.lastInv <= |home.tr.log| && home.content == Replay(c.content, home.tr.log)
    ensures CopyAt(c, n, home', far, ch + [Data(home.content)]) && CopiesIn(c, n, home', ch + [Data(home.content)])
  {
    var ms := [Data(home.content)];
    CountPush(ch, ms);
    assert ms[1..] == [];
    assert DoInvs(ms) == 0;
    CopyStays(c, n, home, home', far, ch);
    CopiesStay(c, n, home, home', ch);
    assert home'.tr.log[..|home'.tr.log|] == home.tr.log;
    assert Fresh(c, home', home.content);
    assert Covered(c, n, home', home.content);
    assert CopiesIn(c, n, home', ms[1..]);
    assert CopiesIn(c, n, home', ms);
    CopiesPush(c, n, home', ch, ms);
  }

  lemma Answer(c: Config, n: NodeId, home: Node, home': Node, far: Node, ch: seq<Msg>)
    requires Coherent(c, n, home, far, ch) && Answers(n, home, home')
    requires home.tr.lastInv <= |home.tr.log| && home.content == Replay(c.content, home.tr.log)
    ensures Coherent(c, n, home', far, ch + [Data(home.content)])
  {
    var ms := [Data(home.content)];
    CountPush(ch, ms);
    assert ms[1..] == [];
    assert Datas(ms) == 1 && DoInvs(ms) == 0;
    assert Mult(home', n) == Mult(home, n) + 1;
    DrainPush(far.hdr.status == VALID, ch, ms);
    assert forall v :: Drain(v, ms) == if v then Overwrites else Ends(true);
    AnswerCopies(c, n, home, home', far, ch);
  }

  /** Home answers another node. */
  lemma AnswerOther(c: Config, n: NodeId, m: NodeId, home: Node, home': Node, far: Node, ch: seq<Msg>)
    requires Coherent(c, n, home, far, ch) && Answers(m, home, home') && m != n
    ensures Coherent(c, n, home', far, ch)
  {
    HomeElse(c, n, home, home', far, ch, []);
    assert ch + [] == ch;
  }

  /** Home sends a DoInvalidate for every entry of the directory and empties it. */
  ghost predicate Empties(home: Node, home': Node) {
    && home'.shared == [] && home'.tr.log == home.tr.log && home'.tr.lastInv == |home.tr.log|
    && home'.tr.twice == home.tr.twice
  }

  lemma InvalidateFate(n: NodeId, home: Node, home': Node, far: Node, ch: seq<Msg>, ms: seq<Msg>)
    requires FateOk(n, home, far, ch) && Empties(home, home') && AllDoInv(ms) && |ms| == Mult(home, n)
    ensures FateOk(n, home', far, ch + ms)
  {
    DrainPush(far.hdr.status == VALID, ch, ms);
    if n !in home.tr.twice {
      if |ms| == 1 { assert ms == [ms[0]] && ms[1..] == []; }
    }
  }

  lemma Invalidate(c: Config, n: NodeId, home: Node, home': Node, far: Node, ch: seq<Msg>, ms: seq<Msg>)
    requires Coherent(c, n, home, far, ch) && Empties(home, home') && AllDoInv(ms) && |ms| == Mult(home, n)
    ensures Coherent(c, n, home', far, ch + ms)
  {
    CountPush(ch, ms);
    CountDoInvs(ms);
    InvalidateFate(n, home, home', far, ch, ms);
    if ms == [] {
      assert ch + ms == ch;
      CopiesUnclaimed(c, n, home, home', ch);
    } else {
      CopiesChased(c, n, home', ch, ms);
    }
  }

  /** A node outside the directory has no copy that claims anything. */
  lemma {:induction false} CopiesUnclaimed(c: Config, n: NodeId, home: Node, home': Node, ch: seq<Msg>)
    requires CopiesIn(c, n, home, ch) && Mult(home, n) == 0
    ensures CopiesIn(c, n, home', ch)
  {
    if ch != [] { CopiesUnclaimed(c, n, home, home', ch[1..]); }
  }

  /** The node takes the next message from its channel. */
  ghost predicate Receives(far: Node, far': Node, m: Msg) {
    match m
    case Data(x) => far.hdr.status == INVALID && far'.hdr.status == VALID && far'.content == x
    case DoInv(_) => far.hdr.status == VALID && far'.hdr.status == INVALID
    case _ => far'.hdr.status == far.hdr.status && far'.content == far.content
  }

  lemma Receive(c: Config, n: NodeId, home: Node, far: Node, far': Node, ch: seq<Msg>)
    requires ch != [] && Coherent(c, n, home, far, ch) && far.hdr.status != RESP && Receives(far, far', ch[0])
    ensures Coherent(c, n, home, far', ch[1..])
  {
  }

  /** Which of the checks of `onDataMessage` and `onDoInvalidate` the next message meets. */
  lemma NextMessage(c: Config, n: NodeId, home: Node, far: Node, ch: seq<Msg>)
    requires ch != [] && Coherent(c, n, home, far, ch)
    ensures ch[0].DoInv? ==> far.hdr.status == VALID
    ensures ch[0].Data? && far.hdr.status == VALID ==> n in home.tr.twice
  {
  }

  /** The node does something else. */
  lemma FarElse(c: Config, n: NodeId, home: Node, far: Node, far': Node, ch: seq<Msg>)
    requires Coherent(c, n, home, far, ch) && far'.hdr.status == far.hdr.status && far'.content == far.content
    ensures Coherent(c, n, home, far', ch)
  {
  }
}
