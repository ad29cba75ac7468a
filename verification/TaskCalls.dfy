/** What the choices of a `Tasks` run ask for is what happens: the frames and tdecs are the calls that made them, a
    frame is given at the node where its last tdec is applied, and each step belongs to one node. */
module TaskCalls {
  import opened Tasks
  import opened TaskSafety

  // ---------------------------------------------------------------- each step belongs to one node

  /** The node whose step this is; no node for a choice that concerns none. */
  ghost function Actor(s: State, ch: Choice): nat {
    match ch
    case Create(_, _) => |s.nodes|
    case TDecHere(_, i, _) => i
    case TDecAway(_) => |s.nodes|
    case ApplyTDec(_, i, _) => i
    case TakeLoot(k, _) => if k < |s.net| then s.net[k].to else |s.nodes|
    case _ => ch.i
  }

  /** Every node but one stays as it was. */
  lemma StepIsLocal(c: Config, s: State, ch: Choice)
    ensures var s' := Step(c, s, ch);
      |s'.nodes| == |s.nodes| && forall x :: 0 <= x < |s.nodes| && x != Actor(s, ch) ==> s'.nodes[x] == s.nodes[x]
  {
  }

  // ---------------------------------------------------------------- where frames are given

  /** The choice applies a tdec to frame f at node i. */
  ghost predicate Applies(s: State, ch: Choice, f: nat, i: nat) {
    && !s.negative && f in s.frames
    && ((ch.TDecHere? && ch.f == f && ch.i == i && Free(s, i, ch.j))
        || (ch.ApplyTDec? && ch.f == f && ch.i == i && Free(s, i, ch.j) && f in s.tdecs))
  }

  /** A tdec that brings a frame's counter to zero gives the frame to a thread of the node where it is applied, and to
      no other; any other tdec changes no node. */
  lemma GivenWhereApplied(c: Config, s: State, ch: Choice, f: nat, i: nat)
    requires Applies(s, ch, f, i)
    ensures var s' := Step(c, s, ch);
      && |s'.nodes| == |s.nodes| && i < |s.nodes| && f in s'.frames && s'.frames[f].sc == s.frames[f].sc - 1
      && if s.frames[f].sc == 1 then
           && s'.given == s.given + multiset{Frame(f)}
           && (forall x, t :: 0 <= x < |s.nodes| ==>
                 Occ(s'.nodes[x], t) == Occ(s.nodes[x], t) + if x == i && t == Frame(f) then 1 else 0)
         else s'.nodes == s.nodes && s'.given == s.given
  {
    if s.frames[f].sc == 1 {
      var s', n := Step(c, s, ch), s.nodes[i];
      var th := Thread(Checking(Frame(f)), []);
      assert s'.nodes == s.nodes[i := n.(threads := n.threads[ch.j := th])];
      forall x, t | 0 <= x < |s.nodes|
        ensures Occ(s'.nodes[x], t) == Occ(s.nodes[x], t) + if x == i && t == Frame(f) then 1 else 0
      {
        if x == i { ThreadSet(n.threads, ch.j, th, t); }
      }
    }
  }

  // ---------------------------------------------------------------- frames and tdecs are calls

  /** Choice j of the run created frame f with this initial count. */
  ghost predicate CreatedAt(c: Config, run: seq<Choice>, j: int, f: nat, initial: int) {
    0 <= j < |run| && run[j].Create? && run[j].f == f && run[j].sc == initial && f !in After(c, run[..j]).frames
  }

  lemma CreatedLonger(c: Config, run: seq<Choice>, j: int, f: nat, initial: int)
    requires run != [] && CreatedAt(c, run[..|run| - 1], j, f, initial)
    ensures CreatedAt(c, run, j, f, initial)
  {
    assert run[..|run| - 1][..j] == run[..j];
  }

  /** The choice issues a tdec to frame f, at the node of its page or by a message. */
  ghost predicate Issues(s: State, ch: Choice, f: nat) {
    && !s.negative && f in s.frames
    && ((ch.TDecAway? && ch.f == f) || (ch.TDecHere? && ch.f == f && Free(s, ch.i, ch.j)))
  }

  /** How many tdecs to frame f the run has issued. */
  ghost function IssuedTo(c: Config, run: seq<Choice>, f: nat): nat {
    if run == [] then 0
    else
      var n := |run| - 1;
      IssuedTo(c, run[..n], f) + if Issues(After(c, run[..n]), run[n], f) then 1 else 0
  }

  predicate OnFrames(ch: Choice) { ch.Create? || ch.TDecHere? || ch.TDecAway? || ch.ApplyTDec? }

  lemma FramesSame(c: Config, s: State, ch: Choice)
    requires !OnFrames(ch)
    ensures Step(c, s, ch).frames == s.frames
  {
    if !ch.Steal? && !ch.TakeLoot? && !s.negative && ch.i < |s.nodes| {
      PutFrames(s, ch.i, NodeStep(c, s.nodes[ch.i], ch));
    }
  }

  lemma PutFrames(s: State, i: nat, n: Node)
    requires i < |s.nodes|
    ensures Put(s, i, n).frames == s.frames
  {
  }

  lemma ApplyFrame(s: State, f: nat, i: nat, j: nat)
    requires f in s.frames && Free(s, i, j)
    ensures var x, s' := s.frames[f], Apply(s, f, i, j);
      s'.frames == s.frames[f := x.(sc := x.sc - 1, applied := x.applied + 1)]
  {
  }

  lemma FramesChange(c: Config, s: State, ch: Choice, f: nat)
    requires OnFrames(ch) && !s.negative && f in Step(c, s, ch).frames
    ensures FrameFollows(s, Step(c, s, ch), ch, f)
  {
    match ch
    case TDecHere(g, i, j) => HereFrames(c, s, g, i, j);
    case ApplyTDec(g, i, j) => ReachedFrames(c, s, g, i, j);
    case _ =>
  }

  lemma HereFrames(c: Config, s: State, g: nat, i: nat, j: nat)
    requires !s.negative
    ensures Step(c, s, TDecHere(g, i, j)).frames ==
      if g !in s.frames || !Free(s, i, j) then s.frames
      else
        var x := s.frames[g];
        s.frames[g := x.(sc := x.sc - 1, issued := x.issued + 1, applied := x.applied + 1)]
  {
    if g in s.frames && Free(s, i, j) { ApplyFrame(Issue(s, g), g, i, j); }
  }

  lemma ReachedFrames(c: Config, s: State, g: nat, i: nat, j: nat)
    requires !s.negative
    ensures Step(c, s, ApplyTDec(g, i, j)).frames ==
      if g !in s.tdecs || g !in s.frames || !Free(s, i, j) then s.frames
      else
        var x := s.frames[g];
        s.frames[g := x.(sc := x.sc - 1, applied := x.applied + 1)]
  {
    if g in s.tdecs && g in s.frames && Free(s, i, j) { ApplyFrame(s.(tdecs := s.tdecs - multiset{g}), g, i, j); }
  }

  /** A frame after a step: as it was, with one more tdec issued, or created. */
  ghost predicate FrameFollows(s: State, s': State, ch: Choice, f: nat)
    requires f in s'.frames
  {
    if f in s.frames then
      && s'.frames[f].initial == s.frames[f].initial
      && s'.frames[f].issued == s.frames[f].issued + if Issues(s, ch, f) then 1 else 0
    else ch.Create? && ch.f == f && s'.frames[f].initial == ch.sc && s'.frames[f].issued == 0
  }

  lemma FramesStep(c: Config, s: State, ch: Choice, f: nat)
    requires f in Step(c, s, ch).frames
    ensures FrameFollows(s, Step(c, s, ch), ch, f)
  {
    if !s.negative {
      if OnFrames(ch) { FramesChange(c, s, ch, f); } else { FramesSame(c, s, ch); }
    }
  }

  /** Frames are the ones created, each with the count it was created with. */
  lemma {:induction false} FramesAreCreated(c: Config, run: seq<Choice>, f: nat) returns (j: int)
    requires f in After(c, run).frames
    ensures CreatedAt(c, run, j, f, After(c, run).frames[f].initial)
  {
    var before, ch := run[..|run| - 1], run[|run| - 1];
    FramesStep(c, After(c, before), ch, f);
    if f in After(c, before).frames {
      j := FramesAreCreated(c, before, f);
      CreatedLonger(c, run, j, f, After(c, run).frames[f].initial);
    } else {
      j := |run| - 1;
    }
  }

  lemma FramesStay(c: Config, s: State, ch: Choice, f: nat)
    requires f in s.frames
    ensures f in Step(c, s, ch).frames
  {
    if !OnFrames(ch) { FramesSame(c, s, ch); }
  }

  lemma {:induction false} NoneIssuedBefore(c: Config, run: seq<Choice>, f: nat)
    requires f !in After(c, run).frames
    ensures IssuedTo(c, run, f) == 0
  {
    if run != [] {
      var before, ch := run[..|run| - 1], run[|run| - 1];
      if f in After(c, before).frames { FramesStay(c, After(c, before), ch, f); }
      NoneIssuedBefore(c, before, f);
    }
  }

  /** The tdecs issued to a frame are the calls that issue one. */
  lemma {:induction false} IssuedAreTheCalls(c: Config, run: seq<Choice>, f: nat)
    requires f in After(c, run).frames
    ensures After(c, run).frames[f].issued == IssuedTo(c, run, f)
  {
    var before, ch := run[..|run| - 1], run[|run| - 1];
    FramesStep(c, After(c, before), ch, f);
    if f in After(c, before).frames {
      IssuedAreTheCalls(c, before, f);
    } else {
      NoneIssuedBefore(c, before, f);
    }
  }

  /** With FrameScheduledOnce: a frame is given once, when the tdecs applied to it reach the count it was created with,
      and of the tdecs that the run issued to it each has been applied or is in flight. */
  lemma GivenAtCreatedCount(c: Config, run: seq<Choice>, f: nat) returns (j: int)
    requires c.threads > 0 && f in After(c, run).frames
    ensures 0 <= j < |run| && run[j].Create? && run[j].f == f
    ensures var s := After(c, run); var applied := IssuedTo(c, run, f) - s.tdecs[f];
      applied >= 0 && s.given[Frame(f)] == if 0 < run[j].sc <= applied then 1 else 0
  {
    j := FramesAreCreated(c, run, f);
    IssuedAreTheCalls(c, run, f);
    FrameScheduledOnce(c, run, f);
    Safe(c, run);
    assert FrameOk(After(c, run), f);
  }
}
