/** The check and the increment of `schedule_global` with every access to the per-thread counters a step of its own:
    `get_value` adds the counters up one read at a time while other threads change them, so the value it returns
    may be one that the count never had.  The admission bound holds all the same.

    Any thread may decrement its counter at any time: a task it ran has ended.  A run is a schedule of choices. */
module Admission {
  import opened GlobalCounters

  /** Where a thread stands: outside, adding up the counters (the next one to read, the sum so far), or past the
      check. */
  datatype Call = Idle | Reading(next: nat, sum: int) | Admitting

  datatype State = State(counters: seq<int>, calls: seq<Call>)

  datatype Config = Config(threads: nat, threshold: int, initial: int)

  /** At first the count is no more than the bound; the scheduler sets it to one, for the root task. */
  ghost predicate Sane(c: Config) { 0 < c.threads && c.initial <= c.threshold + c.threads }

  function Init(c: Config): State {
    State(seq(c.threads, i => if i == 0 then c.initial else 0), seq(c.threads, _ => Idle))
  }

  datatype Choice =
    | Begin(j: nat)   // thread j calls schedule_global
    | Go(j: nat)      // its next access
    | Leave(j: nat)   // a task it ran has ended

  function Step(c: Config, s: State, ch: Choice): State {
    if ch.j >= |s.calls| || |s.counters| != |s.calls| then s
    else
      var j := ch.j;
      match ch
      case Begin(_) => if s.calls[j].Idle? then s.(calls := s.calls[j := Reading(0, 0)]) else s
      case Leave(_) => s.(counters := s.counters[j := s.counters[j] - 1])
      case Go(_) =>
        match s.calls[j]
        case Idle => s
        case Reading(k, sum) =>
          if k < |s.counters| then s.(calls := s.calls[j := Reading(k + 1, sum + s.counters[k])])
          else s.(calls := s.calls[j := if sum > c.threshold then Idle else Admitting])
        case Admitting => State(s.counters[j := s.counters[j] + 1], s.calls[j := Idle])
  }

  function Steps(c: Config, s: State, run: seq<Choice>): State {
    if run == [] then s else Step(c, Steps(c, s, run[..|run| - 1]), run[|run| - 1])
  }

  function After(c: Config, run: seq<Choice>): State { Steps(c, Init(c), run) }

  /** The count: what `get_value` would return if nothing changed meanwhile. */
  function Value(s: State): int { Sum(s.counters) }

  // ---------------------------------------------------------------- what a thread is about to find

  /** The thread has passed the check at level l, or will if nothing changes before it has read the rest. */
  ghost predicate Passes(call: Call, counters: seq<int>, l: int) {
    match call
    case Idle => false
    case Reading(k, sum) => k <= |counters| && sum + Sum(counters[k..]) <= l
    case Admitting => true
  }

  ghost function Count(calls: seq<Call>, counters: seq<int>, l: int): nat {
    if calls == [] then 0
    else Count(calls[..|calls| - 1], counters, l) + if Passes(calls[|calls| - 1], counters, l) then 1 else 0
  }

  lemma {:induction false} CountMax(calls: seq<Call>, counters: seq<int>, l: int)
    ensures Count(calls, counters, l) <= |calls|
  {
    if calls != [] { CountMax(calls[..|calls| - 1], counters, l); }
  }

  lemma {:induction false} CountSet(calls: seq<Call>, counters: seq<int>, l: int, j: nat, x: Call)
    requires j < |calls|
    ensures Count(calls[j := x], counters, l) ==
      Count(calls, counters, l) - (if Passes(calls[j], counters, l) then 1 else 0)
        + (if Passes(x, counters, l) then 1 else 0)
  {
    var n := |calls| - 1;
    if j < n {
      assert calls[j := x][..n] == calls[..n][j := x];
      CountSet(calls[..n], counters, l, j, x);
    } else {
      assert calls[j := x][..n] == calls[..n];
    }
  }

  /** Whoever passes at level l after the change of the counters passed at level m before it. */
  lemma {:induction false} CountLess(calls: seq<Call>, counters: seq<int>, l: int, counters': seq<int>, m: int)
    requires forall i :: 0 <= i < |calls| && Passes(calls[i], counters', l) ==> Passes(calls[i], counters, m)
    ensures Count(calls, counters', l) <= Count(calls, counters, m)
  {
    if calls != [] {
      var n := |calls| - 1;
      assert forall i :: 0 <= i < n ==> calls[..n][i] == calls[i];
      CountLess(calls[..n], counters, l, counters', m);
    }
  }

  lemma {:induction false} SumHead(xs: seq<int>)
    requires xs != []
    ensures Sum(xs) == xs[0] + Sum(xs[1..])
  {
    var n := |xs| - 1;
    if n == 0 {
      assert xs[..0] == [] && xs[1..] == [];
    } else {
      assert xs[..n][1..] == xs[1..][..n - 1];
      SumHead(xs[..n]);
    }
  }

  /** What is left to read changes by as much as the counter, if that is still to be read. */
  lemma RestChanges(xs: seq<int>, k: nat, j: nat, x: int)
    requires k <= |xs| && j < |xs|
    ensures Sum(xs[j := x][k..]) == Sum(xs[k..]) + (if k <= j then x - xs[j] else 0)
  {
    if k <= j {
      assert xs[j := x][k..] == xs[k..][j - k := x];
      SumUpdate(xs[k..], j - k, x);
    } else {
      assert xs[j := x][k..] == xs[k..];
    }
  }

  // ---------------------------------------------------------------- the invariant

  /** At every level from the threshold on, the count and the threads that pass there stay within the level and the
      number of threads. */
  ghost predicate Inv(c: Config, s: State) {
    && |s.calls| == |s.counters| == c.threads
    && (forall j :: 0 <= j < |s.calls| && s.calls[j].Reading? ==> s.calls[j].next <= |s.counters|)
    && forall l :: c.threshold <= l ==> Within(c, s, l)
  }

  ghost predicate Within(c: Config, s: State, l: int) {
    Value(s) + Count(s.calls, s.counters, l) <= l + c.threads
  }

  lemma BeginKeeps(c: Config, s: State, j: nat)
    requires Inv(c, s)
    ensures Inv(c, Step(c, s, Begin(j)))
  {
    if j < |s.calls| && s.calls[j].Idle? {
      var s' := Step(c, s, Begin(j));
      forall l | c.threshold <= l ensures Within(c, s', l) {
        assert Within(c, s, l);
        CountSet(s.calls, s.counters, l, j, Reading(0, 0));
        CountMax(s'.calls, s'.counters, l);
        assert s.counters[0..] == s.counters;
      }
    }
  }

  /** Reading a counter changes nothing about what the thread will find; the check follows it. */
  lemma ReadKeeps(c: Config, s: State, j: nat)
    requires Inv(c, s) && j < |s.calls| && s.calls[j].Reading?
    ensures Inv(c, Step(c, s, Go(j)))
  {
    var s' := Step(c, s, Go(j));
    var k := s.calls[j].next;
    forall l | c.threshold <= l ensures Within(c, s', l) {
      assert Within(c, s, l);
      CountSet(s.calls, s.counters, l, j, s'.calls[j]);
      if k < |s.counters| {
        SumHead(s.counters[k..]);
        assert s.counters[k..][1..] == s.counters[k + 1..];
      }
      if k == |s.counters| { assert s.counters[k..] == []; }
    }
  }

  lemma AdmitPasses(s: State, j: nat, l: int, call: Call)
    requires j < |s.counters| && Passes(call, s.counters[j := s.counters[j] + 1], l)
    ensures Passes(call, s.counters, l)
  {
    if call.Reading? { RestChanges(s.counters, call.next, j, s.counters[j] + 1); }
  }

  lemma AdmitKeeps(c: Config, s: State, j: nat)
    requires Inv(c, s) && j < |s.calls| && s.calls[j].Admitting?
    ensures Inv(c, Step(c, s, Go(j)))
  {
    var s' := Step(c, s, Go(j));
    SumUpdate(s.counters, j, s.counters[j] + 1);
    forall l | c.threshold <= l ensures Within(c, s', l) {
      assert Within(c, s, l);
      CountSet(s.calls, s'.counters, l, j, Idle);
      forall i | 0 <= i < |s.calls| && Passes(s.calls[i], s'.counters, l) ensures Passes(s.calls[i], s.counters, l) {
        AdmitPasses(s, j, l, s.calls[i]);
      }
      CountLess(s.calls, s.counters, l, s'.counters, l);
    }
  }

  /** A decrement may let several threads pass at once; but these passed one level higher, where there was room. */
  lemma LeaveKeeps(c: Config, s: State, j: nat)
    requires Inv(c, s)
    ensures Inv(c, Step(c, s, Leave(j)))
  {
    if j < |s.calls| {
      var s' := Step(c, s, Leave(j));
      SumUpdate(s.counters, j, s.counters[j] - 1);
      forall l | c.threshold <= l ensures Within(c, s', l) {
        assert Within(c, s, l + 1);
        forall i | 0 <= i < |s.calls| && Passes(s.calls[i], s'.counters, l)
          ensures Passes(s.calls[i], s.counters, l + 1)
        {
          if s.calls[i].Reading? { RestChanges(s.counters, s.calls[i].next, j, s.counters[j] - 1); }
        }
        CountLess(s.calls, s.counters, l, s'.counters, l + 1);
      }
    }
  }

  lemma StepKeeps(c: Config, s: State, ch: Choice)
    requires Inv(c, s)
    ensures Inv(c, Step(c, s, ch))
  {
    match ch
    case Begin(j) => BeginKeeps(c, s, j);
    case Leave(j) => LeaveKeeps(c, s, j);
    case Go(j) =>
      if j < |s.calls| {
        if s.calls[j].Reading? { ReadKeeps(c, s, j); }
        if s.calls[j].Admitting? { AdmitKeeps(c, s, j); }
      }
  }

  lemma {:induction false} NobodyPasses(k: nat, counters: seq<int>, l: int)
    ensures Count(seq(k, _ => Idle), counters, l) == 0
  {
    if k > 0 {
      assert seq(k, _ => Idle)[..k - 1] == seq(k - 1, _ => Idle);
      NobodyPasses(k - 1, counters, l);
    }
  }

  lemma InitValue(c: Config)
    requires 0 < c.threads
    ensures Value(Init(c)) == c.initial
  {
    var zeros := seq(c.threads, _ => 0);
    SumZeros(zeros);
    SumUpdate(zeros, 0, c.initial);
    assert Init(c).counters == zeros[0 := c.initial];
  }

  lemma {:induction false} Safe(c: Config, run: seq<Choice>)
    requires Sane(c)
    ensures Inv(c, After(c, run))
  {
    if run == [] {
      InitValue(c);
      forall l | c.threshold <= l ensures Within(c, Init(c), l) { NobodyPasses(c.threads, Init(c).counters, l); }
    } else {
      Safe(c, run[..|run| - 1]);
      StepKeeps(c, After(c, run[..|run| - 1]), run[|run| - 1]);
    }
  }

  /** The admission bound, whatever happens between the reads of `get_value`. */
  lemma BoundedThroughout(c: Config, run: seq<Choice>)
    requires Sane(c)
    ensures Value(After(c, run)) <= c.threshold + c.threads
  {
    Safe(c, run);
    assert Within(c, After(c, run), c.threshold);
  }

  // ---------------------------------------------------------------- the bound is reached

  lemma {:induction false} StepsJoin(c: Config, s: State, a: seq<Choice>, b: seq<Choice>)
    ensures Steps(c, s, a + b) == Steps(c, Steps(c, s, a), b)
  {
    if b == [] {
      assert a + b == a;
    } else {
      var n := |b| - 1;
      assert (a + b)[..|a + b| - 1] == a + b[..n];
      StepsJoin(c, s, a, b[..n]);
    }
  }

  /** Thread j calls and reads k counters. */
  function Reads(j: nat, k: nat): seq<Choice> { [Begin(j)] + seq(k, _ => Go(j)) }

  lemma {:induction false} ReadsPrefix(c: Config, s: State, j: nat, k: nat)
    requires j < |s.calls| == |s.counters| && s.calls[j].Idle? && k <= |s.counters|
    ensures Steps(c, s, Reads(j, k)) == s.(calls := s.calls[j := Reading(k, Sum(s.counters[..k]))])
  {
    if k == 0 {
      assert Reads(j, 0) == [Begin(j)] && [Begin(j)][..0] == [];
      assert s.counters[..0] == [];
      assert Steps(c, s, [Begin(j)]) == Step(c, Steps(c, s, []), Begin(j));
    } else {
      assert Reads(j, k)[..k] == Reads(j, k - 1) && |Reads(j, k)| == k + 1;
      ReadsPrefix(c, s, j, k - 1);
      assert s.counters[..k][..k - 1] == s.counters[..k - 1];
    }
  }

  /** Left alone, the thread finds the count and passes the check. */
  lemma PassesAlone(c: Config, s: State, j: nat)
    requires j < |s.calls| == |s.counters| && s.calls[j].Idle? && Value(s) <= c.threshold
    ensures Steps(c, s, Reads(j, |s.counters| + 1)) == s.(calls := s.calls[j := Admitting])
  {
    var n := |s.counters|;
    ReadsPrefix(c, s, j, n);
    assert s.counters[..n] == s.counters;
    assert Reads(j, n + 1)[..n + 1] == Reads(j, n) && |Reads(j, n + 1)| == n + 2;
  }

  /** The first k threads pass the check one after the other. */
  function AllCheck(n: nat, k: nat): seq<Choice> {
    if k == 0 then [] else AllCheck(n, k - 1) + Reads(k - 1, n + 1)
  }

  function Checked(n: nat, k: nat): seq<Call> { seq(n, i => if i < k then Admitting else Idle) }

  lemma NextChecks(c: Config, s: State, k: nat)
    requires k < |s.calls| == |s.counters| && s.calls == Checked(|s.calls|, k) && Value(s) <= c.threshold
    ensures Steps(c, s, Reads(k, |s.counters| + 1)) == s.(calls := Checked(|s.calls|, k + 1))
  {
    PassesAlone(c, s, k);
    assert Checked(|s.calls|, k)[k := Admitting] == Checked(|s.calls|, k + 1);
  }

  lemma {:induction false} AllHaveChecked(c: Config, s: State, n: nat, k: nat)
    requires k <= n == |s.calls| == |s.counters| && s.calls == Checked(n, 0) && Value(s) <= c.threshold
    ensures Steps(c, s, AllCheck(n, k)) == s.(calls := Checked(n, k))
  {
    if k > 0 {
      AllHaveChecked(c, s, n, k - 1);
      OneMoreChecks(c, s, s.(calls := Checked(n, k - 1)), k - 1);
      OneMore(c, s, n, k, s.(calls := Checked(n, k - 1)), s.(calls := Checked(n, k)));
    }
  }

  lemma OneMore(c: Config, s: State, n: nat, k: nat, s1: State, s2: State)
    requires 0 < k && Steps(c, s, AllCheck(n, k - 1)) == s1 && Steps(c, s1, Reads(k - 1, n + 1)) == s2
    ensures Steps(c, s, AllCheck(n, k)) == s2
  {
    StepsMeet(c, s, AllCheck(n, k - 1), s1, Reads(k - 1, n + 1), s2);
  }

  lemma StepsMeet(c: Config, s: State, a: seq<Choice>, s1: State, b: seq<Choice>, s2: State)
    requires Steps(c, s, a) == s1 && Steps(c, s1, b) == s2
    ensures Steps(c, s, a + b) == s2
  {
    StepsJoin(c, s, a, b);
  }

  lemma OneMoreChecks(c: Config, s: State, s1: State, k: nat)
    requires k < |s.calls| == |s.counters| && s1 == s.(calls := Checked(|s.calls|, k)) && Value(s) <= c.threshold
    ensures Steps(c, s1, Reads(k, |s.counters| + 1)) == s.(calls := Checked(|s.calls|, k + 1))
  {
    NextChecks(c, s1, k);
  }

  /** And then all increment. */
  function AllAdmit(k: nat): seq<Choice> { seq(k, i requires 0 <= i => Go(i)) }

  lemma {:induction false} AllHaveAdmitted(c: Config, s: State, k: nat)
    requires k <= |s.calls| == |s.counters| && forall i :: 0 <= i < |s.calls| ==> s.calls[i].Admitting?
    ensures var s' := Steps(c, s, AllAdmit(k));
      && |s'.calls| == |s'.counters| == |s.calls| && Value(s') == Value(s) + k
      && forall i :: k <= i < |s.calls| ==> s'.calls[i].Admitting?
  {
    if k > 0 {
      AllHaveAdmitted(c, s, k - 1);
      assert AllAdmit(k)[..k - 1] == AllAdmit(k - 1) && |AllAdmit(k)| == k && AllAdmit(k)[k - 1] == Go(k - 1);
      OneAdmits(c, Steps(c, s, AllAdmit(k - 1)), k - 1);
    }
  }

  lemma OneAdmits(c: Config, s: State, j: nat)
    requires j < |s.calls| == |s.counters| && s.calls[j].Admitting?
    ensures Step(c, s, Go(j)) == State(s.counters[j := s.counters[j] + 1], s.calls[j := Idle])
    ensures Value(Step(c, s, Go(j))) == Value(s) + 1
  {
    SumUpdate(s.counters, j, s.counters[j] + 1);
  }

  /** No smaller bound will do: from a count at the threshold, all threads may pass the check before any of them
      increments. */
  lemma BoundIsReached(c: Config)
    requires 0 < c.threads && c.initial == c.threshold
    ensures Value(After(c, AllCheck(c.threads, c.threads) + AllAdmit(c.threads))) == c.threshold + c.threads
  {
    var n := c.threads;
    var s := Init(c);
    InitValue(c);
    assert s.calls == Checked(n, 0);
    AllHaveChecked(c, s, n, n);
    StepsJoin(c, s, AllCheck(n, n), AllAdmit(n));
    AllHaveAdmitted(c, s.(calls := Checked(n, n)), n);
  }

  // ---------------------------------------------------------------- the reads are not one read

  /** Thread 2 reads the first counter; then thread 0 admits a task and thread 1 ends one; thread 2 reads the rest. */
  function MissingChoice(k: nat): Choice {
    if k == 0 then Begin(2) else if k == 1 then Go(2) else if k == 2 then Begin(0) else if k <= 7 then Go(0)
    else if k == 8 then Leave(1) else Go(2)
  }

  function Missing(k: nat): seq<Choice> { seq(k, i requires 0 <= i => MissingChoice(i)) }

  function MissingState(k: nat): State {
    var a := if 3 <= k <= 6 then Reading(k - 3, 0) else if k == 7 then Admitting else Idle;
    var b := if k == 0 then Idle else if k == 1 then Reading(0, 0)
        else if k <= 9 then Reading(1, 0) else Reading(k - 8, -1);
    State([if k < 8 then 0 else 1, if k < 9 then 0 else -1, 0], [a, Idle, b])
  }

  lemma MissingStep(c: Config, k: nat)
    requires c == Config(3, 0, 0) && k < 11
    ensures Step(c, MissingState(k), MissingChoice(k)) == MissingState(k + 1)
  {
    var s, s' := MissingState(k), Step(c, MissingState(k), MissingChoice(k));
    assert s'.counters == MissingState(k + 1).counters;
    assert s'.calls == MissingState(k + 1).calls;
  }

  lemma {:induction false} MissingIs(c: Config, k: nat)
    requires c == Config(3, 0, 0) && k <= 11
    ensures After(c, Missing(k)) == MissingState(k)
  {
    if k == 0 {
      assert Init(c) == MissingState(0);
    } else {
      MissingIs(c, k - 1);
      MissingStep(c, k - 1);
      assert Missing(k)[..k - 1] == Missing(k - 1) && |Missing(k)| == k;
    }
  }

  lemma SumOfThree(x: int, y: int, z: int)
    ensures Sum([x, y, z]) == x + y + z
  {
    assert [x][..0] == [] && Sum([x]) == x;
    assert [x, y][..1] == [x] && Sum([x, y]) == x + y;
    assert [x, y, z][..2] == [x, y];
  }

  /** `get_value` may return a number the count never was: thread 2 finds -1, and the count was never negative. */
  lemma ReadMisses(c: Config)
    requires c == Config(3, 0, 0)
    ensures |After(c, Missing(11)).calls| == 3 && After(c, Missing(11)).calls[2] == Reading(3, -1)
    ensures forall k :: 0 <= k <= 11 ==> Value(After(c, Missing(k))) >= 0
  {
    MissingIs(c, 11);
    forall k | 0 <= k <= 11 ensures Value(After(c, Missing(k))) >= 0 {
      MissingIs(c, k);
      SumOfThree(if k < 8 then 0 else 1, if k < 9 then 0 else -1, 0);
    }
  }
}
