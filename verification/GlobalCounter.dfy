/** `GlobalCounter` of `src/globalcounter.h`: one counter per thread, and a value that is their sum.  The padding
    between the counters is not part of this model. */
module GlobalCounters {

  function Sum(xs: seq<int>): int {
    if xs == [] then 0 else Sum(xs[..|xs| - 1]) + xs[|xs| - 1]
  }

  /** Changing one counter changes the sum by as much. */
  lemma {:induction false} SumUpdate(xs: seq<int>, i: nat, x: int)
    requires i < |xs|
    ensures Sum(xs[i := x]) == Sum(xs) - xs[i] + x
  {
    var n := |xs| - 1;
    var ys := xs[i := x];
    if i < n {
      assert ys[..n] == xs[..n][i := x];
      SumUpdate(xs[..n], i, x);
    } else {
      assert ys[..n] == xs[..n];
    }
  }

  lemma {:induction false} SumZeros(xs: seq<int>)
    requires forall i :: 0 <= i < |xs| ==> xs[i] == 0
    ensures Sum(xs) == 0
  {
    if xs != [] { SumZeros(xs[..|xs| - 1]); }
  }

  class GlobalCounter {
    const counters: array<int>

    constructor (nthreads: nat)
      requires nthreads > 0
      ensures fresh(counters) && counters.Length == nthreads && Value() == 0
    {
      counters := new int[nthreads](_ => 0);
      new;
      SumZeros(counters[..]);
    }

    ghost function Value(): int
      reads counters
    {
      Sum(counters[..])
    }

    method Set(x: int)
      requires counters.Length > 0
      modifies counters
      ensures Value() == x
    {
      for i := 0 to counters.Length
        invariant forall j :: 0 <= j < i ==> counters[j] == 0
      {
        counters[i] := 0;
      }
      ghost var zeros := counters[..];
      SumZeros(zeros);
      SumUpdate(zeros, 0, x);
      counters[0] := x;
      assert counters[..] == zeros[0 := x];
    }

    /** The check of the thread number: false stands for the `CFATAL`. */
    predicate Known(tid: int) { 0 <= tid < counters.Length }

    method Incr(tid: int) returns (ok: bool)
      modifies counters
      ensures ok == Known(tid) && Value() == old(Value()) + (if ok then 1 else 0)
      ensures forall j :: 0 <= j < counters.Length && j != tid ==> counters[j] == old(counters[j])
    {
      ok := Known(tid);
      if ok {
        SumUpdate(counters[..], tid, counters[tid] + 1);
        ghost var before := counters[..];
        counters[tid] := counters[tid] + 1;
        assert counters[..] == before[tid := before[tid] + 1];
      }
    }

    method Decr(tid: int) returns (ok: bool)
      modifies counters
      ensures ok == Known(tid) && Value() == old(Value()) - (if ok then 1 else 0)
      ensures forall j :: 0 <= j < counters.Length && j != tid ==> counters[j] == old(counters[j])
    {
      ok := Known(tid);
      if ok {
        SumUpdate(counters[..], tid, counters[tid] - 1);
        ghost var before := counters[..];
        counters[tid] := counters[tid] - 1;
        assert counters[..] == before[tid := before[tid] - 1];
      }
    }

    /** The sum over the threads, one read at a time. */
    method GetValue() returns (v: int)
      ensures v == Value()
    {
      v := 0;
      for i := 0 to counters.Length
        invariant v == Sum(counters[..i])
      {
        assert counters[..i + 1][..i] == counters[..i];
        v := v + counters[i];
      }
      assert counters[..counters.Length] == counters[..];
    }
  }
}
