/** The serial numbers of `src/data_events.cpp` and `src/invalidation.cpp`: each thread counts in its own residue
    class modulo the number of threads, so no serial is ever given out twice by one node. */
module SerialNumbers {
  import opened Protocol
  import Arithmetic

  /** The write generator of a thread is untouched (zero) or stays in the thread's residue class. */
  ghost predicate SourcesOk(write: seq<int>, t: nat) {
    && 0 < t && |write| == t
    && forall i :: 0 <= i < |write| ==> OwnClass(write[i], i, t)
  }

  ghost predicate OwnClass(x: int, i: int, t: nat) { 0 < t && (x == 0 || (0 <= x && x % t == i)) }

  /** The serial has been given to a remote write. */
  ghost predicate UsedWrite(write: seq<int>, t: nat, k: int) {
    && 0 <= k && 0 < t && k % t < |write| && k < write[k % t]
  }

  /** The serial has been given to an invalidation. */
  ghost predicate UsedInv(inv: seq<nat>, t: nat, s: int) {
    && 0 <= s && 0 < t && s % t < |inv| && s / t < inv[s % t]
  }

  /** The generators after a thread has taken a serial for a remote write. */
  function NextWrite(ser: Serials, th: nat): seq<int>
    requires th < |ser.write|
  {
    ser.write[th := WriteSerial(ser, th) + |ser.write|]
  }

  lemma WriteInClass(ser: Serials, t: nat, th: nat)
    requires SourcesOk(ser.write, t) && th < t
    ensures var x := WriteSerial(ser, th); 0 <= x && x % t == th && ser.write[th] <= x
  {
    assert OwnClass(ser.write[th], th, t);
    Arithmetic.SmallMod(th, t);
  }

  /** The serial a thread takes next was never used, and afterwards it is. */
  lemma WriteIsNew(ser: Serials, t: nat, th: nat)
    requires SourcesOk(ser.write, t) && th < t
    ensures var x := WriteSerial(ser, th);
      && !UsedWrite(ser.write, t, x) && UsedWrite(NextWrite(ser, th), t, x) && SourcesOk(NextWrite(ser, th), t)
  {
    var x := WriteSerial(ser, th);
    WriteInClass(ser, t, th);
    Arithmetic.AddModulus(x, t);
    var write' := NextWrite(ser, th);
    forall i | 0 <= i < |write'| ensures OwnClass(write'[i], i, t) {
      assert OwnClass(ser.write[i], i, t);
    }
  }

  lemma WriteStaysUsed(ser: Serials, t: nat, th: nat, k: int)
    requires SourcesOk(ser.write, t) && th < t && UsedWrite(ser.write, t, k)
    ensures UsedWrite(NextWrite(ser, th), t, k)
  {
    WriteInClass(ser, t, th);
  }

  lemma InvSplit(ticket: nat, th: nat, t: nat)
    requires th < t
    ensures InvSerial(ticket, th, t) >= 0 && InvSerial(ticket, th, t) / t == ticket
      && InvSerial(ticket, th, t) % t == th
  {
    var s := InvSerial(ticket, th, t);
    assert ticket * t >= 0 by { if ticket > 0 { Arithmetic.Multiple(t, ticket); } }
    assert s == t * (s / t) + s % t;
    assert t * ticket == ticket * t;
    Arithmetic.Unique(t, ticket, th, s / t, s % t);
  }

  /** The i-th serial of an invalidation was never used, differs from the others, and afterwards it is used. */
  lemma InvIsNew(e: Env, n: Node, i: nat, k: nat)
    requires e.th < |n.ser.inv|
    ensures var s := NthSerial(e, n, i); var t := |n.ser.inv|;
      && !UsedInv(n.ser.inv, t, s) && (i < k ==> UsedInv(Advance(n.ser, e.th, k).inv, t, s))
      && s / t - Ticket(n.ser, e.th) == i
  {
    InvSplit(Ticket(n.ser, e.th) + i, e.th, |n.ser.inv|);
  }

  lemma InvStaysUsed(ser: Serials, th: nat, k: nat, s: int)
    requires UsedInv(ser.inv, |ser.inv|, s)
    ensures UsedInv(Advance(ser, th, k).inv, |ser.inv|, s)
  {
  }
}
