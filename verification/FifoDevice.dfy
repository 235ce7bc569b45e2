/**
 The byte array of struct globalfifo_dev and what the critical sections of
 read, write and FIFO_CLEAR do to it in place, proved against the functions
 the step machine of GlobalFifo uses.
 */
module FifoDevice {
  import opened Basics
  import opened GlobalFifo

  class Device {
    const mem: array<Byte>
    var currentLen: nat

    predicate Valid()
      reads this
    {
      mem.Length == SIZE && currentLen <= SIZE
    }

    ghost function Contents(): (s: seq<Byte>)
      requires Valid()
      reads this, mem
    {
      mem[..currentLen]
    }

    constructor ()
      ensures Valid() && fresh(mem) && Contents() == []
    {
      mem := new Byte[SIZE](_ => 0);
      currentLen := 0;
    }

    /** The overlapping memcpy, taken as a forward byte copy. */
    method MoveDown(c: nat)
      requires Valid() && c <= currentLen
      modifies mem
      ensures mem[..] == ShiftDown(old(mem[..]), c, currentLen)
    {
      ghost var was := mem[..];
      var k := 0;
      while k < currentLen - c
        invariant 0 <= k <= currentLen - c
        invariant forall j :: 0 <= j < k ==> mem[j] == was[c + j]
        invariant forall j :: k <= j < mem.Length ==> mem[j] == was[j]
      {
        mem[k] := mem[c + k];
        k := k + 1;
      }
      assert mem[..] == ShiftDown(was, c, currentLen);
    }

    /** The success path of read under the mutex. */
    method Take(count: nat) returns (buf: seq<Byte>)
      requires Valid()
      modifies this, mem
      ensures Valid()
      ensures |buf| == Clip(count, old(currentLen))
      ensures buf + Contents() == old(Contents())
      ensures mem[..] == ShiftDown(old(mem[..]), |buf|, old(currentLen))
    {
      var n := if count > currentLen then currentLen else count;
      buf := mem[..n];
      MoveDown(n);
      currentLen := currentLen - n;
    }

    /** The success path of write under the mutex. */
    method Put(data: seq<Byte>) returns (n: nat)
      requires Valid()
      modifies this, mem
      ensures Valid()
      ensures n == Clip(|data|, SIZE - old(currentLen))
      ensures Contents() == old(Contents()) + data[..n]
      ensures mem[..] == Overwrite(old(mem[..]), old(currentLen), data[..n])
    {
      n := if |data| > SIZE - currentLen then SIZE - currentLen else |data|;
      ghost var was := mem[..];
      var k := 0;
      while k < n
        invariant 0 <= k <= n && currentLen == old(currentLen)
        invariant forall j :: 0 <= j < k ==> mem[currentLen + j] == data[j]
        invariant forall j :: 0 <= j < currentLen || currentLen + k <= j < mem.Length ==> mem[j] == was[j]
      {
        mem[currentLen + k] := data[k];
        k := k + 1;
      }
      currentLen := currentLen + n;
      assert mem[..] == Overwrite(was, old(currentLen), data[..n]);
    }

    /** FIFO_CLEAR under the mutex. */
    method Clear()
      requires Valid()
      modifies this, mem
      ensures Valid() && Contents() == []
      ensures forall j :: 0 <= j < mem.Length ==> mem[j] == 0
    {
      currentLen := 0;
      for k := 0 to mem.Length
        invariant Valid() && currentLen == 0
        invariant forall j :: 0 <= j < k ==> mem[j] == 0
      {
        mem[k] := 0;
      }
    }
  }
}
