/**
 The token ring of pipetest.c: one-byte tokens travel through pipes, each read
 forwarding a token to the pipe `num_active + 1` places on while writes are
 left. epoll_wait is an oracle that reports readable pipes.
 */
module PipeRing {
  import opened Basics

  /** Bytes in all pipes together. */
  function Sum(pipes: seq<nat>): nat {
    if pipes == [] then 0 else Sum(pipes[..|pipes| - 1]) + pipes[|pipes| - 1]
  }

  lemma {:induction false} SumUpdate(pipes: seq<nat>, i: nat, v: nat)
    requires i < |pipes|
    ensures Sum(pipes[i := v]) == Sum(pipes) - pipes[i] + v
  {
    var n := |pipes| - 1;
    if i < n {
      assert pipes[i := v][..n] == pipes[..n][i := v];
      SumUpdate(pipes[..n], i, v);
    } else {
      assert pipes[i := v][..n] == pipes[..n];
    }
  }

  lemma {:induction false} SumZero(pipes: seq<nat>)
    ensures Sum(pipes) == 0 <==> forall i :: 0 <= i < |pipes| ==> pipes[i] == 0
  {
    if pipes != [] {
      var n := |pipes| - 1;
      SumZero(pipes[..n]);
      if forall i :: 0 <= i < |pipes| ==> pipes[i] == 0 {
        assert forall i :: 0 <= i < n ==> pipes[..n][i] == 0;
      }
      if Sum(pipes) == 0 {
        forall i | 0 <= i < |pipes| ensures pipes[i] == 0 {
          assert i < n ==> pipes[..n][i] == 0;
        }
      }
    }
  }

  /** What epoll_wait may answer: each pipe at most once, only readable ones, and
      some pipe if any is readable. */
  predicate Ready(pipes: seq<nat>, batch: seq<nat>) {
    && (forall k :: 0 <= k < |batch| ==> batch[k] < |pipes| && pipes[batch[k]] > 0)
    && (forall j, k :: 0 <= j < k < |batch| ==> batch[j] != batch[k])
    && (Sum(pipes) > 0 ==> batch != [])
  }

  lemma ReadyIffTokens(pipes: seq<nat>, batch: seq<nat>)
    requires Ready(pipes, batch)
    ensures batch != [] <==> Sum(pipes) > 0
  {
    SumZero(pipes);
    if batch != [] {
      assert pipes[batch[0]] > 0;
    }
  }

  /** The pipe a read on `idx` forwards to. */
  function Target(idx: nat, numActive: nat, numPipes: nat): int {
    var widx := idx + numActive + 1;
    if widx >= numPipes then widx - numPipes else widx
  }

  /** The target is a pipe for every reader exactly when fewer tokens than pipes are active. */
  lemma TargetInRangeIff(numActive: nat, numPipes: nat)
    requires numPipes > 0
    ensures (forall idx :: 0 <= idx < numPipes ==> 0 <= Target(idx, numActive, numPipes) < numPipes) <==> numActive < numPipes
  {
    var last := numPipes - 1;
    if numActive >= numPipes {
      assert Target(last, numActive, numPipes) >= numPipes;
    }
  }

  /** For those it is `num_active + 1` places on, around the ring. */
  lemma TargetIsModular(idx: nat, numActive: nat, numPipes: nat)
    requires idx < numPipes && numActive < numPipes
    ensures Target(idx, numActive, numPipes) == (idx + numActive + 1) % numPipes
  {
    WrapOnce(idx + numActive + 1, numPipes);
  }

  /** A token leaves pipe `from`, and one arrives in pipe `to` if it is forwarded. */
  predicate Moved(was: seq<nat>, now: seq<nat>, from: nat, to: nat, forward: bool) {
    && |now| == |was|
    && forall j :: 0 <= j < |was| ==>
         now[j] + (if j == from then 1 else 0) == was[j] + (if forward && j == to then 1 else 0)
  }

  class Bench {
    const pipes: array<nat>
    const numActive: nat
    const numWrites: nat
    var count: int
    var writes: nat
    var fired: int

    predicate Valid() {
      numActive < pipes.Length
    }

    /** Nothing is lost or made up: the bytes in the pipes are the tokens fired and not yet read. */
    ghost predicate Conserved()
      reads this, pipes
    {
      Sum(pipes[..]) == fired - count && writes + fired == numActive + numWrites
    }

    constructor (numPipes: nat, numActive: nat, numWrites: nat)
      requires numActive < numPipes
      ensures Valid() && fresh(pipes) && pipes.Length == numPipes
      ensures this.numActive == numActive && this.numWrites == numWrites
      ensures Sum(pipes[..]) == 0
    {
      pipes := new nat[numPipes](_ => 0);
      this.numActive, this.numWrites := numActive, numWrites;
      count, writes, fired := 0, 0, 0;
      new;
      SumZero(pipes[..]);
    }

    method Write(i: nat)
      requires i < pipes.Length
      modifies pipes
      ensures pipes[..] == old(pipes[..])[i := old(pipes[i]) + 1]
      ensures Sum(pipes[..]) == old(Sum(pipes[..])) + 1
    {
      SumUpdate(pipes[..], i, pipes[i] + 1);
      pipes[i] := pipes[i] + 1;
    }

    /** A non-blocking read of one byte returns 1, or -1 on an empty pipe; either is
        counted, so only the caller's choice of pipe keeps the count honest. */
    method Read(i: nat) returns (found: bool)
      requires i < pipes.Length
      modifies pipes
      ensures found == (old(pipes[i]) > 0)
      ensures pipes[..] == old(pipes[..])[i := if found then old(pipes[i]) - 1 else 0]
      ensures Sum(pipes[..]) == old(Sum(pipes[..])) - (if found then 1 else 0)
    {
      found := pipes[i] > 0;
      if found {
        SumUpdate(pipes[..], i, pipes[i] - 1);
        pipes[i] := pipes[i] - 1;
      }
      assert pipes[..] == old(pipes[..])[i := if found then old(pipes[i]) - 1 else 0];
    }

    method ReadCb(idx: nat) returns (found: bool)
      requires Valid() && idx < pipes.Length && Conserved()
      modifies this, pipes
      ensures found == (old(pipes[idx]) > 0)
      ensures found ==> Conserved()
      ensures count == old(count) + 1 && writes + fired == old(writes + fired)
      ensures writes == (if old(writes) > 0 then old(writes) - 1 else 0)
      ensures found ==> Moved(old(pipes[..]), pipes[..], idx, (idx + numActive + 1) % pipes.Length, old(writes) > 0)
      ensures forall j :: 0 <= j < pipes.Length && j != idx ==> pipes[j] >= old(pipes[j])
    {
      TargetIsModular(idx, numActive, pipes.Length);
      var widx := idx + numActive + 1;
      found := Read(idx);
      count := count + 1;
      if writes > 0 {
        if widx >= pipes.Length {
          widx := widx - pipes.Length;
        }
        Write(widx);
        writes := writes - 1;
        fired := fired + 1;
      }
    }

    /** The first loop of run_once puts one token into each of the first `num_active` pipes. */
    method Start()
      requires Valid() && Sum(pipes[..]) == 0
      modifies this, pipes
      ensures fired == numActive == Sum(pipes[..])
      ensures forall j :: 0 <= j < pipes.Length ==> pipes[j] == if j < numActive then 1 else 0
    {
      SumZero(pipes[..]);
      fired := 0;
      for i := 0 to numActive
        invariant fired == i == Sum(pipes[..])
        invariant forall j :: 0 <= j < pipes.Length ==> pipes[j] == if j < i then 1 else 0
      {
        Write(i);
        fired := fired + 1;
      }
    }

    /** From empty pipes, every read finds a token, the run ends, the pipes are empty
        again, and the work done is every token started and every token forwarded. */
    method RunOnce(wait: (seq<nat>, nat) -> seq<nat>) returns (work: int, allFound: bool)
      requires Valid() && Sum(pipes[..]) == 0
      requires forall p, k :: Ready(p, wait(p, k))
      modifies this, pipes
      ensures allFound
      ensures work == if numActive == 0 then 0 else numActive + numWrites
      ensures Sum(pipes[..]) == 0
    {
      Start();
      count := 0;
      writes := numWrites;
      allFound := true;
      var tick := 0;
      while true
        invariant Conserved() && allFound && 0 <= count
        invariant writes > 0 ==> fired - count == numActive
        invariant numActive == 0 ==> fired == 0
        decreases writes + fired - count
      {
        var batch := wait(pipes[..], tick);
        ReadyIffTokens(pipes[..], batch);
        tick := tick + 1;
        var found, _ := DispatchBatch(batch);
        allFound := allFound && found;
        if count == fired {
          break;
        }
      }
      work := count;
    }

    /** One batch: a read leaves the tokens of the other pipes alone, so all find theirs. */
    method DispatchBatch(batch: seq<nat>) returns (allFound: bool, ghost trail: seq<seq<nat>>)
      requires Valid() && Conserved() && Ready(pipes[..], batch)
      requires writes > 0 ==> fired - count == numActive
      modifies this, pipes
      ensures Conserved() && allFound
      ensures writes > 0 ==> fired - count == numActive
      ensures count == old(count) + |batch|
      ensures writes == if old(writes) > |batch| then old(writes) - |batch| else 0
      // the contents after each read: a token moves on for every pipe of the batch, in order
      ensures |trail| == |batch| + 1 && trail[0] == old(pipes[..]) && trail[|batch|] == pipes[..]
      ensures forall k :: 0 <= k < |batch| ==>
                Moved(trail[k], trail[k + 1], batch[k], (batch[k] + numActive + 1) % pipes.Length, old(writes) > k)
    {
      allFound := true;
      trail := [pipes[..]];
      for i := 0 to |batch|
        invariant Conserved() && allFound
        invariant writes > 0 ==> fired - count == numActive
        invariant count == old(count) + i
        invariant writes == if old(writes) > i then old(writes) - i else 0
        invariant forall k :: i <= k < |batch| ==> batch[k] < pipes.Length && pipes[batch[k]] > 0
        invariant |trail| == i + 1 && trail[0] == old(pipes[..]) && trail[i] == pipes[..]
        invariant forall k :: 0 <= k < i ==>
                    Moved(trail[k], trail[k + 1], batch[k], (batch[k] + numActive + 1) % pipes.Length, old(writes) > k)
      {
        var found := ReadCb(batch[i]);
        trail := trail + [pipes[..]];
        allFound := allFound && found;
      }
    }
  }
}
