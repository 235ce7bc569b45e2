/**
 What the calls of globalfifo.c do from beginning to end when nobody else moves
 in between: read, write, FIFO_CLEAR and poll, the non-blocking call that finds
 the device blocked, the blocking one that falls asleep, and the sleeper that
 is woken or signalled.
 */
module FifoCalls {
  import opened Basics
  import opened Runs
  import opened GlobalFifo

  /** Task `i` takes `n` statements in a row. */
  ghost function Alone(s: State, i: nat, n: nat): Option<State> { Exec(Next, s, seq(n, _ => Go(i))) }

  lemma AloneNone(s: State, i: nat)
    ensures Alone(s, i, 0) == Some(s)
  {
  }

  lemma AloneFirst(s: State, i: nat, n: nat)
    requires n > 0 && Next(s, Go(i)).Some?
    ensures Alone(s, i, n) == Alone(Next(s, Go(i)).value, i, n - 1)
  {
    assert seq(n, _ => Go(i)) == [Go(i)] + seq(n - 1, _ => Go(i));
    ExecCons(Next, s, Go(i), seq(n - 1, _ => Go(i)));
  }

  lemma {:induction false} AloneThen(s: State, i: nat, m: nat, n: nat)
    requires Alone(s, i, m).Some?
    ensures Alone(s, i, m + n) == Alone(Alone(s, i, m).value, i, n)
  {
    assert seq(m + n, _ => Go(i)) == seq(m, _ => Go(i)) + seq(n, _ => Go(i));
    ExecAppend(Next, s, seq(m, _ => Go(i)), seq(n, _ => Go(i)));
  }

  /** The state with task `i` replaced and the mutex passed on. */
  function Put(s: State, i: nat, t: Task, owner: Option<nat>): State
    requires i < |s.tasks|
  {
    s.(tasks := s.tasks[i := t], owner := owner)
  }

  // ----- the statements that touch only the task and the mutex

  ghost predicate Sound(s: State, i: nat) { i < |s.tasks| && s.len <= SIZE == |s.mem| }

  lemma PutTwice(s: State, i: nat, t: Task, o: Option<nat>, u: Task, p: Option<nat>)
    requires i < |s.tasks|
    ensures Put(Put(s, i, t, o), i, u, p) == Put(s, i, u, p)
  {
  }

  lemma LocksTransfer(s: State, i: nat, n: nat)
    requires Sound(s, i) && s.tasks[i].pc.Lock? && s.owner.None? && IsTransfer(s.tasks[i].op)
    ensures Alone(s, i, n + 1) == Alone(Put(s, i, s.tasks[i].(pc := Enqueue), Some(i)), i, n)
  {
    AloneFirst(s, i, n + 1);
  }

  lemma LocksPoll(s: State, i: nat, n: nat)
    requires Sound(s, i) && s.tasks[i].pc.Lock? && s.owner.None? && s.tasks[i].op.Poll?
    ensures Alone(s, i, n + 1) == Alone(Put(s, i, s.tasks[i].(pc := PollMask), Some(i)), i, n)
  {
    AloneFirst(s, i, n + 1);
  }

  lemma LocksClear(s: State, i: nat, n: nat)
    requires Sound(s, i) && s.tasks[i].pc.Lock? && s.owner.None? && s.tasks[i].op.Clear?
    ensures Alone(s, i, n + 1) == Alone(Put(s, i, s.tasks[i].(pc := ClearLen), Some(i)), i, n)
  {
    AloneFirst(s, i, n + 1);
  }

  lemma Enqueues(s: State, i: nat, n: nat)
    requires Sound(s, i) && s.tasks[i].pc.Enqueue?
    ensures Alone(s, i, n + 1) == Alone(Put(s, i, s.tasks[i].(pc := Test, queued := true), s.owner), i, n)
  {
    AloneFirst(s, i, n + 1);
  }

  lemma TestPasses(s: State, i: nat, n: nat)
    requires Sound(s, i) && s.tasks[i].pc.Test? && !Blocked(s.len, s.tasks[i].op)
    ensures Alone(s, i, n + 1) == Alone(Put(s, i, s.tasks[i].(pc := Copy), s.owner), i, n)
  {
    AloneFirst(s, i, n + 1);
  }

  lemma TestSaysAgain(s: State, i: nat, n: nat)
    requires Sound(s, i) && s.tasks[i].pc.Test? && Blocked(s.len, s.tasks[i].op) && IsTransfer(s.tasks[i].op) && s.tasks[i].op.nonblock
    ensures Alone(s, i, n + 1) == Alone(Put(s, i, s.tasks[i].(pc := Out, ret := Again), s.owner), i, n)
  {
    AloneFirst(s, i, n + 1);
  }

  lemma TestBlocks(s: State, i: nat, n: nat)
    requires Sound(s, i) && s.tasks[i].pc.Test? && Blocked(s.len, s.tasks[i].op) && IsTransfer(s.tasks[i].op) && !s.tasks[i].op.nonblock
    ensures Alone(s, i, n + 1) == Alone(Put(s, i, s.tasks[i].(pc := SetState), s.owner), i, n)
  {
    AloneFirst(s, i, n + 1);
  }

  lemma SetsState(s: State, i: nat, n: nat)
    requires Sound(s, i) && s.tasks[i].pc.SetState?
    ensures Alone(s, i, n + 1) == Alone(Put(s, i, s.tasks[i].(pc := Unlock, sleeping := true), s.owner), i, n)
  {
    AloneFirst(s, i, n + 1);
  }

  lemma Unlocks(s: State, i: nat, n: nat)
    requires Sound(s, i) && s.tasks[i].pc.Unlock?
    ensures Alone(s, i, n + 1) == Alone(Put(s, i, s.tasks[i].(pc := Sched), None), i, n)
  {
    AloneFirst(s, i, n + 1);
  }

  lemma FallsAsleep(s: State, i: nat, n: nat)
    requires Sound(s, i) && s.tasks[i].pc.Sched? && s.tasks[i].sleeping && !s.tasks[i].signalled
    ensures Alone(s, i, n + 1) == Alone(Put(s, i, s.tasks[i].(pc := Asleep), s.owner), i, n)
  {
    AloneFirst(s, i, n + 1);
  }

  lemma Wakes(s: State, i: nat, n: nat)
    requires Sound(s, i) && s.tasks[i].pc.Asleep? && !s.tasks[i].sleeping
    ensures Alone(s, i, n + 1) == Alone(Put(s, i, s.tasks[i].(pc := Woken), s.owner), i, n)
  {
    AloneFirst(s, i, n + 1);
  }

  lemma Restarts(s: State, i: nat, n: nat)
    requires Sound(s, i) && s.tasks[i].pc.Woken? && s.tasks[i].signalled
    ensures Alone(s, i, n + 1) == Alone(Put(s, i, s.tasks[i].(pc := Dequeue, ret := Restart), s.owner), i, n)
  {
    AloneFirst(s, i, n + 1);
  }

  lemma GoesOn(s: State, i: nat, n: nat)
    requires Sound(s, i) && s.tasks[i].pc.Woken? && !s.tasks[i].signalled
    ensures Alone(s, i, n + 1) == Alone(Put(s, i, s.tasks[i].(pc := Relock), s.owner), i, n)
  {
    AloneFirst(s, i, n + 1);
  }

  lemma Relocks(s: State, i: nat, n: nat)
    requires Sound(s, i) && s.tasks[i].pc.Relock? && s.owner.None?
    ensures Alone(s, i, n + 1) == Alone(Put(s, i, s.tasks[i].(pc := Test), Some(i)), i, n)
  {
    AloneFirst(s, i, n + 1);
  }

  lemma Polls(s: State, i: nat, n: nat)
    requires Sound(s, i) && s.tasks[i].pc.PollMask?
    ensures Alone(s, i, n + 1) == Alone(Put(s, i, s.tasks[i].(pc := Out, ret := Mask(s.len != 0, s.len != SIZE)), s.owner), i, n)
  {
    AloneFirst(s, i, n + 1);
  }

  lemma Releases(s: State, i: nat, n: nat)
    requires Sound(s, i) && s.tasks[i].pc.Out? && IsTransfer(s.tasks[i].op)
    ensures Alone(s, i, n + 1) == Alone(Put(s, i, s.tasks[i].(pc := Dequeue), None), i, n)
  {
    AloneFirst(s, i, n + 1);
  }

  lemma Returns(s: State, i: nat, n: nat)
    requires Sound(s, i) && s.tasks[i].pc.Out? && !IsTransfer(s.tasks[i].op)
    ensures Alone(s, i, n + 1) == Alone(Put(s, i, s.tasks[i].(pc := Idle, signalled := false), None), i, n)
  {
    AloneFirst(s, i, n + 1);
  }

  lemma Dequeues(s: State, i: nat, n: nat)
    requires Sound(s, i) && s.tasks[i].pc.Dequeue?
    ensures Alone(s, i, n + 1) == Alone(Put(s, i, s.tasks[i].(pc := SetRunning, queued := false), s.owner), i, n)
  {
    AloneFirst(s, i, n + 1);
  }

  lemma Finishes(s: State, i: nat, n: nat)
    requires Sound(s, i) && s.tasks[i].pc.SetRunning?
    ensures Alone(s, i, n + 1) == Alone(Put(s, i, s.tasks[i].(pc := Idle, sleeping := false, signalled := false), s.owner), i, n)
  {
    AloneFirst(s, i, n + 1);
  }

  // ----- the bytes a call moves

  /** A read has handed over the front of the device, as many bytes as asked for or all
      there are, and is about to wake the writers. */
  ghost predicate GaveFront(s: State, r: State, i: nat) {
    && i < |s.tasks| && s.tasks[i].op.Read? && s.len <= SIZE == |s.mem| == |r.mem|
    && var t := s.tasks[i]; var k := if t.op.count < s.len then t.op.count else s.len;
       && r.tasks == s.tasks[i := t.(pc := Wake, buf := s.mem[..k], ret := Count(k))] && r.owner == s.owner
       && r.returned == s.returned + s.mem[..k] && r.accepted == s.accepted
       && r.len == s.len - k && r.mem[..r.len] == s.mem[k..s.len]
  }

  /** A write has appended the front of its data, all of it or what fits, and is about to
      wake the readers. */
  ghost predicate TookFront(s: State, r: State, i: nat) {
    && i < |s.tasks| && s.tasks[i].op.Write? && s.len <= SIZE == |s.mem| == |r.mem|
    && var t := s.tasks[i]; var k := if |t.op.data| < SIZE - s.len then |t.op.data| else SIZE - s.len;
       && r.tasks == s.tasks[i := t.(pc := Wake, buf := t.op.data[..k], ret := Count(k))] && r.owner == s.owner
       && r.accepted == s.accepted + t.op.data[..k] && r.returned == s.returned
       && r.len == s.len + k && r.mem[..r.len] == s.mem[..s.len] + t.op.data[..k]
  }

  lemma CopiesOut(s: State, i: nat, n: nat)
    requires Sound(s, i) && s.tasks[i].pc.Copy? && s.tasks[i].op.Read?
    ensures var k := if s.tasks[i].op.count < s.len then s.tasks[i].op.count else s.len;
            Alone(s, i, n + 1) == Alone(Put(s, i, s.tasks[i].(pc := Shift, buf := s.mem[..k]), s.owner), i, n)
  {
    AloneFirst(s, i, n + 1);
  }

  lemma ShiftsDown(s: State, i: nat, n: nat)
    requires Sound(s, i) && s.tasks[i].pc.Shift? && |s.tasks[i].buf| <= s.len
    ensures var c := |s.tasks[i].buf|;
            Alone(s, i, n + 1)
            == Alone(Put(s, i, s.tasks[i].(pc := Commit), s.owner).(mem := s.mem[c..s.len] + s.mem[s.len - c..]), i, n)
  {
    AloneFirst(s, i, n + 1);
  }

  lemma CommitsRead(s: State, i: nat)
    requires Sound(s, i) && s.tasks[i].pc.Commit? && s.tasks[i].op.Read? && |s.tasks[i].buf| <= s.len
    ensures var t := s.tasks[i];
            Alone(s, i, 1) == Some(Put(s, i, t.(pc := Wake, ret := Count(|t.buf|)), s.owner)
                                   .(len := s.len - |t.buf|, returned := s.returned + t.buf))
  {
    AloneFirst(s, i, 1);
    AloneNone(Next(s, Go(i)).value, i);
  }

  lemma FrontGone(mem: seq<Byte>, k: nat, len: nat)
    requires k <= len <= |mem|
    ensures var r := mem[k..len] + mem[len - k..]; |r| == |mem| && r[..len - k] == mem[k..len]
  {
  }

  /** A read after its memcpy: the bytes are out and the rest is at the front. */
  function Shifted(s: State, i: nat, k: nat): State
    requires i < |s.tasks| && k <= s.len <= |s.mem|
  {
    Put(s, i, s.tasks[i].(pc := Commit, buf := s.mem[..k]), s.owner).(mem := s.mem[k..s.len] + s.mem[s.len - k..])
  }

  lemma ReadShifts(s: State, i: nat)
    requires Sound(s, i) && s.tasks[i].pc.Copy? && s.tasks[i].op.Read?
    ensures var k := if s.tasks[i].op.count < s.len then s.tasks[i].op.count else s.len;
            Alone(s, i, 3) == Alone(Shifted(s, i, k), i, 1)
  {
    var t := s.tasks[i];
    var k := if t.op.count < s.len then t.op.count else s.len;
    var u := t.(pc := Shift, buf := s.mem[..k]);
    CopiesOut(s, i, 2);
    ShiftsDown(Put(s, i, u, s.owner), i, 1);
    PutTwice(s, i, u, s.owner, u.(pc := Commit), s.owner);
  }

  lemma ReadMoves(s: State, i: nat)
    requires Sound(s, i) && s.tasks[i].pc.Copy? && s.tasks[i].op.Read?
    ensures Alone(s, i, 3).Some? && GaveFront(s, Alone(s, i, 3).value, i)
  {
    var k := if s.tasks[i].op.count < s.len then s.tasks[i].op.count else s.len;
    ReadShifts(s, i);
    FrontGone(s.mem, k, s.len);
    var m := Shifted(s, i, k);
    CommitsRead(m, i);
    PutTwice(s, i, m.tasks[i], s.owner, m.tasks[i].(pc := Wake, ret := Count(k)), s.owner);
  }

  lemma CopiesIn(s: State, i: nat, n: nat)
    requires Sound(s, i) && s.tasks[i].pc.Copy? && s.tasks[i].op.Write?
    ensures var d := s.tasks[i].op.data; var k := if |d| < SIZE - s.len then |d| else SIZE - s.len;
            Alone(s, i, n + 1)
            == Alone(Put(s, i, s.tasks[i].(pc := Commit, buf := d[..k]), s.owner)
                     .(mem := s.mem[..s.len] + d[..k] + s.mem[s.len + k..]), i, n)
  {
    AloneFirst(s, i, n + 1);
  }

  lemma CommitsWrite(s: State, i: nat)
    requires Sound(s, i) && s.tasks[i].pc.Commit? && s.tasks[i].op.Write?
    ensures var t := s.tasks[i];
            Alone(s, i, 1) == Some(Put(s, i, t.(pc := Wake, ret := Count(|t.buf|)), s.owner)
                                   .(len := s.len + |t.buf|, accepted := s.accepted + t.buf))
  {
    AloneFirst(s, i, 1);
    AloneNone(Next(s, Go(i)).value, i);
  }

  lemma WriteMoves(s: State, i: nat)
    requires Sound(s, i) && s.tasks[i].pc.Copy? && s.tasks[i].op.Write?
    ensures Alone(s, i, 2).Some? && TookFront(s, Alone(s, i, 2).value, i)
  {
    var t := s.tasks[i];
    var k := if |t.op.data| < SIZE - s.len then |t.op.data| else SIZE - s.len;
    var u := t.(pc := Commit, buf := t.op.data[..k]);
    CopiesIn(s, i, 1);
    var s1 := Put(s, i, u, s.owner).(mem := s.mem[..s.len] + t.op.data[..k] + s.mem[s.len + k..]);
    CommitsWrite(s1, i);
    PutTwice(s, i, u, s.owner, u.(pc := Wake, ret := Count(k)), s.owner);
  }

  /** In every state a run can reach, a call at its copy moves its bytes unless it faults. */
  lemma CopyDelivers(n: nat, acts: seq<Action>, i: nat)
    requires Exec(Next, Init(n), acts).Some?
    requires var s := Exec(Next, Init(n), acts).value; i < |s.tasks| && s.tasks[i].pc.Copy?
    ensures var s := Exec(Next, Init(n), acts).value;
            if s.tasks[i].op.Read? then Alone(s, i, 3).Some? && GaveFront(s, Alone(s, i, 3).value, i)
            else Alone(s, i, 2).Some? && TookFront(s, Alone(s, i, 2).value, i)
  {
    InvOnRuns(n, acts);
    var s := Exec(Next, Init(n), acts).value;
    assert TaskOk(s, i, s.tasks[i]);
    if s.tasks[i].op.Read? {
      ReadMoves(s, i);
    } else {
      WriteMoves(s, i);
    }
  }

  lemma EnteringDoesNotFault(s: State, i: nat)
    requires Sound(s, i) && Statement(s, i).Some? && Entering(s.tasks[i].pc)
    ensures var u := Statement(s, i).value.tasks[i]; !(Leaving(u.pc) && u.ret.Fault?)
  {
  }

  lemma WaitingDoesNotFault(s: State, i: nat)
    requires Sound(s, i) && Statement(s, i).Some? && Waiting(s.tasks[i].pc)
    ensures var u := Statement(s, i).value.tasks[i]; !(Leaving(u.pc) && u.ret.Fault?)
  {
  }

  lemma CopyingDoesNotFault(s: State, i: nat)
    requires Sound(s, i) && Statement(s, i).Some? && (s.tasks[i].pc.Copy? || s.tasks[i].pc.Shift?)
    ensures !Leaving(Statement(s, i).value.tasks[i].pc)
  {
  }

  lemma CommitDoesNotFault(s: State, i: nat)
    requires Sound(s, i) && Statement(s, i).Some? && s.tasks[i].pc.Commit?
    ensures Statement(s, i).value.tasks[i].ret.Count?
  {
  }

  lemma ClearAndPollDoNotFault(s: State, i: nat)
    requires Sound(s, i) && Statement(s, i).Some?
    requires s.tasks[i].pc.ClearLen? || s.tasks[i].pc.ClearMem? || s.tasks[i].pc.PollMask?
    ensures var u := Statement(s, i).value.tasks[i]; !(Leaving(u.pc) && u.ret.Fault?)
  {
  }

  /** EFAULT comes only from a copy that faulted: no other step starts a call on its way
      out with that result. */
  lemma FaultsComeFromFaults(s: State, a: Action, i: nat)
    requires Inv(s) && Next(s, a).Some? && i < |s.tasks| && !Leaving(s.tasks[i].pc)
    requires var r := Next(s, a).value; i < |r.tasks| && Leaving(r.tasks[i].pc) && r.tasks[i].ret.Fault?
    ensures a.GoFault? && a.i == i && s.tasks[i].pc.Copy?
  {
    if a.Go? {
      if a.i != i {
        StatementKeepsOthers(s, a.i, i);
      } else if Entering(s.tasks[i].pc) {
        EnteringDoesNotFault(s, i);
      } else if Waiting(s.tasks[i].pc) {
        WaitingDoesNotFault(s, i);
      } else if s.tasks[i].pc.Copy? || s.tasks[i].pc.Shift? {
        CopyingDoesNotFault(s, i);
      } else if s.tasks[i].pc.Commit? {
        CommitDoesNotFault(s, i);
      } else {
        ClearAndPollDoNotFault(s, i);
      }
    }
  }

  // ----- entering and leaving

  /** A call that finds the mutex free gets to its loop test with nothing else changed. */
  lemma EntersCall(s: State, i: nat, op: Op, n: nat)
    requires Sound(s, i) && s.owner.None? && s.tasks[i].pc.Idle? && IsTransfer(op)
    ensures Next(s, Call(i, op)) == Some(Put(s, i, s.tasks[i].(pc := Lock, op := op), None))
    ensures Alone(Put(s, i, s.tasks[i].(pc := Lock, op := op), None), i, n + 2)
            == Alone(Put(s, i, s.tasks[i].(pc := Test, op := op, queued := true), Some(i)), i, n)
  {
    var t := s.tasks[i].(pc := Lock, op := op);
    LocksTransfer(Put(s, i, t, None), i, n + 1);
    PutTwice(s, i, t, None, t.(pc := Enqueue), Some(i));
    Enqueues(Put(s, i, t.(pc := Enqueue), Some(i)), i, n);
    PutTwice(s, i, t.(pc := Enqueue), Some(i), t.(pc := Test, queued := true), Some(i));
  }

  /** On its way out a call wakes everyone asleep on the other queue, unlocks, leaves its
      own queue and returns with its result. */
  ghost predicate WentOut(s: State, r: State, i: nat) {
    && i < |s.tasks| == |r.tasks| && r.owner.None?
    && r.tasks[i] == s.tasks[i].(pc := Idle, queued := false, sleeping := false, signalled := false)
    && r.mem == s.mem && r.len == s.len && r.accepted == s.accepted && r.returned == s.returned
    && forall j :: 0 <= j < |s.tasks| && j != i ==> r.tasks[j] == WokenBy(s.tasks[i], s.tasks[j])
  }

  /** Task `u` after a wake-up by `t`. */
  function WokenBy(t: Task, u: Task): Task {
    if WaitsFor(t, u) then u.(sleeping := false, stranded := false) else u
  }

  /** Task `u` is asleep on the queue that `t` wakes: writers for a read, readers for a write. */
  predicate WaitsFor(t: Task, u: Task) {
    u.queued && u.sleeping && (if t.op.Read? then !u.op.Read? else t.op.Write? && u.op.Read?)
  }

  lemma LeavesCall(s: State, i: nat)
    requires Inv(s) && i < |s.tasks| && s.tasks[i].pc.Wake?
    ensures Alone(s, i, 4).Some? && WentOut(s, Alone(s, i, 4).value, i)
  {
    assert TaskOk(s, i, s.tasks[i]);
    var s1 := Next(s, Go(i)).value;
    AloneFirst(s, i, 4);
    assert s1.tasks[i] == s.tasks[i].(pc := Out);
    GoesOut(s1, i);
  }

  /** The unlock and the two statements after it. */
  lemma GoesOut(s: State, i: nat)
    requires Sound(s, i) && s.tasks[i].pc.Out? && IsTransfer(s.tasks[i].op)
    ensures Alone(s, i, 3)
            == Some(Put(s, i, s.tasks[i].(pc := Idle, queued := false, sleeping := false, signalled := false), None))
  {
    var t := s.tasks[i].(pc := Dequeue);
    Releases(s, i, 2);
    Departs(Put(s, i, t, None), i);
    PutTwice(s, i, t, None, t.(pc := Idle, queued := false, sleeping := false, signalled := false), None);
  }

  lemma Departs(s: State, i: nat)
    requires Sound(s, i) && s.tasks[i].pc.Dequeue?
    ensures Alone(s, i, 2)
            == Some(Put(s, i, s.tasks[i].(pc := Idle, queued := false, sleeping := false, signalled := false), s.owner))
  {
    var t := s.tasks[i].(pc := SetRunning, queued := false);
    var u := t.(pc := Idle, sleeping := false, signalled := false);
    Dequeues(s, i, 1);
    Finishes(Put(s, i, t, s.owner), i, 0);
    PutTwice(s, i, t, s.owner, u, s.owner);
    AloneNone(Put(s, i, u, s.owner), i);
  }

  // ----- whole calls

  /** A call of task `i` and its next `n` statements, with nobody else moving. */
  ghost function Called(s: State, i: nat, op: Op, n: nat): Option<State> {
    Exec(Next, s, [Call(i, op)] + seq(n, _ => Go(i)))
  }

  lemma CalledIs(s: State, i: nat, op: Op, n: nat)
    requires Next(s, Call(i, op)).Some?
    ensures Called(s, i, op, n) == Alone(Next(s, Call(i, op)).value, i, n)
  {
    ExecCons(Next, s, Call(i, op), seq(n, _ => Go(i)));
  }

  lemma AloneKeepsInv(s: State, i: nat, n: nat)
    requires Inv(s) && Alone(s, i, n).Some?
    ensures Inv(Alone(s, i, n).value)
  {
    InvInductive();
    Always(Next, Inv, s, seq(n, _ => Go(i)));
  }

  /** Nobody holds the mutex and task `i` is outside a call. */
  ghost predicate Quiet(s: State, i: nat) {
    Inv(s) && s.owner.None? && i < |s.tasks| && s.tasks[i].pc.Idle? && !s.tasks[i].signalled
  }

  /** The call at its loop test. */
  function Entered(s: State, i: nat, op: Op): State
    requires i < |s.tasks|
  {
    Put(s, i, s.tasks[i].(pc := Test, op := op, queued := true), Some(i))
  }

  lemma EnteredInv(s: State, i: nat, op: Op)
    requires Quiet(s, i) && IsTransfer(op)
    ensures Inv(Entered(s, i, op))
  {
    EntersCall(s, i, op, 0);
    CallKeepsInv(s, i, op);
    AloneNone(Entered(s, i, op), i);
    AloneKeepsInv(Next(s, Call(i, op)).value, i, 2);
  }

  lemma CallEnters(s: State, i: nat, op: Op, n: nat)
    requires Quiet(s, i) && IsTransfer(op)
    ensures Called(s, i, op, n + 2) == Alone(Entered(s, i, op), i, n)
  {
    EntersCall(s, i, op, n);
    CalledIs(s, i, op, n + 2);
  }

  /** The call at its copy, when it is not blocked. */
  lemma CallCopies(s: State, i: nat, op: Op, n: nat)
    requires Quiet(s, i) && IsTransfer(op) && !Blocked(s.len, op)
    ensures var m := Put(s, i, s.tasks[i].(pc := Copy, op := op, queued := true), Some(i));
            Inv(m) && Called(s, i, op, n + 3) == Alone(m, i, n)
  {
    var e, t := Entered(s, i, op), s.tasks[i].(pc := Copy, op := op, queued := true);
    CallEnters(s, i, op, n + 1);
    EnteredInv(s, i, op);
    TestPasses(e, i, n);
    TestPasses(e, i, 0);
    PutTwice(s, i, e.tasks[i], Some(i), t, Some(i));
    AloneNone(Put(s, i, t, Some(i)), i);
    AloneKeepsInv(e, i, 1);
  }

  /** What a whole read or write leaves behind: its result and the bytes it moved; the
      sleepers on the other queue awake, the other tasks as they were, the mutex free. */
  ghost predicate Transferred(s: State, r: State, i: nat, op: Op, moved: seq<Byte>) {
    && i < |s.tasks| == |r.tasks| && r.owner.None?
    && r.tasks[i] == s.tasks[i].(op := op, buf := moved, ret := Count(|moved|), queued := false, sleeping := false, signalled := false)
    && (forall j :: 0 <= j < |s.tasks| && j != i ==>
         if s.tasks[j].queued && s.tasks[j].sleeping && s.tasks[j].op.Read? == op.Write?
         then r.tasks[j] == s.tasks[j].(sleeping := false, stranded := false)
         else r.tasks[j] == s.tasks[j])
  }

  /** A read of a device that is not empty returns its first bytes, as many as asked for or
      all of them, takes them off the front and wakes the writers. */
  lemma ReadCall(s: State, i: nat, count: nat, nonblock: bool)
    requires Quiet(s, i) && s.len > 0
    ensures s.len <= |s.mem|
    ensures var k := if count < s.len then count else s.len;
            var r := Called(s, i, Read(count, nonblock), 10);
            && r.Some? && Transferred(s, r.value, i, Read(count, nonblock), s.mem[..k])
            && r.value.returned == s.returned + s.mem[..k] && r.value.accepted == s.accepted
            && r.value.len == s.len - k <= |r.value.mem| && r.value.mem[..r.value.len] == s.mem[k..s.len]
  {
    var op := Read(count, nonblock);
    CallCopies(s, i, op, 7);
    var m := Put(s, i, s.tasks[i].(pc := Copy, op := op, queued := true), Some(i));
    ReadMoves(m, i);
    AloneThen(m, i, 3, 4);
    AloneKeepsInv(m, i, 3);
    LeavesCall(Alone(m, i, 3).value, i);
  }

  /** A write to a device that is not full appends the front of its data, all of it or what
      fits, and wakes the readers. */
  lemma WriteCall(s: State, i: nat, data: seq<Byte>, nonblock: bool)
    requires Quiet(s, i) && s.len < SIZE
    ensures s.len <= |s.mem|
    ensures var k := if |data| < SIZE - s.len then |data| else SIZE - s.len;
            var r := Called(s, i, Write(data, nonblock), 9);
            && r.Some? && 0 <= k <= |data| && Transferred(s, r.value, i, Write(data, nonblock), data[..k])
            && r.value.accepted == s.accepted + data[..k] && r.value.returned == s.returned
            && r.value.len == s.len + k <= |r.value.mem| && r.value.mem[..r.value.len] == s.mem[..s.len] + data[..k]
  {
    var op := Write(data, nonblock);
    CallCopies(s, i, op, 6);
    var m := Put(s, i, s.tasks[i].(pc := Copy, op := op, queued := true), Some(i));
    WriteMoves(m, i);
    AloneThen(m, i, 2, 4);
    AloneKeepsInv(m, i, 2);
    LeavesCall(Alone(m, i, 2).value, i);
  }

  /** A non-blocking call that finds the device empty or full returns EAGAIN and changes
      nothing else. */
  lemma AgainCall(s: State, i: nat, op: Op)
    requires Quiet(s, i) && IsTransfer(op) && op.nonblock && (if op.Read? then s.len == 0 else s.len == SIZE)
    ensures Called(s, i, op, 6)
            == Some(Put(s, i, s.tasks[i].(op := op, ret := Again, queued := false, sleeping := false, signalled := false), None))
  {
    var e, t := Entered(s, i, op), s.tasks[i].(pc := Out, op := op, queued := true, ret := Again);
    CallEnters(s, i, op, 4);
    TestSaysAgain(e, i, 3);
    PutTwice(s, i, e.tasks[i], Some(i), t, Some(i));
    GoesOut(Put(s, i, t, Some(i)), i);
    PutTwice(s, i, t, Some(i), t.(pc := Idle, queued := false, sleeping := false, signalled := false), None);
  }

  /** A blocking one goes to sleep on its queue with the mutex free. */
  lemma SleepCall(s: State, i: nat, op: Op)
    requires Quiet(s, i) && IsTransfer(op) && !op.nonblock && (if op.Read? then s.len == 0 else s.len == SIZE)
    ensures Called(s, i, op, 6)
            == Some(Put(s, i, s.tasks[i].(pc := Asleep, op := op, queued := true, sleeping := true), None))
  {
    var e, t := Entered(s, i, op), s.tasks[i].(pc := SetState, op := op, queued := true);
    CallEnters(s, i, op, 4);
    TestBlocks(e, i, 3);
    PutTwice(s, i, e.tasks[i], Some(i), t, Some(i));
    GoesToSleep(Put(s, i, t, Some(i)), i);
    PutTwice(s, i, t, Some(i), t.(pc := Asleep, sleeping := true), None);
  }

  lemma GoesToSleep(s: State, i: nat)
    requires Sound(s, i) && s.tasks[i].pc.SetState? && !s.tasks[i].signalled
    ensures Alone(s, i, 3) == Some(Put(s, i, s.tasks[i].(pc := Asleep, sleeping := true), None))
  {
    var t := s.tasks[i].(pc := Unlock, sleeping := true);
    SetsState(s, i, 2);
    Unlocks(Put(s, i, t, s.owner), i, 1);
    PutTwice(s, i, t, s.owner, t.(pc := Sched), None);
    FallsAsleep(Put(s, i, t.(pc := Sched), None), i, 0);
    PutTwice(s, i, t.(pc := Sched), None, t.(pc := Asleep), None);
    AloneNone(Put(s, i, t.(pc := Asleep), None), i);
  }

  /** A sleeper that was woken takes the mutex again and is back at its loop test. */
  lemma WokenCall(s: State, i: nat)
    requires Sound(s, i) && s.owner.None? && s.tasks[i].pc.Asleep?
    requires !s.tasks[i].sleeping && !s.tasks[i].signalled
    ensures Alone(s, i, 3) == Some(Put(s, i, s.tasks[i].(pc := Test), Some(i)))
  {
    var t := s.tasks[i];
    Wakes(s, i, 2);
    GoesOn(Put(s, i, t.(pc := Woken), None), i, 1);
    PutTwice(s, i, t.(pc := Woken), None, t.(pc := Relock), None);
    Relocks(Put(s, i, t.(pc := Relock), None), i, 0);
    PutTwice(s, i, t.(pc := Relock), None, t.(pc := Test), Some(i));
    AloneNone(Put(s, i, t.(pc := Test), Some(i)), i);
  }

  /** A signal gets a sleeper out of its call with ERESTARTSYS, whoever holds the mutex and
      whatever the device holds. */
  lemma SignalledCall(s: State, i: nat)
    requires Sound(s, i) && s.tasks[i].pc.Asleep?
    ensures Exec(Next, s, [Signal(i)] + seq(4, _ => Go(i)))
            == Some(Put(s, i, s.tasks[i].(pc := Idle, ret := Restart, queued := false, sleeping := false,
                                          signalled := false, stranded := false), s.owner))
  {
    var t := s.tasks[i].(signalled := true, sleeping := false, stranded := false);
    ExecCons(Next, s, Signal(i), seq(4, _ => Go(i)));
    assert Next(s, Signal(i)) == Some(Put(s, i, t, s.owner));
    SignalledLeaves(Put(s, i, t, s.owner), i);
    PutTwice(s, i, t, s.owner, t.(pc := Idle, ret := Restart, queued := false, signalled := false), s.owner);
  }

  lemma SignalledLeaves(s: State, i: nat)
    requires Sound(s, i) && s.tasks[i].pc.Asleep? && s.tasks[i].signalled && !s.tasks[i].sleeping
    ensures Alone(s, i, 4)
            == Some(Put(s, i, s.tasks[i].(pc := Idle, ret := Restart, queued := false, signalled := false), s.owner))
  {
    var t := s.tasks[i];
    Wakes(s, i, 3);
    Restarts(Put(s, i, t.(pc := Woken), s.owner), i, 2);
    PutTwice(s, i, t.(pc := Woken), s.owner, t.(pc := Dequeue, ret := Restart), s.owner);
    Departs(Put(s, i, t.(pc := Dequeue, ret := Restart), s.owner), i);
    PutTwice(s, i, t.(pc := Dequeue, ret := Restart), s.owner, t.(pc := Idle, ret := Restart, queued := false, signalled := false), s.owner);
  }

  /** FIFO_CLEAR empties the device and zeroes every cell; it wakes nobody. */
  lemma ClearCall(s: State, i: nat)
    requires Quiet(s, i)
    ensures var r := Called(s, i, Clear, 4);
            && r.Some? && r.value.owner.None? && r.value.len == 0 && r.value.accepted == r.value.returned == []
            && |r.value.mem| == SIZE && (forall p :: 0 <= p < SIZE ==> r.value.mem[p] == 0)
            && SameTasks(s, r.value, i) && r.value.tasks[i] == s.tasks[i].(op := Clear, ret := Zero)
  {
    var t := s.tasks[i].(pc := Lock, op := Clear);
    assert Next(s, Call(i, Clear)) == Some(Put(s, i, t, None));
    CalledIs(s, i, Clear, 4);
    assert TaskOk(s, i, s.tasks[i]);
    LocksClear(Put(s, i, t, None), i, 3);
    PutTwice(s, i, t, None, t.(pc := ClearLen), Some(i));
    ClearsFrom(Put(s, i, t.(pc := ClearLen), Some(i)), i);
  }

  /** Only the record that a sleeper was passed over may differ. */
  ghost predicate SameTasks(s: State, r: State, i: nat) {
    |r.tasks| == |s.tasks| && forall j :: 0 <= j < |s.tasks| && j != i ==> r.tasks[j].(stranded := s.tasks[j].stranded) == s.tasks[j]
  }

  lemma ClearsLen(s: State, i: nat)
    requires Sound(s, i) && s.tasks[i].pc.ClearLen? && s.tasks[i].op.Clear?
    ensures var r := Next(s, Go(i));
            && r.Some? && r.value.len == 0 && r.value.accepted == r.value.returned == [] && r.value.mem == s.mem
            && SameTasks(s, r.value, i) && r.value.tasks[i] == s.tasks[i].(pc := ClearMem)
  {
  }

  lemma ClearsMem(s: State, i: nat, n: nat)
    requires Sound(s, i) && s.tasks[i].pc.ClearMem?
    ensures Alone(s, i, n + 1) == Alone(Put(s, i, s.tasks[i].(pc := Out, ret := Zero), s.owner).(mem := seq(SIZE, _ => 0)), i, n)
  {
    AloneFirst(s, i, n + 1);
  }

  lemma ClearsFrom(s: State, i: nat)
    requires Sound(s, i) && s.tasks[i].pc.ClearLen? && s.tasks[i].op.Clear? && !s.tasks[i].signalled
    ensures var r := Alone(s, i, 3);
            && r.Some? && r.value.owner.None? && r.value.len == 0 && r.value.accepted == r.value.returned == []
            && |r.value.mem| == SIZE && (forall p :: 0 <= p < SIZE ==> r.value.mem[p] == 0)
            && SameTasks(s, r.value, i) && r.value.tasks[i] == s.tasks[i].(pc := Idle, ret := Zero)
  {
    ClearsLen(s, i);
    AloneFirst(s, i, 3);
    var s1 := Next(s, Go(i)).value;
    var t := s1.tasks[i].(pc := Out, ret := Zero);
    ClearsMem(s1, i, 1);
    var s2 := Put(s1, i, t, s1.owner).(mem := seq(SIZE, _ => 0));
    Returns(s2, i, 0);
    AloneNone(Put(s2, i, t.(pc := Idle, signalled := false), None), i);
  }

  /** poll reports readable exactly when the device is not empty and writable exactly when
      it is not full, and changes nothing. */
  lemma PollCall(s: State, i: nat)
    requires Quiet(s, i)
    ensures Called(s, i, Poll, 3) == Some(Put(s, i, s.tasks[i].(op := Poll, ret := Mask(s.len > 0, s.len < SIZE)), None))
  {
    var t := s.tasks[i].(pc := Lock, op := Poll);
    assert Next(s, Call(i, Poll)) == Some(Put(s, i, t, None));
    CalledIs(s, i, Poll, 3);
    LocksPoll(Put(s, i, t, None), i, 2);
    PutTwice(s, i, t, None, t.(pc := PollMask), Some(i));
    Polls(Put(s, i, t.(pc := PollMask), Some(i)), i, 1);
    var u := t.(pc := Out, ret := Mask(s.len != 0, s.len != SIZE));
    PutTwice(s, i, t.(pc := PollMask), Some(i), u, Some(i));
    Returns(Put(s, i, u, Some(i)), i, 0);
    PutTwice(s, i, u, Some(i), u.(pc := Idle, signalled := false), None);
    AloneNone(Put(s, i, u.(pc := Idle, signalled := false), None), i);
  }
}
