/**
 The blocking FIFO driver of ch9_globalfifo/globalfifo.c. Any number of tasks
 call read, write, ioctl(FIFO_CLEAR) and poll on one device. The step machine
 has one step per statement between lock operations; setting the task state,
 unlocking and calling schedule() are three steps. Copies from and to user
 space may fault and signals may arrive at any time.
 */
module GlobalFifo {
  import opened Basics
  import opened Runs

  const SIZE: nat := 0x1000

  datatype Op = Read(count: nat, nonblock: bool) | Write(data: seq<Byte>, nonblock: bool) | Clear | Poll

  datatype Result = Count(n: nat) | Again | Fault | Restart | Zero | Mask(canRead: bool, canWrite: bool)

  datatype Pc = Idle | Lock | Enqueue | Test | SetState | Unlock | Sched | Asleep | Woken | Relock
              | Copy | Shift | Commit | Wake | Out | Dequeue | SetRunning
              | ClearLen | ClearMem | PollMask

  /** `sleeping` is TASK_INTERRUPTIBLE; `queued` is membership of r_wait (a read) or
      w_wait (a write); `buf` holds the bytes in transit. `stranded` records that
      FIFO_CLEAR emptied the device while this writer slept. */
  datatype Task = Task(pc: Pc, op: Op, sleeping: bool, queued: bool, signalled: bool,
                       buf: seq<Byte>, ret: Result, stranded: bool)

  /** `accepted` and `returned` are the bytes taken from writers and given to readers
      since the last clear. */
  datatype State = State(mem: seq<Byte>, len: nat, owner: Option<nat>, tasks: seq<Task>,
                         accepted: seq<Byte>, returned: seq<Byte>)

  /** A task enters a call, takes its next statement, takes it with a user-copy fault
      (which may leave `junk` behind in the target), or receives a signal. */
  datatype Action = Call(i: nat, op: Op) | Go(i: nat) | GoFault(i: nat, junk: seq<Byte>) | Signal(i: nat)

  function Init(n: nat): State {
    State(seq(SIZE, _ => 0), 0, None, seq(n, _ => Task(Idle, Clear, false, false, false, [], Zero, false)), [], [])
  }

  function Set(s: State, i: nat, t: Task): State
    requires i < |s.tasks|
  {
    s.(tasks := s.tasks[i := t])
  }

  /** wake_up_interruptible on the read queue, or on the write queue. */
  function WakeUp(readers: bool, t: Task): Task {
    if t.queued && t.sleeping && t.op.Read? == readers then t.(sleeping := false, stranded := false) else t
  }

  function WakeAll(readers: bool, tasks: seq<Task>): (r: seq<Task>)
    ensures |r| == |tasks|
  {
    seq(|tasks|, i requires 0 <= i < |tasks| => WakeUp(readers, tasks[i]))
  }

  /** A writer that has given up the processor, or is about to. */
  predicate Dozing(t: Task) { t.sleeping && (t.pc.Sched? || t.pc.Asleep?) }

  predicate DozingWriter(t: Task) { Dozing(t) && t.op.Write? }

  function StrandAll(tasks: seq<Task>): (r: seq<Task>)
    ensures |r| == |tasks|
  {
    seq(|tasks|, i requires 0 <= i < |tasks| =>
      if DozingWriter(tasks[i]) then tasks[i].(stranded := true) else tasks[i])
  }

  /** The overlapping memcpy as a forward byte copy of the `len - c` bytes at `c` to the front. */
  function ShiftDown(mem: seq<Byte>, c: nat, len: nat): (r: seq<Byte>)
    requires c <= len <= |mem|
    ensures |r| == |mem|
  {
    mem[c..len] + mem[len - c..]
  }

  /** The loop test of the two blocking calls. */
  predicate Blocked(len: nat, op: Op) { if op.Read? then len == 0 else len == SIZE }

  function Clip(want: nat, room: nat): nat { if want > room then room else want }

  /** The bytes a call moves: the front of the device, or the front of the data. */
  function Transit(s: State, t: Task): (buf: seq<Byte>)
    requires s.len <= SIZE && |s.mem| == SIZE
    ensures |buf| <= (if t.op.Read? then s.len else SIZE - s.len)
  {
    match t.op
    case Read(count, _) => s.mem[..Clip(count, s.len)]
    case Write(data, _) => data[..Clip(|data|, SIZE - s.len)]
    case _ => []
  }

  /** One statement of task `i`. */
  function Statement(s: State, i: nat): Option<State>
    requires i < |s.tasks| && s.len <= SIZE && |s.mem| == SIZE
  {
    var t := s.tasks[i];
    match t.pc
    case Idle => None
    case Lock =>
      if s.owner.Some? then None
      else
        var pc := if t.op.Clear? then ClearLen else if t.op.Poll? then PollMask else Enqueue;
        Some(Set(s, i, t.(pc := pc)).(owner := Some(i)))
    case Enqueue => Some(Set(s, i, t.(pc := Test, queued := true)))
    case Test =>
      if !Blocked(s.len, t.op) then Some(Set(s, i, t.(pc := Copy)))
      else if (t.op.Read? || t.op.Write?) && t.op.nonblock then Some(Set(s, i, t.(pc := Out, ret := Again)))
      else Some(Set(s, i, t.(pc := SetState)))
    case SetState => Some(Set(s, i, t.(pc := Unlock, sleeping := true)))
    case Unlock => Some(Set(s, i, t.(pc := Sched)).(owner := None))
    case Sched =>
      Some(Set(s, i, if t.sleeping && !t.signalled then t.(pc := Asleep)
                     else t.(pc := Woken, sleeping := false, stranded := false)))
    case Asleep => if t.sleeping then None else Some(Set(s, i, t.(pc := Woken)))
    case Woken => Some(Set(s, i, if t.signalled then t.(pc := Dequeue, ret := Restart) else t.(pc := Relock)))
    case Relock => if s.owner.Some? then None else Some(Set(s, i, t.(pc := Test)).(owner := Some(i)))
    case Copy =>
      var buf := Transit(s, t);
      var mem := if t.op.Write? then Overwrite(s.mem, s.len, buf) else s.mem;
      Some(Set(s, i, t.(pc := if t.op.Write? then Commit else Shift, buf := buf)).(mem := mem))
    case Shift => if |t.buf| > s.len then None else Some(Set(s, i, t.(pc := Commit)).(mem := ShiftDown(s.mem, |t.buf|, s.len)))
    case Commit =>
      var r := Set(s, i, t.(pc := Wake, ret := Count(|t.buf|)));
      if t.op.Write? then Some(r.(len := s.len + |t.buf|, accepted := s.accepted + t.buf))
      else if |t.buf| > s.len then None
      else Some(r.(len := s.len - |t.buf|, returned := s.returned + t.buf))
    case Wake => Some(s.(tasks := WakeAll(t.op.Write?, s.tasks[i := t.(pc := Out)])))
    case Out =>
      Some(Set(s, i, if t.op.Read? || t.op.Write? then t.(pc := Dequeue) else t.(pc := Idle, signalled := false)).(owner := None))
    case Dequeue => Some(Set(s, i, t.(pc := SetRunning, queued := false)))
    case SetRunning => Some(Set(s, i, t.(pc := Idle, sleeping := false, signalled := false)))
    case ClearLen =>
      Some(s.(tasks := StrandAll(s.tasks[i := t.(pc := ClearMem)]), len := 0, accepted := [], returned := []))
    case ClearMem => Some(Set(s, i, t.(pc := Out, ret := Zero)).(mem := seq(SIZE, _ => 0)))
    case PollMask => Some(Set(s, i, t.(pc := Out, ret := Mask(s.len != 0, s.len != SIZE))))
  }

  function Next(s: State, a: Action): Option<State> {
    if a.i >= |s.tasks| || s.len > SIZE || |s.mem| != SIZE then None
    else
      var t := s.tasks[a.i];
      match a
      case Call(i, op) =>
        if t.pc.Idle? then Some(Set(s, i, t.(pc := Lock, op := op))) else None
      case Go(i) => Statement(s, i)
      case GoFault(i, junk) =>
        if !t.pc.Copy? || |junk| > (if t.op.Write? then |Transit(s, t)| else 0) then None
        else Some(Set(s, i, t.(pc := Out, ret := Fault)).(mem := Overwrite(s.mem, s.len, junk)))
      case Signal(i) =>
        if t.pc.Idle? then None else Some(Set(s, i, t.(signalled := true, sleeping := false, stranded := false)))
  }

  // ----- the invariant

  /** Between mutex_lock and mutex_unlock. */
  predicate HoldsMutex(pc: Pc) {
    pc.Enqueue? || pc.Test? || pc.SetState? || pc.Unlock? || pc.Copy? || pc.Shift? || pc.Commit?
    || pc.Wake? || pc.Out? || pc.ClearLen? || pc.ClearMem? || pc.PollMask?
  }

  predicate IsTransfer(op: Op) { op.Read? || op.Write? }

  /** On a wait queue: after add_wait_queue, before remove_wait_queue. */
  predicate OnQueue(pc: Pc, op: Op) {
    && IsTransfer(op)
    && !pc.Idle? && !pc.Lock? && !pc.Enqueue? && !pc.SetRunning?
  }

  /** The mutex holder is about to wake the readers (a writer) or the writers (a reader). */
  predicate Waking(s: State, readers: bool) {
    && s.owner.Some? && s.owner.value < |s.tasks|
    && s.tasks[s.owner.value].pc.Wake? && s.tasks[s.owner.value].op.Write? == readers
  }

  predicate PcFits(pc: Pc, op: Op) {
    match op
    case Read(_, _) => !pc.ClearLen? && !pc.ClearMem? && !pc.PollMask?
    case Write(_, _) => !pc.ClearLen? && !pc.ClearMem? && !pc.PollMask? && !pc.Shift?
    case Clear => pc.Idle? || pc.Lock? || pc.ClearLen? || pc.ClearMem? || pc.Out?
    case Poll => pc.Idle? || pc.Lock? || pc.PollMask? || pc.Out?
  }

  predicate TaskOk(s: State, i: nat, t: Task) {
    && PcFits(t.pc, t.op)
    && (s.owner == Some(i) <==> HoldsMutex(t.pc))
    && (t.queued <==> OnQueue(t.pc, t.op))
    && (t.sleeping ==> t.pc.Unlock? || t.pc.Sched? || t.pc.Asleep?)
    && (t.stranded ==> DozingWriter(t))
    // nobody sleeps through what it waits for
    && (t.pc.SetState? || t.pc.Unlock? ==> Blocked(s.len, t.op))
    && (Dozing(t) ==> Blocked(s.len, t.op) || Waking(s, t.op.Read?) || t.stranded)
  }

  /** What a call asks to move. */
  function Wanted(op: Op): nat {
    match op
    case Read(count, _) => count
    case Write(data, _) => |data|
    case _ => 0
  }

  /** What the holder has in transit: the bytes at the front of the device, or those
      placed after its contents; as many as asked for and available, so at least one. */
  predicate TransitOk(s: State, t: Task) {
    && (t.pc.Copy? ==> !Blocked(s.len, t.op))
    && (t.pc.Shift? ==> |t.buf| <= s.len <= |s.mem| && t.buf == s.mem[..|t.buf|])
    && (t.pc.Shift? || (t.pc.Commit? && t.op.Read?) ==> 0 < s.len && |t.buf| == Clip(Wanted(t.op), s.len))
    && (t.pc.Commit? && t.op.Write? ==>
          && s.len < SIZE == |s.mem| && |t.buf| == Clip(Wanted(t.op), SIZE - s.len)
          && s.mem[s.len..s.len + |t.buf|] == t.buf == t.op.data[..|t.buf|])
    && (t.pc.Wake? ==> t.ret == Count(|t.buf|) && (Wanted(t.op) > 0 ==> |t.buf| > 0))
    && (t.pc.ClearMem? ==> s.len == 0)
    && (t.pc.Out? && t.op.Poll? ==> t.ret == Mask(s.len != 0, s.len != SIZE))
    && (t.pc.Out? && t.ret.Again? ==> Blocked(s.len, t.op))
  }

  /** The bytes a reader has copied out but not yet removed from the count. */
  predicate Removing(s: State) {
    && s.owner.Some? && s.owner.value < |s.tasks|
    && s.tasks[s.owner.value].pc.Commit? && s.tasks[s.owner.value].op.Read?
  }

  predicate StreamOk(s: State) {
    && s.len <= SIZE && |s.mem| == SIZE
    && (s.owner.Some? ==> s.owner.value < |s.tasks| && TransitOk(s, s.tasks[s.owner.value]))
    && (if Removing(s) then
          var buf := s.tasks[s.owner.value].buf;
          s.accepted == s.returned + buf + s.mem[..s.len - |buf|]
        else
          s.accepted == s.returned + s.mem[..s.len])
  }

  predicate TasksOk(s: State) { forall i :: 0 <= i < |s.tasks| ==> TaskOk(s, i, s.tasks[i]) }

  predicate Inv(s: State) { StreamOk(s) && TasksOk(s) }

  /** A step of task `i` that leaves the count alone and wakes nobody does not
      disturb the other tasks. */
  lemma Frame(s: State, r: State, i: nat)
    requires TasksOk(s) && i < |s.tasks| == |r.tasks| && !s.tasks[i].pc.Wake?
    requires forall j :: 0 <= j < |s.tasks| && j != i ==> r.tasks[j] == s.tasks[j]
    requires r.len == s.len
    requires r.owner == s.owner || (s.owner in {None, Some(i)} && r.owner in {None, Some(i)})
    requires TaskOk(r, i, r.tasks[i])
    ensures TasksOk(r)
  {
  }

  predicate Entering(pc: Pc) { pc.Lock? || pc.Enqueue? || pc.Test? || pc.SetState? || pc.Unlock? }

  predicate Waiting(pc: Pc) { pc.Sched? || pc.Asleep? || pc.Woken? || pc.Relock? }

  /** From the lock to the loop test. */
  lemma LockingKeepsTasks(s: State, i: nat)
    requires Inv(s) && i < |s.tasks| && Statement(s, i).Some?
    requires s.tasks[i].pc.Lock? || s.tasks[i].pc.Enqueue? || s.tasks[i].pc.Test?
    ensures TasksOk(Statement(s, i).value)
  {
    var r := Statement(s, i).value;
    assert TaskOk(s, i, s.tasks[i]);
    Frame(s, r, i);
  }

  /** From the loop test to the unlock before schedule(). */
  lemma SleepingKeepsTasks(s: State, i: nat)
    requires Inv(s) && i < |s.tasks| && Statement(s, i).Some?
    requires s.tasks[i].pc.SetState? || s.tasks[i].pc.Unlock?
    ensures TasksOk(Statement(s, i).value)
  {
    var r := Statement(s, i).value;
    assert TaskOk(s, i, s.tasks[i]);
    Frame(s, r, i);
  }

  /** In schedule(). */
  lemma SchedKeepsTasks(s: State, i: nat)
    requires Inv(s) && i < |s.tasks| && Statement(s, i).Some?
    requires s.tasks[i].pc.Sched? || s.tasks[i].pc.Asleep?
    ensures TasksOk(Statement(s, i).value)
  {
    var r := Statement(s, i).value;
    assert TaskOk(s, i, s.tasks[i]);
    Frame(s, r, i);
  }

  /** From schedule() to the second lock. */
  lemma WokenKeepsTasks(s: State, i: nat)
    requires Inv(s) && i < |s.tasks| && Statement(s, i).Some?
    requires s.tasks[i].pc.Woken? || s.tasks[i].pc.Relock?
    ensures TasksOk(Statement(s, i).value)
  {
    var r := Statement(s, i).value;
    assert TaskOk(s, i, s.tasks[i]);
    Frame(s, r, i);
  }

  /** The copy, the second half of a clear, and poll. */
  lemma CopyingKeepsTasks(s: State, i: nat)
    requires Inv(s) && i < |s.tasks| && Statement(s, i).Some?
    requires var pc := s.tasks[i].pc; pc.Copy? || pc.Shift? || pc.ClearMem? || pc.PollMask?
    ensures TasksOk(Statement(s, i).value)
  {
    var r := Statement(s, i).value;
    assert TaskOk(s, i, s.tasks[i]);
    Frame(s, r, i);
  }

  /** The way out. */
  lemma LeavingKeepsTasks(s: State, i: nat)
    requires Inv(s) && i < |s.tasks| && Statement(s, i).Some?
    requires var pc := s.tasks[i].pc; pc.Out? || pc.Dequeue? || pc.SetRunning?
    ensures TasksOk(Statement(s, i).value)
  {
    var r := Statement(s, i).value;
    assert TaskOk(s, i, s.tasks[i]);
    Frame(s, r, i);
  }

  lemma CommitKeepsTasks(s: State, i: nat)
    requires Inv(s) && i < |s.tasks| && s.tasks[i].pc.Commit? && Statement(s, i).Some?
    ensures TasksOk(Statement(s, i).value)
  {
    var r := Statement(s, i).value;
    assert TaskOk(s, i, s.tasks[i]);
    assert Waking(r, s.tasks[i].op.Write?);
    forall j | 0 <= j < |r.tasks| ensures TaskOk(r, j, r.tasks[j]) {
      assert TaskOk(s, j, s.tasks[j]);
    }
  }

  lemma WakeKeepsTasks(s: State, i: nat)
    requires Inv(s) && i < |s.tasks| && s.tasks[i].pc.Wake?
    ensures TasksOk(Statement(s, i).value)
  {
  }

  lemma ClearLenKeepsTasks(s: State, i: nat)
    requires Inv(s) && i < |s.tasks| && s.tasks[i].pc.ClearLen?
    ensures TasksOk(Statement(s, i).value)
  {
  }

  lemma StatementKeepsTasks(s: State, i: nat)
    requires Inv(s) && i < |s.tasks| && Statement(s, i).Some?
    ensures TasksOk(Statement(s, i).value)
  {
    match s.tasks[i].pc
    case Lock | Enqueue | Test => LockingKeepsTasks(s, i);
    case SetState | Unlock => SleepingKeepsTasks(s, i);
    case Sched | Asleep => SchedKeepsTasks(s, i);
    case Woken | Relock => WokenKeepsTasks(s, i);
    case Copy | Shift | ClearMem | PollMask => CopyingKeepsTasks(s, i);
    case Commit => CommitKeepsTasks(s, i);
    case Wake => WakeKeepsTasks(s, i);
    case ClearLen => ClearLenKeepsTasks(s, i);
    case _ => LeavingKeepsTasks(s, i);
  }

  lemma CopyKeepsStream(s: State, i: nat)
    requires Inv(s) && i < |s.tasks| && s.tasks[i].pc.Copy?
    ensures StreamOk(Statement(s, i).value)
  {
  }

  lemma ShiftKeepsStream(s: State, i: nat)
    requires Inv(s) && i < |s.tasks| && s.tasks[i].pc.Shift?
    ensures Statement(s, i).Some? && StreamOk(Statement(s, i).value)
  {
    assert TaskOk(s, i, s.tasks[i]);
    var r, c := Statement(s, i).value, |s.tasks[i].buf|;
    assert s.mem[..s.len] == s.mem[..c] + s.mem[c..s.len];
    assert r.mem[..s.len - c] == s.mem[c..s.len];
    assert s.accepted == s.returned + (s.mem[..c] + s.mem[c..s.len]);
  }

  lemma CommitKeepsStream(s: State, i: nat)
    requires Inv(s) && i < |s.tasks| && s.tasks[i].pc.Commit?
    ensures Statement(s, i).Some? && StreamOk(Statement(s, i).value)
  {
    assert TaskOk(s, i, s.tasks[i]);
    var r, t := Statement(s, i).value, s.tasks[i];
    if t.op.Write? {
      assert s.mem[..r.len] == s.mem[..s.len] + t.buf;
    }
  }

  /** A step of task `i` that touches neither the bytes nor the histories and has
      nothing in transit keeps the stream. */
  lemma StreamFrame(s: State, r: State, i: nat)
    requires StreamOk(s) && i < |s.tasks| == |r.tasks|
    requires forall j :: 0 <= j < |s.tasks| && j != i ==>
               && r.tasks[j].pc == s.tasks[j].pc && r.tasks[j].op == s.tasks[j].op
               && r.tasks[j].buf == s.tasks[j].buf && r.tasks[j].ret == s.tasks[j].ret
    requires r.mem == s.mem && r.len == s.len && r.accepted == s.accepted && r.returned == s.returned
    requires r.owner == s.owner || (s.owner in {None, Some(i)} && r.owner in {None, Some(i)})
    requires !s.tasks[i].pc.Commit?
    requires !r.tasks[i].pc.Commit? && TransitOk(r, r.tasks[i])
    ensures StreamOk(r)
  {
  }

  lemma ClearKeepsStream(s: State, i: nat)
    requires Inv(s) && i < |s.tasks| && (s.tasks[i].pc.ClearLen? || s.tasks[i].pc.ClearMem?)
    ensures StreamOk(Statement(s, i).value)
  {
  }

  lemma EnteringKeepsStream(s: State, i: nat)
    requires Inv(s) && i < |s.tasks| && Statement(s, i).Some?
    requires Entering(s.tasks[i].pc)
    ensures StreamOk(Statement(s, i).value)
  {
  }

  lemma WaitingKeepsStream(s: State, i: nat)
    requires Inv(s) && i < |s.tasks| && Statement(s, i).Some?
    requires Waiting(s.tasks[i].pc)
    ensures StreamOk(Statement(s, i).value)
  {
    assert TaskOk(s, i, s.tasks[i]);
    StreamFrame(s, Statement(s, i).value, i);
  }

  lemma AfterCopyKeepsStream(s: State, i: nat)
    requires Inv(s) && i < |s.tasks| && Statement(s, i).Some?
    requires var pc := s.tasks[i].pc; pc.Wake? || pc.Out? || pc.Dequeue? || pc.SetRunning? || pc.PollMask?
    ensures StreamOk(Statement(s, i).value)
  {
    assert TaskOk(s, i, s.tasks[i]);
    StreamFrame(s, Statement(s, i).value, i);
  }

  lemma StatementKeepsStream(s: State, i: nat)
    requires Inv(s) && i < |s.tasks| && Statement(s, i).Some?
    ensures StreamOk(Statement(s, i).value)
  {
    match s.tasks[i].pc
    case Copy => CopyKeepsStream(s, i);
    case Shift => ShiftKeepsStream(s, i);
    case Commit => CommitKeepsStream(s, i);
    case ClearLen | ClearMem => ClearKeepsStream(s, i);
    case Wake | Out | Dequeue | SetRunning | PollMask => AfterCopyKeepsStream(s, i);
    case Lock | Enqueue | Test | SetState | Unlock => EnteringKeepsStream(s, i);
    case _ => WaitingKeepsStream(s, i);
  }

  lemma FaultKeepsInv(s: State, i: nat, junk: seq<Byte>)
    requires Inv(s) && Next(s, GoFault(i, junk)).Some?
    ensures Inv(Next(s, GoFault(i, junk)).value)
  {
    var r := Next(s, GoFault(i, junk)).value;
    assert TaskOk(s, i, s.tasks[i]);
    assert r.mem[..r.len] == s.mem[..s.len];
    Frame(s, r, i);
  }

  lemma CallKeepsInv(s: State, i: nat, op: Op)
    requires Inv(s) && Next(s, Call(i, op)).Some?
    ensures Inv(Next(s, Call(i, op)).value)
  {
    var r := Next(s, Call(i, op)).value;
    assert TaskOk(s, i, s.tasks[i]);
    Frame(s, r, i);
    StreamFrame(s, r, i);
  }

  lemma SignalKeepsInv(s: State, i: nat)
    requires Inv(s) && Next(s, Signal(i)).Some?
    ensures Inv(Next(s, Signal(i)).value)
  {
    var r := Next(s, Signal(i)).value;
    assert TaskOk(s, i, s.tasks[i]);
    forall j | 0 <= j < |r.tasks| ensures TaskOk(r, j, r.tasks[j]) {
      assert TaskOk(s, j, s.tasks[j]);
    }
    assert Removing(r) == Removing(s);
  }

  lemma NextKeepsInv(s: State, a: Action)
    requires Inv(s) && Next(s, a).Some?
    ensures Inv(Next(s, a).value)
  {
    match a
    case Call(i, op) => CallKeepsInv(s, i, op);
    case Go(i) => StatementKeepsTasks(s, i); StatementKeepsStream(s, i);
    case GoFault(i, junk) => FaultKeepsInv(s, i, junk);
    case Signal(i) => SignalKeepsInv(s, i);
  }

  // ----- what every run keeps

  lemma InvInductive()
    ensures Inductive(Next, Inv)
  {
    forall m, a | Inv(m) && Next(m, a).Some? ensures Inv(Next(m, a).value) {
      NextKeepsInv(m, a);
    }
  }

  lemma InitOk(n: nat)
    ensures Inv(Init(n))
  {
    assert Init(n).mem[..0] == [];
  }

  lemma InvOnRuns(n: nat, acts: seq<Action>)
    requires Exec(Next, Init(n), acts).Some?
    ensures Inv(Exec(Next, Init(n), acts).value)
  {
    InvInductive();
    InitOk(n);
    Always(Next, Inv, Init(n), acts);
  }

  /** The device is a byte stream: whatever the tasks, faults and signals, the bytes
      accepted since the last clear are those returned since then followed by the
      contents, apart from the bytes a reader is just removing. */
  lemma StreamRefinement(n: nat, acts: seq<Action>)
    requires Exec(Next, Init(n), acts).Some?
    ensures var s := Exec(Next, Init(n), acts).value;
            && s.len <= SIZE == |s.mem|
            && s.returned <= s.accepted
            && (!Removing(s) ==> s.accepted == s.returned + s.mem[..s.len])
            && (Removing(s) ==> var buf := s.tasks[s.owner.value].buf;
                                |buf| <= s.len && s.accepted == s.returned + buf + s.mem[..s.len - |buf|])
            && (s.owner.Some? ==> s.owner.value < |s.tasks| && TransitOk(s, s.tasks[s.owner.value]))
  {
    InvOnRuns(n, acts);
  }

  /** No task is asleep over the event it waits for. */
  predicate ReadersAwake(s: State) {
    s.owner.None? ==> forall i :: 0 <= i < |s.tasks| && Dozing(s.tasks[i]) && s.tasks[i].op.Read? ==> s.len == 0
  }

  predicate WritersAwake(s: State) {
    s.owner.None? ==> forall i :: 0 <= i < |s.tasks| && DozingWriter(s.tasks[i]) ==> s.len == SIZE
  }

  /** Readers are never left asleep over data. A writer left asleep over room was
      asleep when FIFO_CLEAR emptied the device. */
  lemma NoLostWakeup(n: nat, acts: seq<Action>)
    requires Exec(Next, Init(n), acts).Some?
    ensures var s := Exec(Next, Init(n), acts).value;
            && ReadersAwake(s)
            && (s.owner.None? ==> forall i :: 0 <= i < |s.tasks| && DozingWriter(s.tasks[i]) ==>
                 s.len == SIZE || s.tasks[i].stranded)
  {
    InvOnRuns(n, acts);
    var s := Exec(Next, Init(n), acts).value;
    forall i | 0 <= i < |s.tasks| ensures TaskOk(s, i, s.tasks[i]) {
    }
  }

  /** The machine without a FIFO_CLEAR that finds a writer asleep. */
  predicate NoWriterDozes(s: State) { forall i :: 0 <= i < |s.tasks| ==> !DozingWriter(s.tasks[i]) }

  function CarefulNext(s: State, a: Action): Option<State> {
    if a.Go? && a.i < |s.tasks| && s.tasks[a.i].pc.ClearLen? && !NoWriterDozes(s) then None else Next(s, a)
  }

  predicate NoneStranded(s: State) { forall i :: 0 <= i < |s.tasks| ==> !s.tasks[i].stranded }

  lemma StatementStrandsNone(s: State, i: nat)
    requires Inv(s) && NoneStranded(s) && i < |s.tasks| && Statement(s, i).Some?
    requires s.tasks[i].pc.ClearLen? ==> NoWriterDozes(s)
    ensures NoneStranded(Statement(s, i).value)
  {
    var r := Statement(s, i).value;
    assert TaskOk(s, i, s.tasks[i]);
    forall j | 0 <= j < |r.tasks| ensures !r.tasks[j].stranded {
      assert !s.tasks[j].stranded;
    }
  }

  lemma CarefulStrandsNone(s: State, a: Action)
    requires Inv(s) && NoneStranded(s) && CarefulNext(s, a).Some?
    ensures NoneStranded(CarefulNext(s, a).value)
  {
    if a.Go? {
      StatementStrandsNone(s, a.i);
    } else {
      var r := Next(s, a).value;
      forall j | 0 <= j < |r.tasks| ensures !r.tasks[j].stranded {
        assert !s.tasks[j].stranded;
      }
    }
  }

  /** On runs where no clear finds a writer asleep (clear-free runs among them) writers
      are not left asleep either, so a reader and a writer never sleep at once. */
  lemma CarefulNoLostWakeup(n: nat, acts: seq<Action>)
    requires Exec(CarefulNext, Init(n), acts).Some?
    ensures var s := Exec(CarefulNext, Init(n), acts).value;
            && ReadersAwake(s) && WritersAwake(s)
            && (s.owner.None? ==> forall i, j ::
                 0 <= i < |s.tasks| && 0 <= j < |s.tasks| && Dozing(s.tasks[i]) && Dozing(s.tasks[j]) ==>
                 s.tasks[i].op.Read? == s.tasks[j].op.Read?)
  {
    var inv := (m: State) => Inv(m) && NoneStranded(m);
    forall m, a | inv(m) && CarefulNext(m, a).Some? ensures inv(CarefulNext(m, a).value) {
      NextKeepsInv(m, a);
      CarefulStrandsNone(m, a);
    }
    InitOk(n);
    Always(CarefulNext, inv, Init(n), acts);
    var s := Exec(CarefulNext, Init(n), acts).value;
    forall i | 0 <= i < |s.tasks| ensures TaskOk(s, i, s.tasks[i]) && !s.tasks[i].stranded {
    }
  }

  /** The state after a FIFO_CLEAR at its first store has run to its unlock. */
  ghost function AfterClear(s: State, i: nat): Option<State> { Exec(Next, s, [Go(i), Go(i), Go(i)]) }

  /** A clear's last two statements touch no other task. */
  lemma ClearFinishes(s: State, i: nat)
    requires StreamOk(s) && i < |s.tasks| && s.tasks[i].pc.ClearMem? && s.tasks[i].op.Clear?
    ensures var r := Next(s, Go(i)); r.Some? && Next(r.value, Go(i)).Some?
    ensures var r := Next(Next(s, Go(i)).value, Go(i)).value;
            && r.owner.None? && r.len == s.len && |r.tasks| == |s.tasks|
            && r.tasks[i].pc.Idle? && forall j :: 0 <= j < |s.tasks| && j != i ==> r.tasks[j] == s.tasks[j]
  {
  }

  lemma ClearRuns(s: State, i: nat)
    requires Inv(s) && i < |s.tasks| && s.tasks[i].pc.ClearLen?
    ensures AfterClear(s, i).Some?
    ensures var r := AfterClear(s, i).value;
            && r.owner.None? && r.len == 0 && |r.tasks| == |s.tasks|
            && forall j :: 0 <= j < |s.tasks| ==> DozingWriter(r.tasks[j]) == DozingWriter(s.tasks[j])
  {
    assert TaskOk(s, i, s.tasks[i]);
    var r := Statement(s, i).value;
    StatementKeepsStream(s, i);
    ClearFinishes(r, i);
    ExecThree(Next, s, Go(i), Go(i), Go(i));
  }

  /** The machine while task `i` holds the mutex, up to its unlock. */
  function HeldNext(i: nat): (State, Action) -> Option<State> {
    (s: State, a: Action) => if s.owner == Some(i) then Next(s, a) else None
  }

  /** Task `i` is inside its clear, or has just unlocked; the count is zero from the first store on. */
  predicate Clearing(m: State, i: nat) {
    && i < |m.tasks| && m.tasks[i].op.Clear?
    && (if m.owner == Some(i) then m.tasks[i].pc.ClearLen? || ((m.tasks[i].pc.ClearMem? || m.tasks[i].pc.Out?) && m.len == 0)
        else m.owner.None? && m.len == 0)
  }

  /** Task `j`, asleep when the clear began, is woken during it: by a signal, or because one
      was already pending when it called schedule(). */
  predicate WokenIn(s: State, acts: seq<Action>, j: nat)
    requires j < |s.tasks|
  {
    Signal(j) in acts || (s.tasks[j].signalled && Go(j) in acts)
  }

  /** Task `j` dozes as a writer exactly if it did when the clear began and was not woken. */
  predicate DozesOn(s: State, acts: seq<Action>, m: State, j: nat)
    requires j < |s.tasks| == |m.tasks|
  {
    if DozingWriter(s.tasks[j]) && !WokenIn(s, acts, j)
    then DozingWriter(m.tasks[j]) && m.tasks[j].signalled == s.tasks[j].signalled
    else !DozingWriter(m.tasks[j])
  }

  lemma ClearingKept(m: State, i: nat, a: Action)
    requires Inv(m) && Clearing(m, i) && m.owner == Some(i) && Next(m, a).Some?
    ensures Clearing(Next(m, a).value, i) && |Next(m, a).value.tasks| == |m.tasks|
  {
    assert TaskOk(m, i, m.tasks[i]);
    if a.i < |m.tasks| {
      assert TaskOk(m, a.i, m.tasks[a.i]);
    }
  }

  /** While the clear holds the mutex a step changes whether `j` dozes only by waking it. */
  lemma StepDozes(m: State, i: nat, a: Action, j: nat)
    requires Inv(m) && Clearing(m, i) && m.owner == Some(i) && Next(m, a).Some? && j < |m.tasks|
    ensures var r := Next(m, a).value;
            && j < |r.tasks|
            && (!DozingWriter(m.tasks[j]) ==> !DozingWriter(r.tasks[j]))
            && (DozingWriter(m.tasks[j]) ==>
                 if a == Signal(j) || (a == Go(j) && m.tasks[j].signalled) then !DozingWriter(r.tasks[j])
                 else DozingWriter(r.tasks[j]) && r.tasks[j].signalled == m.tasks[j].signalled)
  {
    assert TaskOk(m, i, m.tasks[i]);
    assert TaskOk(m, j, m.tasks[j]);
    if a.i < |m.tasks| {
      assert TaskOk(m, a.i, m.tasks[a.i]);
    }
  }

  lemma {:induction false} ClearWindow(s: State, i: nat, acts: seq<Action>)
    requires Inv(s) && Clearing(s, i) && s.owner == Some(i) && Exec(HeldNext(i), s, acts).Some?
    ensures var m := Exec(HeldNext(i), s, acts).value;
            && Inv(m) && Clearing(m, i) && |m.tasks| == |s.tasks|
            && forall j :: 0 <= j < |s.tasks| ==> DozesOn(s, acts, m, j)
    decreases |acts|
  {
    if acts != [] {
      var before, a := acts[..|acts| - 1], acts[|acts| - 1];
      ClearWindow(s, i, before);
      var m := Exec(HeldNext(i), s, before).value;
      NextKeepsInv(m, a);
      ClearingKept(m, i, a);
      forall j | 0 <= j < |s.tasks| ensures DozesOn(s, acts, Next(m, a).value, j) {
        StepDozes(m, i, a, j);
        assert acts == before + [a];
        assert DozesOn(s, before, m, j);
      }
    }
  }

  /** Exactly when a clear keeps the writers' guarantee, whatever the other tasks do while
      it holds the mutex: iff every writer asleep when it starts is woken before it unlocks. */
  lemma ClearKeepsWritersAwakeIff(s: State, i: nat, acts: seq<Action>)
    requires Inv(s) && i < |s.tasks| && s.tasks[i].pc.ClearLen?
    requires Exec(HeldNext(i), s, acts).Some? && Exec(HeldNext(i), s, acts).value.owner.None?
    ensures WritersAwake(Exec(HeldNext(i), s, acts).value) <==>
            forall j :: 0 <= j < |s.tasks| && DozingWriter(s.tasks[j]) ==> WokenIn(s, acts, j)
  {
    assert TaskOk(s, i, s.tasks[i]);
    ClearWindow(s, i, acts);
    var r := Exec(HeldNext(i), s, acts).value;
    forall j | 0 <= j < |s.tasks| ensures DozingWriter(r.tasks[j]) <==> DozingWriter(s.tasks[j]) && !WokenIn(s, acts, j) {
      assert DozesOn(s, acts, r, j);
    }
  }

  /** In particular, when its three statements run back to back: iff no writer sleeps when it starts. */
  lemma ClearAloneIff(s: State, i: nat)
    requires Inv(s) && i < |s.tasks| && s.tasks[i].pc.ClearLen?
    ensures AfterClear(s, i).Some?
    ensures WritersAwake(AfterClear(s, i).value) <==> NoWriterDozes(s)
  {
    ClearRuns(s, i);
    var r := AfterClear(s, i).value;
    if j :| 0 <= j < |s.tasks| && DozingWriter(s.tasks[j]) {
      assert DozingWriter(r.tasks[j]);
    }
  }

  // ----- what a call returns

  predicate Leaving(pc: Pc) { pc.Wake? || pc.Out? || pc.Dequeue? || pc.SetRunning? || pc.Idle? }

  predicate Sleeps(pc: Pc) { pc.SetState? || pc.Unlock? || Waiting(pc) }

  /** The result of a call on its way out, and afterwards: a count is the number of bytes
      moved, for a write the front of its data, and not zero unless nothing was asked for;
      EAGAIN comes from a non-blocking call only, ERESTARTSYS from a blocking one that was
      signalled, and a non-blocking call never sleeps. No signal is pending outside a call. */
  predicate RetOk(t: Task) {
    && (Sleeps(t.pc) ==> IsTransfer(t.op) && !t.op.nonblock)
    && (t.pc.Idle? ==> !t.signalled)
    && (Leaving(t.pc) ==>
         match t.ret
         case Count(k) =>
           && IsTransfer(t.op) && k == |t.buf| <= Wanted(t.op) && (Wanted(t.op) > 0 ==> k > 0)
           && (t.op.Write? ==> t.buf == t.op.data[..k])
         case Again => IsTransfer(t.op) && t.op.nonblock
         case Fault => IsTransfer(t.op)
         case Restart => IsTransfer(t.op) && !t.op.nonblock && (t.pc.Idle? || ((t.pc.Dequeue? || t.pc.SetRunning?) && t.signalled))
         case Zero => t.op.Clear?
         case Mask(_, _) => t.op.Poll?)
  }

  predicate RetsOk(s: State) { forall i :: 0 <= i < |s.tasks| ==> RetOk(s.tasks[i]) }

  lemma CommitReports(s: State, i: nat)
    requires Inv(s) && i < |s.tasks| && s.tasks[i].pc.Commit? && Statement(s, i).Some?
    ensures RetOk(Statement(s, i).value.tasks[i])
  {
    var t := s.tasks[i];
    assert TaskOk(s, i, t);
    assert TransitOk(s, t);
  }

  lemma EnteringReports(s: State, i: nat)
    requires Inv(s) && i < |s.tasks| && RetOk(s.tasks[i]) && Statement(s, i).Some?
    requires Entering(s.tasks[i].pc)
    ensures RetOk(Statement(s, i).value.tasks[i])
  {
    assert TaskOk(s, i, s.tasks[i]);
  }

  lemma WaitingReports(s: State, i: nat)
    requires Inv(s) && i < |s.tasks| && RetOk(s.tasks[i]) && Statement(s, i).Some?
    requires Waiting(s.tasks[i].pc)
    ensures RetOk(Statement(s, i).value.tasks[i])
  {
    assert TaskOk(s, i, s.tasks[i]);
  }

  lemma CopyingReports(s: State, i: nat)
    requires Inv(s) && i < |s.tasks| && Statement(s, i).Some?
    requires s.tasks[i].pc.Copy? || s.tasks[i].pc.Shift?
    ensures RetOk(Statement(s, i).value.tasks[i])
  {
    assert Statement(s, i).value.tasks[i].pc.Shift? || Statement(s, i).value.tasks[i].pc.Commit?;
  }

  lemma ClearAndPollReport(s: State, i: nat)
    requires Inv(s) && i < |s.tasks| && Statement(s, i).Some?
    requires s.tasks[i].pc.ClearLen? || s.tasks[i].pc.ClearMem? || s.tasks[i].pc.PollMask?
    ensures RetOk(Statement(s, i).value.tasks[i])
  {
    assert TaskOk(s, i, s.tasks[i]);
    assert Statement(s, i).value.tasks[i].op == s.tasks[i].op;
  }

  lemma LeavingReports(s: State, i: nat)
    requires Inv(s) && i < |s.tasks| && RetOk(s.tasks[i]) && Statement(s, i).Some?
    requires var pc := s.tasks[i].pc; pc.Wake? || pc.Out? || pc.Dequeue? || pc.SetRunning?
    ensures RetOk(Statement(s, i).value.tasks[i])
  {
  }

  lemma StatementKeepsRet(s: State, i: nat)
    requires Inv(s) && i < |s.tasks| && RetOk(s.tasks[i]) && Statement(s, i).Some?
    ensures i < |Statement(s, i).value.tasks| && RetOk(Statement(s, i).value.tasks[i])
  {
    match s.tasks[i].pc
    case Commit => CommitReports(s, i);
    case Lock | Enqueue | Test | SetState | Unlock => EnteringReports(s, i);
    case Sched | Asleep | Woken | Relock => WaitingReports(s, i);
    case Wake | Out | Dequeue | SetRunning => LeavingReports(s, i);
    case Copy | Shift => CopyingReports(s, i);
    case _ => ClearAndPollReport(s, i);
  }

  /** A step of another task leaves what the results depend on alone. */
  lemma StatementKeepsOthers(s: State, i: nat, j: nat)
    requires s.len <= SIZE && |s.mem| == SIZE && i < |s.tasks| && j < |s.tasks| && i != j && Statement(s, i).Some?
    ensures var r := Statement(s, i).value;
            && |r.tasks| == |s.tasks|
            && r.tasks[j].pc == s.tasks[j].pc && r.tasks[j].op == s.tasks[j].op && r.tasks[j].ret == s.tasks[j].ret
            && r.tasks[j].buf == s.tasks[j].buf && r.tasks[j].signalled == s.tasks[j].signalled
  {
    var r, pc := Statement(s, i).value, s.tasks[i].pc;
    if !pc.Wake? && !pc.ClearLen? {
      assert r.tasks == s.tasks[i := r.tasks[i]];
    }
  }

  lemma GoKeepsRets(s: State, i: nat)
    requires Inv(s) && RetsOk(s) && i < |s.tasks| && Statement(s, i).Some?
    ensures RetsOk(Statement(s, i).value)
  {
    var r := Statement(s, i).value;
    StatementKeepsRet(s, i);
    forall j | 0 <= j < |r.tasks| ensures RetOk(r.tasks[j]) {
      if j != i {
        assert |r.tasks| == |s.tasks|;
        StatementKeepsOthers(s, i, j);
        assert RetOk(s.tasks[j]);
      }
    }
  }

  lemma NextKeepsRets(s: State, a: Action)
    requires Inv(s) && RetsOk(s) && Next(s, a).Some?
    ensures RetsOk(Next(s, a).value)
  {
    if a.Go? {
      GoKeepsRets(s, a.i);
    } else {
      assert TaskOk(s, a.i, s.tasks[a.i]);
      assert RetOk(s.tasks[a.i]);
    }
  }

  ghost predicate Told(s: State) { Inv(s) && RetsOk(s) }

  lemma ToldInductive()
    ensures Inductive(Next, Told)
  {
    forall m, a | Told(m) && Next(m, a).Some? ensures Told(Next(m, a).value) {
      NextKeepsInv(m, a);
      NextKeepsRets(m, a);
    }
  }

  lemma ToldOnRuns(s: State, acts: seq<Action>)
    requires Told(s) && Exec(Next, s, acts).Some?
    ensures Told(Exec(Next, s, acts).value)
  {
    ToldInductive();
    Always(Next, Told, s, acts);
  }

  lemma InitTold(n: nat)
    ensures Told(Init(n))
  {
    InitOk(n);
  }

  /** Only the statement that sets the count moves bytes, and it moves as many as it counts. */
  ghost predicate Moves(s: State, r: State, i: nat) {
    && i < |s.tasks| == |r.tasks| && r.tasks[i].ret == Count(|s.tasks[i].buf|)
    && (if s.tasks[i].op.Write? then r.accepted == s.accepted + s.tasks[i].buf && r.returned == s.returned
        else r.returned == s.returned + s.tasks[i].buf && r.accepted == s.accepted)
  }

  lemma AgainFoundBlocked(s: State, i: nat)
    requires Inv(s) && i < |s.tasks| && s.tasks[i].pc.Out? && s.tasks[i].ret.Again?
    ensures Blocked(s.len, s.tasks[i].op)
  {
    assert TaskOk(s, i, s.tasks[i]);
  }

  lemma OnlyCommitMoves(s: State, a: Action)
    requires Inv(s) && Next(s, a).Some?
    requires Next(s, a).value.accepted != s.accepted || Next(s, a).value.returned != s.returned
    ensures a.Go? && a.i < |s.tasks| && (s.tasks[a.i].op.Clear? || Moves(s, Next(s, a).value, a.i))
  {
    assert TaskOk(s, a.i, s.tasks[a.i]);
  }

  /** What callers are told, in every run: results as above; a non-blocking call that is
      about to return EAGAIN found the device empty or full; and the bytes accepted and
      returned change only by a clear or by a call that reports just those bytes. */
  lemma ResultsAreTrue(n: nat, acts: seq<Action>, a: Action)
    requires Exec(Next, Init(n), acts).Some?
    ensures var s := Exec(Next, Init(n), acts).value;
            && (forall i :: 0 <= i < |s.tasks| ==> RetOk(s.tasks[i]))
            && (forall i :: 0 <= i < |s.tasks| && s.tasks[i].pc.Out? && s.tasks[i].ret.Again? ==> Blocked(s.len, s.tasks[i].op))
            && (Next(s, a).Some? && (Next(s, a).value.accepted != s.accepted || Next(s, a).value.returned != s.returned) ==>
                 a.Go? && a.i < |s.tasks| && (s.tasks[a.i].op.Clear? || Moves(s, Next(s, a).value, a.i)))
  {
    InitTold(n);
    ToldOnRuns(Init(n), acts);
    var s := Exec(Next, Init(n), acts).value;
    forall i | 0 <= i < |s.tasks| && s.tasks[i].pc.Out? && s.tasks[i].ret.Again? ensures Blocked(s.len, s.tasks[i].op) {
      AgainFoundBlocked(s, i);
    }
    if Next(s, a).Some? && (Next(s, a).value.accepted != s.accepted || Next(s, a).value.returned != s.returned) {
      OnlyCommitMoves(s, a);
    }
  }

  // ----- exits and progress

  /** A task outside a call owns no mutex, is on no queue and is runnable; the statements
      that unlock are reached only by the owner; and a sleeper owns no mutex. */
  lemma ExitsAreClean(n: nat, acts: seq<Action>, i: nat)
    requires Exec(Next, Init(n), acts).Some? && i < |Exec(Next, Init(n), acts).value.tasks|
    ensures var s := Exec(Next, Init(n), acts).value; var t := s.tasks[i];
            && (t.pc.Idle? ==> s.owner != Some(i) && !t.queued && !t.sleeping)
            && (t.pc.Unlock? || t.pc.Out? ==> s.owner == Some(i))
            && (Dozing(t) ==> s.owner != Some(i) && t.queued)
  {
    InvOnRuns(n, acts);
    var s := Exec(Next, Init(n), acts).value;
    assert TaskOk(s, i, s.tasks[i]);
  }

  /** The mutex holder can always take its next statement. */
  lemma HolderMoves(s: State)
    requires Inv(s) && s.owner.Some?
    ensures Next(s, Go(s.owner.value)).Some?
  {
  }

  /** No task inside a call can take its next statement. */
  predicate Deadlocked(s: State) { forall i :: 0 <= i < |s.tasks| ==> Next(s, Go(i)).None? }

  /** When nothing can move, every task is outside a call or asleep, and those asleep
      are readers of an empty device, writers of a full one, or stranded by a clear. */
  lemma OnlyHonestSleep(n: nat, acts: seq<Action>)
    requires Exec(Next, Init(n), acts).Some? && Deadlocked(Exec(Next, Init(n), acts).value)
    ensures var s := Exec(Next, Init(n), acts).value;
            && s.owner.None?
            && forall i :: 0 <= i < |s.tasks| ==> var t := s.tasks[i];
                 t.pc.Idle? || (t.pc.Asleep? && t.sleeping && (Blocked(s.len, t.op) || t.stranded))
  {
    InvOnRuns(n, acts);
    var s := Exec(Next, Init(n), acts).value;
    if s.owner.Some? {
      HolderMoves(s);
    }
    forall i | 0 <= i < |s.tasks|
      ensures var t := s.tasks[i];
              t.pc.Idle? || (t.pc.Asleep? && t.sleeping && (Blocked(s.len, t.op) || t.stranded))
    {
      assert TaskOk(s, i, s.tasks[i]);
      assert Next(s, Go(i)).None?;
    }
  }

  // ----- a run on which FIFO_CLEAR leaves a writer asleep over an empty device

  lemma Push(n: nat, acts: seq<Action>, s: State, a: Action) returns (more: seq<Action>, r: State)
    requires Exec(Next, Init(n), acts) == Some(s) && Next(s, a).Some?
    ensures Exec(Next, Init(n), more) == Some(r) && r == Next(s, a).value
  {
    ExecSnoc(Next, Init(n), acts, a);
    more, r := acts + [a], Next(s, a).value;
  }

  /** A reachable state of the run, with the device idle but for the first three tasks. */
  ghost predicate Scene(n: nat, acts: seq<Action>, s: State, len: nat, owner: Option<nat>) {
    && Exec(Next, Init(n), acts) == Some(s)
    && n >= 3 && |s.tasks| == n && |s.mem| == SIZE && s.len == len && s.owner == owner
  }

  function Fresh(): Task { Task(Idle, Clear, false, false, false, [], Zero, false) }

  /** Task 0 calls write and gets to the copy ... */
  lemma FillStarts(n: nat) returns (acts: seq<Action>, s: State)
    requires n >= 3
    ensures Scene(n, acts, s, 0, Some(0))
    ensures s.tasks[0] == Fresh().(pc := Copy, op := Write(seq(SIZE, _ => 7), false), queued := true)
    ensures s.tasks[1] == s.tasks[2] == Fresh()
  {
    acts, s := [], Init(n);
    acts, s := Push(n, acts, s, Call(0, Write(seq(SIZE, _ => 7), false)));
    acts, s := Push(n, acts, s, Go(0));
    acts, s := Push(n, acts, s, Go(0));
    acts, s := Push(n, acts, s, Go(0));
  }

  /** ... copies its data ... */
  lemma FillCopies(n: nat, acts0: seq<Action>, s0: State) returns (acts: seq<Action>, s: State)
    requires Scene(n, acts0, s0, 0, Some(0))
    requires s0.tasks[0] == Fresh().(pc := Copy, op := Write(seq(SIZE, _ => 7), false), queued := true)
    requires s0.tasks[1] == s0.tasks[2] == Fresh()
    ensures Scene(n, acts, s, 0, Some(0))
    ensures s.tasks[0].pc.Commit? && s.tasks[0].op.Write? && |s.tasks[0].buf| == SIZE
    ensures s.tasks[1] == s.tasks[2] == Fresh()
  {
    acts, s := Push(n, acts0, s0, Go(0));
  }

  /** ... fills the device ... */
  lemma FillCommits(n: nat, acts0: seq<Action>, s0: State) returns (acts: seq<Action>, s: State)
    requires Scene(n, acts0, s0, 0, Some(0))
    requires s0.tasks[0].pc.Commit? && s0.tasks[0].op.Write? && |s0.tasks[0].buf| == SIZE
    requires s0.tasks[1] == s0.tasks[2] == Fresh()
    ensures Scene(n, acts, s, SIZE, Some(0))
    ensures s.tasks[0].pc.Wake? && s.tasks[0].op.Write? && s.tasks[1] == s.tasks[2] == Fresh()
  {
    acts, s := Push(n, acts0, s0, Go(0));
  }

  /** ... wakes the readers ... */
  lemma FillWakes(n: nat, acts0: seq<Action>, s0: State) returns (acts: seq<Action>, s: State)
    requires Scene(n, acts0, s0, SIZE, Some(0))
    requires s0.tasks[0].pc.Wake? && s0.tasks[0].op.Write? && s0.tasks[1] == s0.tasks[2] == Fresh()
    ensures Scene(n, acts, s, SIZE, Some(0))
    ensures s.tasks[0].pc.Out? && s.tasks[1] == s.tasks[2] == Fresh()
  {
    acts, s := Push(n, acts0, s0, Go(0));
  }

  /** ... and unlocks. */
  lemma FillEnds(n: nat, acts0: seq<Action>, s0: State) returns (acts: seq<Action>, s: State)
    requires Scene(n, acts0, s0, SIZE, Some(0))
    requires s0.tasks[0].pc.Out? && s0.tasks[1] == s0.tasks[2] == Fresh()
    ensures Scene(n, acts, s, SIZE, None)
    ensures s.tasks[1] == s.tasks[2] == Fresh()
  {
    acts, s := Push(n, acts0, s0, Go(0));
  }

  /** Task 1 calls write ... */
  lemma WriterLocks(n: nat, acts0: seq<Action>, s0: State) returns (acts: seq<Action>, s: State)
    requires Scene(n, acts0, s0, SIZE, None) && s0.tasks[1] == s0.tasks[2] == Fresh()
    ensures Scene(n, acts, s, SIZE, Some(1))
    ensures s.tasks[1] == Fresh().(pc := Enqueue, op := Write([7], false)) && s.tasks[2] == Fresh()
  {
    acts, s := Push(n, acts0, s0, Call(1, Write([7], false)));
    acts, s := Push(n, acts, s, Go(1));
  }

  /** ... finds the device full ... */
  lemma WriterBlocks(n: nat, acts0: seq<Action>, s0: State) returns (acts: seq<Action>, s: State)
    requires Scene(n, acts0, s0, SIZE, Some(1))
    requires s0.tasks[1] == Fresh().(pc := Enqueue, op := Write([7], false)) && s0.tasks[2] == Fresh()
    ensures Scene(n, acts, s, SIZE, Some(1))
    ensures s.tasks[1] == Fresh().(pc := SetState, op := Write([7], false), queued := true) && s.tasks[2] == Fresh()
  {
    acts, s := Push(n, acts0, s0, Go(1));
    assert s.tasks[1] == Fresh().(pc := Test, op := Write([7], false), queued := true);
    acts, s := Push(n, acts, s, Go(1));
  }

  /** ... and sleeps; task 2 locks for its clear. */
  lemma SleepThenClear(n: nat, acts0: seq<Action>, s0: State) returns (acts: seq<Action>, s: State)
    requires Scene(n, acts0, s0, SIZE, Some(1))
    requires s0.tasks[1] == Fresh().(pc := SetState, op := Write([7], false), queued := true) && s0.tasks[2] == Fresh()
    ensures Scene(n, acts, s, SIZE, Some(2)) && DozingWriter(s.tasks[1]) && s.tasks[2].pc.ClearLen?
  {
    acts, s := Push(n, acts0, s0, Go(1));
    acts, s := Push(n, acts, s, Go(1));
    acts, s := Push(n, acts, s, Call(2, Clear));
    acts, s := Push(n, acts, s, Go(2));
  }

  /** For any number of tasks from three up there is a run on which FIFO_CLEAR leaves a
      writer asleep over an empty device. */
  lemma ClearCanStrand(n: nat) returns (acts: seq<Action>)
    requires n >= 3
    ensures Exec(Next, Init(n), acts).Some? && !WritersAwake(Exec(Next, Init(n), acts).value)
  {
    var before, s1 := FillStarts(n);
    before, s1 := FillCopies(n, before, s1);
    before, s1 := FillCommits(n, before, s1);
    before, s1 := FillWakes(n, before, s1);
    before, s1 := FillEnds(n, before, s1);
    before, s1 := WriterLocks(n, before, s1);
    before, s1 := WriterBlocks(n, before, s1);
    before, s1 := SleepThenClear(n, before, s1);
    InvOnRuns(n, before);
    ClearRuns(s1, 2);
    ClearAloneIff(s1, 2);
    acts := before + [Go(2), Go(2), Go(2)];
    ExecAppend(Next, Init(n), before, [Go(2), Go(2), Go(2)]);
  }
}
