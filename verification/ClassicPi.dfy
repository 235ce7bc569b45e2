/**
 The priority-inversion test of classic_pi.c: three worker threads and the main
 thread meet at six barriers and share one mutex. A state machine whose steps
 are the statements of the thread functions; each step names the thread that
 takes it. Threads are taken from the point where all of them exist.
 */
module ClassicPi {
  import opened Runs

  datatype Thread = Low | Med | High | Main

  datatype Barrier = Ready | Start | Locked | Elevate | Finish | Done

  /** The counts given to pthread_barrier_init. */
  function Count(b: Barrier): nat {
    match b
    case Ready => 4
    case Start => 3
    case Locked => 2
    case Elevate => 2
    case Finish => 3
    case Done => 4
  }

  /** Where a thread is: about to call (`At`) or parked in (`In`) a barrier wait;
      at the loop test; about to lock, or blocked in the lock; at a store to its
      flag; about to unlock; at one of the two loads of the medium thread's loop
      test; or returned. */
  datatype Pc = Wait(b: Barrier, parked: bool) | Loop | Lock(blocked: bool)
              | ClearFlag | SetFlag | Unlock | TestHigh | TestLow | Exit

  datatype Worker = Worker(pc: Pc, inversions: int)

  /** `finishes` counts the releases of the finish barrier. `highSetAt` and
      `lowSetAt` record its value when the flags were last set. */
  datatype State = State(
    low: Worker, med: Worker, high: Worker, main: Pc,
    owner: Option<Thread>,
    highHasRun: bool, lowUnlocked: bool,
    finishes: nat, highSetAt: nat, lowSetAt: nat)

  function Init(n: int): State {
    var w := Worker(Wait(Ready, false), n);
    State(w, w, w, Wait(Ready, false), None, false, false, 0, 0, 0)
  }

  function PcOf(s: State, t: Thread): Pc {
    match t
    case Low => s.low.pc
    case Med => s.med.pc
    case High => s.high.pc
    case Main => s.main
  }

  function Goto(s: State, t: Thread, pc: Pc): State {
    match t
    case Low => s.(low := s.low.(pc := pc))
    case Med => s.(med := s.med.(pc := pc))
    case High => s.(high := s.high.(pc := pc))
    case Main => s.(main := pc)
  }

  /** The statement after a barrier wait, thread by thread. */
  function After(t: Thread, b: Barrier): Pc {
    match b
    case Ready => if t.Main? then Wait(Done, false) else Loop
    case Start => if t.Low? then Lock(false) else if t.Med? then Wait(Elevate, false) else Wait(Locked, false)
    case Locked => if t.Low? then ClearFlag else Lock(false)
    case Elevate => if t.Low? then SetFlag else TestHigh
    case Finish => Loop
    case Done => Exit
  }

  function Parked(s: State, b: Barrier): nat {
    (if s.low.pc == Wait(b, true) then 1 else 0) + (if s.med.pc == Wait(b, true) then 1 else 0)
    + (if s.high.pc == Wait(b, true) then 1 else 0) + (if s.main == Wait(b, true) then 1 else 0)
  }

  function Freed(t: Thread, b: Barrier, pc: Pc): Pc {
    if pc == Wait(b, true) then After(t, b) else pc
  }

  function Release(s: State, b: Barrier): State {
    s.(low := s.low.(pc := Freed(Low, b, s.low.pc)),
       med := s.med.(pc := Freed(Med, b, s.med.pc)),
       high := s.high.(pc := Freed(High, b, s.high.pc)),
       main := Freed(Main, b, s.main),
       finishes := if b.Finish? then s.finishes + 1 else s.finishes)
  }

  /** pthread_barrier_wait: the arrival that completes the count lets everyone go. */
  function Arrive(s: State, t: Thread, b: Barrier): State {
    var p := Goto(s, t, Wait(b, true));
    if Parked(p, b) == Count(b) then Release(p, b) else p
  }

  /** `while (p->inversions-- > 0)`. The high thread clears its flag before the
      start barrier, the others go straight to it. */
  function LoopTest(t: Thread, w: Worker): (Worker, Pc) {
    (w.(inversions := w.inversions - 1),
     if w.inversions <= 0 then Wait(Done, false) else if t.High? then ClearFlag else Wait(Start, false))
  }

  function TakeLoop(s: State, t: Thread): State {
    match t
    case Low => var (w, pc) := LoopTest(t, s.low); s.(low := w.(pc := pc))
    case Med => var (w, pc) := LoopTest(t, s.med); s.(med := w.(pc := pc))
    case High => var (w, pc) := LoopTest(t, s.high); s.(high := w.(pc := pc))
    case Main => s
  }

  function Acquire(s: State, t: Thread): State {
    Goto(s.(owner := Some(t)), t, if t.Low? then Wait(Locked, false) else SetFlag)
  }

  /** One statement of thread `t`; None when the thread cannot move by itself. */
  function Step(s: State, t: Thread): Option<State> {
    match PcOf(s, t)
    case Wait(b, parked) => if parked then None else Some(Arrive(s, t, b))
    case Loop => Some(TakeLoop(s, t))
    case Lock(blocked) =>
      if s.owner.None? then Some(Acquire(s, t))
      else if blocked then None
      else Some(Goto(s, t, Lock(true)))
    case ClearFlag =>
      Some(if t.Low? then Goto(s.(lowUnlocked := false), t, Wait(Elevate, false))
           else Goto(s.(highHasRun := false), t, Wait(Start, false)))
    case SetFlag =>
      Some(if t.Low? then Goto(s.(lowUnlocked := true, lowSetAt := s.finishes), t, Unlock)
           else Goto(s.(highHasRun := true, highSetAt := s.finishes), t, Unlock))
    case Unlock => Some(Goto(s.(owner := None), t, Wait(Finish, false)))
    case TestHigh => Some(Goto(s, t, if s.highHasRun then Wait(Finish, false) else TestLow))
    case TestLow => Some(Goto(s, t, if s.lowUnlocked then Wait(Finish, false) else Wait(Elevate, false)))
    case Exit => None
  }

  // ----- the invariant under arbitrary interleaving

  /** The statements of a thread in program order: below 10 before the round,
      10 to 29 inside it, 30 and up after the last one; -1 for a statement the
      thread does not have. */
  function Pos(t: Thread, pc: Pc): int {
    match pc
    case Wait(b, parked) => WaitPos(t, b) + if parked then 1 else 0
    case Loop => if t.Main? then -1 else 2
    case Lock(blocked) => (if t.Low? then 10 else if t.High? then 14 else -2) + if blocked then 1 else 0
    case ClearFlag => if t.Low? then 14 else if t.High? then 3 else -1
    case SetFlag => if t.Low? then 17 else if t.High? then 16 else -1
    case Unlock => if t.Low? then 18 else if t.High? then 17 else -1
    case TestHigh => if t.Med? then 17 else -1
    case TestLow => if t.Med? then 18 else -1
    case Exit => 32
  }

  function WaitPos(t: Thread, b: Barrier): int {
    match b
    case Ready => 0
    case Start => if t.Main? then -2 else 4
    case Locked => if t.Low? || t.High? then 12 else -2
    case Elevate => if t.Low? || t.Med? then 15 else -2
    case Finish => if t.Main? then -2 else 28
    case Done => 30
  }

  /** A worker's counter at a position, given the requested rounds and the rounds finished. */
  ghost predicate CounterOk(n: int, finishes: nat, pos: int, inversions: int) {
    && 0 <= pos
    && inversions == (if pos <= 2 then n - finishes else n - finishes - 1)
    && (3 <= pos < 30 ==> inversions >= 0)
    && (pos >= 30 ==> inversions < 0)
    && (finishes > 0 ==> n >= finishes)
  }

  /** A barrier is full only for the instant of its release, and moves its threads at once. */
  ghost predicate BarriersOk(l: int, m: int, h: int, a: int) {
    && (a <= 1 || a >= 30)
    && (a <= 1 <==> l <= 1) && (a <= 1 <==> m <= 1) && (a <= 1 <==> h <= 1)
    && (a == 32 <==> l == 32) && (a == 32 <==> m == 32) && (a == 32 <==> h == 32)
    && (10 <= l < 30 <==> 10 <= m < 30) && (10 <= l < 30 <==> 10 <= h < 30)
    && (10 <= l < 30 ==> (14 <= l <==> 14 <= h) && (l <= 16 ==> m <= 16))
    && !(l == m == h == a == 1) && !(l == m == h == 5) && !(l == h == 13)
    && !(l == m == 16) && !(l == m == h == 29) && !(l == m == h == a == 31)
  }

  /** What the flags and the mutex say about where the threads are. */
  ghost predicate SharedOk(s: State, l: int, h: int) {
    && (4 <= h < 30 ==> (s.highHasRun <==> 17 <= h))
    && (s.highHasRun && 10 <= h < 30 ==> s.highSetAt == s.finishes)
    && (15 <= l < 30 ==> (s.lowUnlocked <==> 18 <= l))
    && (18 <= l < 30 ==> s.lowSetAt == s.finishes)
    && (s.owner == Some(Low) <==> 12 <= l <= 18)
    && (10 <= l <= 18 ==> h <= 15)
    && (s.owner == Some(High) <==> 16 <= h <= 17)
    && (s.owner.None? || s.owner == Some(Low) || s.owner == Some(High))
  }

  ghost predicate Inv(n: int, s: State) {
    var l, m, h, a := Pos(Low, s.low.pc), Pos(Med, s.med.pc), Pos(High, s.high.pc), Pos(Main, s.main);
    && CounterOk(n, s.finishes, l, s.low.inversions)
    && CounterOk(n, s.finishes, m, s.med.inversions)
    && CounterOk(n, s.finishes, h, s.high.inversions)
    && 0 <= a && (a <= 1 ==> s.finishes == 0)
    && BarriersOk(l, m, h, a)
    && SharedOk(s, l, h)
  }

  lemma LowParks(n: int, s: State, b: Barrier)
    requires Inv(n, s) && PcOf(s, Low) == Wait(b, false)
    requires Parked(Goto(s, Low, Wait(b, true)), b) != Count(b)
    ensures Inv(n, Goto(s, Low, Wait(b, true)))
  {
  }

  lemma MedParks(n: int, s: State, b: Barrier)
    requires Inv(n, s) && PcOf(s, Med) == Wait(b, false)
    requires Parked(Goto(s, Med, Wait(b, true)), b) != Count(b)
    ensures Inv(n, Goto(s, Med, Wait(b, true)))
  {
  }

  lemma HighParks(n: int, s: State, b: Barrier)
    requires Inv(n, s) && PcOf(s, High) == Wait(b, false)
    requires Parked(Goto(s, High, Wait(b, true)), b) != Count(b)
    ensures Inv(n, Goto(s, High, Wait(b, true)))
  {
  }

  lemma MainParks(n: int, s: State, b: Barrier)
    requires Inv(n, s) && PcOf(s, Main) == Wait(b, false)
    requires Parked(Goto(s, Main, Wait(b, true)), b) != Count(b)
    ensures Inv(n, Goto(s, Main, Wait(b, true)))
  {
  }

  lemma ParkKeepsInv(n: int, s: State, t: Thread, b: Barrier)
    requires Inv(n, s) && PcOf(s, t) == Wait(b, false)
    requires Parked(Goto(s, t, Wait(b, true)), b) != Count(b)
    ensures Inv(n, Goto(s, t, Wait(b, true)))
  {
    match t
    case Low => LowParks(n, s, b);
    case Med => MedParks(n, s, b);
    case High => HighParks(n, s, b);
    case Main => MainParks(n, s, b);
  }

  lemma ReadyReleases(n: int, s: State, t: Thread)
    requires Inv(n, s) && PcOf(s, t) == Wait(Ready, false)
    requires Parked(Goto(s, t, Wait(Ready, true)), Ready) == Count(Ready)
    ensures Inv(n, Release(Goto(s, t, Wait(Ready, true)), Ready))
  {
  }

  lemma StartReleases(n: int, s: State, t: Thread)
    requires Inv(n, s) && PcOf(s, t) == Wait(Start, false)
    requires Parked(Goto(s, t, Wait(Start, true)), Start) == Count(Start)
    ensures Inv(n, Release(Goto(s, t, Wait(Start, true)), Start))
  {
  }

  lemma LockedReleases(n: int, s: State, t: Thread)
    requires Inv(n, s) && PcOf(s, t) == Wait(Locked, false)
    requires Parked(Goto(s, t, Wait(Locked, true)), Locked) == Count(Locked)
    ensures Inv(n, Release(Goto(s, t, Wait(Locked, true)), Locked))
  {
  }

  lemma ElevateReleases(n: int, s: State, t: Thread)
    requires Inv(n, s) && PcOf(s, t) == Wait(Elevate, false)
    requires Parked(Goto(s, t, Wait(Elevate, true)), Elevate) == Count(Elevate)
    ensures Inv(n, Release(Goto(s, t, Wait(Elevate, true)), Elevate))
  {
  }

  lemma FinishReleases(n: int, s: State, t: Thread)
    requires Inv(n, s) && PcOf(s, t) == Wait(Finish, false)
    requires Parked(Goto(s, t, Wait(Finish, true)), Finish) == Count(Finish)
    ensures Inv(n, Release(Goto(s, t, Wait(Finish, true)), Finish))
  {
  }

  lemma DoneReleases(n: int, s: State, t: Thread)
    requires Inv(n, s) && PcOf(s, t) == Wait(Done, false)
    requires Parked(Goto(s, t, Wait(Done, true)), Done) == Count(Done)
    ensures Inv(n, Release(Goto(s, t, Wait(Done, true)), Done))
  {
  }

  lemma ReleaseKeepsInv(n: int, s: State, t: Thread, b: Barrier)
    requires Inv(n, s) && PcOf(s, t) == Wait(b, false)
    requires Parked(Goto(s, t, Wait(b, true)), b) == Count(b)
    ensures Inv(n, Release(Goto(s, t, Wait(b, true)), b))
  {
    match b
    case Ready => ReadyReleases(n, s, t);
    case Start => StartReleases(n, s, t);
    case Locked => LockedReleases(n, s, t);
    case Elevate => ElevateReleases(n, s, t);
    case Finish => FinishReleases(n, s, t);
    case Done => DoneReleases(n, s, t);
  }

  lemma LoopKeepsInv(n: int, s: State, t: Thread)
    requires Inv(n, s) && PcOf(s, t).Loop?
    ensures Inv(n, TakeLoop(s, t))
  {
  }

  lemma LowKeepsInv(n: int, s: State)
    requires Inv(n, s) && !s.low.pc.Wait? && !s.low.pc.Loop? && Step(s, Low).Some?
    ensures Inv(n, Step(s, Low).value)
  {
  }

  lemma MedKeepsInv(n: int, s: State)
    requires Inv(n, s) && !s.med.pc.Wait? && !s.med.pc.Loop? && Step(s, Med).Some?
    ensures Inv(n, Step(s, Med).value)
  {
  }

  lemma HighKeepsInv(n: int, s: State)
    requires Inv(n, s) && !s.high.pc.Wait? && !s.high.pc.Loop? && Step(s, High).Some?
    ensures Inv(n, Step(s, High).value)
  {
  }

  lemma StepKeepsInv(n: int, s: State, t: Thread)
    requires Inv(n, s) && Step(s, t).Some?
    ensures Inv(n, Step(s, t).value)
  {
    var pc := PcOf(s, t);
    if pc.Wait? {
      if Parked(Goto(s, t, Wait(pc.b, true)), pc.b) == Count(pc.b) {
        ReleaseKeepsInv(n, s, t, pc.b);
      } else {
        ParkKeepsInv(n, s, t, pc.b);
      }
    } else if pc.Loop? {
      LoopKeepsInv(n, s, t);
    } else {
      match t
      case Low => LowKeepsInv(n, s);
      case Med => MedKeepsInv(n, s);
      case High => HighKeepsInv(n, s);
      case Main => MainStops(n, s);
    }
  }

  lemma MainStops(n: int, s: State)
    requires Inv(n, s) && !s.main.Wait?
    ensures Step(s, Main).None?
  {
  }

  // ----- every run ends

  ghost function WorkerRank(pos: int, inversions: int): int {
    if pos <= 2 then 40 * ((if inversions > 0 then inversions else 0) + 1) + 2 - pos
    else 40 * (if inversions >= 0 then inversions + 1 else 0) + 40 - pos
  }

  /** The medium thread's second wait at the elevate barrier comes after its tests. */
  ghost function MedPos(s: State): int {
    var l, m := Pos(Low, s.low.pc), Pos(Med, s.med.pc);
    if 17 <= l < 30 && 15 <= m <= 16 then m + 5 else m
  }

  /** A bound on the number of steps the four threads can still take. */
  ghost function Rank(s: State): int {
    WorkerRank(Pos(Low, s.low.pc), s.low.inversions) + WorkerRank(MedPos(s), s.med.inversions)
    + WorkerRank(Pos(High, s.high.pc), s.high.inversions) + 32 - Pos(Main, s.main)
  }

  lemma RankNonNegative(n: int, s: State)
    requires Inv(n, s)
    ensures Rank(s) >= 0
  {
  }

  lemma ParkLowersRank(s: State, t: Thread, b: Barrier)
    requires PcOf(s, t) == Wait(b, false)
    ensures Rank(Goto(s, t, Wait(b, true))) < Rank(s)
  {
  }

  lemma OuterReleaseLowersRank(n: int, s: State, t: Thread, b: Barrier)
    requires Inv(n, s) && PcOf(s, t) == Wait(b, false) && (b.Ready? || b.Start? || b.Done?)
    requires Parked(Goto(s, t, Wait(b, true)), b) == Count(b)
    ensures Rank(Release(Goto(s, t, Wait(b, true)), b)) < Rank(s)
  {
  }

  lemma InnerReleaseLowersRank(n: int, s: State, t: Thread, b: Barrier)
    requires Inv(n, s) && PcOf(s, t) == Wait(b, false) && (b.Locked? || b.Elevate? || b.Finish?)
    requires Parked(Goto(s, t, Wait(b, true)), b) == Count(b)
    ensures Rank(Release(Goto(s, t, Wait(b, true)), b)) < Rank(s)
  {
  }

  lemma ReleaseLowersRank(n: int, s: State, t: Thread, b: Barrier)
    requires Inv(n, s) && PcOf(s, t) == Wait(b, false)
    requires Parked(Goto(s, t, Wait(b, true)), b) == Count(b)
    ensures Rank(Release(Goto(s, t, Wait(b, true)), b)) < Rank(s)
  {
    if b.Ready? || b.Start? || b.Done? { OuterReleaseLowersRank(n, s, t, b); }
    else { InnerReleaseLowersRank(n, s, t, b); }
  }

  lemma LowLowersRank(s: State)
    requires Pos(Low, s.low.pc) >= 0 && !s.low.pc.Wait? && Step(s, Low).Some?
    ensures Rank(Step(s, Low).value) < Rank(s)
  {
    var r := Step(s, Low).value;
    assert r.med == s.med && r.high == s.high && r.main == s.main;
    assert MedPos(r) == MedPos(s);
  }

  lemma MedLowersRank(n: int, s: State)
    requires Inv(n, s) && !s.med.pc.Wait? && Step(s, Med).Some?
    ensures Rank(Step(s, Med).value) < Rank(s)
  {
    var r := Step(s, Med).value;
    assert r.low == s.low && r.high == s.high && r.main == s.main;
  }

  lemma HighLowersRank(s: State)
    requires Pos(High, s.high.pc) >= 0 && !s.high.pc.Wait? && Step(s, High).Some?
    ensures Rank(Step(s, High).value) < Rank(s)
  {
    var r := Step(s, High).value;
    assert r.low == s.low && r.med == s.med && r.main == s.main;
    assert MedPos(r) == MedPos(s);
  }

  lemma StepLowersRank(n: int, s: State, t: Thread)
    requires Inv(n, s) && Step(s, t).Some?
    ensures Rank(Step(s, t).value) < Rank(s)
  {
    var pc := PcOf(s, t);
    if pc.Wait? {
      if Parked(Goto(s, t, Wait(pc.b, true)), pc.b) == Count(pc.b) {
        ReleaseLowersRank(n, s, t, pc.b);
      } else {
        ParkLowersRank(s, t, pc.b);
      }
    } else {
      match t
      case Low => LowLowersRank(s);
      case Med => MedLowersRank(n, s);
      case High => HighLowersRank(s);
      case Main => MainStops(n, s);
    }
  }

  // ----- what holds whatever the scheduler does

  ghost predicate Stuck(s: State) { forall t :: Step(s, t).None? }

  /** Every thread has returned and every requested round was played. */
  ghost predicate Complete(n: int, s: State) {
    && s.low.pc.Exit? && s.med.pc.Exit? && s.high.pc.Exit? && s.main.Exit?
    && s.finishes == (if n > 0 then n else 0)
  }

  /** The medium thread waits at the elevate barrier for a low thread that has
      already gone on to the finish barrier. */
  ghost predicate Wedged(n: int, s: State) {
    && s.med.pc == Wait(Elevate, true) && s.low.pc == Wait(Finish, true) && s.high.pc == Wait(Finish, true)
    && s.finishes < n
  }

  ghost predicate Holding(s: State, t: Thread) {
    match t
    case Low => 12 <= Pos(Low, s.low.pc) <= 18
    case High => s.high.pc.SetFlag? || s.high.pc.Unlock?
    case _ => false
  }

  ghost predicate Near1(a: int, b: int) { -1 <= a - b <= 1 }

  ghost predicate Safe(s: State) {
    // the round counters agree to within one
    && Near1(s.low.inversions, s.med.inversions) && Near1(s.med.inversions, s.high.inversions)
    && Near1(s.low.inversions, s.high.inversions)
    // the mutex is held by whoever is between its lock and its unlock, one thread at a time
    && (forall t :: s.owner == Some(t) <==> Holding(s, t))
    && (forall t :: PcOf(s, t).Unlock? ==> s.owner == Some(t))
    // the medium thread's tests only see flags set in the current round
    && (s.med.pc.TestHigh? && s.highHasRun ==> s.highSetAt == s.finishes)
    && (s.med.pc.TestLow? && s.lowUnlocked ==> s.lowSetAt == s.finishes)
  }

  lemma InvIsSafe(n: int, s: State)
    requires Inv(n, s)
    ensures Safe(s)
  {
  }

  lemma StuckShapes(n: int, s: State)
    requires Inv(n, s) && Stuck(s)
    ensures Complete(n, s) || Wedged(n, s)
  {
    assert Step(s, Low).None?;
    assert Step(s, Med).None?;
    assert Step(s, High).None?;
    assert Step(s, Main).None?;
  }

  /** The medium thread's loop test, run without interruption: it leaves the loop when the
      high thread has run, after one load, or when the low thread has unlocked, after two;
      else it goes back to the elevate barrier. The first case implies the second: the high
      thread only gets the mutex after the low one has set its flag. */
  lemma MedLoopTest(n: int, s: State)
    requires Inv(n, s) && s.med.pc.TestHigh?
    ensures Step(s, Med).Some? && Step(Step(s, Med).value, Med).Some?
    ensures var r := Step(s, Med).value;
            if s.highHasRun then r.med.pc == Wait(Finish, false)
            else Step(r, Med).value.med.pc == if s.lowUnlocked then Wait(Finish, false) else Wait(Elevate, false)
    ensures s.highHasRun ==> s.lowUnlocked
  {
    var r := Step(s, Med).value;
    assert r == s.(med := r.med);
    if s.highHasRun {
      assert Step(r, Med) == Some(Arrive(r, Med, Finish));
    }
  }

  lemma InvInductive(n: int)
    ensures Inductive(Step, s => Inv(n, s))
  {
    forall m, t | Inv(n, m) && Step(m, t).Some? ensures Inv(n, Step(m, t).value) {
      StepKeepsInv(n, m, t);
    }
  }

  /** In every state of every interleaving the safety properties hold, and a state
      without a next step is either completion or the one wedged shape. */
  lemma EveryRunSafe(n: int, acts: seq<Thread>)
    requires Exec(Step, Init(n), acts).Some?
    ensures var s := Exec(Step, Init(n), acts).value;
            Safe(s) && (Stuck(s) ==> Complete(n, s) || Wedged(n, s))
  {
    InvInductive(n);
    Always(Step, s => Inv(n, s), Init(n), acts);
    var s := Exec(Step, Init(n), acts).value;
    InvIsSafe(n, s);
    if Stuck(s) {
      StuckShapes(n, s);
    }
  }

  ghost function Left(s: State): nat { if Rank(s) < 0 then 0 else Rank(s) }

  lemma RunsAreRanked(n: int)
    ensures Ranked(Step, s => Inv(n, s), Left)
  {
    forall m, t | Inv(n, m) && Step(m, t).Some? ensures Left(Step(m, t).value) < Left(m) {
      StepLowersRank(n, m, t);
      StepKeepsInv(n, m, t);
      RankNonNegative(n, Step(m, t).value);
    }
  }

  /** Every interleaving ends: no run is longer than a linear bound in the number of rounds. */
  lemma EveryRunEnds(n: int, acts: seq<Thread>)
    requires Exec(Step, Init(n), acts).Some?
    ensures |acts| <= 120 * (if n > 0 then n else 0) + 158
  {
    InvInductive(n);
    RunsAreRanked(n);
    Bounded(Step, s => Inv(n, s), Left, Init(n), acts);
  }

  // ----- SCHED_FIFO on one processor

  function Prio(t: Thread): nat {
    match t
    case Low => 1
    case Med => 2
    case High => 3
    case Main => 4
  }

  /** The priority of the highest thread blocked on the mutex. */
  function WaiterPrio(s: State): nat {
    if s.high.pc == Lock(true) then Prio(High)
    else if s.med.pc == Lock(true) then Prio(Med)
    else if s.low.pc == Lock(true) then Prio(Low)
    else 0
  }

  /** With priority inheritance the owner of the mutex runs at the priority of its highest waiter. */
  function Effective(pi: bool, s: State, t: Thread): nat {
    if pi && s.owner == Some(t) && WaiterPrio(s) > Prio(t) then WaiterPrio(s) else Prio(t)
  }

  /** A thread runs when it can move and no thread of higher effective priority can. */
  predicate MayRun(pi: bool, s: State, t: Thread) {
    && Step(s, t).Some?
    && forall u :: Step(s, u).Some? ==> Effective(pi, s, u) <= Effective(pi, s, t)
  }

  function Scheduled(pi: bool): (State, Thread) -> Option<State> {
    (s, t) => if MayRun(pi, s, t) then Step(s, t) else None
  }

  /** What the scheduler adds with priority inheritance: the medium thread never
      gets past its first test before the low thread has set its flag. */
  ghost predicate BoostInv(s: State) {
    var l, m, h := Pos(Low, s.low.pc), Pos(Med, s.med.pc), Pos(High, s.high.pc);
    && (15 <= l <= 18 ==> h == 15)
    && (17 <= l < 30 ==> m >= 17)
    && (m == 18 ==> l >= 18)
  }

  /** ... and without: the medium thread always does, so the first round never finishes. */
  ghost predicate InvertedInv(s: State) {
    var l, m, h := Pos(Low, s.low.pc), Pos(Med, s.med.pc), Pos(High, s.high.pc);
    && s.finishes == 0
    && (15 <= l <= 18 ==> h == 15)
    && (18 <= l < 30 ==> m == 16)
    && (10 <= m < 30 ==> m <= 18)
    && (17 <= m <= 18 ==> l == 17)
  }

  /** The low thread only gets to clear its flag once the high thread is blocked. */
  lemma LowWaitsForHigh(pi: bool, n: int, s: State)
    requires Inv(n, s) && MayRun(pi, s, Low) && Pos(Low, s.low.pc) == 14
    ensures Pos(High, s.high.pc) == 15
  {
    assert Step(s, High).Some? ==> Effective(pi, s, High) <= Effective(pi, s, Low);
  }

  /** Boosted, the low thread sets its flag before the medium thread tests it. */
  lemma MedWaitsForLow(n: int, s: State)
    requires Inv(n, s) && BoostInv(s) && MayRun(true, s, Med)
    ensures Pos(Low, s.low.pc) != 17
  {
    assert Step(s, Low).Some? ==> Effective(true, s, Low) <= Effective(true, s, Med);
  }

  /** Not boosted, the low thread sets its flag only when the medium thread is parked again. */
  lemma LowWaitsForMed(n: int, s: State)
    requires Inv(n, s) && InvertedInv(s) && MayRun(false, s, Low) && Pos(Low, s.low.pc) == 17
    ensures Pos(Med, s.med.pc) == 16
  {
    assert Step(s, Med).Some? ==> Effective(false, s, Med) <= Effective(false, s, Low);
  }

  lemma WaitKeepsBoost(n: int, s: State, t: Thread, b: Barrier)
    requires Inv(n, s) && BoostInv(s) && PcOf(s, t) == Wait(b, false)
    ensures BoostInv(Arrive(s, t, b))
  {
  }

  lemma WaitKeepsInverted(n: int, s: State, t: Thread, b: Barrier)
    requires Inv(n, s) && InvertedInv(s) && PcOf(s, t) == Wait(b, false)
    ensures InvertedInv(Arrive(s, t, b))
  {
  }

  lemma ScheduledKeepsBoost(n: int, s: State, t: Thread)
    requires Inv(n, s) && BoostInv(s) && MayRun(true, s, t)
    ensures BoostInv(Step(s, t).value)
  {
    if PcOf(s, t).Wait? {
      WaitKeepsBoost(n, s, t, PcOf(s, t).b);
    } else {
      match t
      case Low => if s.low.pc.ClearFlag? { LowWaitsForHigh(true, n, s); }
      case Med => MedWaitsForLow(n, s);
      case High =>
      case Main => MainStops(n, s);
    }
  }

  lemma ScheduledKeepsInverted(n: int, s: State, t: Thread)
    requires n >= 1 && Inv(n, s) && InvertedInv(s) && MayRun(false, s, t)
    ensures InvertedInv(Step(s, t).value)
  {
    if PcOf(s, t).Wait? {
      WaitKeepsInverted(n, s, t, PcOf(s, t).b);
    } else {
      match t
      case Low =>
        if s.low.pc.ClearFlag? { LowWaitsForHigh(false, n, s); }
        if s.low.pc.SetFlag? { LowWaitsForMed(n, s); }
      case Med =>
      case High =>
      case Main => MainStops(n, s);
    }
  }

  /** No thread may run: the processor is idle for good. */
  ghost predicate Idle(pi: bool, s: State) { forall t :: !MayRun(pi, s, t) }

  /** If some thread can move, the scheduler lets one run. */
  lemma {:induction false} SomeoneRuns(pi: bool, s: State, t: Thread) returns (r: Thread)
    requires Step(s, t).Some?
    ensures MayRun(pi, s, r)
    decreases 4 - Effective(pi, s, t)
  {
    r := t;
    if !MayRun(pi, s, t) {
      var u :| Step(s, u).Some? && Effective(pi, s, u) > Effective(pi, s, t);
      r := SomeoneRuns(pi, s, u);
    }
  }

  lemma IdleIsStuck(pi: bool, s: State)
    requires Idle(pi, s)
    ensures Stuck(s)
  {
    if t :| Step(s, t).Some? {
      var r := SomeoneRuns(pi, s, t);
    }
  }

  /** A scheduled run is an interleaving, so everything proved of those holds of it. */
  lemma {:induction false} ScheduledIsRun(pi: bool, n: int, acts: seq<Thread>)
    requires Exec(Scheduled(pi), Init(n), acts).Some?
    ensures Exec(Step, Init(n), acts) == Exec(Scheduled(pi), Init(n), acts)
    decreases |acts|
  {
    if acts != [] {
      ScheduledIsRun(pi, n, acts[..|acts| - 1]);
    }
  }

  /** With priority inheritance every scheduled run that cannot continue has completed all rounds. */
  lemma InheritanceCompletes(n: int, acts: seq<Thread>)
    requires Exec(Scheduled(true), Init(n), acts).Some?
    ensures var s := Exec(Scheduled(true), Init(n), acts).value;
            !Wedged(n, s) && (Idle(true, s) ==> Complete(n, s))
  {
    var inv := (s: State) => Inv(n, s) && BoostInv(s);
    forall m, t | inv(m) && Scheduled(true)(m, t).Some? ensures inv(Scheduled(true)(m, t).value) {
      StepKeepsInv(n, m, t);
      ScheduledKeepsBoost(n, m, t);
    }
    Always(Scheduled(true), inv, Init(n), acts);
    var s := Exec(Scheduled(true), Init(n), acts).value;
    if Idle(true, s) {
      IdleIsStuck(true, s);
      StuckShapes(n, s);
    }
  }

  /** Without it no round ever finishes: every scheduled run that cannot continue is
      wedged in round one, the medium thread back at the elevate barrier. */
  lemma InversionWedges(n: int, acts: seq<Thread>)
    requires n >= 1
    requires Exec(Scheduled(false), Init(n), acts).Some?
    ensures var s := Exec(Scheduled(false), Init(n), acts).value;
            s.finishes == 0 && !Complete(n, s) && (Idle(false, s) ==> Wedged(n, s))
  {
    var inv := (s: State) => Inv(n, s) && InvertedInv(s);
    forall m, t | inv(m) && Scheduled(false)(m, t).Some? ensures inv(Scheduled(false)(m, t).value) {
      StepKeepsInv(n, m, t);
      ScheduledKeepsInverted(n, m, t);
    }
    Always(Scheduled(false), inv, Init(n), acts);
    var s := Exec(Scheduled(false), Init(n), acts).value;
    if Idle(false, s) {
      IdleIsStuck(false, s);
      StuckShapes(n, s);
    }
  }

  lemma ScheduledRanked(pi: bool, n: int)
    ensures Inductive(Scheduled(pi), s => Inv(n, s)) && Ranked(Scheduled(pi), s => Inv(n, s), Left)
  {
    RunsAreRanked(n);
    forall m, t | Inv(n, m) && Scheduled(pi)(m, t).Some?
      ensures Inv(n, Scheduled(pi)(m, t).value) && Left(Scheduled(pi)(m, t).value) < Left(m)
    {
      StepKeepsInv(n, m, t);
      assert Step(m, t) == Scheduled(pi)(m, t);
    }
  }

  /** Scheduled runs are bounded like all others. */
  lemma ScheduledRunEnds(pi: bool, n: int, acts: seq<Thread>)
    requires Exec(Scheduled(pi), Init(n), acts).Some?
    ensures |acts| <= 120 * (if n > 0 then n else 0) + 158
  {
    ScheduledIsRun(pi, n, acts);
    EveryRunEnds(n, acts);
  }

  lemma IdleFrom(pi: bool, n: int, s: State) returns (acts: seq<Thread>)
    requires Inv(n, s)
    ensures Exec(Scheduled(pi), s, acts).Some? && Idle(pi, Exec(Scheduled(pi), s, acts).value)
  {
    ScheduledRanked(pi, n);
    acts := RunToEnd(Scheduled(pi), m => Inv(n, m), Left, s);
    var r := Exec(Scheduled(pi), s, acts).value;
    forall t ensures !MayRun(pi, r, t) {
      assert Scheduled(pi)(r, t).None?;
    }
  }

  /** Every scheduled run can be carried on until the processor is idle, and is there
      within the bound on all runs. */
  lemma RunToIdle(pi: bool, n: int, before: seq<Thread>) returns (rest: seq<Thread>)
    requires Exec(Scheduled(pi), Init(n), before).Some?
    ensures Exec(Scheduled(pi), Init(n), before + rest).Some?
    ensures Idle(pi, Exec(Scheduled(pi), Init(n), before + rest).value)
    ensures |before + rest| <= 120 * (if n > 0 then n else 0) + 158
  {
    ScheduledRanked(pi, n);
    Always(Scheduled(pi), m => Inv(n, m), Init(n), before);
    rest := IdleFrom(pi, n, Exec(Scheduled(pi), Init(n), before).value);
    ExecAppend(Scheduled(pi), Init(n), before, rest);
    ScheduledRunEnds(pi, n, before + rest);
  }

  /** So both outcomes do occur: for every number of rounds there is a scheduled run
      to completion with inheritance and, from one round up, one to the wedge without. */
  lemma BothOutcomesOccur(n: int) returns (on: seq<Thread>, off: seq<Thread>)
    ensures Exec(Scheduled(true), Init(n), on).Some? && Complete(n, Exec(Scheduled(true), Init(n), on).value)
    ensures n >= 1 ==> Exec(Scheduled(false), Init(n), off).Some?
                       && Wedged(n, Exec(Scheduled(false), Init(n), off).value)
  {
    on := RunToIdle(true, n, []);
    assert [] + on == on;
    InheritanceCompletes(n, on);
    off := RunToIdle(false, n, []);
    assert [] + off == off;
    if n >= 1 {
      InversionWedges(n, off);
    }
  }
}
