/**
 The blocking times of pi.c: a low, a middle and a high priority thread on one
 processor, five semaphores and one mutex. Steps are the statements of the
 thread functions. Only the spin loops take time; `spin_for` measures elapsed
 time, so time also passes for a spinning thread while another one spins.
 */
module PiTiming {
  import opened Runs

  datatype Thread = Low | Mid | High | Main

  /** Spin lengths, and whether the mutex uses priority inheritance. */
  datatype Config = Config(pi: bool, lowSpin: nat, midSpin: nat)

  datatype LowPc = LNew | LNow | LSetPrio | LWaitGo | LLock | LWaitMid | LWaitHigh | LPostHigh | LPostMid
                 | LSpinStart | LSpin | LUnlock | LTook | LDone
  datatype MidPc = MNew | MSetPrio | MPostReady | MWaitGo | MNow | MSpinStart | MSpin | MTook | MDone
  datatype HighPc = HNew | HSetPrio | HPostReady | HWaitGo | HNow | HLock | HBlocked | HUnlock | HTook | HDone
  datatype MainPc = CreateLow | CreateMid | CreateHigh | PostLow | JoinLow | JoinMid | JoinHigh | Returned

  datatype State = State(
    low: LowPc, mid: MidPc, high: HighPc, main: MainPc,
    lowGo: nat, midGo: nat, highGo: nat, highReady: nat, midReady: nat,
    owner: Option<Thread>,
    time: nat,
    lowStart: nat, midStart: nat,  // `now` in spin_for
    lowNow: nat, midNow: nat, highNow: nat,       // `now` in low, mid and high
    lowTook: int, midTook: int, highTook: int)    // the durations they print

  function Init(): State {
    State(LNew, MNew, HNew, CreateLow, 0, 0, 0, 0, 0, None, 0, 0, 0, 0, 0, 0, 0, 0, 0)
  }

  function StepLow(c: Config, s: State): Option<State> {
    match s.low
    case LNew => None
    case LNow => Some(s.(low := LSetPrio, lowNow := s.time))
    case LSetPrio => Some(s.(low := LWaitGo))
    case LWaitGo => if s.lowGo == 0 then None else Some(s.(low := LLock, lowGo := s.lowGo - 1))
    case LLock => if s.owner.Some? then None else Some(s.(low := LWaitMid, owner := Some(Low)))
    case LWaitMid => if s.midReady == 0 then None else Some(s.(low := LWaitHigh, midReady := s.midReady - 1))
    case LWaitHigh => if s.highReady == 0 then None else Some(s.(low := LPostHigh, highReady := s.highReady - 1))
    case LPostHigh => Some(s.(low := LPostMid, highGo := s.highGo + 1))
    case LPostMid => Some(s.(low := LSpinStart, midGo := s.midGo + 1))
    case LSpinStart => Some(s.(low := LSpin, lowStart := s.time))
    case LSpin => if s.time - s.lowStart < c.lowSpin then Some(s.(time := s.time + 1)) else Some(s.(low := LUnlock))
    case LUnlock => Some(s.(low := LTook, owner := None))
    case LTook => Some(s.(low := LDone, lowTook := s.time - s.lowNow))
    case LDone => None
  }

  function StepMid(c: Config, s: State): Option<State> {
    match s.mid
    case MNew => None
    case MSetPrio => Some(s.(mid := MPostReady))
    case MPostReady => Some(s.(mid := MWaitGo, midReady := s.midReady + 1))
    case MWaitGo => if s.midGo == 0 then None else Some(s.(mid := MNow, midGo := s.midGo - 1))
    case MNow => Some(s.(mid := MSpinStart, midNow := s.time))
    case MSpinStart => Some(s.(mid := MSpin, midStart := s.time))
    case MSpin => if s.time - s.midStart < c.midSpin then Some(s.(time := s.time + 1)) else Some(s.(mid := MTook))
    case MTook => Some(s.(mid := MDone, midTook := s.time - s.midNow))
    case MDone => None
  }

  function StepHigh(s: State): Option<State> {
    match s.high
    case HNew => None
    case HSetPrio => Some(s.(high := HPostReady))
    case HPostReady => Some(s.(high := HWaitGo, highReady := s.highReady + 1))
    case HWaitGo => if s.highGo == 0 then None else Some(s.(high := HNow, highGo := s.highGo - 1))
    case HNow => Some(s.(high := HLock, highNow := s.time))
    case HLock => if s.owner.Some? then Some(s.(high := HBlocked)) else Some(s.(high := HUnlock, owner := Some(High)))
    case HBlocked => if s.owner.Some? then None else Some(s.(high := HUnlock, owner := Some(High)))
    case HUnlock => Some(s.(high := HTook, owner := None))
    case HTook => Some(s.(high := HDone, highTook := s.time - s.highNow))
    case HDone => None
  }

  function StepMain(s: State): Option<State> {
    match s.main
    case CreateLow => Some(s.(main := CreateMid, low := LNow))
    case CreateMid => Some(s.(main := CreateHigh, mid := MSetPrio))
    case CreateHigh => Some(s.(main := PostLow, high := HSetPrio))
    case PostLow => Some(s.(main := JoinLow, lowGo := s.lowGo + 1))
    case JoinLow => if s.low.LDone? then Some(s.(main := JoinMid)) else None
    case JoinMid => if s.mid.MDone? then Some(s.(main := JoinHigh)) else None
    case JoinHigh => if s.high.HDone? then Some(s.(main := Returned)) else None
    case Returned => None
  }

  function Step(c: Config, s: State, t: Thread): Option<State> {
    match t
    case Low => StepLow(c, s)
    case Mid => StepMid(c, s)
    case High => StepHigh(s)
    case Main => StepMain(s)
  }

  /** Threads start under the default policy (priority 0 here) and raise themselves
      to SCHED_FIFO 1, 25 and 50; inheritance lifts the owner of the mutex to the
      priority of the high thread blocked on it. */
  function Effective(c: Config, s: State, t: Thread): nat {
    match t
    case Low =>
      if s.low.LNew? || s.low.LNow? || s.low.LSetPrio? then 0
      else if c.pi && s.owner == Some(Low) && s.high.HBlocked? then 50 else 1
    case Mid => if s.mid.MNew? || s.mid.MSetPrio? then 0 else 25
    case High => if s.high.HNew? || s.high.HSetPrio? then 0 else 50
    case Main => 0
  }

  /** Highest effective priority first; between default-policy threads the choice is free. */
  predicate MayRun(c: Config, s: State, t: Thread) {
    && Step(c, s, t).Some?
    && forall u :: Step(c, s, u).Some? ==> Effective(c, s, u) <= Effective(c, s, t)
  }

  function Scheduled(c: Config): (State, Thread) -> Option<State> {
    (s, t) => if MayRun(c, s, t) then Step(c, s, t) else None
  }

  // ----- positions, and the invariant

  function LowPos(pc: LowPc): nat {
    match pc
    case LNew => 0 case LNow => 1 case LSetPrio => 2 case LWaitGo => 3 case LLock => 4
    case LWaitMid => 5 case LWaitHigh => 6 case LPostHigh => 7 case LPostMid => 8
    case LSpinStart => 9 case LSpin => 10 case LUnlock => 11 case LTook => 12 case LDone => 13
  }

  function MidPos(pc: MidPc): nat {
    match pc
    case MNew => 0 case MSetPrio => 1 case MPostReady => 2 case MWaitGo => 3 case MNow => 4
    case MSpinStart => 5 case MSpin => 6 case MTook => 7 case MDone => 8
  }

  function HighPos(pc: HighPc): nat {
    match pc
    case HNew => 0 case HSetPrio => 1 case HPostReady => 2 case HWaitGo => 3 case HNow => 4
    case HLock => 5 case HBlocked => 6 case HUnlock => 7 case HTook => 8 case HDone => 9
  }

  function MainPos(pc: MainPc): nat {
    match pc
    case CreateLow => 0 case CreateMid => 1 case CreateHigh => 2 case PostLow => 3
    case JoinLow => 4 case JoinMid => 5 case JoinHigh => 6 case Returned => 7
  }

  function Bit(b: bool): nat { if b then 1 else 0 }

  function OwnerPos(o: Option<Thread>): nat {
    if o.None? then 0 else if o.value.Low? then 1 else if o.value.High? then 2 else 3
  }

  /** Each semaphore holds the posts not yet consumed, and the mutex belongs to
      whoever is between its lock and its unlock. Positions of the low, middle, high and
      main thread; the semaphores; the owner. */
  ghost predicate SyncAt(l: int, m: int, h: int, a: int, lowGo: int, midReady: int, highReady: int, highGo: int, midGo: int, own: int) {
    && (l == 0 <==> a < 1) && (m == 0 <==> a < 2) && (h == 0 <==> a < 3)
    && (a >= 5 ==> l == 13) && (a >= 6 ==> m == 8) && (a >= 7 ==> h == 9)
    && lowGo + Bit(l > 3) == Bit(a > 3)
    && midReady + Bit(l > 5) == Bit(m > 2)
    && highReady + Bit(l > 6) == Bit(h > 2)
    && highGo + Bit(h > 3) == Bit(l > 7)
    && midGo + Bit(m > 3) == Bit(l > 8)
    && (own == 1 <==> 5 <= l <= 11)
    && (own == 2 <==> h == 7)
    && own <= 2
    && (l <= 11 ==> h <= 6)
  }

  ghost predicate SyncOk(s: State) {
    SyncAt(LowPos(s.low), MidPos(s.mid), HighPos(s.high), MainPos(s.main),
           s.lowGo, s.midReady, s.highReady, s.highGo, s.midGo, OwnerPos(s.owner))
  }

  /** Where the scheduler holds the threads, and what the clock says there. */
  ghost predicate ClockAt(c: Config, l: int, m: int, h: int, time: int, lowStart: int, midStart: int,
                          lowNow: int, midNow: int, highNow: int, lowTook: int, midTook: int, highTook: int)
  {
    && (l >= 9 ==> h >= 6)
    && (l == 13 ==> m == 8)
    && (h >= 5 ==> highNow == 0)
    && (l <= 8 ==> time == 0)
    && (l >= 2 ==> lowNow == 0)
    && (m >= 6 ==> midStart == midNow)
    && (if c.pi then
          && (m >= 4 ==> h == 9)
          && (l == 9 ==> time == 0)
          && (l == 10 ==> lowStart == 0 && time <= c.lowSpin)
          && (l >= 11 && m <= 5 ==> time == c.lowSpin)
          && (5 <= m ==> midNow == c.lowSpin)
          && (m == 6 ==> c.lowSpin <= time <= c.lowSpin + c.midSpin)
          && (m >= 7 ==> time == c.lowSpin + c.midSpin)
          && (h == 9 ==> highTook == c.lowSpin)
        else
          && (l >= 10 ==> m == 8)
          && (l == 9 && m <= 5 ==> time == 0)
          && (5 <= m ==> midNow == 0)
          && (m == 6 ==> time <= c.midSpin)
          && (m >= 7 && l <= 9 ==> time == c.midSpin)
          && (l == 10 ==> lowStart == c.midSpin && c.midSpin <= time <= c.lowSpin + c.midSpin)
          && (l >= 11 ==> time == c.lowSpin + c.midSpin)
          && (h == 9 ==> highTook == c.lowSpin + c.midSpin))
    && (m == 8 ==> midTook == c.midSpin)
    && (l == 13 ==> lowTook == c.lowSpin + c.midSpin)
  }

  ghost predicate ClockOk(c: Config, s: State) {
    ClockAt(c, LowPos(s.low), MidPos(s.mid), HighPos(s.high), s.time, s.lowStart, s.midStart,
            s.lowNow, s.midNow, s.highNow, s.lowTook, s.midTook, s.highTook)
  }

  ghost predicate Inv(c: Config, s: State) {
    SyncOk(s) && ClockOk(c, s)
  }

  // ----- the statements in terms of positions

  /** The spin loop of the low thread goes round. */
  predicate LowTicks(c: Config, s: State) { s.low.LSpin? && s.time - s.lowStart < c.lowSpin }

  lemma LowMoves(c: Config, s: State)
    requires StepLow(c, s).Some?
    ensures var r, l := StepLow(c, s).value, LowPos(s.low);
            && LowPos(r.low) == l + Bit(!LowTicks(c, s)) && r.time == s.time + Bit(LowTicks(c, s))
            && 1 <= l <= 12 && (l == 3 ==> s.lowGo > 0) && (l == 4 ==> s.owner.None?)
            && (l == 5 ==> s.midReady > 0) && (l == 6 ==> s.highReady > 0)
            && r.lowGo == s.lowGo - Bit(l == 3) && r.midReady == s.midReady - Bit(l == 5)
            && r.highReady == s.highReady - Bit(l == 6) && r.highGo == s.highGo + Bit(l == 7)
            && r.midGo == s.midGo + Bit(l == 8)
            && OwnerPos(r.owner) == (if l == 4 then 1 else if l == 11 then 0 else OwnerPos(s.owner))
            && r.lowNow == (if l == 1 then s.time else s.lowNow)
            && r.lowStart == (if l == 9 then s.time else s.lowStart)
            && r.lowTook == (if l == 12 then s.time - s.lowNow else s.lowTook)
            && r.mid == s.mid && r.high == s.high && r.main == s.main
            && r.midStart == s.midStart && r.midNow == s.midNow && r.highNow == s.highNow
            && r.midTook == s.midTook && r.highTook == s.highTook
  {
  }

  predicate MidTicks(c: Config, s: State) { s.mid.MSpin? && s.time - s.midStart < c.midSpin }

  lemma MidMoves(c: Config, s: State)
    requires StepMid(c, s).Some?
    ensures var r, m := StepMid(c, s).value, MidPos(s.mid);
            && MidPos(r.mid) == m + Bit(!MidTicks(c, s)) && r.time == s.time + Bit(MidTicks(c, s))
            && 1 <= m <= 7 && (m == 3 ==> s.midGo > 0)
            && r.midReady == s.midReady + Bit(m == 2) && r.midGo == s.midGo - Bit(m == 3)
            && r.midNow == (if m == 4 then s.time else s.midNow)
            && r.midStart == (if m == 5 then s.time else s.midStart)
            && r.midTook == (if m == 7 then s.time - s.midNow else s.midTook)
            && r.low == s.low && r.high == s.high && r.main == s.main && r.owner == s.owner
            && r.lowGo == s.lowGo && r.highGo == s.highGo && r.highReady == s.highReady
            && r.lowStart == s.lowStart && r.lowNow == s.lowNow && r.highNow == s.highNow
            && r.lowTook == s.lowTook && r.highTook == s.highTook
  {
  }

  lemma HighMoves(s: State)
    requires StepHigh(s).Some?
    ensures var r, h := StepHigh(s).value, HighPos(s.high);
            && HighPos(r.high) == (if h == 5 && s.owner.None? then 7 else h + 1)
            && 1 <= h <= 8 && (h == 3 ==> s.highGo > 0) && (h == 6 ==> s.owner.None?)
            && r.highReady == s.highReady + Bit(h == 2) && r.highGo == s.highGo - Bit(h == 3)
            && OwnerPos(r.owner) == (if (h == 5 && s.owner.None?) || h == 6 then 2 else if h == 7 then 0 else OwnerPos(s.owner))
            && r.highNow == (if h == 4 then s.time else s.highNow)
            && r.highTook == (if h == 8 then s.time - s.highNow else s.highTook)
            && r.low == s.low && r.mid == s.mid && r.main == s.main && r.time == s.time
            && r.lowGo == s.lowGo && r.midGo == s.midGo && r.midReady == s.midReady
            && r.lowStart == s.lowStart && r.midStart == s.midStart && r.lowNow == s.lowNow && r.midNow == s.midNow
            && r.lowTook == s.lowTook && r.midTook == s.midTook
  {
  }

  lemma MainMoves(s: State)
    requires StepMain(s).Some?
    ensures var r, a := StepMain(s).value, MainPos(s.main);
            && MainPos(r.main) == a + 1 && a <= 6 && r.lowGo == s.lowGo + Bit(a == 3)
            && (a == 4 ==> s.low.LDone?) && (a == 5 ==> s.mid.MDone?) && (a == 6 ==> s.high.HDone?)
            && LowPos(r.low) == (if a == 0 then 1 else LowPos(s.low))
            && MidPos(r.mid) == (if a == 1 then 1 else MidPos(s.mid))
            && HighPos(r.high) == (if a == 2 then 1 else HighPos(s.high))
            && r == s.(main := r.main, low := r.low, mid := r.mid, high := r.high, lowGo := r.lowGo)
  {
  }

  // ----- what the scheduler decides

  /** The low thread posts to the middle one only when the high one is blocked. */
  lemma LowWaitsForHigh(c: Config, s: State)
    requires Inv(c, s) && MayRun(c, s, Low) && s.low.LPostMid?
    ensures s.high.HBlocked?
  {
    assert Step(c, s, High).Some? ==> Effective(c, s, High) <= Effective(c, s, Low);
  }

  /** With inheritance the middle thread gets going only after the high one is done ... */
  lemma MidWaitsForHigh(c: Config, s: State)
    requires c.pi && Inv(c, s) && MayRun(c, s, Mid) && s.mid.MWaitGo?
    ensures s.high.HDone?
  {
    assert Step(c, s, High).Some? ==> Effective(c, s, High) <= Effective(c, s, Mid);
    assert Step(c, s, Low).Some? ==> Effective(c, s, Low) <= Effective(c, s, Mid);
  }

  /** ... and without it the low thread spins only after the middle one is done; either way
      it prints its own time only after that. */
  lemma LowWaitsForMid(c: Config, s: State)
    requires Inv(c, s) && MayRun(c, s, Low) && (s.low.LTook? || (!c.pi && s.low.LSpinStart?))
    ensures s.mid.MDone?
  {
    assert Step(c, s, Mid).Some? ==> Effective(c, s, Mid) <= Effective(c, s, Low);
  }

  lemma LowKeepsSync(c: Config, s: State)
    requires SyncOk(s) && StepLow(c, s).Some?
    ensures SyncOk(StepLow(c, s).value)
  {
    LowMoves(c, s);
  }

  lemma LowKeepsClock(c: Config, s: State)
    requires Inv(c, s) && StepLow(c, s).Some?
    requires s.low.LPostMid? ==> s.high.HBlocked?
    requires s.low.LTook? || (!c.pi && s.low.LSpinStart?) ==> s.mid.MDone?
    ensures ClockOk(c, StepLow(c, s).value)
  {
    LowMoves(c, s);
  }

  lemma LowKeepsInv(c: Config, s: State)
    requires Inv(c, s) && MayRun(c, s, Low)
    ensures Inv(c, StepLow(c, s).value)
  {
    if s.low.LPostMid? { LowWaitsForHigh(c, s); }
    if s.low.LTook? || (!c.pi && s.low.LSpinStart?) { LowWaitsForMid(c, s); }
    LowKeepsSync(c, s);
    LowKeepsClock(c, s);
  }

  lemma MidKeepsSync(c: Config, s: State)
    requires SyncOk(s) && StepMid(c, s).Some?
    ensures SyncOk(StepMid(c, s).value)
  {
    MidMoves(c, s);
  }

  lemma MidKeepsClock(c: Config, s: State)
    requires Inv(c, s) && StepMid(c, s).Some?
    requires c.pi && s.mid.MWaitGo? ==> s.high.HDone?
    ensures ClockOk(c, StepMid(c, s).value)
  {
    MidMoves(c, s);
  }

  lemma MidKeepsInv(c: Config, s: State)
    requires Inv(c, s) && MayRun(c, s, Mid)
    ensures Inv(c, StepMid(c, s).value)
  {
    if c.pi && s.mid.MWaitGo? { MidWaitsForHigh(c, s); }
    MidKeepsSync(c, s);
    MidKeepsClock(c, s);
  }

  lemma HighKeepsSync(s: State)
    requires SyncOk(s) && StepHigh(s).Some?
    ensures SyncOk(StepHigh(s).value)
  {
    HighMoves(s);
  }

  lemma HighKeepsClock(c: Config, s: State)
    requires Inv(c, s) && StepHigh(s).Some?
    ensures ClockOk(c, StepHigh(s).value)
  {
    HighMoves(s);
  }

  lemma MainKeepsSync(s: State)
    requires SyncOk(s) && StepMain(s).Some?
    ensures SyncOk(StepMain(s).value)
  {
    MainMoves(s);
  }

  lemma MainKeepsClock(c: Config, s: State)
    requires ClockOk(c, s) && Orderly(s) && StepMain(s).Some?
    ensures ClockOk(c, StepMain(s).value)
  {
    MainMoves(s);
  }

  lemma StepKeepsInv(c: Config, s: State, t: Thread)
    requires Inv(c, s) && MayRun(c, s, t)
    ensures Inv(c, Step(c, s, t).value)
  {
    match t
    case Low => LowKeepsInv(c, s);
    case Mid => MidKeepsInv(c, s);
    case High => HighKeepsSync(s); HighKeepsClock(c, s);
    case Main => MainKeepsSync(s); InvIsOrderly(c, s); MainKeepsClock(c, s);
  }

  // ----- every scheduled run ends, and ends in completion

  /** Time a spin still has to measure. */
  ghost function SpinLeft(pos: nat, spinAt: nat, elapsed: int, length: nat): nat {
    if pos < spinAt then length
    else if pos == spinAt && 0 <= elapsed < length then length - elapsed
    else 0
  }

  ghost function Rank(c: Config, s: State): int {
    13 - LowPos(s.low) + 8 - MidPos(s.mid) + 9 - HighPos(s.high) + 7 - MainPos(s.main)
    + SpinLeft(LowPos(s.low), 10, s.time - s.lowStart, c.lowSpin)
    + SpinLeft(MidPos(s.mid), 6, s.time - s.midStart, c.midSpin)
  }

  /** A spin started in the past, and a thread is created once. */
  ghost predicate Orderly(s: State) {
    && (s.low.LSpin? ==> s.lowStart <= s.time)
    && (s.mid.MSpin? ==> s.midStart <= s.time)
    && (s.main.CreateLow? ==> s.low.LNew?)
    && (s.main.CreateMid? ==> s.mid.MNew?)
    && (s.main.CreateHigh? ==> s.high.HNew?)
  }

  lemma LowLowersRank(c: Config, s: State)
    requires Orderly(s) && StepLow(c, s).Some? && !s.low.LSpin?
    ensures Rank(c, StepLow(c, s).value) < Rank(c, s)
  {
    var r := StepLow(c, s).value;
    assert r.mid == s.mid && r.high == s.high && r.main == s.main && r.time == s.time && r.midStart == s.midStart;
  }

  lemma LowSpinLowersRank(c: Config, s: State)
    requires Orderly(s) && s.low.LSpin?
    ensures Rank(c, StepLow(c, s).value) < Rank(c, s)
  {
  }

  lemma MidLowersRank(c: Config, s: State)
    requires Orderly(s) && StepMid(c, s).Some?
    ensures Rank(c, StepMid(c, s).value) < Rank(c, s)
  {
  }

  lemma HighLowersRank(c: Config, s: State)
    requires StepHigh(s).Some?
    ensures Rank(c, StepHigh(s).value) < Rank(c, s)
  {
    var r := StepHigh(s).value;
    assert r.low == s.low && r.mid == s.mid && r.main == s.main && r.time == s.time;
    assert r.lowStart == s.lowStart && r.midStart == s.midStart && HighPos(r.high) > HighPos(s.high);
  }

  lemma MainLowersRank(c: Config, s: State)
    requires Orderly(s) && StepMain(s).Some?
    ensures Rank(c, StepMain(s).value) < Rank(c, s)
  {
  }

  lemma RankNonNegative(c: Config, s: State)
    ensures 0 <= Rank(c, s)
  {
  }

  lemma StepLowersRank(c: Config, s: State, t: Thread)
    requires Orderly(s) && Step(c, s, t).Some?
    ensures 0 <= Rank(c, Step(c, s, t).value) < Rank(c, s)
  {
    match t
    case Low => if s.low.LSpin? { LowSpinLowersRank(c, s); } else { LowLowersRank(c, s); }
    case Mid => MidLowersRank(c, s);
    case High => HighLowersRank(c, s);
    case Main => MainLowersRank(c, s);
    RankNonNegative(c, Step(c, s, t).value);
  }

  ghost predicate Idle(c: Config, s: State) { forall t :: !MayRun(c, s, t) }

  /** If some thread can move, the scheduler lets one run. */
  lemma {:induction false} SomeoneRuns(c: Config, s: State, t: Thread) returns (r: Thread)
    requires Step(c, s, t).Some?
    ensures MayRun(c, s, r)
    decreases 50 - Effective(c, s, t)
  {
    r := t;
    if !MayRun(c, s, t) {
      var u :| Step(c, s, u).Some? && Effective(c, s, u) > Effective(c, s, t);
      r := SomeoneRuns(c, s, u);
    }
  }

  lemma IdleIsDone(c: Config, s: State)
    requires Inv(c, s) && Idle(c, s)
    ensures s.low.LDone? && s.mid.MDone? && s.high.HDone? && s.main.Returned?
  {
    if t :| Step(c, s, t).Some? {
      var r := SomeoneRuns(c, s, t);
    }
    assert Step(c, s, Low).None? && Step(c, s, Mid).None? && Step(c, s, High).None? && Step(c, s, Main).None?;
  }

  ghost function Holds(c: Config): State -> bool { s => Inv(c, s) }

  lemma InvInductive(c: Config)
    ensures Inductive(Scheduled(c), Holds(c))
  {
    forall m, t | Inv(c, m) && Scheduled(c)(m, t).Some? ensures Inv(c, Scheduled(c)(m, t).value) {
      StepKeepsInv(c, m, t);
    }
  }

  lemma InvOnRuns(c: Config, s: State, acts: seq<Thread>)
    requires Inv(c, s) && Exec(Scheduled(c), s, acts).Some?
    ensures Inv(c, Exec(Scheduled(c), s, acts).value)
    ensures |acts| <= Left(c, s)
  {
    InvInductive(c);
    Always(Scheduled(c), Holds(c), s, acts);
    RunsAreRanked(c);
    Bounded(Scheduled(c), Holds(c), Lefts(c), s, acts);
  }

  lemma InvIsOrderly(c: Config, s: State)
    requires Inv(c, s)
    ensures Orderly(s)
  {
  }

  ghost function Left(c: Config, s: State): nat { if Rank(c, s) < 0 then 0 else Rank(c, s) }

  ghost function Lefts(c: Config): State -> nat { s => Left(c, s) }

  lemma RunsAreRanked(c: Config)
    ensures Ranked(Scheduled(c), Holds(c), Lefts(c))
  {
    forall m, t | Inv(c, m) && Scheduled(c)(m, t).Some? ensures Left(c, Scheduled(c)(m, t).value) < Left(c, m) {
      InvIsOrderly(c, m);
      StepLowersRank(c, m, t);
    }
  }

  lemma StartOk(c: Config, s: State)
    requires s.low.LNew? && s.mid.MNew? && s.high.HNew? && s.main.CreateLow? && s.owner.None? && s.time == 0
    requires s.lowGo == s.midGo == s.highGo == s.highReady == s.midReady == 0
    ensures Inv(c, s) && Left(c, s) == c.lowSpin + c.midSpin + 37
  {
    assert LowPos(s.low) == 0 && MidPos(s.mid) == 0 && HighPos(s.high) == 0 && MainPos(s.main) == 0;
    assert OwnerPos(s.owner) == 0;
  }

  lemma InitOk(c: Config)
    ensures Inv(c, Init()) && Left(c, Init()) == c.lowSpin + c.midSpin + 37
  {
    StartOk(c, Init());
  }

  /** No scheduled run is longer than the two spins and the statements of the program. */
  lemma EveryRunEnds(c: Config, acts: seq<Thread>)
    requires Exec(Scheduled(c), Init(), acts).Some?
    ensures |acts| <= c.lowSpin + c.midSpin + 37
  {
    InitOk(c);
    InvOnRuns(c, Init(), acts);
  }

  /** The high thread measures exactly the low thread's spin with priority inheritance
      and exactly both spins without, the middle thread measures its own spin, the low
      thread both spins either way, and nothing is left to run only when all threads have returned. */
  ghost predicate Outcome(c: Config, s: State) {
    && (s.high.HDone? ==> s.highTook == if c.pi then c.lowSpin else c.lowSpin + c.midSpin)
    && (s.mid.MDone? ==> s.midTook == c.midSpin)
    && (s.low.LDone? ==> s.lowTook == c.lowSpin + c.midSpin)
    && (Idle(c, s) ==> s.low.LDone? && s.mid.MDone? && s.high.HDone? && s.main.Returned?)
  }

  lemma InvGivesOutcome(c: Config, s: State)
    requires Inv(c, s)
    ensures Outcome(c, s)
  {
    if Idle(c, s) {
      IdleIsDone(c, s);
    }
  }

  /** So it is in every scheduled run, whatever the order in which the threads start. */
  lemma MeasuredTimes(c: Config, acts: seq<Thread>)
    requires Exec(Scheduled(c), Init(), acts).Some?
    ensures Outcome(c, Exec(Scheduled(c), Init(), acts).value)
  {
    InitOk(c);
    InvOnRuns(c, Init(), acts);
    InvGivesOutcome(c, Exec(Scheduled(c), Init(), acts).value);
  }

  lemma IdleAtEnd(c: Config, s: State)
    requires forall t :: Scheduled(c)(s, t).None?
    ensures Idle(c, s)
  {
    forall t ensures !MayRun(c, s, t) {
      assert Scheduled(c)(s, t).None?;
    }
  }

  lemma SomeRunFrom(c: Config, s: State) returns (acts: seq<Thread>)
    requires Inv(c, s)
    ensures Exec(Scheduled(c), s, acts).Some? && Exec(Scheduled(c), s, acts).value.main.Returned?
  {
    InvInductive(c);
    RunsAreRanked(c);
    acts := RunToEnd(Scheduled(c), Holds(c), Lefts(c), s);
    InvOnRuns(c, s, acts);
    IdleAtEnd(c, Exec(Scheduled(c), s, acts).value);
    IdleIsDone(c, Exec(Scheduled(c), s, acts).value);
  }

  /** ... and there is a run on which all threads return, for every pair of spin lengths. */
  lemma SomeRunReturns(c: Config) returns (acts: seq<Thread>)
    ensures Exec(Scheduled(c), Init(), acts).Some? && Exec(Scheduled(c), Init(), acts).value.main.Returned?
  {
    InitOk(c);
    acts := SomeRunFrom(c, Init());
  }
}
