/**
 The condition-variable buffer of produce_consume.c: any number of producers
 and consumers, a ring of BUFFER_SIZE cells, one mutex and two condition
 variables. Waiting releases the mutex atomically; a signal wakes one waiter
 of the other kind, and any waiter may also wake for no reason.
 */
module ProduceConsume {
  import opened Runs

  const BUFFER_SIZE: nat := 8
  const END_FLAG: int := -1

  // ----- the ring

  datatype Ring = Ring(buffer: seq<int>, readFrom: nat, writeTo: nat)

  predicate RingOk(q: Ring) {
    |q.buffer| == BUFFER_SIZE && q.readFrom < BUFFER_SIZE && q.writeTo < BUFFER_SIZE
  }

  predicate IsFull(q: Ring) { (q.writeTo + 1) % BUFFER_SIZE == q.readFrom }

  predicate IsEmpty(q: Ring) { q.writeTo == q.readFrom }

  function Advance(pos: nat): nat { if pos + 1 >= BUFFER_SIZE then 0 else pos + 1 }

  /** The number of items held, at most BUFFER_SIZE - 1. */
  function Held(q: Ring): (n: int)
    requires RingOk(q)
    ensures 0 <= n < BUFFER_SIZE
    ensures n == 0 <==> IsEmpty(q)
    ensures n == BUFFER_SIZE - 1 <==> IsFull(q)
  {
    if q.writeTo >= q.readFrom then q.writeTo - q.readFrom else q.writeTo - q.readFrom + BUFFER_SIZE
  }

  /** The items held, oldest first. */
  function Contents(q: Ring): (s: seq<int>)
    requires RingOk(q)
    ensures |s| == Held(q)
  {
    if q.writeTo >= q.readFrom then q.buffer[q.readFrom..q.writeTo]
    else q.buffer[q.readFrom..] + q.buffer[..q.writeTo]
  }

  function Put(q: Ring, item: int): Ring
    requires RingOk(q)
  {
    q.(buffer := q.buffer[q.writeTo := item], writeTo := Advance(q.writeTo))
  }

  function Get(q: Ring): (int, Ring)
    requires RingOk(q)
  {
    (q.buffer[q.readFrom], q.(readFrom := Advance(q.readFrom)))
  }

  lemma PutAppends(q: Ring, item: int)
    requires RingOk(q) && !IsFull(q)
    ensures RingOk(Put(q, item)) && Contents(Put(q, item)) == Contents(q) + [item]
  {
  }

  lemma GetTakesOldest(q: Ring)
    requires RingOk(q) && !IsEmpty(q)
    ensures var (item, r) := Get(q); RingOk(r) && Contents(q) == [item] + Contents(r)
  {
  }

  // ----- the threads

  datatype Pc = Lock | Test | Waiting | Awake | Access | Signal | Unlock | Done

  /** A producer puts the items of `todo`; a consumer gets items until END_FLAG.
      `item` is the last one it got. */
  datatype Thread = Thread(pc: Pc, producer: bool, todo: seq<int>, item: int)

  datatype State = State(q: Ring, owner: Option<nat>, threads: seq<Thread>, produced: seq<int>, consumed: seq<int>)

  /** A thread takes its next statement; a signalling thread wakes `w`; or `i` wakes spuriously. */
  datatype Action = Go(i: nat) | Wake(i: nat, w: nat) | Spurious(i: nat)

  function Fresh(producer: bool, todo: seq<int>): Thread {
    Thread(if producer && todo == [] then Done else Lock, producer, todo, 0)
  }

  function Init(threads: seq<Thread>): State {
    State(Ring(seq(BUFFER_SIZE, _ => 0), 0, 0), None, threads, [], [])
  }

  predicate Starting(threads: seq<Thread>) {
    forall i :: 0 <= i < |threads| ==> threads[i] == Fresh(threads[i].producer, threads[i].todo)
  }

  function Set(s: State, i: nat, t: Thread): State
    requires i < |s.threads|
  {
    s.(threads := s.threads[i := t])
  }

  predicate CannotProceed(s: State, t: Thread) { if t.producer then IsFull(s.q) else IsEmpty(s.q) }

  predicate WaitsFor(s: State, i: nat, w: nat) {
    i < |s.threads| && w < |s.threads| && s.threads[w].pc.Waiting? && s.threads[w].producer != s.threads[i].producer
  }

  predicate SomeoneWaitsFor(s: State, i: nat) { exists w :: 0 <= w < |s.threads| && WaitsFor(s, i, w) }

  function AccessStep(s: State, i: nat, t: Thread): Option<State>
    requires i < |s.threads|
  {
    if !RingOk(s.q) then None
    else if t.producer then
      if t.todo == [] then None
      else Some(Set(s, i, t.(pc := Signal)).(q := Put(s.q, t.todo[0]), produced := s.produced + [t.todo[0]]))
    else
      var (item, q) := Get(s.q);
      Some(Set(s, i, t.(pc := Signal, item := item)).(q := q, consumed := s.consumed + [item]))
  }

  function UnlockStep(t: Thread): Thread {
    if t.producer then
      var rest := if t.todo == [] then [] else t.todo[1..];
      t.(pc := if rest == [] then Done else Lock, todo := rest)
    else
      t.(pc := if t.item == END_FLAG then Done else Lock)
  }

  function Next(s: State, a: Action): Option<State> {
    if a.i >= |s.threads| then None
    else
      var t := s.threads[a.i];
      match a
      case Spurious(i) => if t.pc.Waiting? then Some(Set(s, i, t.(pc := Awake))) else None
      case Wake(i, w) =>
        if t.pc.Signal? && WaitsFor(s, i, w) then
          Some(Set(Set(s, w, s.threads[w].(pc := Awake)), i, t.(pc := Unlock)))
        else None
      case Go(i) =>
        match t.pc
        case Lock => if s.owner.Some? then None else Some(Set(s, i, t.(pc := Test)).(owner := Some(i)))
        case Test =>
          if CannotProceed(s, t) then Some(Set(s, i, t.(pc := Waiting)).(owner := None))
          else Some(Set(s, i, t.(pc := Access)))
        case Waiting => None
        case Awake => if s.owner.Some? then None else Some(Set(s, i, t.(pc := Test)).(owner := Some(i)))
        case Access => AccessStep(s, i, t)
        case Signal => if SomeoneWaitsFor(s, i) then None else Some(Set(s, i, t.(pc := Unlock)))
        case Unlock => Some(Set(s, i, UnlockStep(t)).(owner := None))
        case Done => None
  }

  // ----- the invariant

  predicate HoldsLock(pc: Pc) { pc.Test? || pc.Access? || pc.Signal? || pc.Unlock? }

  /** A thread of the given kind on its way to an access, or one of the other kind about to signal it. */
  predicate Coming(t: Thread, producer: bool) {
    if t.producer == producer then t.pc.Awake? || t.pc.Test? || t.pc.Access? else t.pc.Signal?
  }

  function CountComing(ts: seq<Thread>, producer: bool): (n: nat)
  {
    if ts == [] then 0
    else CountComing(ts[..|ts| - 1], producer) + if Coming(ts[|ts| - 1], producer) then 1 else 0
  }

  /** What a thread of the given kind could use: free cells, or items. */
  function Usable(q: Ring, producer: bool): int
    requires RingOk(q)
  {
    if producer then BUFFER_SIZE - 1 - Held(q) else Held(q)
  }

  predicate SomeoneWaits(ts: seq<Thread>, producer: bool) {
    exists i :: 0 <= i < |ts| && ts[i].pc.Waiting? && ts[i].producer == producer
  }

  predicate ThreadOk(s: State, i: nat, t: Thread)
    requires RingOk(s.q)
  {
    && (s.owner == Some(i) <==> HoldsLock(t.pc))
    && (t.pc.Access? ==> !CannotProceed(s, t))
    && (t.producer && !t.pc.Done? ==> t.todo != [])
  }

  predicate Inv(s: State) {
    && RingOk(s.q)
    && s.produced == s.consumed + Contents(s.q)
    && (s.owner.Some? ==> s.owner.value < |s.threads|)
    && (forall i :: 0 <= i < |s.threads| ==> ThreadOk(s, i, s.threads[i]))
    && (SomeoneWaits(s.threads, true) ==> Usable(s.q, true) <= CountComing(s.threads, true))
    && (SomeoneWaits(s.threads, false) ==> Usable(s.q, false) <= CountComing(s.threads, false))
  }

  lemma {:induction false} CountUpdate(ts: seq<Thread>, i: nat, t: Thread, producer: bool)
    requires i < |ts|
    ensures CountComing(ts[i := t], producer)
            == CountComing(ts, producer) - (if Coming(ts[i], producer) then 1 else 0) + (if Coming(t, producer) then 1 else 0)
  {
    var n := |ts| - 1;
    if i < n {
      assert ts[i := t][..n] == ts[..n][i := t];
      CountUpdate(ts[..n], i, t, producer);
    } else {
      assert ts[i := t][..n] == ts[..n];
    }
  }

  /** The wait clause for one kind survives a step of thread `i`: either `i` starts to
      wait with nothing usable, or what becomes usable is covered by who is coming. */
  lemma WaitClause(s: State, i: nat, t: Thread, q: Ring, producer: bool)
    requires Inv(s) && i < |s.threads| && RingOk(q)
    requires var u := s.threads[i];
             if t.pc.Waiting? && t.producer == producer then Usable(q, producer) == 0
             else Usable(q, producer) - (if Coming(t, producer) then 1 else 0)
                  <= Usable(s.q, producer) - (if Coming(u, producer) then 1 else 0)
    ensures var ts := s.threads[i := t];
            SomeoneWaits(ts, producer) ==> Usable(q, producer) <= CountComing(ts, producer)
  {
    CountUpdate(s.threads, i, t, producer);
    var ts := s.threads[i := t];
    if w :| 0 <= w < |ts| && ts[w].pc.Waiting? && ts[w].producer == producer {
      if w != i {
        assert s.threads[w].pc.Waiting? && s.threads[w].producer == producer;
      }
    }
  }

  lemma ThreadsFrame(s: State, r: State, i: nat)
    requires Inv(s) && RingOk(r.q) && i < |s.threads| == |r.threads|
    requires forall j :: 0 <= j < |s.threads| && j != i ==> r.threads[j] == s.threads[j]
    requires r.owner == s.owner || (s.owner in {None, Some(i)} && r.owner in {None, Some(i)})
    requires r.q == s.q || s.owner == Some(i)
    requires ThreadOk(r, i, r.threads[i])
    ensures forall j :: 0 <= j < |r.threads| ==> ThreadOk(r, j, r.threads[j])
  {
  }

  lemma PutKeepsInv(s: State, i: nat)
    requires Inv(s) && i < |s.threads| && s.threads[i].pc.Access? && s.threads[i].producer && Next(s, Go(i)).Some?
    ensures Inv(Next(s, Go(i)).value)
  {
    var r, t := Next(s, Go(i)).value, s.threads[i];
    assert ThreadOk(s, i, t);
    PutAppends(s.q, t.todo[0]);
    WaitClause(s, i, r.threads[i], r.q, true);
    WaitClause(s, i, r.threads[i], r.q, false);
    ThreadsFrame(s, r, i);
  }

  lemma GetKeepsStream(s: State)
    requires RingOk(s.q) && !IsEmpty(s.q) && s.produced == s.consumed + Contents(s.q)
    ensures var (item, q) := Get(s.q);
            RingOk(q) && Held(q) == Held(s.q) - 1 && s.produced == s.consumed + [item] + Contents(q)
  {
    GetTakesOldest(s.q);
    assert s.consumed + ([Get(s.q).0] + Contents(Get(s.q).1)) == s.consumed + [Get(s.q).0] + Contents(Get(s.q).1);
  }

  lemma GetKeepsInv(s: State, i: nat)
    requires Inv(s) && i < |s.threads| && s.threads[i].pc.Access? && !s.threads[i].producer && Next(s, Go(i)).Some?
    ensures Inv(Next(s, Go(i)).value)
  {
    var r, t := Next(s, Go(i)).value, s.threads[i];
    assert ThreadOk(s, i, t);
    GetKeepsStream(s);
    WaitClause(s, i, r.threads[i], r.q, true);
    WaitClause(s, i, r.threads[i], r.q, false);
    ThreadsFrame(s, r, i);
  }

  /** Every statement but the access and the signal. */
  lemma PlainKeepsInv(s: State, i: nat)
    requires Inv(s) && i < |s.threads| && !s.threads[i].pc.Access? && !s.threads[i].pc.Signal?
    requires Next(s, Go(i)).Some?
    ensures Inv(Next(s, Go(i)).value)
  {
    var r, t := Next(s, Go(i)).value, s.threads[i];
    assert ThreadOk(s, i, t);
    ThreadsFrame(s, r, i);
    WaitClause(s, i, r.threads[i], r.q, true);
    WaitClause(s, i, r.threads[i], r.q, false);
  }

  /** A signal with nobody to wake. */
  lemma SignalKeepsInv(s: State, i: nat)
    requires Inv(s) && i < |s.threads| && s.threads[i].pc.Signal? && Next(s, Go(i)).Some?
    ensures Inv(Next(s, Go(i)).value)
  {
    var r, t := Next(s, Go(i)).value, s.threads[i];
    assert ThreadOk(s, i, t);
    ThreadsFrame(s, r, i);
    WaitClause(s, i, r.threads[i], r.q, t.producer);
    if w :| 0 <= w < |r.threads| && r.threads[w].pc.Waiting? && r.threads[w].producer != t.producer {
      assert WaitsFor(s, i, w);
    }
  }

  /** A signal that wakes `w` replaces the signaller by `w` among those coming. */
  lemma WakeKeepsInv(s: State, i: nat, w: nat)
    requires Inv(s) && Next(s, Wake(i, w)).Some?
    ensures Inv(Next(s, Wake(i, w)).value)
  {
    SpuriousKeepsInv(s, w);
    var m := Next(s, Spurious(w)).value;
    var r, t := Next(s, Wake(i, w)).value, s.threads[i];
    assert ThreadOk(m, i, m.threads[i]);
    ThreadsFrame(m, r, i);
    WaitClause(m, i, r.threads[i], r.q, t.producer);
    CountUpdate(s.threads, w, m.threads[w], !t.producer);
    CountUpdate(m.threads, i, r.threads[i], !t.producer);
    assert SomeoneWaits(s.threads, !t.producer);
  }

  lemma SpuriousKeepsInv(s: State, i: nat)
    requires Inv(s) && Next(s, Spurious(i)).Some?
    ensures Inv(Next(s, Spurious(i)).value)
  {
    var r := Next(s, Spurious(i)).value;
    assert ThreadOk(s, i, s.threads[i]);
    ThreadsFrame(s, r, i);
    WaitClause(s, i, r.threads[i], r.q, true);
    WaitClause(s, i, r.threads[i], r.q, false);
  }

  lemma NextKeepsInv(s: State, a: Action)
    requires Inv(s) && Next(s, a).Some?
    ensures Inv(Next(s, a).value)
  {
    match a
    case Spurious(i) => SpuriousKeepsInv(s, i);
    case Wake(i, w) => WakeKeepsInv(s, i, w);
    case Go(i) =>
      if s.threads[i].pc.Access? {
        if s.threads[i].producer { PutKeepsInv(s, i); } else { GetKeepsInv(s, i); }
      } else if s.threads[i].pc.Signal? {
        SignalKeepsInv(s, i);
      } else {
        PlainKeepsInv(s, i);
      }
  }

  // ----- what every run keeps

  lemma InvInductive()
    ensures Inductive(Next, Inv)
  {
    forall m, a | Inv(m) && Next(m, a).Some? ensures Inv(Next(m, a).value) {
      NextKeepsInv(m, a);
    }
  }

  lemma InitOk(threads: seq<Thread>)
    requires Starting(threads)
    ensures Inv(Init(threads))
  {
  }

  lemma InvOnRuns(threads: seq<Thread>, acts: seq<Action>)
    requires Starting(threads) && Exec(Next, Init(threads), acts).Some?
    ensures Inv(Exec(Next, Init(threads), acts).value)
  {
    InvInductive();
    InitOk(threads);
    Always(Next, Inv, Init(threads), acts);
  }

  /** Items come out in the order they went in, none lost or repeated, and at most
      BUFFER_SIZE - 1 are held; one thread at a time is inside the monitor. */
  lemma ConsumedIsPrefix(threads: seq<Thread>, acts: seq<Action>)
    requires Starting(threads) && Exec(Next, Init(threads), acts).Some?
    ensures var s := Exec(Next, Init(threads), acts).value;
            && s.consumed <= s.produced && |s.produced| - |s.consumed| <= BUFFER_SIZE - 1
            && forall i, j :: 0 <= i < j < |s.threads| ==> !(HoldsLock(s.threads[i].pc) && HoldsLock(s.threads[j].pc))
  {
    InvOnRuns(threads, acts);
    var s := Exec(Next, Init(threads), acts).value;
    forall i | 0 <= i < |s.threads| ensures ThreadOk(s, i, s.threads[i]) {
    }
  }

  /** Nobody can move, not counting spurious wakeups. */
  ghost predicate Stuck(s: State) {
    && (forall i :: 0 <= i < |s.threads| ==> Next(s, Go(i)).None?)
    && (forall i, w :: 0 <= i < |s.threads| ==> Next(s, Wake(i, w)).None?)
  }

  lemma {:induction false} NobodyComing(ts: seq<Thread>, producer: bool)
    requires forall i :: 0 <= i < |ts| ==> ts[i].pc.Waiting? || ts[i].pc.Done?
    ensures CountComing(ts, producer) == 0
  {
    if ts != [] {
      NobodyComing(ts[..|ts| - 1], producer);
    }
  }

  /** A signaller can move: past the signal, or by waking someone. */
  lemma SignalMoves(s: State, i: nat)
    requires i < |s.threads| && s.threads[i].pc.Signal?
    ensures Next(s, Go(i)).Some? || exists w: nat :: Next(s, Wake(i, w)).Some?
  {
    if SomeoneWaitsFor(s, i) {
      var w :| 0 <= w < |s.threads| && WaitsFor(s, i, w);
      assert Next(s, Wake(i, w)).Some?;
    }
  }

  lemma StuckThread(s: State, i: nat)
    requires Inv(s) && Stuck(s) && i < |s.threads|
    ensures s.threads[i].pc.Waiting? || s.threads[i].pc.Done?
  {
    assert Next(s, Go(i)).None?;
    assert ThreadOk(s, i, s.threads[i]);
    if s.owner.Some? {
      var o := s.owner.value;
      assert ThreadOk(s, o, s.threads[o]);
      assert Next(s, Go(o)).None?;
      if s.threads[o].pc.Signal? {
        SignalMoves(s, o);
      }
    }
  }

  /** When nobody can move, everyone has finished or waits; waiting consumers mean an
      empty buffer and waiting producers a full one, so the two never wait together. */
  lemma StuckShapes(s: State)
    requires Inv(s) && Stuck(s)
    ensures forall i :: 0 <= i < |s.threads| ==> s.threads[i].pc.Waiting? || s.threads[i].pc.Done?
    ensures SomeoneWaits(s.threads, false) ==> IsEmpty(s.q)
    ensures SomeoneWaits(s.threads, true) ==> IsFull(s.q)
    ensures !(SomeoneWaits(s.threads, false) && SomeoneWaits(s.threads, true))
  {
    forall i | 0 <= i < |s.threads| ensures s.threads[i].pc.Waiting? || s.threads[i].pc.Done? {
      StuckThread(s, i);
    }
    NobodyComing(s.threads, true);
    NobodyComing(s.threads, false);
  }

  lemma NeverBothAsleep(threads: seq<Thread>, acts: seq<Action>)
    requires Starting(threads) && Exec(Next, Init(threads), acts).Some?
    ensures var s := Exec(Next, Init(threads), acts).value;
            Stuck(s) ==> !(SomeoneWaits(s.threads, false) && SomeoneWaits(s.threads, true))
                         && (SomeoneWaits(s.threads, false) ==> s.consumed == s.produced)
                         && (SomeoneWaits(s.threads, true) ==> |s.produced| == |s.consumed| + BUFFER_SIZE - 1)
  {
    InvOnRuns(threads, acts);
    var s := Exec(Next, Init(threads), acts).value;
    if Stuck(s) {
      StuckShapes(s);
    }
  }

  // ----- how long a run can be

  /** The items the producer has yet to put. */
  function Remaining(t: Thread): seq<int> {
    if (t.pc.Signal? || t.pc.Unlock?) && t.todo != [] then t.todo[1..] else t.todo
  }

  /** Statements a thread can still take before it needs another item or wakeup, and the
      wakeup its signal may cause. */
  function Steps(pc: Pc): nat {
    match pc
    case Lock => 2 case Test => 1 case Waiting => 0 case Awake => 2
    case Access => 0 case Signal => 6 case Unlock => 3 case Done => 0
  }

  function Cost(t: Thread): nat { Steps(t.pc) + if t.producer then 14 * |Remaining(t)| else 0 }

  function Costs(ts: seq<Thread>): nat {
    if ts == [] then 0 else Costs(ts[..|ts| - 1]) + Cost(ts[|ts| - 1])
  }

  lemma {:induction false} CostUpdate(ts: seq<Thread>, i: nat, t: Thread)
    requires i < |ts|
    ensures Costs(ts[i := t]) == Costs(ts) - Cost(ts[i]) + Cost(t)
  {
    var n := |ts| - 1;
    if i < n {
      assert ts[i := t][..n] == ts[..n][i := t];
      CostUpdate(ts[..n], i, t);
    } else {
      assert ts[i := t][..n] == ts[..n];
    }
  }

  /** An item not yet put is worth a put and a get, one in the buffer a get. */
  function Budget(s: State): int { Costs(s.threads) + 7 * (|s.produced| - |s.consumed|) }

  lemma AccessSpends(s: State, i: nat)
    requires Inv(s) && i < |s.threads| && s.threads[i].pc.Access? && Next(s, Go(i)).Some?
    ensures Budget(Next(s, Go(i)).value) < Budget(s)
  {
    CostUpdate(s.threads, i, Next(s, Go(i)).value.threads[i]);
  }

  lemma GoSpends(s: State, i: nat)
    requires Inv(s) && Next(s, Go(i)).Some?
    ensures Budget(Next(s, Go(i)).value) < Budget(s)
  {
    if s.threads[i].pc.Access? {
      AccessSpends(s, i);
    } else {
      var r := Next(s, Go(i)).value;
      assert ThreadOk(s, i, s.threads[i]);
      CostUpdate(s.threads, i, r.threads[i]);
      assert r.threads == s.threads[i := r.threads[i]] && Cost(r.threads[i]) < Cost(s.threads[i]);
    }
  }

  lemma WakeSpends(s: State, i: nat, w: nat)
    requires Next(s, Wake(i, w)).Some?
    ensures Budget(Next(s, Wake(i, w)).value) < Budget(s)
  {
    var woken := s.threads[w].(pc := Awake);
    CostUpdate(s.threads, w, woken);
    CostUpdate(s.threads[w := woken], i, s.threads[i].(pc := Unlock));
    assert Cost(woken) == Cost(s.threads[w]) + 2 && Cost(s.threads[i].(pc := Unlock)) == Cost(s.threads[i]) - 3;
  }

  lemma SpuriousEarns(s: State, i: nat)
    requires Next(s, Spurious(i)).Some?
    ensures Budget(Next(s, Spurious(i)).value) == Budget(s) + 2
  {
    CostUpdate(s.threads, i, s.threads[i].(pc := Awake));
  }

  function SpuriousIn(acts: seq<Action>): nat {
    if acts == [] then 0 else SpuriousIn(acts[..|acts| - 1]) + if acts[|acts| - 1].Spurious? then 1 else 0
  }

  lemma StepSpends(s: State, a: Action)
    requires Inv(s) && Next(s, a).Some?
    ensures Budget(Next(s, a).value) + 1 <= Budget(s) + if a.Spurious? then 3 else 0
  {
    match a
    case Go(i) => GoSpends(s, i);
    case Wake(i, w) => WakeSpends(s, i, w);
    case Spurious(i) => SpuriousEarns(s, i);
  }

  lemma {:induction false} RunSpends(s: State, acts: seq<Action>)
    requires Inv(s) && Exec(Next, s, acts).Some?
    ensures Inv(Exec(Next, s, acts).value)
    ensures |acts| + Budget(Exec(Next, s, acts).value) <= Budget(s) + 3 * SpuriousIn(acts)
    decreases |acts|
  {
    if acts != [] {
      var before, a := acts[..|acts| - 1], acts[|acts| - 1];
      RunSpends(s, before);
      StepSpends(Exec(Next, s, before).value, a);
      NextKeepsInv(Exec(Next, s, before).value, a);
    }
  }

  /** The items all producers together have to put. */
  function Items(ts: seq<Thread>): nat {
    if ts == [] then 0
    else Items(ts[..|ts| - 1]) + if ts[|ts| - 1].producer then |ts[|ts| - 1].todo| else 0
  }

  lemma {:induction false} StartingCosts(ts: seq<Thread>)
    requires Starting(ts)
    ensures Costs(ts) <= 2 * |ts| + 14 * Items(ts)
  {
    if ts != [] {
      StartingCosts(ts[..|ts| - 1]);
    }
  }

  /** Every run is bounded by its threads, their items and the spurious wakeups in it: the
      program can only go on for as long as those do. */
  lemma {:induction false} EveryRunBounded(threads: seq<Thread>, acts: seq<Action>)
    requires Starting(threads) && Exec(Next, Init(threads), acts).Some?
    ensures |acts| <= 2 * |threads| + 14 * Items(threads) + 3 * SpuriousIn(acts)
  {
    InitOk(threads);
    RunSpends(Init(threads), acts);
    StartingCosts(threads);
  }

  // ----- the program: one producer that ends with END_FLAG, one consumer

  predicate Script(items: seq<int>) {
    items != [] && END_FLAG !in items[..|items| - 1] && items[|items| - 1] == END_FLAG
  }

  function Program(items: seq<int>): seq<Thread> { [Fresh(true, items), Fresh(false, [])] }

  predicate PairOk(items: seq<int>, s: State) {
    && |s.threads| == 2 && s.threads[0].producer && !s.threads[1].producer
    && items == s.produced + Remaining(s.threads[0])
    && (s.threads[0].pc.Done? ==> s.threads[0].todo == [])
    && var pc := s.threads[1].pc;
       if pc.Done? then END_FLAG in s.consumed
       else if pc.Signal? || pc.Unlock? then
         && s.consumed != [] && s.threads[1].item == s.consumed[|s.consumed| - 1]
         && END_FLAG !in s.consumed[..|s.consumed| - 1]
       else END_FLAG !in s.consumed
  }

  lemma ProducerKeepsPair(items: seq<int>, s: State)
    requires Inv(s) && PairOk(items, s) && Next(s, Go(0)).Some?
    ensures PairOk(items, Next(s, Go(0)).value)
  {
    assert ThreadOk(s, 0, s.threads[0]);
  }

  lemma GetKeepsPair(items: seq<int>, s: State)
    requires Inv(s) && PairOk(items, s) && s.threads[1].pc.Access? && Next(s, Go(1)).Some?
    ensures PairOk(items, Next(s, Go(1)).value)
  {
    var r := Next(s, Go(1)).value;
    assert r.consumed == s.consumed + [r.threads[1].item];
    assert r.consumed[..|r.consumed| - 1] == s.consumed;
  }

  lemma ConsumerKeepsPair(items: seq<int>, s: State)
    requires Inv(s) && PairOk(items, s) && !s.threads[1].pc.Access? && Next(s, Go(1)).Some?
    ensures PairOk(items, Next(s, Go(1)).value)
  {
  }

  lemma GoKeepsPair(items: seq<int>, s: State, i: nat)
    requires Inv(s) && PairOk(items, s) && Next(s, Go(i)).Some?
    ensures PairOk(items, Next(s, Go(i)).value)
  {
    if i == 0 {
      ProducerKeepsPair(items, s);
    } else if s.threads[1].pc.Access? {
      GetKeepsPair(items, s);
    } else {
      ConsumerKeepsPair(items, s);
    }
  }

  lemma WakeKeepsPair(items: seq<int>, s: State, a: Action)
    requires Inv(s) && PairOk(items, s) && !a.Go? && Next(s, a).Some?
    ensures PairOk(items, Next(s, a).value)
  {
  }

  /** With one producer whose items end in END_FLAG and one consumer, the only state in
      which nobody can move has both threads finished and every item consumed in order. */
  lemma ProgramEndsConsumed(items: seq<int>, acts: seq<Action>)
    requires Script(items)
    requires Exec(Next, Init(Program(items)), acts).Some?
    ensures var s := Exec(Next, Init(Program(items)), acts).value;
            && |s.threads| == 2
            && (Stuck(s) ==> s.threads[0].pc.Done? && s.threads[1].pc.Done? && s.consumed == items)
  {
    var inv := (m: State) => Inv(m) && PairOk(items, m);
    forall m, a | inv(m) && Next(m, a).Some? ensures inv(Next(m, a).value) {
      NextKeepsInv(m, a);
      if a.Go? { GoKeepsPair(items, m, a.i); } else { WakeKeepsPair(items, m, a); }
    }
    Always(Next, inv, Init(Program(items)), acts);
    var s := Exec(Next, Init(Program(items)), acts).value;
    if Stuck(s) {
      StuckPair(items, s);
    }
  }

  lemma StuckPair(items: seq<int>, s: State)
    requires Script(items) && Inv(s) && PairOk(items, s) && Stuck(s)
    ensures s.threads[0].pc.Done? && s.threads[1].pc.Done? && s.consumed == items
  {
    StuckShapes(s);
    if s.threads[1].pc.Done? {
      var k :| 0 <= k < |s.consumed| && s.consumed[k] == END_FLAG;
      assert items[k] == END_FLAG;
      assert k == |items| - 1;
      assert |s.consumed| == |items|;
      assert s.consumed == items[..|items|];
    }
  }

  /** The machine without spurious wakeups. */
  function QuietNext(s: State, a: Action): Option<State> { if a.Spurious? then None else Next(s, a) }

  ghost function Left(s: State): nat { if Budget(s) < 0 then 0 else Budget(s) }

  lemma BudgetNonNegative(s: State)
    requires Inv(s)
    ensures Budget(s) >= 0
  {
  }

  lemma QuietRanked()
    ensures Inductive(QuietNext, Inv) && Ranked(QuietNext, Inv, Left)
  {
    forall m, a | Inv(m) && QuietNext(m, a).Some?
      ensures Inv(QuietNext(m, a).value) && Left(QuietNext(m, a).value) < Left(m)
    {
      NextKeepsInv(m, a);
      StepSpends(m, a);
      BudgetNonNegative(QuietNext(m, a).value);
    }
  }

  lemma {:induction false} QuietIsRun(s: State, acts: seq<Action>)
    requires Exec(QuietNext, s, acts).Some?
    ensures Exec(Next, s, acts) == Exec(QuietNext, s, acts) && SpuriousIn(acts) == 0
    decreases |acts|
  {
    if acts != [] {
      QuietIsRun(s, acts[..|acts| - 1]);
    }
  }

  lemma StuckFrom(s: State) returns (acts: seq<Action>)
    requires Inv(s)
    ensures Exec(Next, s, acts).Some? && Stuck(Exec(Next, s, acts).value) && SpuriousIn(acts) == 0
  {
    QuietRanked();
    acts := RunToEnd(QuietNext, Inv, Left, s);
    QuietIsRun(s, acts);
    var r := Exec(Next, s, acts).value;
    forall i | 0 <= i < |r.threads| ensures Next(r, Go(i)).None? {
      assert QuietNext(r, Go(i)).None?;
    }
    forall i, w | 0 <= i < |r.threads| ensures Next(r, Wake(i, w)).None? {
      assert QuietNext(r, Wake(i, w)).None?;
    }
  }

  /** Whatever has happened so far, once no wakeup is spurious the program comes to its end. */
  lemma ProgramFinishes(items: seq<int>, before: seq<Action>) returns (rest: seq<Action>)
    requires Script(items) && Exec(Next, Init(Program(items)), before).Some?
    ensures SpuriousIn(rest) == 0 && Exec(Next, Init(Program(items)), before + rest).Some?
    ensures var s := Exec(Next, Init(Program(items)), before + rest).value;
            |s.threads| == 2 && s.threads[0].pc.Done? && s.threads[1].pc.Done? && s.consumed == items
  {
    InvOnRuns(Program(items), before);
    rest := StuckFrom(Exec(Next, Init(Program(items)), before).value);
    ExecAppend(Next, Init(Program(items)), before, rest);
    ProgramEndsConsumed(items, before + rest);
  }

  // ----- struct Products, updated in place under the mutex

  class Products {
    const buffer: array<int>
    var posReadFrom: nat
    var posWriteTo: nat

    ghost function Value(): Ring
      reads this, buffer
    {
      Ring(buffer[..], posReadFrom, posWriteTo)
    }

    ghost predicate Valid()
      reads this, buffer
    {
      RingOk(Value())
    }

    constructor ()
      ensures Valid() && fresh(buffer) && Contents(Value()) == []
    {
      buffer := new int[BUFFER_SIZE](_ => 0);
      posReadFrom, posWriteTo := 0, 0;
    }

    method BufferIsFull() returns (full: bool)
      requires Valid()
      ensures full <==> Held(Value()) == BUFFER_SIZE - 1
    {
      full := (posWriteTo + 1) % BUFFER_SIZE == posReadFrom;
    }

    method BufferIsEmpty() returns (empty: bool)
      requires Valid()
      ensures empty <==> Contents(Value()) == []
    {
      empty := posWriteTo == posReadFrom;
    }

    /** The statements of Produce after its wait loop. */
    method Store(item: int)
      requires Valid() && !IsFull(Value())
      modifies this, buffer
      ensures Valid() && Value() == Put(old(Value()), item)
      ensures Contents(Value()) == old(Contents(Value())) + [item]
    {
      ghost var was := Value();
      buffer[posWriteTo] := item;
      posWriteTo := posWriteTo + 1;
      if posWriteTo >= BUFFER_SIZE {
        posWriteTo := 0;
      }
      assert Value() == Put(was, item);
      PutAppends(was, item);
    }

    /** The statements of Consume after its wait loop. */
    method Fetch() returns (item: int)
      requires Valid() && !IsEmpty(Value())
      modifies this
      ensures Valid() && (item, Value()) == Get(old(Value()))
      ensures old(Contents(Value())) == [item] + Contents(Value())
    {
      ghost var was := Value();
      item := buffer[posReadFrom];
      posReadFrom := posReadFrom + 1;
      if posReadFrom >= BUFFER_SIZE {
        posReadFrom := 0;
      }
      GetTakesOldest(was);
    }
  }
}
