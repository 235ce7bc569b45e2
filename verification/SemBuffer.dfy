/**
 The three-semaphore buffer of sem.cpp: one producer and one consumer, each a
 counting loop over `nitems`, sharing NBUFF cells. One step per statement.
 */
module SemBuffer {
  import opened Runs

  const NBUFF: nat := 100

  datatype Role = Producer | Consumer

  /** Waiting on nempty (producer) or nstored (consumer); waiting on the mutex; at the
      buffer; posting the mutex; posting nstored or nempty; returned. */
  datatype Pc = WaitSlot | WaitMutex | Access | PostMutex | PostSlot | Returned

  datatype Worker = Worker(pc: Pc, i: nat)

  /** `seen` lists the values the consumer printed, `mismatches` how often its check failed. */
  datatype State = State(producer: Worker, consumer: Worker, mutex: nat, nempty: nat, nstored: nat,
                         buff: seq<int>, seen: seq<int>, mismatches: nat)

  function Enter(nitems: int, i: nat): Worker { Worker(if i < nitems then WaitSlot else Returned, i) }

  function Init(nitems: int): State {
    State(Enter(nitems, 0), Enter(nitems, 0), 1, NBUFF, 0, seq(NBUFF, _ => 0), [], 0)
  }

  function StepProducer(nitems: int, s: State): Option<State> {
    var w := s.producer;
    match w.pc
    case WaitSlot => if s.nempty == 0 then None else Some(s.(producer := w.(pc := WaitMutex), nempty := s.nempty - 1))
    case WaitMutex => if s.mutex == 0 then None else Some(s.(producer := w.(pc := Access), mutex := s.mutex - 1))
    case Access =>
      if |s.buff| != NBUFF then None
      else Some(s.(producer := w.(pc := PostMutex), buff := s.buff[w.i % NBUFF := w.i]))
    case PostMutex => Some(s.(producer := w.(pc := PostSlot), mutex := s.mutex + 1))
    case PostSlot => Some(s.(producer := Enter(nitems, w.i + 1), nstored := s.nstored + 1))
    case Returned => None
  }

  function StepConsumer(nitems: int, s: State): Option<State> {
    var w := s.consumer;
    match w.pc
    case WaitSlot => if s.nstored == 0 then None else Some(s.(consumer := w.(pc := WaitMutex), nstored := s.nstored - 1))
    case WaitMutex => if s.mutex == 0 then None else Some(s.(consumer := w.(pc := Access), mutex := s.mutex - 1))
    case Access =>
      if |s.buff| != NBUFF then None
      else
        var v := s.buff[w.i % NBUFF];
        Some(s.(consumer := w.(pc := PostMutex), seen := s.seen + [v],
                mismatches := if v != w.i then s.mismatches + 1 else s.mismatches))
    case PostMutex => Some(s.(consumer := w.(pc := PostSlot), mutex := s.mutex + 1))
    case PostSlot => Some(s.(consumer := Enter(nitems, w.i + 1), nempty := s.nempty + 1))
    case Returned => None
  }

  function Next(nitems: int): (State, Role) -> Option<State> {
    (s: State, r: Role) => if r.Producer? then StepProducer(nitems, s) else StepConsumer(nitems, s)
  }

  // ----- the invariant

  function Bit(b: bool): nat { if b then 1 else 0 }

  /** Holds a slot permit it has taken and not passed on. */
  function Permit(w: Worker): nat { Bit(!w.pc.WaitSlot? && !w.pc.Returned?) }

  /** Between sem_wait(&mutex) and sem_post(&mutex). */
  function InSection(w: Worker): nat { Bit(w.pc.Access? || w.pc.PostMutex?) }

  /** Items this worker has stored or fetched. */
  function Handled(w: Worker): nat { w.i + Bit(w.pc.PostMutex? || w.pc.PostSlot?) }

  ghost predicate WorkerOk(nitems: int, w: Worker) {
    if w.pc.Returned? then w.i == (if nitems > 0 then nitems else 0) else w.i < nitems
  }

  ghost predicate Inv(nitems: int, s: State) {
    && WorkerOk(nitems, s.producer) && WorkerOk(nitems, s.consumer)
    && s.mutex + InSection(s.producer) + InSection(s.consumer) == 1
    && s.producer.i + Permit(s.producer) + s.nempty == NBUFF + s.consumer.i
    && s.consumer.i + Permit(s.consumer) + s.nstored == s.producer.i
    && |s.buff| == NBUFF
    && (forall k :: s.consumer.i <= k < Handled(s.producer) ==> s.buff[k % NBUFF] == k)
    && |s.seen| == Handled(s.consumer) && (forall k :: 0 <= k < |s.seen| ==> s.seen[k] == k)
    && s.mismatches == 0
  }

  /** Cells of items less than NBUFF apart are different cells. */
  lemma DistinctCells(j: nat, k: nat)
    requires j < k < j + NBUFF
    ensures j % NBUFF != k % NBUFF
  {
  }

  function Position(pc: Pc): nat {
    match pc
    case WaitSlot => 0 case WaitMutex => 1 case Access => 2 case PostMutex => 3 case PostSlot => 4 case Returned => 0
  }

  /** Statements the two workers have executed: five for each item handled in full. */
  function Steps(s: State): nat {
    5 * s.producer.i + Position(s.producer.pc) + 5 * s.consumer.i + Position(s.consumer.pc)
  }

  lemma ProducerKeepsInv(nitems: int, s: State)
    requires Inv(nitems, s) && StepProducer(nitems, s).Some?
    ensures Inv(nitems, StepProducer(nitems, s).value)
    ensures Steps(StepProducer(nitems, s).value) == Steps(s) + 1
  {
    var r, i := StepProducer(nitems, s).value, s.producer.i;
    if s.producer.pc.Access? {
      forall k | s.consumer.i <= k < i + 1 ensures r.buff[k % NBUFF] == k {
        if k < i {
          DistinctCells(k, i);
        }
      }
    }
  }

  /** The consumer's access sees the item it expects. */
  lemma FetchKeepsInv(nitems: int, s: State)
    requires Inv(nitems, s) && s.consumer.pc.Access?
    ensures StepConsumer(nitems, s).Some? && Inv(nitems, StepConsumer(nitems, s).value)
    ensures Steps(StepConsumer(nitems, s).value) == Steps(s) + 1
  {
    assert s.buff[s.consumer.i % NBUFF] == s.consumer.i;
  }

  lemma ConsumerKeepsInv(nitems: int, s: State)
    requires Inv(nitems, s) && StepConsumer(nitems, s).Some?
    ensures Inv(nitems, StepConsumer(nitems, s).value)
    ensures Steps(StepConsumer(nitems, s).value) == Steps(s) + 1
  {
    if s.consumer.pc.Access? {
      FetchKeepsInv(nitems, s);
    } else {
      var r := StepConsumer(nitems, s).value;
      assert r.producer == s.producer && r.buff == s.buff && r.seen == s.seen && s.consumer.i <= r.consumer.i;
    }
  }

  lemma NextKeepsInv(nitems: int, s: State, r: Role)
    requires Inv(nitems, s) && Next(nitems)(s, r).Some?
    ensures Inv(nitems, Next(nitems)(s, r).value) && Steps(Next(nitems)(s, r).value) == Steps(s) + 1
  {
    if r.Producer? { ProducerKeepsInv(nitems, s); } else { ConsumerKeepsInv(nitems, s); }
  }

  // ----- every run

  function Total(nitems: int): nat { if nitems > 0 then 10 * nitems else 0 }

  lemma {:induction false} InvOnRuns(nitems: int, s: State, acts: seq<Role>)
    requires Inv(nitems, s) && Exec(Next(nitems), s, acts).Some?
    ensures var r := Exec(Next(nitems), s, acts).value; Inv(nitems, r) && Steps(r) == Steps(s) + |acts|
    decreases |acts|
  {
    if acts != [] {
      var before := acts[..|acts| - 1];
      InvOnRuns(nitems, s, before);
      NextKeepsInv(nitems, Exec(Next(nitems), s, before).value, acts[|acts| - 1]);
    }
  }

  /** Some worker can move until both have returned. */
  lemma NotStuck(nitems: int, s: State)
    requires Inv(nitems, s) && !(s.producer.pc.Returned? && s.consumer.pc.Returned?)
    ensures Next(nitems)(s, Producer).Some? || Next(nitems)(s, Consumer).Some?
  {
    assert StepProducer(nitems, s).Some? || StepConsumer(nitems, s).Some?;
  }

  lemma InitOk(nitems: int)
    ensures Inv(nitems, Init(nitems)) && Steps(Init(nitems)) == 0
  {
  }

  /** In every interleaving the consumer's check never fails and it sees 0, 1, 2, ...;
      the permits in the semaphores and in flight total NBUFF; and at most one worker
      is in its critical section. */
  lemma EveryRunSafe(nitems: int, acts: seq<Role>)
    requires Exec(Next(nitems), Init(nitems), acts).Some?
    ensures var s := Exec(Next(nitems), Init(nitems), acts).value;
            && s.mismatches == 0
            && (forall k :: 0 <= k < |s.seen| ==> s.seen[k] == k)
            && s.nempty + s.nstored + Permit(s.producer) + Permit(s.consumer) == NBUFF
            && InSection(s.producer) + InSection(s.consumer) <= 1
            && (s.consumer.pc.Access? ==> |s.buff| == NBUFF && s.buff[s.consumer.i % NBUFF] == s.consumer.i)
  {
    InitOk(nitems);
    InvOnRuns(nitems, Init(nitems), acts);
  }

  /** Every interleaving takes exactly ten statements an item: no run is longer, a shorter
      one can go on, and one of that length has both workers returned and all items seen. */
  lemma EveryRunCompletes(nitems: int, acts: seq<Role>)
    requires Exec(Next(nitems), Init(nitems), acts).Some?
    ensures |acts| <= Total(nitems)
    ensures var s := Exec(Next(nitems), Init(nitems), acts).value;
            if |acts| < Total(nitems) then Next(nitems)(s, Producer).Some? || Next(nitems)(s, Consumer).Some?
            else s.producer.pc.Returned? && s.consumer.pc.Returned? && 10 * |s.seen| == Total(nitems)
  {
    InitOk(nitems);
    InvOnRuns(nitems, Init(nitems), acts);
    var s := Exec(Next(nitems), Init(nitems), acts).value;
    if !(s.producer.pc.Returned? && s.consumer.pc.Returned?) {
      NotStuck(nitems, s);
    }
  }
}
