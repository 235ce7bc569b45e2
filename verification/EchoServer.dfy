/**
 The epoll echo server of echoserver.cpp: a table of connection slots, the
 callbacks that switch a slot between receiving and sending, the rotating
 timeout sweep and the dispatch of a batch of events. The kernel is its open
 descriptors, each with the connection behind it, and its interest set.
 Registering a descriptor that is not registered yet succeeds.
 */
module EchoServer {
  import opened Runs

  const MAX_EVENTS: nat := 500
  const BUFF: nat := 128

  datatype Callback = NoCallback | AcceptConn | RecvData | SendData

  /** struct myevent_s; `arg` is the index of the slot passed to the callback and
      `data` the filled part of the buffer. */
  datatype Slot = Slot(fd: int, callback: Callback, pollIn: bool, pollOut: bool, arg: nat,
                       active: bool, data: seq<int>, lastActive: int)

  /** What epoll holds for a descriptor: the slot to report and the events asked for. */
  datatype Watch = Watch(slot: nat, pollIn: bool, pollOut: bool)

  /** `peer` maps each open descriptor to the connection behind it; `nextConn` is the next
      connection number. */
  datatype Server = Server(slots: seq<Slot>, interest: map<int, Watch>, peer: map<int, nat>,
                           nextConn: nat, checkPos: nat)

  /** Answers of accept, fcntl, recv, send and time to one callback. */
  datatype Answer = Answer(accepted: Option<int>, fcntlOk: bool, received: seq<int>, sent: int, now: int)

  predicate Sized(s: Server) { |s.slots| == MAX_EVENTS + 1 }

  /** Handlers keep the size of the table and leave the sweep's cursor alone. */
  predicate SameShape(s: Server, r: Server) { |r.slots| == |s.slots| && r.checkPos == s.checkPos }

  function EventSet(s: Server, i: nat, fd: int, callback: Callback, now: int): (r: Server)
    requires i < |s.slots|
    ensures SameShape(s, r)
  {
    s.(slots := s.slots[i := Slot(fd, callback, false, false, i, false, s.slots[i].data, now)])
  }

  function EventAdd(s: Server, i: nat, pollIn: bool, pollOut: bool): (r: Server)
    requires i < |s.slots|
    ensures SameShape(s, r)
  {
    var ev := s.slots[i];
    var added := if ev.active == (ev.fd in s.interest)
                 then s.interest[ev.fd := Watch(i, pollIn, pollOut)] else s.interest;
    s.(slots := s.slots[i := ev.(pollIn := pollIn, pollOut := pollOut, active := true)], interest := added)
  }

  function EventDel(s: Server, i: nat): (r: Server)
    requires i < |s.slots|
    ensures SameShape(s, r)
  {
    var ev := s.slots[i];
    if !ev.active then s
    else s.(slots := s.slots[i := ev.(active := false)], interest := s.interest - {ev.fd})
  }

  /** close(fd) also takes the descriptor out of the interest set. */
  function Close(s: Server, fd: int): (r: Server)
    ensures SameShape(s, r)
  {
    s.(peer := s.peer - {fd}, interest := s.interest - {fd})
  }

  /** The first connection slot from `i` on that is not in use, or MAX_EVENTS. */
  function FirstFree(slots: seq<Slot>, i: nat): (r: nat)
    requires i <= MAX_EVENTS <= |slots|
    ensures i <= r <= MAX_EVENTS
    ensures forall j :: i <= j < r ==> slots[j].active
    ensures r < MAX_EVENTS ==> !slots[r].active
    decreases MAX_EVENTS - i
  {
    if i == MAX_EVENTS || !slots[i].active then i else FirstFree(slots, i + 1)
  }

  /** An accepted descriptor is one that was not open. */
  function Accept(s: Server, a: Answer): (r: Server)
    requires Sized(s)
    ensures SameShape(s, r)
  {
    if a.accepted.None? || a.accepted.value in s.peer then s
    else
      var nfd := a.accepted.value;
      var o := s.(peer := s.peer[nfd := s.nextConn], nextConn := s.nextConn + 1);
      var i := FirstFree(o.slots, 0);
      if i == MAX_EVENTS || !a.fcntlOk then o
      else EventAdd(EventSet(o, i, nfd, RecvData, a.now), i, true, false)
  }

  function Receive(s: Server, fd: int, i: nat, a: Answer): (r: Server)
    requires i < |s.slots|
    ensures SameShape(s, r)
  {
    var d := EventDel(s, i);
    var n := Clipped(a.received);
    if n == [] then Close(d, d.slots[i].fd)
    else
      var b := d.(slots := d.slots[i := d.slots[i].(data := n)]);
      EventAdd(EventSet(b, i, fd, SendData, a.now), i, false, true)
  }

  function Send(s: Server, fd: int, i: nat, a: Answer): (r: Server)
    requires i < |s.slots|
    ensures SameShape(s, r)
  {
    var b := s.(slots := s.slots[i := s.slots[i].(data := [])]);
    var d := EventDel(b, i);
    if a.sent <= 0 then Close(d, d.slots[i].fd)
    else EventAdd(EventSet(d, i, fd, RecvData, a.now), i, true, false)
  }

  function CallBack(s: Server, ev: Slot, a: Answer): (r: Server)
    requires Sized(s)
    ensures SameShape(s, r)
  {
    if ev.arg >= |s.slots| then s
    else
      match ev.callback
      case NoCallback => s
      case AcceptConn => Accept(s, a)
      case RecvData => Receive(s, ev.fd, ev.arg, a)
      case SendData => Send(s, ev.fd, ev.arg, a)
  }

  // ----- one turn of the main loop

  function Wrap(pos: nat): nat { if pos == MAX_EVENTS then 0 else pos }

  /** The body of the timeout loop. */
  function SweepOne(s: Server, now: int): (r: Server)
    requires Sized(s) && s.checkPos <= MAX_EVENTS
    ensures Sized(r) && r.checkPos == Wrap(s.checkPos) + 1
  {
    var p := Wrap(s.checkPos);
    var ev := s.slots[p];
    var t := if ev.active && now - ev.lastActive >= 60 then EventDel(Close(s, ev.fd), p) else s;
    t.(checkPos := p + 1)
  }

  function Sweep(s: Server, now: int, n: nat): (r: Server)
    requires Sized(s) && s.checkPos <= MAX_EVENTS
    ensures Sized(r) && r.checkPos <= MAX_EVENTS
  {
    if n == 0 then s else SweepOne(Sweep(s, now, n - 1), now)
  }

  /** An event of a batch: the slot, what is ready, and the connection it is reported for. */
  datatype Event = Event(slot: nat, pollIn: bool, pollOut: bool, conn: nat)

  /** epoll_wait reports a watched descriptor at most once, and only events asked for. */
  ghost predicate Reported(s: Server, e: Event) {
    && e.slot < |s.slots|
    && exists fd :: fd in s.interest && fd in s.peer && s.interest[fd].slot == e.slot && s.peer[fd] == e.conn
         && (e.pollIn ==> s.interest[fd].pollIn) && (e.pollOut ==> s.interest[fd].pollOut)
  }

  ghost predicate ValidBatch(s: Server, batch: seq<Event>) {
    && (forall k :: 0 <= k < |batch| ==> Reported(s, batch[k]))
    && forall j, k :: 0 <= j < k < |batch| ==> batch[j].slot != batch[k].slot
  }

  /** The two tests of the dispatch loop; the second one looks at the slot again. */
  function Handle(s: Server, e: Event, a: Answer, b: Answer): (r: Server)
    requires Sized(s)
    ensures SameShape(s, r)
  {
    if e.slot >= |s.slots| then s
    else
      var ev := s.slots[e.slot];
      var t := if e.pollIn && ev.pollIn then CallBack(s, ev, a) else s;
      var ev2 := t.slots[e.slot];
      if e.pollOut && ev2.pollOut then CallBack(t, ev2, b) else t
  }

  // ----- the invariant

  predicate Watching(c: Callback, pollIn: bool, pollOut: bool) {
    && (pollIn <==> c.RecvData? || c.AcceptConn?)
    && (pollOut <==> c.SendData?)
  }

  /** An active slot: its descriptor is open and registered under it, for the events its callback handles. */
  predicate SlotOk(s: Server, i: nat, ev: Slot) {
    ev.active ==>
      && ev.fd in s.peer && ev.fd in s.interest
      && s.interest[ev.fd] == Watch(i, ev.pollIn, ev.pollOut)
      && Watching(ev.callback, ev.pollIn, ev.pollOut)
      && ev.arg == i
      && (ev.callback.AcceptConn? <==> i == MAX_EVENTS) && !ev.callback.NoCallback?
      && (ev.callback.SendData? ==> 0 < |ev.data| < BUFF)
  }

  /** A registered descriptor is open and is that of an active slot. */
  predicate WatchOk(s: Server, fd: int)
    requires fd in s.interest
  {
    var i := s.interest[fd].slot;
    fd in s.peer && i < |s.slots| && s.slots[i].active && s.slots[i].fd == fd
  }

  ghost predicate Inv(s: Server) {
    && Sized(s) && s.checkPos <= MAX_EVENTS
    && s.slots[MAX_EVENTS].active
    && (forall i :: 0 <= i < |s.slots| ==> SlotOk(s, i, s.slots[i]))
    && (forall fd :: fd in s.interest ==> WatchOk(s, fd))
    && (forall fd :: fd in s.peer ==> s.peer[fd] < s.nextConn)
    && (forall fd, gd :: fd in s.peer && gd in s.peer && s.peer[fd] == s.peer[gd] ==> fd == gd)
  }

  lemma AcceptKeepsInv(s: Server, a: Answer)
    requires Inv(s)
    ensures Inv(Accept(s, a))
  {
  }

  lemma ReceiveKeepsInv(s: Server, i: nat, a: Answer)
    requires Inv(s) && i < MAX_EVENTS && s.slots[i].active && s.slots[i].callback.RecvData?
    ensures Inv(Receive(s, s.slots[i].fd, i, a))
  {
  }

  lemma SendKeepsInv(s: Server, i: nat, a: Answer)
    requires Inv(s) && i < MAX_EVENTS && s.slots[i].active && s.slots[i].callback.SendData?
    ensures Inv(Send(s, s.slots[i].fd, i, a))
  {
  }

  lemma SweepOneKeepsInv(s: Server, now: int)
    requires Inv(s)
    ensures Inv(SweepOne(s, now))
  {
  }

  // ----- what the handlers leave behind

  /** Slot `i` serves connection `conn` on descriptor `fd`, registered for the events of its callback. */
  ghost predicate Serves(s: Server, i: nat, fd: int, conn: nat, callback: Callback, now: int) {
    && i < |s.slots| && s.slots[i].active && s.slots[i].fd == fd && s.slots[i].callback == callback
    && s.slots[i].lastActive == now
    && fd in s.peer && s.peer[fd] == conn
    && fd in s.interest && s.interest[fd].slot == i
    && Watching(callback, s.interest[fd].pollIn, s.interest[fd].pollOut)
  }

  /** The connection has been closed. */
  ghost predicate Closed(s: Server, conn: nat) {
    conn < s.nextConn && forall fd :: fd in s.peer ==> s.peer[fd] != conn
  }

  /** Slot `i` is free, and no other slot, descriptor or registration has changed. */
  ghost predicate Freed(s: Server, r: Server, i: nat, fd: int)
    requires i < |s.slots|
  {
    && |r.slots| == |s.slots| && !r.slots[i].active
    && (forall j :: 0 <= j < |s.slots| && j != i ==> r.slots[j] == s.slots[j])
    && r.peer == s.peer - {fd} && r.interest == s.interest - {fd}
  }

  /** A descriptor that is open and not registered can be added under a slot set up for it. */
  ghost predicate Addable(s: Server, i: nat, pollIn: bool, pollOut: bool) {
    && i < |s.slots| && !s.slots[i].active && s.slots[i].arg == i
    && s.slots[i].fd in s.peer && s.slots[i].fd !in s.interest
    && Watching(s.slots[i].callback, pollIn, pollOut)
    && (s.slots[i].callback.AcceptConn? <==> i == MAX_EVENTS) && !s.slots[i].callback.NoCallback?
    && (s.slots[i].callback.SendData? ==> 0 < |s.slots[i].data| < BUFF)
  }

  lemma SetKeepsInv(s: Server, i: nat, fd: int, callback: Callback, now: int)
    requires Inv(s) && i < |s.slots| && !s.slots[i].active
    ensures Inv(EventSet(s, i, fd, callback, now))
  {
  }

  lemma AddKeepsInv(s: Server, i: nat, pollIn: bool, pollOut: bool)
    requires Inv(s) && Addable(s, i, pollIn, pollOut)
    ensures Inv(EventAdd(s, i, pollIn, pollOut))
  {
  }

  lemma DelKeepsInv(s: Server, i: nat)
    requires Inv(s) && i < MAX_EVENTS
    ensures Inv(EventDel(s, i))
  {
  }

  /** Removing a slot just added gives back the interest set. */
  lemma DelUndoesAdd(s: Server, i: nat, pollIn: bool, pollOut: bool)
    requires Addable(s, i, pollIn, pollOut)
    ensures EventDel(EventAdd(s, i, pollIn, pollOut), i).interest == s.interest
    ensures !EventDel(EventAdd(s, i, pollIn, pollOut), i).slots[i].active
  {
  }

  /** Accepting a descriptor that was not open makes a new connection; it gets the first
      free slot, if there is one and the descriptor can be made non-blocking. */
  lemma AcceptMeans(s: Server, a: Answer)
    requires Inv(s)
    ensures var r, i := Accept(s, a), FirstFree(s.slots, 0);
            && Inv(r) && OthersKept(s, r, MAX_EVENTS + 1)
            && (a.accepted.None? || a.accepted.value in s.peer ==> r == s)
            && (a.accepted.Some? && a.accepted.value !in s.peer ==>
                 && r.peer == s.peer[a.accepted.value := s.nextConn]
                 && (if i < MAX_EVENTS && a.fcntlOk then Serves(r, i, a.accepted.value, s.nextConn, RecvData, a.now)
                     else r.slots == s.slots && r.interest == s.interest))
  {
    AcceptKeepsInv(s, a);
  }

  function Clipped(data: seq<int>): seq<int> { if |data| < BUFF then data else data[..BUFF - 1] }

  /** Receiving bytes turns the slot to sending them back on the same connection; receiving
      none closes the connection and frees the slot. */
  lemma ReceiveMeans(s: Server, i: nat, a: Answer)
    requires Inv(s) && i < MAX_EVENTS && s.slots[i].active && s.slots[i].callback.RecvData?
    ensures s.slots[i].fd in s.peer
    ensures var fd := s.slots[i].fd; var r := Receive(s, fd, i, a);
            && Inv(r) && OthersKept(s, r, i)
            && (if a.received == [] then Closed(r, s.peer[fd]) && Freed(s, r, i, fd)
                else Serves(r, i, fd, s.peer[fd], SendData, a.now) && r.slots[i].data == Clipped(a.received))
  {
    assert SlotOk(s, i, s.slots[i]);
    ReceiveKeepsInv(s, i, a);
    ReceiveKeepsOthers(s, i, a);
  }

  /** Sending turns the slot back to receiving, its buffer empty; a failure closes the connection. */
  lemma SendMeans(s: Server, i: nat, a: Answer)
    requires Inv(s) && i < MAX_EVENTS && s.slots[i].active && s.slots[i].callback.SendData?
    ensures s.slots[i].fd in s.peer
    ensures var fd := s.slots[i].fd; var r := Send(s, fd, i, a);
            && Inv(r) && OthersKept(s, r, i)
            && (if a.sent <= 0 then Closed(r, s.peer[fd]) && Freed(s, r, i, fd)
                else Serves(r, i, fd, s.peer[fd], RecvData, a.now) && r.slots[i].data == [])
  {
    assert SlotOk(s, i, s.slots[i]);
    SendKeepsInv(s, i, a);
    SendKeepsOthers(s, i, a);
  }

  // ----- dispatch

  /** The event's slot still holds the connection the event was reported for. */
  ghost predicate Pending(s: Server, e: Event) {
    && e.slot < |s.slots| && s.slots[e.slot].active
    && s.slots[e.slot].fd in s.peer && s.peer[s.slots[e.slot].fd] == e.conn
    && (e.pollIn ==> s.slots[e.slot].pollIn) && (e.pollOut ==> s.slots[e.slot].pollOut)
  }

  lemma ReportedIsPending(s: Server, e: Event)
    requires Inv(s) && Reported(s, e)
    ensures Pending(s, e)
  {
  }

  /** An active slot other than `i` keeps its contents and its connection. */
  ghost predicate OthersKept(s: Server, r: Server, i: nat) {
    forall j :: 0 <= j < |s.slots| == |r.slots| && j != i && s.slots[j].active && s.slots[j].fd in s.peer ==>
      r.slots[j] == s.slots[j] && r.slots[j].fd in r.peer && r.peer[r.slots[j].fd] == s.peer[s.slots[j].fd]
  }

  lemma CallBackOk(s: Server, i: nat, a: Answer)
    requires Inv(s) && i < |s.slots| && s.slots[i].active
    ensures var r := CallBack(s, s.slots[i], a); Inv(r) && OthersKept(s, r, i)
  {
    assert SlotOk(s, i, s.slots[i]);
    match s.slots[i].callback
    case AcceptConn => AcceptKeepsInv(s, a);
    case RecvData => ReceiveKeepsInv(s, i, a); ReceiveKeepsOthers(s, i, a);
    case SendData => SendKeepsInv(s, i, a); SendKeepsOthers(s, i, a);
  }

  lemma ReceiveKeepsOthers(s: Server, i: nat, a: Answer)
    requires Inv(s) && i < MAX_EVENTS && s.slots[i].active
    ensures OthersKept(s, Receive(s, s.slots[i].fd, i, a), i)
  {
  }

  lemma SendKeepsOthers(s: Server, i: nat, a: Answer)
    requires Inv(s) && i < MAX_EVENTS && s.slots[i].active
    ensures OthersKept(s, Send(s, s.slots[i].fd, i, a), i)
  {
  }

  /** Active slots hold pairwise distinct descriptors. */
  lemma DistinctDescriptors(s: Server)
    requires Inv(s)
    ensures forall i, j :: 0 <= i < j < |s.slots| && s.slots[i].active && s.slots[j].active ==>
              s.slots[i].fd != s.slots[j].fd
  {
  }

  /** Input on a connection: the bytes received, 127 at most, wait to be sent back on it; if
      there are none it is closed and its slot free. */
  ghost predicate InputDone(s: Server, r: Server, i: nat, conn: nat, a: Answer)
    requires i < |s.slots|
  {
    if a.received == [] then Closed(r, conn) && Freed(s, r, i, s.slots[i].fd)
    else
      && Serves(r, i, s.slots[i].fd, conn, SendData, a.now)
      && r.slots[i].data == if |a.received| < 128 then a.received else a.received[..127]
  }

  /** Room for output: what waited was given to send and the slot is back to receiving; if
      nothing could be sent the connection is closed and the slot free. */
  ghost predicate OutputDone(s: Server, r: Server, i: nat, conn: nat, a: Answer)
    requires i < |s.slots|
  {
    if a.sent <= 0 then Closed(r, conn) && Freed(s, r, i, s.slots[i].fd)
    else Serves(r, i, s.slots[i].fd, conn, RecvData, a.now) && r.slots[i].data == []
  }

  /** Input on the listener: a descriptor that was not open is a new connection, served by
      the first unused slot if there is one and the descriptor can be made non-blocking. */
  ghost predicate AcceptDone(s: Server, r: Server, a: Answer)
    requires Sized(s)
  {
    if a.accepted.None? || a.accepted.value in s.peer then r == s
    else
      && r.peer == s.peer[a.accepted.value := s.nextConn] && r.nextConn == s.nextConn + 1
      && var i := FirstFree(s.slots, 0);
         if i < MAX_EVENTS && a.fcntlOk then Serves(r, i, a.accepted.value, s.nextConn, RecvData, a.now)
         else r.slots == s.slots && r.interest == s.interest
  }

  /** What handling event `e` has done, by the callback of its slot. */
  ghost predicate Answered(s: Server, r: Server, e: Event, a: Answer, b: Answer)
    requires Sized(s) && e.slot < |s.slots|
  {
    var callback := s.slots[e.slot].callback;
    && (e.pollIn && callback.RecvData? ==> InputDone(s, r, e.slot, e.conn, a))
    && (e.pollOut && callback.SendData? ==> OutputDone(s, r, e.slot, e.conn, b))
    && (e.pollIn && callback.AcceptConn? ==> AcceptDone(s, r, a))
    && (!e.pollIn && !e.pollOut ==> r == s)
  }

  lemma AcceptIsDone(s: Server, a: Answer)
    requires Inv(s)
    ensures AcceptDone(s, Accept(s, a), a)
  {
    AcceptMeans(s, a);
  }

  lemma HandleAnswers(s: Server, e: Event, a: Answer, b: Answer)
    requires Inv(s) && Pending(s, e)
    ensures Answered(s, Handle(s, e, a, b), e, a, b)
  {
    assert SlotOk(s, e.slot, s.slots[e.slot]);
    match s.slots[e.slot].callback
    case RecvData => ReceiveMeans(s, e.slot, a);
    case SendData => SendMeans(s, e.slot, b);
    case AcceptConn => AcceptIsDone(s, a);
    case NoCallback =>
  }

  /** Handling a pending event makes at most one callback, on the slot of the event. */
  lemma HandleOk(s: Server, e: Event, a: Answer, b: Answer)
    requires Inv(s) && Pending(s, e)
    ensures var r := Handle(s, e, a, b);
            && Inv(r) && OthersKept(s, r, e.slot)
            && Answered(s, r, e, a, b)
            && r == (if e.pollIn then CallBack(s, s.slots[e.slot], a)
                     else if e.pollOut then CallBack(s, s.slots[e.slot], b)
                     else s)
  {
    assert SlotOk(s, e.slot, s.slots[e.slot]);
    HandleAnswers(s, e, a, b);
    CallBackOk(s, e.slot, a);
    CallBackOk(s, e.slot, b);
  }

  function HandleFirst(s: Server, batch: seq<Event>, answers: seq<(Answer, Answer)>, k: nat): (r: Server)
    requires Sized(s) && k <= |batch| <= |answers|
    ensures SameShape(s, r)
  {
    if k == 0 then s
    else Handle(HandleFirst(s, batch, answers, k - 1), batch[k - 1], answers[k - 1].0, answers[k - 1].1)
  }

  /** Every event of a batch reaches the connection it was reported for: it is still
      pending when its turn comes, whatever the events before it did. */
  lemma {:induction false} BatchReaches(s: Server, batch: seq<Event>, answers: seq<(Answer, Answer)>, k: nat)
    requires Inv(s) && ValidBatch(s, batch) && k <= |batch| <= |answers|
    ensures Inv(HandleFirst(s, batch, answers, k))
    ensures forall j :: k <= j < |batch| ==> Pending(HandleFirst(s, batch, answers, k), batch[j])
    decreases k
  {
    if k == 0 {
      forall j | 0 <= j < |batch| ensures Pending(s, batch[j]) {
        ReportedIsPending(s, batch[j]);
      }
    } else {
      BatchReaches(s, batch, answers, k - 1);
      var t := HandleFirst(s, batch, answers, k - 1);
      HandleOk(t, batch[k - 1], answers[k - 1].0, answers[k - 1].1);
      forall j | k <= j < |batch| ensures Pending(HandleFirst(s, batch, answers, k), batch[j]) {
        assert Pending(t, batch[j]) && batch[k - 1].slot != batch[j].slot;
      }
    }
  }

  // ----- runs of the main loop

  function Init(listenFd: int, now: int): (s: Server) {
    var blank := Slot(0, NoCallback, false, false, 0, false, [], 0);
    var listener := Slot(listenFd, AcceptConn, true, false, MAX_EVENTS, true, [], now);
    Server(seq(MAX_EVENTS, _ => blank) + [listener], map[listenFd := Watch(MAX_EVENTS, true, false)],
           map[listenFd := 0], 1, 0)
  }

  /** One turn of the main loop: the clock at its start, the batch and the answers to its callbacks. */
  datatype Turn = Turn(now: int, batch: seq<Event>, answers: seq<(Answer, Answer)>)

  ghost function Next(s: Server, t: Turn): Option<Server> {
    if !Sized(s) || s.checkPos > MAX_EVENTS || |t.answers| != |t.batch| || !ValidBatch(Sweep(s, t.now, 100), t.batch)
    then None
    else Some(HandleFirst(Sweep(s, t.now, 100), t.batch, t.answers, |t.batch|))
  }

  lemma {:induction false} SweepKeepsInv(s: Server, now: int, n: nat)
    requires Inv(s)
    ensures Inv(Sweep(s, now, n))
    decreases n
  {
    if n > 0 {
      SweepKeepsInv(s, now, n - 1);
      SweepOneKeepsInv(Sweep(s, now, n - 1), now);
    }
  }

  lemma NextKeepsInv(s: Server, t: Turn)
    requires Inv(s) && Next(s, t).Some?
    ensures Inv(Next(s, t).value)
  {
    SweepKeepsInv(s, t.now, 100);
    BatchReaches(Sweep(s, t.now, 100), t.batch, t.answers, |t.batch|);
  }

  lemma InvOnRuns(s: Server, turns: seq<Turn>)
    requires Inv(s) && Exec(Next, s, turns).Some?
    ensures Inv(Exec(Next, s, turns).value)
  {
    forall m, t | Inv(m) && Next(m, t).Some? ensures Inv(Next(m, t).value) {
      NextKeepsInv(m, t);
    }
    Always(Next, Inv, s, turns);
  }

  /** The slot table in every run: active slots hold pairwise distinct open descriptors;
      they are exactly the ones in the interest set; and each is watched for input when
      its callback is RecvData or AcceptConn and for output when it is SendData. */
  lemma TableInvariant(listenFd: int, now: int, turns: seq<Turn>)
    requires Exec(Next, Init(listenFd, now), turns).Some?
    ensures var s := Exec(Next, Init(listenFd, now), turns).value;
            && Sized(s) && s.slots[MAX_EVENTS].active
            && (forall i, j :: 0 <= i < j < |s.slots| && s.slots[i].active && s.slots[j].active ==>
                 s.slots[i].fd != s.slots[j].fd)
            && (forall fd :: fd in s.interest <==> exists i :: 0 <= i < |s.slots| && s.slots[i].active && s.slots[i].fd == fd)
            && (forall i :: 0 <= i < |s.slots| && s.slots[i].active ==>
                 && s.slots[i].fd in s.peer && s.slots[i].fd in s.interest
                 && s.interest[s.slots[i].fd].slot == i == s.slots[i].arg
                 && Watching(s.slots[i].callback, s.interest[s.slots[i].fd].pollIn, s.interest[s.slots[i].fd].pollOut))
  {
    InitOk(listenFd, now);
    InvOnRuns(Init(listenFd, now), turns);
    var s := Exec(Next, Init(listenFd, now), turns).value;
    DistinctDescriptors(s);
    forall i | 0 <= i < |s.slots| ensures SlotOk(s, i, s.slots[i]) {
    }
    forall fd ensures fd in s.interest <==> exists i :: 0 <= i < |s.slots| && s.slots[i].active && s.slots[i].fd == fd {
      if fd in s.interest {
        assert WatchOk(s, fd);
      }
    }
  }

  // ----- the rotating sweep

  /** How many slots the cursor passes before it looks at slot `p`. */
  function Distance(checkPos: nat, p: nat): (d: int)
    requires checkPos <= MAX_EVENTS && p < MAX_EVENTS
    ensures 0 <= d < MAX_EVENTS
  {
    if p >= Wrap(checkPos) then p - Wrap(checkPos) else p - Wrap(checkPos) + MAX_EVENTS
  }

  /** The connection slot `n` places on from slot 0, around the table. */
  function Around(n: nat): (p: nat)
    ensures p < MAX_EVENTS
  {
    if n < MAX_EVENTS then n else Around(n - MAX_EVENTS)
  }

  /** ... that is, the remainder of `n` by the number of connection slots. */
  lemma {:induction false} AroundIsRemainder(n: nat) returns (q: nat)
    ensures n == MAX_EVENTS * q + Around(n)
  {
    q := 0;
    if n >= MAX_EVENTS {
      q := AroundIsRemainder(n - MAX_EVENTS);
      q := q + 1;
    }
  }

  lemma {:induction false} AroundAdds(n: nat, pos: nat, k: nat)
    requires pos <= MAX_EVENTS && Wrap(pos) == Around(n)
    ensures Around(pos + k) == Around(n + k)
    decreases n
  {
    if n >= MAX_EVENTS {
      AroundAdds(n - MAX_EVENTS, pos, k);
    }
  }

  /** The k-th slot looked at is k places on from the cursor, around the connection slots. */
  lemma {:induction false} SweepLooksAt(s: Server, now: int, k: nat)
    requires Sized(s) && s.checkPos <= MAX_EVENTS
    ensures Wrap(Sweep(s, now, k).checkPos) == Around(s.checkPos + k)
    decreases k
  {
    if k > 0 {
      SweepLooksAt(s, now, k - 1);
      AroundAdds(s.checkPos + k - 1, Sweep(s, now, k - 1).checkPos, 1);
    }
  }

  /** Slot `p` holds connection `conn`, last active at `since`. */
  ghost predicate Holding(s: Server, p: nat, conn: nat, since: int) {
    && p < MAX_EVENTS && Sized(s) && s.slots[p].active && s.slots[p].lastActive == since
    && s.slots[p].fd in s.peer && s.peer[s.slots[p].fd] == conn
  }

  lemma SweepOneReaches(s: Server, now: int, p: nat, conn: nat, since: int)
    requires Inv(s) && Holding(s, p, conn, since) && now - since >= 60
    ensures var r := SweepOne(s, now); var d := Distance(s.checkPos, p);
            if d == 0 then Closed(r, conn) else Holding(r, p, conn, since) && Distance(r.checkPos, p) == d - 1
  {
  }

  lemma SweepOneKeepsClosed(s: Server, now: int, conn: nat)
    requires Inv(s) && Closed(s, conn)
    ensures Closed(SweepOne(s, now), conn)
  {
  }

  lemma {:induction false} SweepReaches(s: Server, now: int, n: nat, p: nat, conn: nat, since: int)
    requires Inv(s) && Holding(s, p, conn, since) && now - since >= 60
    ensures var r := Sweep(s, now, n); var d := Distance(s.checkPos, p);
            if d < n then Closed(r, conn) else Holding(r, p, conn, since) && Distance(r.checkPos, p) == d - n
    decreases n
  {
    if n > 0 {
      SweepReaches(s, now, n - 1, p, conn, since);
      SweepKeepsInv(s, now, n - 1);
      var t := Sweep(s, now, n - 1);
      if Distance(s.checkPos, p) < n - 1 {
        SweepOneKeepsClosed(t, now, conn);
      } else {
        SweepOneReaches(t, now, p, conn, since);
      }
    }
  }

  /** No event of the batch is for slot `p`. */
  ghost predicate Quiet(batch: seq<Event>, p: nat) { forall k :: 0 <= k < |batch| ==> batch[k].slot != p }

  lemma HandleKeepsClosed(s: Server, e: Event, a: Answer, b: Answer, conn: nat)
    requires Inv(s) && Pending(s, e)
    ensures Closed(s, conn) ==> Closed(Handle(s, e, a, b), conn)
  {
  }

  lemma {:induction false} BatchKeeps(
    s: Server, batch: seq<Event>, answers: seq<(Answer, Answer)>, k: nat, p: nat, conn: nat, since: int)
    requires Inv(s) && ValidBatch(s, batch) && k <= |batch| <= |answers|
    ensures var r := HandleFirst(s, batch, answers, k);
            && (Closed(s, conn) ==> Closed(r, conn))
            && (Holding(s, p, conn, since) && Quiet(batch, p) ==> Holding(r, p, conn, since))
    decreases k
  {
    if k > 0 {
      BatchKeeps(s, batch, answers, k - 1, p, conn, since);
      BatchReaches(s, batch, answers, k - 1);
      var t := HandleFirst(s, batch, answers, k - 1);
      HandleOk(t, batch[k - 1], answers[k - 1].0, answers[k - 1].1);
      HandleKeepsClosed(t, batch[k - 1], answers[k - 1].0, answers[k - 1].1, conn);
    }
  }

  lemma {:induction false} SweepKeepsClosed(s: Server, now: int, n: nat, conn: nat)
    requires Inv(s) && Closed(s, conn)
    ensures Closed(Sweep(s, now, n), conn)
    decreases n
  {
    if n > 0 {
      SweepKeepsClosed(s, now, n - 1, conn);
      SweepKeepsInv(s, now, n - 1);
      SweepOneKeepsClosed(Sweep(s, now, n - 1), now, conn);
    }
  }

  /** One turn brings the cursor a hundred slots nearer, or closes the connection. */
  lemma TurnReaches(s: Server, t: Turn, p: nat, conn: nat, since: int)
    requires Inv(s) && Next(s, t).Some? && t.now - since >= 60 && Quiet(t.batch, p)
    requires Closed(s, conn) || Holding(s, p, conn, since)
    ensures var r := Next(s, t).value;
            || Closed(r, conn)
            || (&& Holding(s, p, conn, since) && Holding(r, p, conn, since)
                && r.checkPos <= MAX_EVENTS && Distance(r.checkPos, p) == Distance(s.checkPos, p) - 100)
  {
    var m := Sweep(s, t.now, 100);
    SweepKeepsInv(s, t.now, 100);
    BatchKeeps(m, t.batch, t.answers, |t.batch|, p, conn, since);
    if Closed(s, conn) {
      SweepKeepsClosed(s, t.now, 100, conn);
    } else {
      SweepReaches(s, t.now, 100, p, conn, since);
    }
  }

  lemma {:induction false} TurnsReach(s: Server, turns: seq<Turn>, p: nat, conn: nat, since: int)
    requires Inv(s) && Holding(s, p, conn, since) && Exec(Next, s, turns).Some?
    requires forall k :: 0 <= k < |turns| ==> turns[k].now - since >= 60 && Quiet(turns[k].batch, p)
    ensures var r := Exec(Next, s, turns).value;
            || Closed(r, conn)
            || (Holding(r, p, conn, since) && r.checkPos <= MAX_EVENTS
                && Distance(r.checkPos, p) == Distance(s.checkPos, p) - 100 * |turns|)
    decreases |turns|
  {
    if turns != [] {
      var before := turns[..|turns| - 1];
      TurnsReach(s, before, p, conn, since);
      InvOnRuns(s, before);
      TurnReaches(Exec(Next, s, before).value, turns[|turns| - 1], p, conn, since);
    }
  }

  lemma IdleCloses(s: Server, turns: seq<Turn>, p: nat, conn: nat, since: int)
    requires Inv(s) && Holding(s, p, conn, since) && Exec(Next, s, turns).Some? && |turns| >= 5
    requires forall k :: 0 <= k < |turns| ==> turns[k].now - since >= 60 && Quiet(turns[k].batch, p)
    ensures Closed(Exec(Next, s, turns).value, conn)
  {
    TurnsReach(s, turns, p, conn, since);
  }

  lemma InitOk(listenFd: int, now: int)
    ensures Inv(Init(listenFd, now))
  {
  }

  /** The cursor is `n` places on from slot 0. */
  ghost predicate CursorAt(s: Server, n: nat) { Sized(s) && s.checkPos <= MAX_EVENTS && Wrap(s.checkPos) == Around(n) }

  lemma SweepFrom(s: Server, n: nat, now: int, k: nat)
    requires CursorAt(s, n)
    ensures CursorAt(Sweep(s, now, k), n + k)
  {
    SweepLooksAt(s, now, k);
    AroundAdds(n, s.checkPos, k);
  }

  lemma TurnMovesCursor(s: Server, n: nat, t: Turn)
    requires CursorAt(s, n) && Next(s, t).Some?
    ensures CursorAt(Next(s, t).value, n + 100)
  {
    SweepFrom(s, n, t.now, 100);
  }

  lemma {:induction false} TurnsMoveCursor(s: Server, turns: seq<Turn>)
    requires CursorAt(s, s.checkPos) && Exec(Next, s, turns).Some?
    ensures CursorAt(Exec(Next, s, turns).value, s.checkPos + 100 * |turns|)
    decreases |turns|
  {
    if turns != [] {
      var before := turns[..|turns| - 1];
      TurnsMoveCursor(s, before);
      TurnMovesCursor(Exec(Next, s, before).value, s.checkPos + 100 * |before|, turns[|turns| - 1]);
    }
  }

  /** The slot a pass from state `t` examines at its step `k`. */
  ghost function LooksAt(t: Option<Server>, now: int, k: nat): nat {
    if t.Some? && Sized(t.value) && t.value.checkPos <= MAX_EVENTS then Wrap(Sweep(t.value, now, k).checkPos) else MAX_EVENTS
  }

  /** The slot examined at step `k` of the timeout pass of turn `m`, with the batches of the
      turns before it handled in between. */
  ghost function Examined(s: Server, turns: seq<Turn>, m: nat, k: nat): nat
    requires m < |turns|
  {
    LooksAt(Exec(Next, s, turns[..m]), turns[m].now, k)
  }

  lemma LooksAtFrom(t: Option<Server>, n: nat, now: int, k: nat)
    requires t.Some? && CursorAt(t.value, n)
    ensures LooksAt(t, now, k) == Around(n + k)
  {
    SweepFrom(t.value, n, now, k);
  }

  lemma ExaminedSlot(s: Server, turns: seq<Turn>, m: nat, k: nat)
    requires CursorAt(s, s.checkPos) && m < |turns| && Exec(Next, s, turns[..m]).Some?
    ensures Examined(s, turns, m, k) == Around(s.checkPos + 100 * m + k)
  {
    TurnsMoveCursor(s, turns[..m]);
    LooksAtFrom(Exec(Next, s, turns[..m]), s.checkPos + 100 * m, turns[m].now, k);
  }

  lemma AroundOnce(checkPos: nat, p: nat, n: nat)
    requires checkPos <= MAX_EVENTS && p < MAX_EVENTS && n < MAX_EVENTS
    ensures Around(checkPos + n) == p <==> n == Distance(checkPos, p)
  {
  }

  lemma PassesOnce(s: Server, turns: seq<Turn>, p: nat) returns (m: nat, k: nat)
    requires CursorAt(s, s.checkPos) && Exec(Next, s, turns).Some? && |turns| == 5 && p < MAX_EVENTS
    ensures m < 5 && k < 100 && Examined(s, turns, m, k) == p
    ensures forall n, j :: 0 <= n < 5 && 0 <= j < 100 && Examined(s, turns, n, j) == p ==> n == m && j == k
  {
    var d := Distance(s.checkPos, p);
    m, k := d / 100, d % 100;
    ExecPrefix(Next, s, turns, m);
    ExaminedSlot(s, turns, m, k);
    AroundOnce(s.checkPos, p, 100 * m + k);
    forall n, j | 0 <= n < 5 && 0 <= j < 100 && Examined(s, turns, n, j) == p ensures n == m && j == k {
      ExecPrefix(Next, s, turns, n);
      ExaminedSlot(s, turns, n, j);
      AroundOnce(s.checkPos, p, 100 * n + j);
    }
  }

  /** Any five consecutive turns of any run examine each connection slot exactly once,
      whatever their batches do, and never the listener. */
  lemma FivePassesOnce(listenFd: int, now: int, before: seq<Turn>, turns: seq<Turn>, p: nat) returns (m: nat, k: nat)
    requires Exec(Next, Init(listenFd, now), before).Some?
    requires Exec(Next, Exec(Next, Init(listenFd, now), before).value, turns).Some? && |turns| == 5 && p < MAX_EVENTS
    ensures var s := Exec(Next, Init(listenFd, now), before).value;
            && m < 5 && k < 100 && Examined(s, turns, m, k) == p
            && (forall n, j :: 0 <= n < 5 && 0 <= j < 100 && Examined(s, turns, n, j) == p ==> n == m && j == k)
            && (forall n, j :: 0 <= n < 5 && 0 <= j < 100 ==> Examined(s, turns, n, j) != MAX_EVENTS)
  {
    InitOk(listenFd, now);
    InvOnRuns(Init(listenFd, now), before);
    var s := Exec(Next, Init(listenFd, now), before).value;
    m, k := PassesOnce(s, turns, p);
    forall n, j | 0 <= n < 5 && 0 <= j < 100 ensures Examined(s, turns, n, j) != MAX_EVENTS {
      ExecPrefix(Next, s, turns, n);
      ExaminedSlot(s, turns, n, j);
    }
  }

  /** From any state a run can reach: a connection idle for a minute is closed within five
      turns of the main loop, wherever the cursor is, unless an event for its slot comes first. */
  lemma IdleClosedInFiveTurns(listenFd: int, now: int, before: seq<Turn>, turns: seq<Turn>, p: nat, conn: nat, since: int)
    requires Exec(Next, Init(listenFd, now), before).Some?
    requires Holding(Exec(Next, Init(listenFd, now), before).value, p, conn, since)
    requires Exec(Next, Exec(Next, Init(listenFd, now), before).value, turns).Some? && |turns| >= 5
    requires forall k :: 0 <= k < |turns| ==> turns[k].now - since >= 60 && Quiet(turns[k].batch, p)
    ensures Closed(Exec(Next, Exec(Next, Init(listenFd, now), before).value, turns).value, conn)
  {
    InitOk(listenFd, now);
    InvOnRuns(Init(listenFd, now), before);
    IdleCloses(Exec(Next, Init(listenFd, now), before).value, turns, p, conn, since);
  }

  /** ... and a pass of the sweep spares a connection active within the last minute. */
  lemma {:induction false} SweepSparesActive(s: Server, now: int, n: nat, p: nat, conn: nat, since: int)
    requires Inv(s) && Holding(s, p, conn, since) && now - since < 60
    ensures Holding(Sweep(s, now, n), p, conn, since)
    decreases n
  {
    if n > 0 {
      SweepSparesActive(s, now, n - 1, p, conn, since);
      SweepKeepsInv(s, now, n - 1);
      DistinctDescriptors(Sweep(s, now, n - 1));
    }
  }

  /** One pass closes exactly the idle connections among the hundred slots it comes to. */
  lemma SweepMeans(s: Server, now: int, p: nat, conn: nat, since: int)
    requires Inv(s) && Holding(s, p, conn, since)
    ensures var r := Sweep(s, now, 100);
            if now - since >= 60 && Distance(s.checkPos, p) < 100 then Closed(r, conn) else Holding(r, p, conn, since)
  {
    if now - since >= 60 {
      SweepReaches(s, now, 100, p, conn, since);
    } else {
      SweepSparesActive(s, now, 100, p, conn, since);
    }
  }

  /** Around a pass: exactly the connections idle for a minute among the next hundred slots are closed. */
  ghost predicate TimedOut(s: Server, r: Server, now: int) {
    s.checkPos <= MAX_EVENTS && forall p, conn, since :: Holding(s, p, conn, since) ==>
      if now - since >= 60 && Distance(s.checkPos, p) < 100 then Closed(r, conn) else Holding(r, p, conn, since)
  }

  lemma SweepTimesOut(s: Server, now: int)
    requires Inv(s)
    ensures Inv(Sweep(s, now, 100)) && TimedOut(s, Sweep(s, now, 100), now)
  {
    SweepKeepsInv(s, now, 100);
    forall p, conn, since | Holding(s, p, conn, since)
      ensures if now - since >= 60 && Distance(s.checkPos, p) < 100 then Closed(Sweep(s, now, 100), conn)
              else Holding(Sweep(s, now, 100), p, conn, since)
    {
      SweepMeans(s, now, p, conn, since);
    }
  }

  /** A slot without an event in the batch keeps its connection. */
  ghost predicate QuietKept(s: Server, r: Server, batch: seq<Event>) {
    forall p, conn, since :: Holding(s, p, conn, since) && Quiet(batch, p) ==> Holding(r, p, conn, since)
  }

  lemma BatchKeepsQuiet(s: Server, batch: seq<Event>, answers: seq<(Answer, Answer)>)
    requires Inv(s) && ValidBatch(s, batch) && |batch| <= |answers|
    ensures QuietKept(s, HandleFirst(s, batch, answers, |batch|), batch)
  {
    forall p, conn, since | Holding(s, p, conn, since) && Quiet(batch, p)
      ensures Holding(HandleFirst(s, batch, answers, |batch|), p, conn, since)
    {
      BatchKeeps(s, batch, answers, |batch|, p, conn, since);
    }
  }

  // ----- what a whole batch does

  /** Event `e` of a batch that began in state `s` has been answered, for good, in state `r`. */
  ghost predicate EventAnswered(s: Server, r: Server, e: Event, a: Answer, b: Answer)
    requires e.slot < |s.slots|
  {
    var ev := s.slots[e.slot];
    && (e.pollIn && ev.callback.RecvData? ==>
         if a.received == [] then Closed(r, e.conn)
         else Serves(r, e.slot, ev.fd, e.conn, SendData, a.now)
              && r.slots[e.slot].data == if |a.received| < 128 then a.received else a.received[..127])
    && (e.pollOut && ev.callback.SendData? ==>
         if b.sent <= 0 then Closed(r, e.conn)
         else Serves(r, e.slot, ev.fd, e.conn, RecvData, b.now) && r.slots[e.slot].data == [])
  }

  /** The first `k` events are answered, and the slots of the others as they were. */
  ghost predicate BatchAt(s: Server, m: Server, batch: seq<Event>, answers: seq<(Answer, Answer)>, k: nat)
    requires Separate(s, batch, answers) && k <= |batch|
  {
    && |m.slots| == |s.slots|
    && (forall j :: 0 <= j < k ==> EventAnswered(s, m, batch[j], answers[j].0, answers[j].1))
    && (forall j :: k <= j < |batch| ==> m.slots[batch[j].slot] == s.slots[batch[j].slot])
  }

  lemma ServesOn(m: Server, r: Server, i: nat, p: nat, fd: int, conn: nat, callback: Callback, now: int)
    requires Inv(r) && OthersKept(m, r, i) && |r.slots| == |m.slots| && p != i && Serves(m, p, fd, conn, callback, now)
    ensures Serves(r, p, fd, conn, callback, now) && r.slots[p] == m.slots[p]
  {
    assert r.slots[p] == m.slots[p];
    assert SlotOk(r, p, r.slots[p]);
  }

  /** An answer stands: later events of the batch do not undo it. */
  lemma AnswerStands(s: Server, m: Server, r: Server, e: Event, a: Answer, b: Answer, i: nat)
    requires e.slot < |s.slots| && EventAnswered(s, m, e, a, b) && e.slot != i
    requires Inv(r) && OthersKept(m, r, i) && |r.slots| == |m.slots|
    requires Closed(m, e.conn) ==> Closed(r, e.conn)
    ensures EventAnswered(s, r, e, a, b)
  {
    var ev := s.slots[e.slot];
    if e.pollIn && ev.callback.RecvData? && a.received != [] {
      ServesOn(m, r, i, e.slot, ev.fd, e.conn, SendData, a.now);
    }
    if e.pollOut && ev.callback.SendData? && b.sent > 0 {
      ServesOn(m, r, i, e.slot, ev.fd, e.conn, RecvData, b.now);
    }
  }

  lemma BatchInRange(s: Server, batch: seq<Event>)
    requires ValidBatch(s, batch)
    ensures forall j :: 0 <= j < |batch| ==> batch[j].slot < |s.slots|
  {
    forall j | 0 <= j < |batch| ensures batch[j].slot < |s.slots| {
      assert Reported(s, batch[j]);
    }
  }

  /** A batch whose slots are in range and all different. */
  ghost predicate Separate(s: Server, batch: seq<Event>, answers: seq<(Answer, Answer)>) {
    && |batch| <= |answers| && (forall j :: 0 <= j < |batch| ==> batch[j].slot < |s.slots|)
    && (forall j, l :: 0 <= j < l < |batch| ==> batch[j].slot != batch[l].slot)
  }

  lemma BatchStarts(s: Server, batch: seq<Event>, answers: seq<(Answer, Answer)>)
    requires Separate(s, batch, answers)
    ensures BatchAt(s, s, batch, answers, 0)
  {
  }

  /** `m` is the state after the first `k` events, with what is known of it. */
  ghost predicate BatchState(s: Server, m: Server, batch: seq<Event>, answers: seq<(Answer, Answer)>, k: nat)
    requires Separate(s, batch, answers) && k <= |batch|
  {
    && Inv(m) && BatchAt(s, m, batch, answers, k)
    && forall j :: k <= j < |batch| ==> Pending(m, batch[j])
  }

  lemma {:induction false} BatchProceeds(s: Server, batch: seq<Event>, answers: seq<(Answer, Answer)>, k: nat) returns (m: Server)
    requires Inv(s) && ValidBatch(s, batch) && Separate(s, batch, answers) && k <= |batch|
    ensures m == HandleFirst(s, batch, answers, k) && BatchState(s, m, batch, answers, k)
    decreases k
  {
    BatchReaches(s, batch, answers, k);
    if k == 0 {
      m := s;
      BatchStarts(s, batch, answers);
    } else {
      var b := BatchProceeds(s, batch, answers, k - 1);
      m := Handle(b, batch[k - 1], answers[k - 1].0, answers[k - 1].1);
      BatchSteps(s, b, m, batch, answers, k - 1);
    }
  }

  lemma BatchSteps(s: Server, m: Server, r: Server, batch: seq<Event>, answers: seq<(Answer, Answer)>, k: nat)
    requires Separate(s, batch, answers) && k < |batch|
    requires BatchState(s, m, batch, answers, k) && r == Handle(m, batch[k], answers[k].0, answers[k].1)
    ensures BatchAt(s, r, batch, answers, k + 1)
  {
    var e, a, b := batch[k], answers[k].0, answers[k].1;
    HandleOk(m, e, a, b);
    forall j | 0 <= j < k + 1 ensures EventAnswered(s, r, batch[j], answers[j].0, answers[j].1) {
      if j < k {
        assert EventAnswered(s, m, batch[j], answers[j].0, answers[j].1);
        HandleKeepsClosed(m, e, a, b, batch[j].conn);
        AnswerStands(s, m, r, batch[j], answers[j].0, answers[j].1, e.slot);
      }
    }
    forall j | k + 1 <= j < |batch| ensures r.slots[batch[j].slot] == s.slots[batch[j].slot] {
      assert Pending(m, batch[j]) && m.slots[batch[j].slot] == s.slots[batch[j].slot];
      assert batch[k].slot != batch[j].slot;
    }
  }

  /** Every event of the batch has been answered. */
  ghost predicate BatchAnswered(s: Server, r: Server, batch: seq<Event>, answers: seq<(Answer, Answer)>) {
    && |batch| <= |answers|
    && forall k :: 0 <= k < |batch| ==>
         batch[k].slot < |s.slots| && EventAnswered(s, r, batch[k], answers[k].0, answers[k].1)
  }

  lemma BatchIsAnswered(s: Server, batch: seq<Event>, answers: seq<(Answer, Answer)>)
    requires Inv(s) && ValidBatch(s, batch) && |batch| <= |answers|
    ensures BatchAnswered(s, HandleFirst(s, batch, answers, |batch|), batch, answers)
  {
    BatchInRange(s, batch);
    var r := BatchProceeds(s, batch, answers, |batch|);
    assert BatchAt(s, r, batch, answers, |batch|);
  }

  /** Every event of every turn of every run is answered by the end of the turn: a
      connection with input has its bytes waiting to be sent back, one with room for output
      is back to receiving, and one whose peer has gone is closed. */
  lemma TurnAnswers(listenFd: int, now: int, before: seq<Turn>, t: Turn)
    requires Exec(Next, Init(listenFd, now), before).Some?
    requires Next(Exec(Next, Init(listenFd, now), before).value, t).Some?
    ensures var s := Exec(Next, Init(listenFd, now), before).value;
            Sized(s) && s.checkPos <= MAX_EVENTS && BatchAnswered(Sweep(s, t.now, 100), Next(s, t).value, t.batch, t.answers)
  {
    InitOk(listenFd, now);
    InvOnRuns(Init(listenFd, now), before);
    var s := Exec(Next, Init(listenFd, now), before).value;
    SweepKeepsInv(s, t.now, 100);
    BatchIsAnswered(Sweep(s, t.now, 100), t.batch, t.answers);
  }

  // ----- bytes waiting to be sent back

  lemma {:induction false} SweepKeepsSlot(s: Server, now: int, n: nat, p: nat)
    requires Inv(s) && p < MAX_EVENTS && s.slots[p].active && now - s.slots[p].lastActive < 60
    ensures Sweep(s, now, n).slots[p] == s.slots[p]
    decreases n
  {
    if n > 0 {
      SweepKeepsSlot(s, now, n - 1, p);
    }
  }

  lemma {:induction false} BatchKeepsSlot(s: Server, batch: seq<Event>, answers: seq<(Answer, Answer)>, k: nat, p: nat)
    requires Inv(s) && ValidBatch(s, batch) && k <= |batch| <= |answers|
    requires p < MAX_EVENTS && s.slots[p].active && Quiet(batch, p)
    ensures HandleFirst(s, batch, answers, k).slots[p] == s.slots[p]
    decreases k
  {
    if k > 0 {
      BatchKeepsSlot(s, batch, answers, k - 1, p);
      BatchReaches(s, batch, answers, k - 1);
      var t := HandleFirst(s, batch, answers, k - 1);
      assert SlotOk(t, p, t.slots[p]);
      HandleOk(t, batch[k - 1], answers[k - 1].0, answers[k - 1].1);
    }
  }

  lemma TurnKeepsSlot(s: Server, t: Turn, p: nat)
    requires Inv(s) && Next(s, t).Some? && p < MAX_EVENTS && s.slots[p].active
    requires Quiet(t.batch, p) && t.now - s.slots[p].lastActive < 60
    ensures Inv(Next(s, t).value) && Next(s, t).value.slots[p] == s.slots[p]
  {
    NextKeepsInv(s, t);
    SweepKeepsSlot(s, t.now, 100, p);
    SweepKeepsInv(s, t.now, 100);
    BatchKeepsSlot(Sweep(s, t.now, 100), t.batch, t.answers, |t.batch|, p);
  }

  /** Bytes received on a connection stay as they are, whatever the other connections do,
      until the next event for it or its timeout: what is then given to send is what was
      received. */
  lemma {:induction false} WaitingBytesKept(s: Server, turns: seq<Turn>, p: nat)
    requires Inv(s) && Exec(Next, s, turns).Some? && p < MAX_EVENTS && s.slots[p].active
    requires forall k :: 0 <= k < |turns| ==> Quiet(turns[k].batch, p) && turns[k].now - s.slots[p].lastActive < 60
    ensures var r := Exec(Next, s, turns).value; Inv(r) && r.slots[p] == s.slots[p]
    decreases |turns|
  {
    if turns != [] {
      var before := turns[..|turns| - 1];
      WaitingBytesKept(s, before, p);
      TurnKeepsSlot(Exec(Next, s, before).value, turns[|turns| - 1], p);
    }
  }
}
