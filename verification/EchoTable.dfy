/**
 The table g_Events of echoserver.cpp and the kernel state beside it, updated
 in place. Each method says what it does to its slot, its connection and the
 interest set, keeps the table invariant, and is tied to the function of
 EchoServer that the run properties are about.
 */
module EchoTable {
  import opened Runs
  import Spec = EchoServer

  class Table {
    const slots: array<Spec.Slot>
    var interest: map<int, Spec.Watch>
    var peer: map<int, nat>
    var nextConn: nat
    var checkPos: nat

    ghost function Value(): Spec.Server
      reads this, slots
    {
      Spec.Server(slots[..], interest, peer, nextConn, checkPos)
    }

    ghost predicate Valid()
      reads this
    {
      slots.Length == Spec.MAX_EVENTS + 1 && checkPos <= Spec.MAX_EVENTS
    }

    /** An empty table with the listener set up and registered. */
    constructor (listenFd: int, now: int)
      ensures Valid() && fresh(slots) && Spec.Inv(Value()) && Value() == Spec.Init(listenFd, now)
    {
      var blank := Spec.Slot(0, Spec.NoCallback, false, false, 0, false, [], 0);
      slots := new Spec.Slot[Spec.MAX_EVENTS + 1](_ => blank);
      interest, peer, nextConn, checkPos := map[], map[listenFd := 0], 1, 0;
      new;
      EventSet(Spec.MAX_EVENTS, listenFd, Spec.AcceptConn, now);
      EventAdd(Spec.MAX_EVENTS, true, false);
      assert slots[..] == Spec.Init(listenFd, now).slots;
      Spec.InitOk(listenFd, now);
    }

    /** Points an unregistered slot at a descriptor; nothing is registered yet. */
    method EventSet(i: nat, fd: int, callback: Spec.Callback, now: int)
      requires i < slots.Length
      modifies slots
      ensures Value() == Spec.EventSet(old(Value()), i, fd, callback, now)
      ensures !slots[i].active && slots[i].fd == fd && slots[i].callback == callback && slots[i].data == old(slots[i].data)
      ensures forall j :: 0 <= j < slots.Length && j != i ==> slots[j] == old(slots[j])
      ensures old(Spec.Inv(Value())) && !old(slots[i].active) ==> Spec.Inv(Value())
    {
      if Spec.Inv(Value()) && !slots[i].active {
        Spec.SetKeepsInv(Value(), i, fd, callback, now);
      }
      slots[i] := Spec.Slot(fd, callback, false, false, i, false, slots[i].data, now);
    }

    /** Registers the slot's descriptor for the events, or changes the events it is registered for. */
    method EventAdd(i: nat, pollIn: bool, pollOut: bool)
      requires i < slots.Length
      modifies this`interest, slots
      ensures Value() == Spec.EventAdd(old(Value()), i, pollIn, pollOut)
      ensures slots[i].active && slots[i].fd == old(slots[i].fd)
      ensures old(slots[i].active == (slots[i].fd in interest)) ==>
                interest == old(interest)[slots[i].fd := Spec.Watch(i, pollIn, pollOut)]
      ensures forall j :: 0 <= j < slots.Length && j != i ==> slots[j] == old(slots[j])
      ensures old(Spec.Inv(Value()) && Spec.Addable(Value(), i, pollIn, pollOut)) ==> Spec.Inv(Value())
    {
      if Spec.Inv(Value()) && Spec.Addable(Value(), i, pollIn, pollOut) {
        Spec.AddKeepsInv(Value(), i, pollIn, pollOut);
      }
      var ev := slots[i];
      if ev.active == (ev.fd in interest) {
        interest := interest[ev.fd := Spec.Watch(i, pollIn, pollOut)];
      }
      slots[i] := ev.(pollIn := pollIn, pollOut := pollOut, active := true);
    }

    /** Takes an active slot's descriptor out of the interest set. */
    method EventDel(i: nat)
      requires i < slots.Length
      modifies this`interest, slots
      ensures Value() == Spec.EventDel(old(Value()), i)
      ensures !slots[i].active && slots[i].fd == old(slots[i].fd)
      ensures interest == if old(slots[i].active) then old(interest) - {slots[i].fd} else old(interest)
      ensures forall j :: 0 <= j < slots.Length && j != i ==> slots[j] == old(slots[j])
      ensures old(Spec.Inv(Value())) && i < Spec.MAX_EVENTS ==> Spec.Inv(Value())
    {
      if Spec.Inv(Value()) && i < Spec.MAX_EVENTS {
        Spec.DelKeepsInv(Value(), i);
      }
      if slots[i].active {
        interest := interest - {slots[i].fd};
        slots[i] := slots[i].(active := false);
      }
    }

    method Close(fd: int)
      modifies this`peer, this`interest
      ensures Value() == Spec.Close(old(Value()), fd)
      ensures fd !in peer && fd !in interest
    {
      peer := peer - {fd};
      interest := interest - {fd};
    }

    /** The search loop of AcceptConn. */
    method FindFree() returns (i: nat)
      requires Valid()
      ensures i == Spec.FirstFree(slots[..], 0)
    {
      i := 0;
      while i < Spec.MAX_EVENTS
        invariant i <= Spec.MAX_EVENTS
        invariant Spec.FirstFree(slots[..], 0) == Spec.FirstFree(slots[..], i)
      {
        if !slots[i].active {
          break;
        }
        i := i + 1;
      }
    }

    /** A new connection gets the first free slot, if there is one; the others keep theirs. */
    method AcceptConn(a: Spec.Answer)
      requires Valid() && Spec.Inv(Value())
      modifies this, slots
      ensures Valid() && Spec.Inv(Value()) && Value() == Spec.Accept(old(Value()), a)
      ensures Spec.OthersKept(old(Value()), Value(), Spec.MAX_EVENTS + 1)
      ensures a.accepted.None? || a.accepted.value in old(peer) ==> Value() == old(Value())
      ensures a.accepted.Some? && a.accepted.value !in old(peer) ==>
                && peer == old(peer)[a.accepted.value := old(nextConn)]
                && var i := Spec.FirstFree(old(slots[..]), 0);
                   if i < Spec.MAX_EVENTS && a.fcntlOk
                   then Spec.Serves(Value(), i, a.accepted.value, old(nextConn), Spec.RecvData, a.now)
                   else slots[..] == old(slots[..]) && interest == old(interest)
    {
      Spec.AcceptMeans(Value(), a);
      if a.accepted.None? || a.accepted.value in peer {
        return;
      }
      var nfd := a.accepted.value;
      peer := peer[nfd := nextConn];
      nextConn := nextConn + 1;
      var i := FindFree();
      if i == Spec.MAX_EVENTS || !a.fcntlOk {
        return;
      }
      EventSet(i, nfd, Spec.RecvData, a.now);
      EventAdd(i, true, false);
    }

    /** Bytes received are to be sent back on the same connection; none received closes it. */
    method RecvData(fd: int, i: nat, a: Spec.Answer)
      requires Valid() && Spec.Inv(Value())
      requires i < Spec.MAX_EVENTS && slots[i].active && slots[i].callback.RecvData? && fd == slots[i].fd
      modifies this, slots
      ensures Valid() && Spec.Inv(Value()) && Value() == Spec.Receive(old(Value()), fd, i, a)
      ensures Spec.OthersKept(old(Value()), Value(), i) && fd in old(peer)
      ensures if a.received == [] then Spec.Closed(Value(), old(peer)[fd]) && Spec.Freed(old(Value()), Value(), i, fd)
              else Spec.Serves(Value(), i, fd, old(peer)[fd], Spec.SendData, a.now)
                   && slots[i].data == Spec.Clipped(a.received)
    {
      Spec.ReceiveMeans(Value(), i, a);
      var n := if |a.received| < Spec.BUFF then a.received else a.received[..Spec.BUFF - 1];
      EventDel(i);
      if |n| > 0 {
        slots[i] := slots[i].(data := n);
        EventSet(i, fd, Spec.SendData, a.now);
        EventAdd(i, false, true);
      } else {
        Close(slots[i].fd);
      }
    }

    /** After sending, the slot waits for more on the same connection; a failure closes it. */
    method SendData(fd: int, i: nat, a: Spec.Answer)
      requires Valid() && Spec.Inv(Value())
      requires i < Spec.MAX_EVENTS && slots[i].active && slots[i].callback.SendData? && fd == slots[i].fd
      modifies this, slots
      ensures Valid() && Spec.Inv(Value()) && Value() == Spec.Send(old(Value()), fd, i, a)
      ensures Spec.OthersKept(old(Value()), Value(), i) && fd in old(peer)
      ensures if a.sent <= 0 then Spec.Closed(Value(), old(peer)[fd]) && Spec.Freed(old(Value()), Value(), i, fd)
              else Spec.Serves(Value(), i, fd, old(peer)[fd], Spec.RecvData, a.now) && slots[i].data == []
    {
      Spec.SendMeans(Value(), i, a);
      slots[i] := slots[i].(data := []);
      EventDel(i);
      if a.sent > 0 {
        EventSet(i, fd, Spec.RecvData, a.now);
        EventAdd(i, true, false);
      } else {
        Close(slots[i].fd);
      }
    }

    /** The callback of an active slot touches no other connection. */
    method CallBack(i: nat, a: Spec.Answer)
      requires Valid() && Spec.Inv(Value()) && i < slots.Length && slots[i].active
      modifies this, slots
      ensures Valid() && Spec.Inv(Value()) && Value() == Spec.CallBack(old(Value()), old(slots[i]), a)
      ensures Spec.OthersKept(old(Value()), Value(), i)
    {
      var ev := slots[i];
      assert Spec.SlotOk(Value(), i, ev);
      Spec.CallBackOk(Value(), i, a);
      match ev.callback
      case AcceptConn => AcceptConn(a);
      case RecvData => RecvData(ev.fd, ev.arg, a);
      case SendData => SendData(ev.fd, ev.arg, a);
    }

    /** The timeout loop of main closes exactly the connections idle for a minute among the
        hundred slots it comes to. */
    method CheckTimeouts(now: int)
      requires Valid() && Spec.Inv(Value())
      modifies this, slots
      ensures Valid() && Spec.Inv(Value()) && Value() == Spec.Sweep(old(Value()), now, 100)
      ensures Spec.TimedOut(old(Value()), Value(), now)
    {
      Spec.SweepTimesOut(Value(), now);
      ghost var was := Value();
      for i := 0 to 100
        invariant Valid() && Value() == Spec.Sweep(was, now, i)
      {
        CheckOne(now);
      }
    }

    /** The body of the timeout loop. */
    method CheckOne(now: int)
      requires Valid()
      modifies this, slots
      ensures Valid() && Value() == Spec.SweepOne(old(Value()), now)
    {
      if checkPos == Spec.MAX_EVENTS {
        checkPos := 0;
      }
      var ev := slots[checkPos];
      if ev.active && now - ev.lastActive >= 60 {
        Close(ev.fd);
        EventDel(checkPos);
      }
      checkPos := checkPos + 1;
    }

    /** The body of the dispatch loop: at most one callback, on the event's own connection. */
    method HandleOne(e: Spec.Event, a: Spec.Answer, b: Spec.Answer)
      requires Valid() && Spec.Inv(Value()) && Spec.Pending(Value(), e)
      modifies this, slots
      ensures Valid() && Spec.Inv(Value()) && Value() == Spec.Handle(old(Value()), e, a, b)
      ensures Spec.OthersKept(old(Value()), Value(), e.slot) && Spec.Answered(old(Value()), Value(), e, a, b)
    {
      assert Spec.SlotOk(Value(), e.slot, slots[e.slot]);
      Spec.HandleOk(Value(), e, a, b);
      if e.pollIn && slots[e.slot].pollIn {
        assert !e.pollOut;
        CallBack(e.slot, a);
      }
      if e.pollOut && slots[e.slot].pollOut {
        CallBack(e.slot, b);
      }
    }

    /** The dispatch loop of main: every event of the batch is answered on the connection it
        was reported for, and a slot without an event keeps its connection. */
    method Dispatch(batch: seq<Spec.Event>, answers: seq<(Spec.Answer, Spec.Answer)>)
      requires Valid() && Spec.Inv(Value()) && |batch| == |answers| && Spec.ValidBatch(Value(), batch)
      modifies this, slots
      ensures Valid() && Spec.Inv(Value()) && Value() == Spec.HandleFirst(old(Value()), batch, answers, |batch|)
      ensures Spec.QuietKept(old(Value()), Value(), batch)
      ensures Spec.BatchAnswered(old(Value()), Value(), batch, answers)
    {
      ghost var was := Value();
      Spec.BatchKeepsQuiet(was, batch, answers);
      Spec.BatchIsAnswered(was, batch, answers);
      for k := 0 to |batch|
        invariant Valid() && Spec.Inv(Value()) && Value() == Spec.HandleFirst(was, batch, answers, k)
      {
        Spec.BatchReaches(was, batch, answers, k);
        HandleOne(batch[k], answers[k].0, answers[k].1);
      }
    }
  }
}
