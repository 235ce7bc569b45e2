/**
 The byte ring buf_fifo of alsa_loop.c: split copies around the end of the
 buffer, pointers that may rest at FIFO_MAX_SIZE before they wrap, and a fill
 count. Writes do not check for room.
 */
module RingFifo {
  import opened Basics
  import opened Runs

  const BUFSIZE: nat := 1024 * 32
  const PCM_SIZE: nat := 4
  const FIFO_MAX_SIZE: nat := 327680 // BUFSIZE * 10

  datatype Ring = Ring(buf: seq<Byte>, wPtr: nat, rPtr: nat, size: nat)

  /** Memory safety: pointers inside the buffer or at its end. */
  predicate Shaped(q: Ring) { |q.buf| == FIFO_MAX_SIZE && q.wPtr <= FIFO_MAX_SIZE && q.rPtr <= FIFO_MAX_SIZE }

  /** The pointers are `size` apart, give or take whole turns of the ring. */
  predicate Apart(wPtr: nat, rPtr: nat, size: nat) {
    var d := rPtr + size - wPtr;
    d == 0 || d == FIFO_MAX_SIZE || d == 2 * FIFO_MAX_SIZE || d + FIFO_MAX_SIZE == 0
  }

  predicate RingOk(q: Ring) { Shaped(q) && q.size <= FIFO_MAX_SIZE && Apart(q.wPtr, q.rPtr, q.size) }

  /** The bytes stored, oldest first. */
  function Contents(q: Ring): (s: seq<Byte>)
    requires Shaped(q)
    ensures |s| == q.size
  {
    seq(q.size, k requires 0 <= k => q.buf[Cell(q.rPtr, k)])
  }

  /** buf_fifo in write mode; a block larger than the ring would run past it. */
  function Write(q: Ring, data: seq<Byte>): (r: Ring)
    requires Shaped(q) && |data| <= FIFO_MAX_SIZE
    ensures Shaped(r)
  {
    if q.wPtr + |data| > FIFO_MAX_SIZE then
      var n := FIFO_MAX_SIZE - q.wPtr;
      q.(buf := Overwrite(Overwrite(q.buf, q.wPtr, data[..n]), 0, data[n..]), wPtr := |data| - n, size := q.size + |data|)
    else
      q.(buf := Overwrite(q.buf, q.wPtr, data), wPtr := q.wPtr + |data|, size := q.size + |data|)
  }

  /** buf_fifo in read mode: the bytes copied out and the ring left behind. */
  function Read(q: Ring, want: nat): (r: (seq<Byte>, Ring))
    requires Shaped(q) && q.size <= FIFO_MAX_SIZE
    ensures Shaped(r.1)
  {
    var len := if q.size < want then q.size else want;
    if q.rPtr + len > FIFO_MAX_SIZE then
      var n := FIFO_MAX_SIZE - q.rPtr;
      (q.buf[q.rPtr..] + q.buf[..len - n], q.(rPtr := len - n, size := q.size - len))
    else
      (q.buf[q.rPtr..q.rPtr + len], q.(rPtr := q.rPtr + len, size := q.size - len))
  }

  /** The cell of the k-th byte from pointer `p`: back to the start at the end of the buffer. */
  function Cell(p: nat, k: nat): (c: nat)
    ensures c < FIFO_MAX_SIZE
    decreases p + k
  {
    if p + k < FIFO_MAX_SIZE then p + k
    else if k >= FIFO_MAX_SIZE then Cell(p, k - FIFO_MAX_SIZE)
    else Cell(p + k - FIFO_MAX_SIZE, 0)
  }

  lemma {:induction false} CellIsModular(p: nat, k: nat)
    ensures Cell(p, k) == (p + k) % FIFO_MAX_SIZE
    decreases p + k
  {
    if p + k >= FIFO_MAX_SIZE {
      if k >= FIFO_MAX_SIZE {
        CellIsModular(p, k - FIFO_MAX_SIZE);
      } else {
        CellIsModular(p + k - FIFO_MAX_SIZE, 0);
      }
    }
  }

  /** A pointer wraps at most once on the way to a cell. */
  lemma CellWraps(p: nat, k: nat)
    requires p <= FIFO_MAX_SIZE && k < FIFO_MAX_SIZE
    ensures Cell(p, k) == if p + k < FIFO_MAX_SIZE then p + k else p + k - FIFO_MAX_SIZE
  {
  }

  /** Where the k-th byte of a write lands, and what it leaves alone. */
  lemma WriteCells(q: Ring, data: seq<Byte>, c: nat)
    requires Shaped(q) && |data| <= FIFO_MAX_SIZE && c < FIFO_MAX_SIZE
    ensures var k := if c >= q.wPtr then c - q.wPtr else c - q.wPtr + FIFO_MAX_SIZE;
            Write(q, data).buf[c] == if k < |data| then data[k] else q.buf[c]
  {
  }

  lemma WriteByte(q: Ring, data: seq<Byte>, k: nat)
    requires RingOk(q) && |data| <= FIFO_MAX_SIZE - q.size && k < q.size + |data|
    ensures Write(q, data).buf[Cell(q.rPtr, k)] == if k < q.size then q.buf[Cell(q.rPtr, k)] else data[k - q.size]
  {
  }

  lemma WriteStaysOk(q: Ring, data: seq<Byte>)
    requires RingOk(q) && |data| <= FIFO_MAX_SIZE - q.size
    ensures RingOk(Write(q, data))
  {
  }

  /** A write that fits appends to the contents. */
  lemma WriteAppends(q: Ring, data: seq<Byte>)
    requires RingOk(q) && |data| <= FIFO_MAX_SIZE - q.size
    ensures RingOk(Write(q, data)) && Contents(Write(q, data)) == Contents(q) + data
  {
    WriteStaysOk(q, data);
    var r := Write(q, data);
    forall k | 0 <= k < r.size ensures Contents(r)[k] == (Contents(q) + data)[k] {
      WriteByte(q, data, k);
    }
  }

  lemma ReadSizes(q: Ring, want: nat)
    requires Shaped(q) && q.size <= FIFO_MAX_SIZE
    ensures var (out, r) := Read(q, want);
            |out| == (if q.size < want then q.size else want) && r.size == q.size - |out|
  {
  }

  lemma ReadStaysOk(q: Ring, want: nat)
    requires RingOk(q)
    ensures RingOk(Read(q, want).1)
  {
  }

  /** Where the k-th byte stored is after a read: among those read, or still in its cell. */
  lemma ReadByte(q: Ring, want: nat, k: nat)
    requires RingOk(q) && k < q.size
    ensures var (out, r) := Read(q, want);
            if k < |out| then out[k] == q.buf[Cell(q.rPtr, k)] else Cell(r.rPtr, k - |out|) == Cell(q.rPtr, k)
  {
    CellWraps(q.rPtr, k);
    var (out, r) := Read(q, want);
    if k >= |out| {
      CellWraps(r.rPtr, k - |out|);
    }
  }

  lemma ReadAt(q: Ring, want: nat, k: nat)
    requires RingOk(q) && k < q.size
    ensures var (out, r) := Read(q, want);
            |out| + r.size == q.size && r.buf == q.buf && Contents(q)[k] == (out + Contents(r))[k]
  {
    ReadByte(q, want, k);
    ReadSizes(q, want);
  }

  /** A read takes the oldest bytes, as many as asked for and stored. */
  lemma ReadTakesOldest(q: Ring, want: nat)
    requires RingOk(q)
    ensures var (out, r) := Read(q, want);
            && RingOk(r)
            && |out| == (if q.size < want then q.size else want)
            && Contents(q) == out + Contents(r)
  {
    ReadStaysOk(q, want);
    ReadSizes(q, want);
    var out, r := Read(q, want).0, Read(q, want).1;
    var c, d := Contents(q), out + Contents(r);
    forall k | 0 <= k < |c| ensures c[k] == d[k] {
      ReadAt(q, want, k);
    }
  }

  /** A write that does not fit overwrites the oldest byte: a block on which the stream breaks. */
  lemma OverflowBreaks(q: Ring, n: nat) returns (data: seq<Byte>)
    requires RingOk(q) && FIFO_MAX_SIZE - q.size < n <= FIFO_MAX_SIZE
    ensures |data| == n && Contents(Write(q, data)) != Contents(q) + data
  {
    CellWraps(q.rPtr, 0);
    var c := Cell(q.rPtr, 0);
    var other: Byte := if q.buf[c] == 0 then 1 else 0;
    data := seq(n, _ => other);
    WriteCells(q, data, c);
    assert Contents(Write(q, data))[0] == other;
    assert (Contents(q) + data)[0] == q.buf[c];
  }

  /** Exactly when a write of `n` bytes keeps the stream, whatever the bytes: iff they fit the free room. */
  lemma WriteKeepsStreamIffRoom(q: Ring, n: nat)
    requires RingOk(q) && n <= FIFO_MAX_SIZE
    ensures (forall data: seq<Byte> :: |data| == n ==> Contents(Write(q, data)) == Contents(q) + data)
            <==> n <= FIFO_MAX_SIZE - q.size
  {
    if n <= FIFO_MAX_SIZE - q.size {
      forall data: seq<Byte> | |data| == n ensures Contents(Write(q, data)) == Contents(q) + data {
        WriteAppends(q, data);
      }
    } else {
      var data := OverflowBreaks(q, n);
    }
  }

  // ----- sequences of calls

  datatype Call = WriteCall(data: seq<Byte>) | ReadCall(want: nat)

  /** The ring with everything written to it and read from it so far, and the last read. */
  datatype State = State(q: Ring, written: seq<Byte>, taken: seq<Byte>, last: seq<Byte>)

  function Init(): State { State(Ring(seq(FIFO_MAX_SIZE, _ => 0), 0, 0, 0), [], [], []) }

  /** Reads of any size, and writes that fit. */
  function Next(s: State, c: Call): Option<State> {
    if !RingOk(s.q) then None
    else
      match c
      case WriteCall(data) =>
        if |data| > FIFO_MAX_SIZE - s.q.size then None
        else Some(s.(q := Write(s.q, data), written := s.written + data))
      case ReadCall(want) =>
        var (out, r) := Read(s.q, want);
        Some(s.(q := r, taken := s.taken + out, last := out))
  }

  ghost predicate Inv(s: State) { RingOk(s.q) && s.written == s.taken + Contents(s.q) }

  lemma NextKeepsInv(s: State, c: Call)
    requires Inv(s) && Next(s, c).Some?
    ensures Inv(Next(s, c).value)
  {
    match c
    case WriteCall(data) => WriteAppends(s.q, data);
    case ReadCall(want) => ReadTakesOldest(s.q, want);
  }

  lemma InvOnRuns(s: State, calls: seq<Call>)
    requires Inv(s) && Exec(Next, s, calls).Some?
    ensures Inv(Exec(Next, s, calls).value)
  {
    forall m, c | Inv(m) && Next(m, c).Some? ensures Inv(Next(m, c).value) {
      NextKeepsInv(m, c);
    }
    Always(Next, Inv, s, calls);
  }

  /** The bytes read followed by the bytes stored are the bytes written, and the pointers
      are in range and `fifo_size` apart. */
  ghost predicate Streamed(s: State) {
    && Shaped(s.q) && s.q.size <= FIFO_MAX_SIZE
    && s.written == s.taken + Contents(s.q)
    && s.q.wPtr % FIFO_MAX_SIZE == (s.q.rPtr + s.q.size) % FIFO_MAX_SIZE
  }

  lemma InvIsStreamed(s: State)
    requires Inv(s)
    ensures Streamed(s)
  {
  }

  /** So it is after any reads and any writes that fit. */
  lemma StreamPreserved(calls: seq<Call>)
    requires Exec(Next, Init(), calls).Some?
    ensures Streamed(Exec(Next, Init(), calls).value)
  {
    InvOnRuns(Init(), calls);
    InvIsStreamed(Exec(Next, Init(), calls).value);
  }

  predicate WholeFrames(c: Call) { (if c.WriteCall? then |c.data| else c.want) % PCM_SIZE == 0 }

  function FrameNext(s: State, c: Call): Option<State> { if WholeFrames(c) then Next(s, c) else None }

  ghost predicate Aligned(s: State) { s.q.size % PCM_SIZE == 0 && |s.last| % PCM_SIZE == 0 }

  lemma FramesAdd(a: nat, b: nat)
    requires a % PCM_SIZE == 0 && b % PCM_SIZE == 0
    ensures (a + b) % PCM_SIZE == 0 && (a - b) % PCM_SIZE == 0
  {
  }

  lemma FrameNextAligns(s: State, c: Call)
    requires Aligned(s) && FrameNext(s, c).Some?
    ensures Aligned(FrameNext(s, c).value)
  {
    match c
    case WriteCall(data) => FramesAdd(s.q.size, |data|);
    case ReadCall(want) =>
      ReadSizes(s.q, want);
      FramesAdd(s.q.size, |Read(s.q, want).0|);
  }

  lemma {:induction false} AlignedOnRuns(s: State, calls: seq<Call>)
    requires Inv(s) && Aligned(s) && Exec(FrameNext, s, calls).Some?
    ensures Aligned(Exec(FrameNext, s, calls).value)
  {
    var inv := (m: State) => Inv(m) && Aligned(m);
    forall m, c | inv(m) && FrameNext(m, c).Some? ensures inv(FrameNext(m, c).value) {
      NextKeepsInv(m, c);
      FrameNextAligns(m, c);
    }
    Always(FrameNext, inv, s, calls);
  }

  /** When every request is for whole frames, whole frames are stored and returned. */
  lemma WholeFramesOnly(calls: seq<Call>)
    requires Exec(FrameNext, Init(), calls).Some?
    ensures var s := Exec(FrameNext, Init(), calls).value; s.q.size % PCM_SIZE == 0 && |s.last| % PCM_SIZE == 0
  {
    AlignedOnRuns(Init(), calls);
  }

  // ----- the main loop

  /** The main loop's play request: frames, clipped by a count of bytes. */
  function PlayFrames(avail: nat, fifoSize: nat): nat {
    var a := if avail > BUFSIZE then BUFSIZE else avail;
    var b := if a > 3840 then 3840 else a;
    if b > fifoSize then fifoSize else b
  }

  /** The request is the least of the device's room, 3840 and the bytes stored. */
  lemma PlayFramesIsLeast(avail: nat, fifoSize: nat)
    ensures var n := PlayFrames(avail, fifoSize);
            n <= avail && n <= 3840 && n <= fifoSize && (n == avail || n == 3840 || n == fifoSize)
  {
  }

  /** It hands the device as many frames as it read exactly when nothing is stored, or the
      device has room for no more frames than are stored, or the most it takes is stored. */
  lemma PlaysWhatItReadIff(q: Ring, avail: nat)
    requires RingOk(q)
    ensures var frames := PlayFrames(avail, q.size);
            |Read(q, frames * PCM_SIZE).0| / PCM_SIZE == frames
            <==> q.size == 0 || avail <= q.size / PCM_SIZE || 3840 <= q.size / PCM_SIZE
  {
    ReadSizes(q, PlayFrames(avail, q.size) * PCM_SIZE);
  }

  /** `captured` counts frames, `handed` the frames given to the device. */
  datatype Loop = Loop(s: State, captured: nat, prepared: bool, handed: nat)

  /** One turn: the bytes captured, and the room of the playback device. */
  datatype Turn = Turn(data: seq<Byte>, avail: nat)

  function LoopInit(): Loop { Loop(Init(), 0, false, 0) }

  /** Captures that fit; playback starts in the turn after more than half a buffer is captured. */
  function LoopNext(l: Loop, t: Turn): Option<Loop> {
    if |t.data| % PCM_SIZE != 0 || |t.data| > BUFSIZE * PCM_SIZE then None
    else
      match Next(l.s, WriteCall(t.data))
      case None => None
      case Some(w) =>
        var m := l.(s := w, captured := l.captured + |t.data| / PCM_SIZE);
        if !l.prepared then Some(m.(prepared := m.captured > BUFSIZE / 2))
        else Play(m, t.avail)
  }

  function Play(l: Loop, avail: nat): Option<Loop> {
    var frames := PlayFrames(avail, l.s.q.size);
    match Next(l.s, ReadCall(frames * PCM_SIZE))
    case None => None
    case Some(r) => Some(l.(s := r, handed := l.handed + frames))
  }

  /** The least of three. */
  function Least(a: nat, b: nat, c: nat): nat {
    if a <= b && a <= c then a else if b <= c then b else c
  }

  /** A whole turn in numbers. The captured bytes go to the end of what is stored. While
      playback is not prepared nothing is played, and it is prepared once more than 16384
      frames were captured; after that the least of the room, 3840 and the bytes stored is
      asked for as frames and handed over, and four times as many bytes, or all there are,
      are read off the front. */
  lemma TurnMeans(l: Loop, t: Turn)
    requires RingOk(l.s.q) && |t.data| % 4 == 0 && |t.data| <= 131072 && |t.data| <= FIFO_MAX_SIZE - l.s.q.size
    ensures LoopNext(l, t).Some? && RingOk(LoopNext(l, t).value.s.q)
    ensures var r := LoopNext(l, t).value;
            && r.captured == l.captured + |t.data| / 4 && r.s.written == l.s.written + t.data
            && (!l.prepared ==>
                 && (r.prepared <==> r.captured > 16384) && r.handed == l.handed && r.s.taken == l.s.taken
                 && Contents(r.s.q) == Contents(l.s.q) + t.data)
            && (l.prepared ==>
                 var stored := Contents(l.s.q) + t.data;
                 var n := Least(t.avail, 3840, |stored|);
                 var k := if 4 * n < |stored| then 4 * n else |stored|;
                 && r.prepared && r.handed == l.handed + n
                 && r.s.taken == l.s.taken + stored[..k] && Contents(r.s.q) == stored[k..])
  {
    WriteAppends(l.s.q, t.data);
    if l.prepared {
      var q := Write(l.s.q, t.data);
      PlayFramesIsLeast(t.avail, q.size);
      ReadTakesOldest(q, PlayFrames(t.avail, q.size) * PCM_SIZE);
      SplitFront(Contents(q), Read(q, PlayFrames(t.avail, q.size) * PCM_SIZE).0, Contents(Read(q, PlayFrames(t.avail, q.size) * PCM_SIZE).1));
    }
  }

  lemma SplitFront(all: seq<Byte>, front: seq<Byte>, rest: seq<Byte>)
    requires all == front + rest
    ensures all[..|front|] == front && all[|front|..] == rest
  {
  }

  /** What a turn without capture does to the counts. */
  lemma QuietTurn(l: Loop, avail: nat)
    requires RingOk(l.s.q) && l.prepared
    ensures var r := LoopNext(l, Turn([], avail)); var frames := PlayFrames(avail, l.s.q.size);
            var n := if l.s.q.size < frames * PCM_SIZE then l.s.q.size else frames * PCM_SIZE;
            && r.Some? && RingOk(r.value.s.q) && r.value.prepared
            && r.value.s.q.size == l.s.q.size - n
            && |r.value.s.taken| == |l.s.taken| + n
            && r.value.handed == l.handed + frames
  {
    WriteAppends(l.s.q, []);
    var q := Write(l.s.q, []);
    ReadTakesOldest(q, PlayFrames(avail, q.size) * PCM_SIZE);
    ReadSizes(q, PlayFrames(avail, q.size) * PCM_SIZE);
  }

  /** `n` turns in which the device takes all it can and enough is stored. */
  lemma {:induction false} FullTurns(l: Loop, n: nat) returns (turns: seq<Turn>)
    requires RingOk(l.s.q) && l.prepared && l.s.q.size >= n * 15360
    ensures Exec(LoopNext, l, turns).Some?
    ensures var r := Exec(LoopNext, l, turns).value;
            && RingOk(r.s.q) && r.prepared && r.s.q.size == l.s.q.size - n * 15360
            && |r.s.taken| == |l.s.taken| + n * 15360 && r.handed == l.handed + n * 3840
    decreases n
  {
    turns := [];
    if n > 0 {
      var before := FullTurns(l, n - 1);
      var m := Exec(LoopNext, l, before).value;
      QuietTurn(m, 3840);
      ExecSnoc(LoopNext, l, before, Turn([], 3840));
      turns := before + [Turn([], 3840)];
    }
  }

  /** A state in which 16385 frames are stored and playback is about to start. */
  ghost predicate Captured(l: Loop) {
    RingOk(l.s.q) && l.prepared && l.s.q.size == 65540 && l.s.taken == [] && l.handed == 0
  }

  lemma CaptureTurn(l: Loop, data: seq<Byte>)
    requires RingOk(l.s.q) && l.s.q.size == 0 && l.s.taken == [] && l.captured == 0 && !l.prepared && l.handed == 0
    requires |data| == 65540
    ensures LoopNext(l, Turn(data, 0)).Some? && Captured(LoopNext(l, Turn(data, 0)).value)
  {
    WriteAppends(l.s.q, data);
  }

  /** After 16385 captured frames and four full plays, 1025 frames are left; the fifth play
      hands over 3840. */
  lemma FifthPlayRunsOver(l: Loop) returns (turns: seq<Turn>)
    requires Captured(l)
    ensures Exec(LoopNext, l, turns).Some?
    ensures var r := Exec(LoopNext, l, turns).value; r.handed == 5 * 3840 && |r.s.taken| / PCM_SIZE == 4 * 3840 + 1025
  {
    var four := FullTurns(l, 4);
    var m := Exec(LoopNext, l, four).value;
    QuietTurn(m, 3840);
    ExecSnoc(LoopNext, l, four, Turn([], 3840));
    turns := four + [Turn([], 3840)];
  }

  /** So there is a run on which the device is handed more frames than were read. */
  lemma HandsOverMoreThanRead() returns (turns: seq<Turn>)
    ensures Exec(LoopNext, LoopInit(), turns).Some?
    ensures var l := Exec(LoopNext, LoopInit(), turns).value; l.handed > |l.s.taken| / PCM_SIZE
  {
    var data: seq<Byte> := seq(65540, _ => 0);
    var first := Turn(data, 0);
    InitOk();
    CaptureTurn(LoopInit(), data);
    ExecSnoc(LoopNext, LoopInit(), [], first);
    assert [] + [first] == [first];
    var rest := FifthPlayRunsOver(LoopNext(LoopInit(), first).value);
    ExecAppend(LoopNext, LoopInit(), [first], rest);
    turns := [first] + rest;
  }

  lemma InitOk()
    ensures RingOk(Init().q)
  {
  }

  // ----- the globals of alsa_loop.c, updated in place

  class Fifo {
    const buf: array<Byte>
    var wPtr: nat
    var rPtr: nat
    var size: nat

    ghost function Value(): Ring
      reads this, buf
    {
      Ring(buf[..], wPtr, rPtr, size)
    }

    constructor ()
      ensures RingOk(Value()) && fresh(buf) && Contents(Value()) == []
    {
      buf := new Byte[FIFO_MAX_SIZE](_ => 0);
      wPtr, rPtr, size := 0, 0, 0;
    }

    method CopyIn(at: nat, data: seq<Byte>)
      requires at + |data| <= buf.Length
      modifies buf
      ensures buf[..] == Overwrite(old(buf[..]), at, data)
    {
      ghost var was := buf[..];
      for k := 0 to |data|
        invariant forall j :: 0 <= j < k ==> buf[at + j] == data[j]
        invariant forall j :: 0 <= j < at || at + k <= j < buf.Length ==> buf[j] == was[j]
      {
        buf[at + k] := data[k];
      }
      assert buf[..] == Overwrite(was, at, data);
    }

    method WriteBytes(data: seq<Byte>) returns (n: nat)
      requires Shaped(Value()) && |data| <= FIFO_MAX_SIZE
      modifies this, buf
      ensures n == |data| && Value() == Write(old(Value()), data)
      // a block that fits is appended to the contents
      ensures old(RingOk(Value())) && |data| <= FIFO_MAX_SIZE - old(size) ==>
                RingOk(Value()) && Contents(Value()) == old(Contents(Value())) + data
    {
      if RingOk(Value()) && |data| <= FIFO_MAX_SIZE - size {
        WriteAppends(Value(), data);
      }
      if wPtr + |data| > FIFO_MAX_SIZE {
        var head := FIFO_MAX_SIZE - wPtr;
        CopyIn(wPtr, data[..head]);
        CopyIn(0, data[head..]);
        wPtr := |data| - head;
      } else {
        CopyIn(wPtr, data);
        wPtr := wPtr + |data|;
      }
      size := size + |data|;
      n := |data|;
    }

    method ReadBytes(want: nat) returns (out: seq<Byte>)
      requires Shaped(Value()) && size <= FIFO_MAX_SIZE
      modifies this
      ensures (out, Value()) == Read(old(Value()), want)
      // the oldest bytes leave the contents, as many as asked for and stored
      ensures old(RingOk(Value())) ==>
                && RingOk(Value()) && old(Contents(Value())) == out + Contents(Value())
                && |out| == if old(size) < want then old(size) else want
    {
      if RingOk(Value()) {
        ReadTakesOldest(Value(), want);
      }
      var len := if size < want then size else want;
      if rPtr + len > FIFO_MAX_SIZE {
        var head := FIFO_MAX_SIZE - rPtr;
        out := buf[rPtr..] + buf[..len - head];
        rPtr := len - head;
      } else {
        out := buf[rPtr..rPtr + len];
        rPtr := rPtr + len;
      }
      size := size - len;
    }
  }
}
