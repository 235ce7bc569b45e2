/**
 The buffer size search of latency.c: `setparams` tries a size on both sound
 devices and goes round again until they agree, and main calls it again after
 a failed run. The devices' answers are an oracle.
 */
module LatencySearch {
  import opened Runs

  const INT_MAX: int := 0x7fff_ffff
  const WORD: int := 0x1_0000_0000

  /** snd_pcm_uframes_t, an unsigned long. */
  type Frames = v: nat | v < 0x1_0000_0000_0000_0000

  /** What one attempt learns: whether each setup call failed, the period size, period
      time and buffer size of both sides, the least number of periods, whether the final
      setup failed, and whether the run with an accepted size worked. */
  datatype Answer = Answer(setupFails: bool, pPeriod: Frames, cPeriod: Frames, pTime: nat, cTime: nat,
                           pBuffer: Frames, cBuffer: Frames, pMinPeriods: nat, cMinPeriods: nat, finalFails: bool,
                           worked: bool)

  /** Returned 0, returned -1, or left the program. */
  datatype Result = Success | GaveUp | Exited

  predicate IsInt(b: int) { -INT_MAX - 1 <= b <= INT_MAX }

  /** The low 32 bits of an unsigned long. */
  function Low(v: nat): (w: nat)
    ensures w < WORD
  {
    if v < WORD then v else Low(v - WORD)
  }

  lemma {:induction false} LowIsRemainder(v: nat) returns (q: nat)
    ensures v == WORD * q + Low(v)
  {
    q := 0;
    if v >= WORD {
      q := LowIsRemainder(v - WORD);
      q := q + 1;
    }
  }

  /** An unsigned long stored in an int: its low 32 bits in two's complement. */
  function ToInt(v: nat): (b: int)
    ensures IsInt(b)
  {
    if Low(v) > INT_MAX then Low(v) - WORD else Low(v)
  }

  /** The cast of an int to unsigned int. */
  function Unsigned(b: int): (w: int)
    ensures IsInt(b) ==> 0 <= w < WORD && ToInt(w) == b
  {
    if b < 0 then b + WORD else b
  }

  /** `if (psize > (unsigned int)*bufsize) *bufsize = psize`. */
  function Raise(bufsize: int, period: Frames): (b: int)
    ensures IsInt(bufsize) ==> IsInt(b)
  {
    if period > Unsigned(bufsize) then ToInt(period) else bufsize
  }

  /** The size after an attempt: raised to both periods. */
  function Raised(bufsize: int, a: Answer): (b: int)
    ensures IsInt(bufsize) ==> IsInt(b)
  {
    Raise(Raise(bufsize, a.pPeriod), a.cPeriod)
  }

  /** `psize * 2` in unsigned long arithmetic. */
  function Twice(v: Frames): Frames { if 2 * v < 0x1_0000_0000_0000_0000 then 2 * v else 2 * v - 0x1_0000_0000_0000_0000 }

  /** The answers on which an attempt is accepted: equal period times and at most two
      periods per buffer on both sides. */
  predicate Accepted(a: Answer) {
    !a.setupFails && a.pTime == a.cTime && a.pBuffer <= Twice(a.pPeriod) && a.cBuffer <= Twice(a.cPeriod) && !a.finalFails
  }

  /** ... and those on which it is repeated with another size. */
  predicate Retried(a: Answer) {
    && !a.setupFails
    && (a.pTime != a.cTime || (if Twice(a.pPeriod) < a.pBuffer then a.pMinPeriods <= 2
                               else Twice(a.cPeriod) < a.cBuffer && a.cMinPeriods <= 2))
  }

  /** Main goes on after an attempt that is repeated, and after one whose run failed. */
  predicate GoesOn(a: Answer) { Retried(a) || (Accepted(a) && !a.worked) }

  /** At most two periods per buffer, in plain integers; a doubled period that does not fit
      an unsigned long wraps. */
  predicate TwoPeriods(period: Frames, buffer: Frames) {
    if 2 * period < 0x1_0000_0000_0000_0000 then buffer <= 2 * period
    else buffer <= 2 * period - 0x1_0000_0000_0000_0000
  }

  /** An attempt is accepted exactly when all setup works, the period times are equal and
      both buffers hold at most two periods. */
  lemma AcceptedIff(a: Answer)
    ensures Accepted(a) <==> !a.setupFails && !a.finalFails && a.pTime == a.cTime
                             && TwoPeriods(a.pPeriod, a.pBuffer) && TwoPeriods(a.cPeriod, a.cBuffer)
    ensures Accepted(a) ==> a.pBuffer <= 2 * a.pPeriod && a.cBuffer <= 2 * a.cPeriod
  {
  }

  /** It is repeated exactly when the first setup works and either the period times differ,
      or the first side with too many periods per buffer can do with two. */
  lemma RetriedIff(a: Answer)
    ensures Retried(a) <==> (&& !a.setupFails
                             && (|| a.pTime != a.cTime
                                 || (!TwoPeriods(a.pPeriod, a.pBuffer) && a.pMinPeriods <= 2)
                                 || (TwoPeriods(a.pPeriod, a.pBuffer) && !TwoPeriods(a.cPeriod, a.cBuffer) && a.cMinPeriods <= 2)))
    ensures !(Accepted(a) && Retried(a))
  {
  }

  /** The size after `b`: a new call adds 4 at once, a repeated attempt only when the
      periods left the size alone. None when the addition overflows an int. */
  function NextSize(b: int, a: Answer): Option<int> {
    var r := Raised(b, a);
    if Accepted(a) || r == b then (if r > INT_MAX - 4 then None else Some(r + 4)) else Some(r)
  }

  // ----- when the next size is larger

  /** What the second comparison looks at: the playback period if that was stored, else the size. */
  function Compared(b: int, a: Answer): int {
    if a.pPeriod > Unsigned(b) then Low(a.pPeriod) else Unsigned(b)
  }

  /** Neither store wraps below `b`, and the increment stays inside an int: the capture
      period decides if it is stored, else the playback period if it is, else `b` itself. */
  predicate Grows(b: int, a: Answer) {
    var n := if a.cPeriod > Compared(b, a) then ToInt(a.cPeriod)
             else if a.pPeriod > Unsigned(b) then ToInt(a.pPeriod)
             else b;
    if Accepted(a) then b - 4 < n <= INT_MAX - 4 else b < n || n == b <= INT_MAX - 4
  }

  /** The next size is strictly larger exactly when no store wraps below the last one. */
  lemma NextIsLargerIff(b: int, a: Answer)
    requires IsInt(b)
    ensures NextSize(b, a).Some? && NextSize(b, a).value > b <==> Grows(b, a)
  {
  }

  function Max(a: int, b: int): int { if a >= b then a else b }

  /** The size after an attempt is the larger of what was tried and what the devices use,
      for every size tried, exactly when both periods fit in an int. */
  lemma RaisedIsMaximumIff(a: Answer)
    ensures (forall b :: 0 <= b <= INT_MAX ==> Raised(b, a) == Max(b, Max(a.pPeriod, a.cPeriod)))
            <==> a.pPeriod <= INT_MAX && a.cPeriod <= INT_MAX
  {
    if a.pPeriod > INT_MAX || a.cPeriod > INT_MAX {
      assert Raised(0, a) <= INT_MAX;
    }
  }

  /** Periods that an int holds with room for the increment always grow, to the maximum. */
  lemma FittingPeriodsGrow(b: int, a: Answer)
    requires 0 <= b <= INT_MAX - 4 && a.pPeriod <= INT_MAX - 4 && a.cPeriod <= INT_MAX - 4
    ensures Grows(b, a) && Raised(b, a) == Max(b, Max(a.pPeriod, a.cPeriod))
  {
    SmallFits(b);
    SmallFits(a.pPeriod);
    SmallFits(a.cPeriod);
  }

  lemma SmallFits(v: nat)
    requires v <= INT_MAX
    ensures Low(v) == v == ToInt(v)
  {
  }

  /** A period that does not fit can make the next attempt smaller, or leave it undefined. */
  lemma HugePeriodShrinks(a: Answer)
    requires a.cPeriod == 0
    ensures a.pPeriod == INT_MAX + 1 ==> NextSize(32, a).Some? && NextSize(32, a).value < 32
    ensures a.pPeriod == INT_MAX && Accepted(a) ==> NextSize(32, a).None?
  {
  }

  // ----- searches, whatever the sizes and answers

  /** Attempts made one after the other: the next size, if it can be computed; whether an
      attempt is followed by another one; when the next size is larger; the limit. */
  datatype Search<!A> = Search(next: (int, A) -> Option<int>, goes: A -> bool, grows: (int, A) -> bool, limit: int)

  /** The size of attempt `k`. */
  ghost function Size<A>(q: Search<A>, first: Option<int>, answers: nat -> A, k: nat): Option<int> {
    if k == 0 then first
    else
      match Size(q, first, answers, k - 1)
      case None => None
      case Some(b) => q.next(b, answers(k - 1))
  }

  /** Attempt `k` is made: its size is within the limit and the attempts before it went on. */
  ghost predicate Made<A>(q: Search<A>, first: Option<int>, answers: nat -> A, k: nat) {
    && Size(q, first, answers, k).Some? && Size(q, first, answers, k).value <= q.limit
    && (k > 0 ==> Made(q, first, answers, k - 1) && q.goes(answers(k - 1)))
  }

  /** If attempt `k` is followed by another one, it grows. */
  ghost predicate GrowsAt<A>(q: Search<A>, first: Option<int>, answers: nat -> A, k: nat) {
    Made(q, first, answers, k) && q.goes(answers(k)) ==> q.grows(Size(q, first, answers, k).value, answers(k))
  }

  ghost predicate Growing<A>(q: Search<A>, first: Option<int>, answers: nat -> A) {
    forall k: nat {:trigger GrowsAt(q, first, answers, k)} :: GrowsAt(q, first, answers, k)
  }

  /** If attempt `k` is followed by another one, that has a size, and a larger one. */
  ghost predicate LargerAt<A>(q: Search<A>, first: Option<int>, answers: nat -> A, k: nat) {
    Made(q, first, answers, k) && q.goes(answers(k)) ==>
      Size(q, first, answers, k + 1).Some? && Size(q, first, answers, k + 1).value > Size(q, first, answers, k).value
  }

  /** `grows` is the exact condition for the next size to be larger. */
  ghost predicate Exact<A(!new)>(q: Search<A>) {
    && (forall b, a :: IsInt(b) && q.next(b, a).Some? ==> IsInt(q.next(b, a).value))
    && (forall b, a :: IsInt(b) ==> (q.next(b, a).Some? && q.next(b, a).value > b <==> q.grows(b, a)))
  }

  lemma {:induction false} SizesAreInts<A(!new)>(q: Search<A>, first: Option<int>, answers: nat -> A, k: nat)
    requires Exact(q) && Size(q, first, answers, k).Some? && (first.Some? ==> IsInt(first.value))
    ensures IsInt(Size(q, first, answers, k).value)
  {
    if k > 0 {
      SizesAreInts(q, first, answers, k - 1);
    }
  }

  lemma LargerAtIff<A(!new)>(q: Search<A>, first: Option<int>, answers: nat -> A, k: nat)
    requires Exact(q) && (first.Some? ==> IsInt(first.value))
    ensures LargerAt(q, first, answers, k) <==> GrowsAt(q, first, answers, k)
  {
    if Made(q, first, answers, k) {
      SizesAreInts(q, first, answers, k);
    }
  }

  /** The sizes tried are those of the search. */
  ghost predicate Follows<A>(q: Search<A>, first: Option<int>, answers: nat -> A, tried: seq<int>) {
    forall i {:trigger TriedAt(q, first, answers, i, tried[i])} ::
      0 <= i < |tried| ==> TriedAt(q, first, answers, i, tried[i])
  }

  ghost predicate TriedAt<A>(q: Search<A>, first: Option<int>, answers: nat -> A, i: nat, size: int) {
    Made(q, first, answers, i) && Size(q, first, answers, i) == Some(size)
  }

  ghost predicate Increasing(s: seq<int>) { forall i, j :: 0 <= i < j < |s| ==> s[i] < s[j] }

  /** What the attempts made amount to: the sizes are those of the search, each larger than
      the one before, and within the limit. */
  ghost predicate Searched<A>(q: Search<A>, first: Option<int>, answers: nat -> A, tried: seq<int>) {
    && Follows(q, first, answers, tried) && Increasing(tried)
    && forall i :: 0 <= i < |tried| ==> first.Some? && first.value + i <= tried[i] <= q.limit
  }

  /** The sizes of a search that grows increase from the first one and stay within the
      limit, so the search ends. */
  lemma {:induction false} GrowingIncreases<A(!new)>(q: Search<A>, first: Option<int>, answers: nat -> A, tried: seq<int>)
    requires Exact(q) && (first.Some? ==> IsInt(first.value))
    requires Growing(q, first, answers) && Follows(q, first, answers, tried)
    ensures Searched(q, first, answers, tried)
    decreases |tried|
  {
    if tried != [] {
      var n := |tried| - 1;
      var before := tried[..n];
      forall i | 0 <= i < n ensures TriedAt(q, first, answers, i, before[i]) {
        assert TriedAt(q, first, answers, i, tried[i]);
      }
      GrowingIncreases(q, first, answers, before);
      assert TriedAt(q, first, answers, n, tried[n]);
      if n > 0 {
        assert TriedAt(q, first, answers, n - 1, before[n - 1]);
        assert GrowsAt(q, first, answers, n - 1);
        LargerAtIff(q, first, answers, n - 1);
        assert tried[n] > before[n - 1];
      }
    }
  }

  function Later<A>(answers: nat -> A, n: nat): nat -> A { (i: nat) => answers(n + i) }

  /** The attempts from number `n` on are a search of their own, also one that stops earlier. */
  lemma {:induction false} LaterPart<A(!new)>(q: Search<A>, goes: A -> bool, first: Option<int>, answers: nat -> A, n: nat, k: nat)
    requires forall a :: goes(a) ==> q.goes(a)
    requires n > 0 ==> Made(q, first, answers, n - 1) && q.goes(answers(n - 1))
    ensures Size(q, Size(q, first, answers, n), Later(answers, n), k) == Size(q, first, answers, n + k)
    ensures Size(q.(goes := goes), Size(q, first, answers, n), Later(answers, n), k) == Size(q, first, answers, n + k)
    ensures Made(q.(goes := goes), Size(q, first, answers, n), Later(answers, n), k) ==> Made(q, first, answers, n + k)
    decreases k
  {
    if k > 0 {
      LaterPart(q, goes, first, answers, n, k - 1);
    }
  }

  lemma LaterPartGrows<A(!new)>(q: Search<A>, goes: A -> bool, first: Option<int>, answers: nat -> A, n: nat)
    requires forall a :: goes(a) ==> q.goes(a)
    requires n > 0 ==> Made(q, first, answers, n - 1) && q.goes(answers(n - 1))
    requires Growing(q, first, answers)
    ensures Growing(q.(goes := goes), Size(q, first, answers, n), Later(answers, n))
  {
    forall k: nat ensures GrowsAt(q.(goes := goes), Size(q, first, answers, n), Later(answers, n), k) {
      LaterPart(q, goes, first, answers, n, k);
      assert GrowsAt(q, first, answers, n + k);
    }
  }

  /** Sizes tried before and after attempt `n` follow the search together. */
  lemma FollowsOn<A(!new)>(q: Search<A>, goes: A -> bool, first: Option<int>, answers: nat -> A, tried: seq<int>, more: seq<int>)
    requires forall a :: goes(a) ==> q.goes(a)
    requires tried != [] ==> q.goes(answers(|tried| - 1))
    requires Follows(q, first, answers, tried)
    requires Follows(q.(goes := goes), Size(q, first, answers, |tried|), Later(answers, |tried|), more)
    ensures Follows(q, first, answers, tried + more)
  {
    var n := |tried|;
    if n > 0 {
      assert TriedAt(q, first, answers, n - 1, tried[n - 1]);
    }
    forall i | 0 <= i < |tried + more| ensures TriedAt(q, first, answers, i, (tried + more)[i]) {
      if i < n {
        assert TriedAt(q, first, answers, i, tried[i]);
      } else {
        assert TriedAt(q.(goes := goes), Size(q, first, answers, n), Later(answers, n), i - n, more[i - n]);
        LaterPart(q, goes, first, answers, n, i - n);
      }
    }
  }

  // ----- setparams and the loop of main

  /** Every call starts with an increment. */
  function First(start: int): Option<int> { if start > INT_MAX - 4 then None else Some(start + 4) }

  /** The attempts of one call of setparams, and those of all calls together. */
  function Call(limit: int): Search<Answer> { Search(NextSize, Retried, Grows, limit) }

  function Program(limit: int): Search<Answer> { Search(NextSize, GoesOn, Grows, limit) }

  lemma SearchesAreExact(limit: int)
    ensures Exact(Call(limit)) && Exact(Program(limit))
  {
    forall b, a | IsInt(b)
      ensures NextSize(b, a).Some? ==> IsInt(NextSize(b, a).value)
      ensures NextSize(b, a).Some? && NextSize(b, a).value > b <==> Grows(b, a)
    {
      NextIsLargerIff(b, a);
    }
  }

  /** Along the whole program: every size is larger than the one before exactly when no
      store of an attempt that is followed by another one wraps below its size. */
  lemma SearchGrowsIff(latencyMin: int, latencyMax: int, answers: nat -> Answer)
    requires 4 <= latencyMin <= INT_MAX
    ensures Growing(Program(latencyMax), First(latencyMin - 4), answers) <==>
            forall k: nat {:trigger LargerAt(Program(latencyMax), First(latencyMin - 4), answers, k)} ::
              LargerAt(Program(latencyMax), First(latencyMin - 4), answers, k)
  {
    SearchesAreExact(latencyMax);
    var q, first := Program(latencyMax), First(latencyMin - 4);
    forall k: nat ensures LargerAt(q, first, answers, k) <==> GrowsAt(q, first, answers, k) {
      LargerAtIff(q, first, answers, k);
    }
  }

  /** Devices that always answer with a playback period of 2^32 + 10 frames and different
      period times. */
  function Wrapping(i: nat): Answer { Answer(false, 0x1_0000_000a, 0, 0, 1, 0, 0, 0, 0, false, false) }

  /** On those a call of setparams from the default minimum never ends: 32, 10, 14, 10, 14, ... */
  lemma {:induction false} WrappingNeverEnds(latencyMax: int, k: nat)
    requires latencyMax >= 32
    ensures Size(Call(latencyMax), First(28), Wrapping, k) == Some(if k == 0 then 32 else if k % 2 == 1 then 10 else 14)
    ensures Made(Call(latencyMax), First(28), Wrapping, k)
  {
    if k > 0 {
      WrappingNeverEnds(latencyMax, k - 1);
    }
  }

  /** The size in use after an accepted attempt. */
  ghost predicate Chosen(a: Answer, size: int, bufsize: int) { Accepted(a) && bufsize == Raised(size, a) }

  /** One attempt is accepted, retried with another size, or ends the program. */
  datatype Outcome = Accept | Retry | Leave

  /** From `__set_it` to the end or the next `goto __again`. */
  method TryOnce(size: int, a: Answer) returns (outcome: Outcome, bufsize: int)
    ensures outcome.Accept? <==> Accepted(a)
    ensures outcome.Retry? <==> Retried(a)
    ensures !outcome.Leave? ==> bufsize == Raised(size, a)
  {
    bufsize := size;
    if a.setupFails {
      return Leave, bufsize;
    }
    if a.pPeriod > Unsigned(bufsize) {
      bufsize := ToInt(a.pPeriod);
    }
    if a.cPeriod > Unsigned(bufsize) {
      bufsize := ToInt(a.cPeriod);
    }
    if a.pTime != a.cTime {
      return Retry, bufsize;
    }
    if Twice(a.pPeriod) < a.pBuffer {
      return if a.pMinPeriods > 2 then Leave else Retry, bufsize;
    }
    if Twice(a.cPeriod) < a.cBuffer {
      return if a.cMinPeriods > 2 then Leave else Retry, bufsize;
    }
    return if a.finalFails then Leave else Accept, bufsize;
  }

  /** At `__again`: before the first attempt, or after one that is repeated. */
  ghost predicate AtAgain(start: int, answers: nat -> Answer, tried: seq<int>, last: int, bufsize: int) {
    if tried == [] then last == bufsize == start
    else last == tried[|tried| - 1] && Retried(answers(|tried| - 1)) && bufsize == Raised(last, answers(|tried| - 1))
  }

  /** The size that comes after those tried. */
  ghost predicate NextIs(start: int, answers: nat -> Answer, tried: seq<int>, size: int) {
    if tried == [] then size == start + 4 else NextSize(tried[|tried| - 1], answers(|tried| - 1)) == Some(size)
  }

  lemma AgainIsNext(latencyMax: int, start: int, answers: nat -> Answer, tried: seq<int>, last: int, bufsize: int)
    requires IsInt(start) && start <= INT_MAX - 4 && Growing(Call(latencyMax), First(start), answers)
    requires Follows(Call(latencyMax), First(start), answers, tried) && AtAgain(start, answers, tried, last, bufsize)
    ensures var b := if last == bufsize then bufsize + 4 else bufsize;
            && b > last && NextIs(start, answers, tried, b)
            && (b <= latencyMax ==> Follows(Call(latencyMax), First(start), answers, tried + [b]))
  {
    var b := if last == bufsize then bufsize + 4 else bufsize;
    if tried != [] {
      var k := |tried| - 1;
      assert TriedAt(Call(latencyMax), First(start), answers, k, tried[k]);
      assert GrowsAt(Call(latencyMax), First(start), answers, k);
      SearchesAreExact(latencyMax);
      SizesAreInts(Call(latencyMax), First(start), answers, k);
      NextIsLargerIff(last, answers(k));
    }
    if b <= latencyMax {
      FollowsSnoc(Call(latencyMax), First(start), answers, tried, b);
    }
  }

  predicate AcceptedAt(answers: nat -> Answer, i: nat) { Accepted(answers(i)) }

  ghost predicate NoneAccepted(answers: nat -> Answer, n: int) {
    forall i {:trigger AcceptedAt(answers, i)} :: 0 <= i < n ==> !AcceptedAt(answers, i)
  }

  lemma FollowsSnoc<A>(q: Search<A>, first: Option<int>, answers: nat -> A, tried: seq<int>, b: int)
    requires Follows(q, first, answers, tried) && TriedAt(q, first, answers, |tried|, b)
    ensures Follows(q, first, answers, tried + [b])
  {
    forall i | 0 <= i < |tried| + 1 ensures TriedAt(q, first, answers, i, (tried + [b])[i]) {
      if i < |tried| {
        assert TriedAt(q, first, answers, i, tried[i]);
      }
    }
  }

  /** The answer to an accepted attempt, in plain integers. */
  ghost predicate Agrees(a: Answer) { a.pTime == a.cTime && a.pBuffer <= 2 * a.pPeriod && a.cBuffer <= 2 * a.cPeriod }

  /** How a call that searches ends. The sizes are those of the search, from above the start
      up to the limit, each larger than the last. Success is acceptance of the last size
      tried, and the size is then what the devices use; giving up means that the next size
      is over the limit; the program ends when an attempt is neither accepted nor repeated.
      Nothing was accepted before the end. */
  ghost predicate CallEnded(result: Result, latencyMax: int, start: int, answers: nat -> Answer, tried: seq<int>, bufsize: int) {
    && Searched(Call(latencyMax), First(start), answers, tried)
    && NoneAccepted(answers, if result.Success? then |tried| - 1 else |tried|)
    && match result
       case Success =>
         tried != [] && Chosen(answers(|tried| - 1), tried[|tried| - 1], bufsize) && Agrees(answers(|tried| - 1))
       case GaveUp =>
         bufsize > latencyMax && NextIs(start, answers, tried, bufsize) && (tried != [] ==> Retried(answers(|tried| - 1)))
       case Exited => tried != [] && !Accepted(answers(|tried| - 1)) && !Retried(answers(|tried| - 1))
  }

  /** How a call with a size from the command line ends: it is tried once. */
  ghost predicate FixedEnded(result: Result, size: int, a: Answer, tried: seq<int>, bufsize: int) {
    && tried == [size] && (result.Success? <==> Accepted(a)) && (result.GaveUp? <==> Retried(a))
    && (result.Success? ==> bufsize == Raised(size, a) && Agrees(a))
  }

  /** Before an attempt inside a call. */
  ghost predicate Searching(latencyMax: int, start: int, answers: nat -> Answer, tried: seq<int>, last: int, bufsize: int) {
    && Follows(Call(latencyMax), First(start), answers, tried) && AtAgain(start, answers, tried, last, bufsize)
    && NoneAccepted(answers, |tried|)
  }

  lemma CallStops(latencyMax: int, start: int, answers: nat -> Answer, tried: seq<int>, last: int, bufsize: int, b: int)
    requires IsInt(start) && start <= INT_MAX - 4 && Growing(Call(latencyMax), First(start), answers)
    requires Searching(latencyMax, start, answers, tried, last, bufsize) && NextIs(start, answers, tried, b) && b > latencyMax
    ensures CallEnded(GaveUp, latencyMax, start, answers, tried, b)
  {
    CallIncreases(latencyMax, start, answers, tried);
  }

  lemma CallTried(latencyMax: int, start: int, answers: nat -> Answer, tried: seq<int>, b: int, outcome: Outcome, bufsize: int)
    requires IsInt(start) && start <= INT_MAX - 4 && Growing(Call(latencyMax), First(start), answers)
    requires NoneAccepted(answers, |tried|) && Follows(Call(latencyMax), First(start), answers, tried + [b])
    requires outcome.Accept? <==> Accepted(answers(|tried|))
    requires outcome.Retry? <==> Retried(answers(|tried|))
    requires !outcome.Leave? ==> bufsize == Raised(b, answers(|tried|))
    ensures outcome.Retry? ==> Searching(latencyMax, start, answers, tried + [b], b, bufsize)
    ensures outcome.Accept? ==> CallEnded(Success, latencyMax, start, answers, tried + [b], bufsize)
    ensures outcome.Leave? ==> CallEnded(Exited, latencyMax, start, answers, tried + [b], bufsize)
  {
    AcceptedIff(answers(|tried|));
    RetriedIff(answers(|tried|));
    CallIncreases(latencyMax, start, answers, tried + [b]);
  }

  /** setparams. `tried` lists the sizes attempted; attempt number i gets `answers(i)`. */
  method SetParams(bufferSize: int, latencyMax: int, start: int, answers: nat -> Answer)
    returns (result: Result, bufsize: int, tried: seq<int>)
    requires IsInt(bufferSize) && IsInt(latencyMax) && IsInt(start)
    requires bufferSize <= 0 ==> start <= INT_MAX - 4 && Growing(Call(latencyMax), First(start), answers)
    ensures bufferSize <= 0 ==> CallEnded(result, latencyMax, start, answers, tried, bufsize)
    ensures bufferSize > 0 ==> FixedEnded(result, bufferSize, answers(0), tried, bufsize)
  {
    var last := start;
    bufsize := start;
    tried := [];
    var skip := bufferSize > 0;
    if skip {
      bufsize := bufferSize;
    }
    while true
      invariant skip ==> bufferSize > 0 && bufsize == bufferSize && tried == []
      invariant !skip && bufferSize > 0 ==> FixedEnded(GaveUp, bufferSize, answers(0), tried, bufsize)
      invariant bufferSize <= 0 ==> Searching(latencyMax, start, answers, tried, last, bufsize)
      decreases skip, if last <= latencyMax then latencyMax - last + 1 else 0
    {
      if !skip {
        if bufferSize > 0 {
          return GaveUp, bufsize, tried;
        }
        AgainIsNext(latencyMax, start, answers, tried, last, bufsize);
        ghost var was, before := last, bufsize;
        if last == bufsize {
          bufsize := bufsize + 4;
        }
        last := bufsize;
        if bufsize > latencyMax {
          CallStops(latencyMax, start, answers, tried, was, before, bufsize);
          return GaveUp, bufsize, tried;
        }
      }
      skip := false;
      var outcome, raised := TryOnce(bufsize, answers(|tried|));
      if bufferSize <= 0 {
        CallTried(latencyMax, start, answers, tried, bufsize, outcome, raised);
      } else {
        AcceptedIff(answers(0));
        RetriedIff(answers(0));
      }
      tried, bufsize := tried + [bufsize], raised;
      if !outcome.Retry? {
        return if outcome.Accept? then Success else Exited, bufsize, tried;
      }
    }
  }

  lemma CallIncreases(latencyMax: int, start: int, answers: nat -> Answer, tried: seq<int>)
    requires IsInt(start) && start <= INT_MAX - 4 && Growing(Call(latencyMax), First(start), answers)
    requires Follows(Call(latencyMax), First(start), answers, tried)
    ensures Searched(Call(latencyMax), First(start), answers, tried)
  {
    SearchesAreExact(latencyMax);
    GrowingIncreases(Call(latencyMax), First(start), answers, tried);
  }

  predicate WorkedAt(answers: nat -> Answer, i: nat) { Accepted(answers(i)) && answers(i).worked }

  /** None of the first `n` attempts was accepted and its run a success. */
  ghost predicate NoneWorked(answers: nat -> Answer, n: int) {
    forall i {:trigger WorkedAt(answers, i)} :: 0 <= i < n ==> !WorkedAt(answers, i)
  }

  lemma NoneWorkedOn(answers: nat -> Answer, n: nat, m: nat)
    requires NoneWorked(answers, n) && NoneAccepted(Later(answers, n), m)
    ensures NoneWorked(answers, n + m)
  {
    forall i | 0 <= i < n + m ensures !WorkedAt(answers, i) {
      if i >= n {
        assert !AcceptedAt(Later(answers, n), i - n);
      }
    }
  }

  /** Between two calls in main: before the first, or after an accepted size that failed. */
  ghost predicate BetweenCalls(start: int, answers: nat -> Answer, tried: seq<int>, latency: int) {
    if tried == [] then latency == start
    else
      var a := answers(|tried| - 1);
      !a.worked && Chosen(a, tried[|tried| - 1], latency)
  }

  /** The next call takes up the search where the last one left it. */
  lemma CallTakesUp(latencyMax: int, start: int, answers: nat -> Answer, tried: seq<int>, latency: int)
    requires IsInt(start) && start <= INT_MAX - 4 && Growing(Program(latencyMax), First(start), answers)
    requires Follows(Program(latencyMax), First(start), answers, tried) && BetweenCalls(start, answers, tried, latency)
    ensures IsInt(latency) && latency <= INT_MAX - 4
    ensures First(latency) == Size(Program(latencyMax), First(start), answers, |tried|)
    ensures Growing(Call(latencyMax), First(latency), Later(answers, |tried|))
  {
    if tried != [] {
      var k := |tried| - 1;
      assert TriedAt(Program(latencyMax), First(start), answers, k, tried[k]);
      assert GrowsAt(Program(latencyMax), First(start), answers, k);
      SearchesAreExact(latencyMax);
      SizesAreInts(Program(latencyMax), First(start), answers, k);
    }
    LaterPartGrows(Program(latencyMax), Retried, First(start), answers, |tried|);
  }

  /** The last size tried, or where the search starts. */
  ghost function LastOf(start: int, tried: seq<int>): int { if tried == [] then start else tried[|tried| - 1] }

  /** After the call the sizes of all calls together follow the search. */
  lemma CallFollows(
    latencyMax: int, start: int, answers: nat -> Answer, tried: seq<int>, latency: int, more: seq<int>)
    requires IsInt(start) && start <= INT_MAX - 4 && Growing(Program(latencyMax), First(start), answers)
    requires Follows(Program(latencyMax), First(start), answers, tried) && BetweenCalls(start, answers, tried, latency)
    requires Follows(Call(latencyMax), First(latency), Later(answers, |tried|), more)
    ensures Searched(Program(latencyMax), First(start), answers, tried + more)
    ensures more != [] ==> LastOf(start, tried) < LastOf(start, tried + more) <= latencyMax
  {
    CallTakesUp(latencyMax, start, answers, tried, latency);
    FollowsOn(Program(latencyMax), Retried, First(start), answers, tried, more);
    SearchesAreExact(latencyMax);
    GrowingIncreases(Program(latencyMax), First(start), answers, tried + more);
    if tried != [] {
      assert (tried + more)[|tried| - 1] == tried[|tried| - 1];
    }
  }

  /** The state of the loop between two calls. */
  ghost predicate Ready(latencyMax: int, start: int, answers: nat -> Answer, tried: seq<int>, latency: int) {
    && Searched(Program(latencyMax), First(start), answers, tried) && NoneWorked(answers, |tried|)
    && BetweenCalls(start, answers, tried, latency)
  }

  /** How the loop of main ends: at the first accepted size that works, with the size the
      devices use; when the next size is over the limit; or with the program. The sizes of
      all calls together are those of one search. */
  ghost predicate LoopEnded(result: Result, latencyMax: int, start: int, answers: nat -> Answer, tried: seq<int>, latency: int) {
    && Searched(Program(latencyMax), First(start), answers, tried)
    && NoneWorked(answers, if result.Success? then |tried| - 1 else |tried|)
    && match result
       case Success =>
         && tried != [] && answers(|tried| - 1).worked
         && Chosen(answers(|tried| - 1), tried[|tried| - 1], latency) && Agrees(answers(|tried| - 1))
       case GaveUp =>
         latency > latencyMax && NextIs(start, answers, tried, latency) && (tried != [] ==> GoesOn(answers(|tried| - 1)))
       case Exited => tried != [] && !Accepted(answers(|tried| - 1)) && !Retried(answers(|tried| - 1))
  }

  /** How a call ends, in terms of all attempts: the loop ends with it, or it is the state
      for the next call, with a larger size tried. */
  lemma CallEnds(latencyMax: int, start: int, answers: nat -> Answer, tried: seq<int>, before: int,
                 result: Result, more: seq<int>, latency: int)
    requires IsInt(start) && start <= INT_MAX - 4 && Growing(Program(latencyMax), First(start), answers)
    requires Ready(latencyMax, start, answers, tried, before)
    requires CallEnded(result, latencyMax, before, Later(answers, |tried|), more, latency)
    ensures result.Success? ==> more != []
    ensures var all := tried + more;
            if result.Success? && !answers(|all| - 1).worked
            then Ready(latencyMax, start, answers, all, latency) && LastOf(start, tried) < LastOf(start, all) <= latencyMax
            else LoopEnded(result, latencyMax, start, answers, all, latency)
  {
    NoneWorkedOn(answers, |tried|, if result.Success? then |more| - 1 else |more|);
    CallFollows(latencyMax, start, answers, tried, before, more);
    CallTakesUp(latencyMax, start, answers, tried, before);
    if result.GaveUp? {
      CallGivesUp(start, answers, tried, before, more, latency);
    }
  }

  /** Where a call gives up, the search of all calls does. */
  lemma CallGivesUp(start: int, answers: nat -> Answer, tried: seq<int>, before: int, more: seq<int>, latency: int)
    requires BetweenCalls(start, answers, tried, before) && NextIs(before, Later(answers, |tried|), more, latency)
    requires before <= INT_MAX - 4
    requires more != [] ==> Retried(Later(answers, |tried|)(|more| - 1))
    ensures NextIs(start, answers, tried + more, latency)
    ensures tried + more != [] ==> GoesOn(answers(|tried + more| - 1))
  {
    if more == [] {
      assert tried + more == tried;
    }
  }

  lemma LoopStarts(latencyMax: int, start: int, answers: nat -> Answer)
    ensures Ready(latencyMax, start, answers, [], start)
  {
  }

  /** The retry loop of main in automatic mode; `answers` are those of all calls together.
      Over all calls every attempt is larger than the one before, so the loop ends. */
  method RetryLoop(latencyMin: int, latencyMax: int, answers: nat -> Answer)
    returns (result: Result, latency: int, tried: seq<int>)
    requires 4 <= latencyMin <= latencyMax <= INT_MAX
    requires Growing(Program(latencyMax), First(latencyMin - 4), answers)
    ensures LoopEnded(result, latencyMax, latencyMin - 4, answers, tried, latency)
  {
    var start := latencyMin - 4;
    latency := start;
    tried := [];
    LoopStarts(latencyMax, start, answers);
    while true
      invariant Ready(latencyMax, start, answers, tried, latency)
      decreases latencyMax - LastOf(start, tried)
    {
      var more, again;
      result, latency, more, again := NextCall(latencyMax, start, answers, tried, latency);
      tried := tried + more;
      if !again {
        return;
      }
    }
  }

  /** One call of setparams from main, and whether another one follows. */
  method NextCall(latencyMax: int, ghost start: int, answers: nat -> Answer, tried: seq<int>, before: int)
    returns (result: Result, latency: int, more: seq<int>, again: bool)
    requires IsInt(latencyMax) && IsInt(start) && start <= INT_MAX - 4 && Growing(Program(latencyMax), First(start), answers)
    requires Ready(latencyMax, start, answers, tried, before)
    ensures again <==> result.Success? && tried + more != [] && !answers(|tried + more| - 1).worked
    ensures if again then Ready(latencyMax, start, answers, tried + more, latency)
                          && LastOf(start, tried) < LastOf(start, tried + more) <= latencyMax
            else LoopEnded(result, latencyMax, start, answers, tried + more, latency)
  {
    CallTakesUp(latencyMax, start, answers, tried, before);
    result, latency, more := SetParams(0, latencyMax, before, Later(answers, |tried|));
    CallEnds(latencyMax, start, answers, tried, before, result, more, latency);
    again := result.Success? && !answers(|tried + more| - 1).worked;
  }
}
