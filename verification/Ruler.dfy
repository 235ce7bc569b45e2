/**
 `subdivide` of ruler.cpp: recursive halving of an interval, marking the
 midpoints in place.
 */
module Ruler {
  import opened Basics

  /** The cells the recursion marks. */
  predicate IsMark(low: nat, high: nat, level: nat, i: int)
    requires low <= high
    decreases level
  {
    if level == 0 then false
    else
      var mid := (high + low) / 2;
      i == mid || IsMark(low, mid, level - 1, i) || IsMark(mid, high, level - 1, i)
  }

  method Subdivide(ar: array<char>, low: nat, high: nat, level: nat)
    requires low <= high < ar.Length
    modifies ar
    ensures forall i :: 0 <= i < ar.Length ==> ar[i] == if IsMark(low, high, level, i) then '|' else old(ar[i])
    decreases level
  {
    if level == 0 {
      return;
    }
    var mid := (high + low) / 2;
    ar[mid] := '|';
    Subdivide(ar, low, mid, level - 1);
    Subdivide(ar, mid, high, level - 1);
  }

  predicate IsTickAt(low: nat, step: nat, k: int, i: int) { i == low + k * step }

  /** An inner division point of an interval cut into `parts` parts of length `step`. */
  ghost predicate IsTick(low: nat, step: nat, parts: nat, i: int) {
    exists k :: 0 < k < parts && IsTickAt(low, step, k, i)
  }

  /** The ticks of two adjoining halves and the point between them are the ticks of the whole. */
  lemma TicksSplit(low: nat, step: nat, half: nat, i: int)
    requires half > 0
    ensures IsTick(low, step, 2 * half, i)
            <==> i == low + half * step || IsTick(low, step, half, i) || IsTick(low + half * step, step, half, i)
  {
    if IsTick(low, step, 2 * half, i) {
      var k :| 0 < k < 2 * half && IsTickAt(low, step, k, i);
      if k > half {
        assert k * step == half * step + (k - half) * step;
        assert IsTickAt(low + half * step, step, k - half, i);
      }
    }
    if i == low + half * step {
      assert IsTickAt(low, step, half, i);
    }
    if IsTick(low + half * step, step, half, i) {
      var k :| 0 < k < half && IsTickAt(low + half * step, step, k, i);
      assert (half + k) * step == half * step + k * step;
      assert IsTickAt(low, step, half + k, i);
    }
  }

  /** When 2^level divides the interval, exactly the points at multiples of the part
      length strictly inside it are marked. */
  lemma {:induction false} MarksAreTicks(low: nat, step: nat, level: nat, i: int)
    ensures IsMark(low, low + Pow2(level) * step, level, i) <==> IsTick(low, step, Pow2(level), i)
    decreases level
  {
    if level > 0 {
      var half := Pow2(level - 1);
      assert Pow2(level) * step == half * step + half * step;
      MarksAreTicks(low, step, level - 1, i);
      MarksAreTicks(low + half * step, step, level - 1, i);
      TicksSplit(low, step, half, i);
    }
  }

  ghost predicate IsMultiple(step: nat, i: int) { exists k :: k >= 0 && IsTickAt(0, step, k, i) }

  lemma MulMono(a: nat, b: nat, step: nat)
    requires a < b && step > 0
    ensures a * step < b * step
  {
    assert b * step == a * step + (b - a) * step;
  }

  /** The two ends and the inner division points are the multiples of the part length. */
  lemma MultiplesOf(step: nat, parts: nat, i: int)
    requires step > 0 && 0 <= i <= parts * step
    ensures IsMultiple(step, i) <==> i == 0 || i == parts * step || IsTick(0, step, parts, i)
  {
    if IsMultiple(step, i) {
      var k :| k >= 0 && IsTickAt(0, step, k, i);
      if k > parts {
        MulMono(parts, k, step);
      }
    }
    assert IsTickAt(0, step, 0, 0) && IsTickAt(0, step, parts, parts * step);
  }

  // ----- the rows main prints

  const LEN: nat := 66
  const DIVS: nat := 6

  /** A ruler with a mark at every multiple of `step` from its first cell to its last but
      one, blanks between them, and the terminating zero. */
  ghost predicate IsRuler(row: seq<char>, step: nat)
    requires step > 0
  {
    && |row| == LEN && row[LEN - 1] == '\0'
    && forall j :: 0 <= j < LEN - 1 ==> row[j] == if IsMultiple(step, j) then '|' else ' '
  }

  lemma StepOf(level: nat)
    requires level <= DIVS
    ensures Pow2(level) * Pow2(DIVS - level) == LEN - 2
  {
    assert Pow2(2) == 4 && Pow2(3) == 8 && Pow2(4) == 16 && Pow2(5) == 32 && Pow2(6) == 64;
  }

  /** A blank ruler: its ends marked. */
  ghost predicate IsBlank(row: seq<char>) {
    && |row| == LEN && row[0] == row[LEN - 2] == '|' && row[LEN - 1] == '\0'
    && forall j :: 0 < j < LEN - 2 ==> row[j] == ' '
  }

  lemma BlankIsRuler(row: seq<char>)
    requires IsBlank(row)
    ensures IsRuler(row, LEN - 2)
  {
    forall j | 0 <= j < LEN - 1 ensures row[j] == if IsMultiple(LEN - 2, j) then '|' else ' ' {
      MultiplesOf(LEN - 2, 1, j);
    }
  }

  /** Subdividing a blank ruler marks every multiple of its length over 2^level. */
  method DrawRow(ruler: array<char>, level: nat)
    requires ruler.Length == LEN && level <= DIVS && IsBlank(ruler[..])
    modifies ruler
    ensures IsRuler(ruler[..], Pow2(DIVS - level))
    ensures ruler[0] == ruler[LEN - 2] == '|'
  {
    forall j | 0 <= j < LEN ensures RowOk(level, j) {
      RowCell(level, j);
    }
    Subdivide(ruler, 0, LEN - 2, level);
    forall j | 0 <= j < LEN - 1 ensures ruler[j] == if IsMultiple(Pow2(DIVS - level), j) then '|' else ' ' {
      assert RowOk(level, j);
    }
    assert RowOk(level, 0) && RowOk(level, LEN - 2) && RowOk(level, LEN - 1);
  }

  /** With the ends, the cells the recursion marks are the multiples of its step. */
  ghost predicate RowOk(level: nat, j: int)
    requires level <= DIVS
  {
    if j == LEN - 1 then !IsMark(0, LEN - 2, level, j)
    else IsMultiple(Pow2(DIVS - level), j) <==> j == 0 || j == LEN - 2 || IsMark(0, LEN - 2, level, j)
  }

  lemma RowCell(level: nat, j: int)
    requires level <= DIVS && 0 <= j < LEN
    ensures RowOk(level, j)
  {
    var step := Pow2(DIVS - level);
    StepOf(level);
    MarksAreTicks(0, step, level, j);
    if j < LEN - 1 {
      MultiplesOf(step, Pow2(level), j);
    } else {
      TicksInside(step, Pow2(level), j);
    }
  }

  lemma TicksInside(step: nat, parts: nat, i: int)
    requires step > 0 && i >= parts * step
    ensures !IsTick(0, step, parts, i)
  {
    if IsTick(0, step, parts, i) {
      var k :| 0 < k < parts && IsTickAt(0, step, k, i);
      MulMono(k, parts, step);
    }
  }

  /** The reset loop of main blanks the inside and leaves the ends. */
  method Reset(ruler: array<char>)
    requires ruler.Length == LEN && ruler[0] == ruler[LEN - 2] == '|' && ruler[LEN - 1] == '\0'
    modifies ruler
    ensures IsBlank(ruler[..])
  {
    for j := 1 to LEN - 2
      invariant ruler[0] == ruler[LEN - 2] == '|' && ruler[LEN - 1] == '\0'
      invariant forall k :: 1 <= k < j ==> ruler[k] == ' '
    {
      ruler[j] := ' ';
    }
  }

  /** main: the blank ruler, then one row per level, each divided twice as finely. */
  method DrawRuler() returns (rows: seq<seq<char>>)
    ensures |rows| == DIVS + 1
    ensures forall level :: 0 <= level <= DIVS ==> IsRuler(rows[level], Pow2(DIVS - level))
  {
    var ruler := new char[LEN](_ => ' ');
    ruler[LEN - 1] := '\0';
    ruler[0], ruler[LEN - 2] := '|', '|';
    StepOf(0);
    BlankIsRuler(ruler[..]);
    rows := [ruler[..]];
    for level := 1 to DIVS + 1
      invariant IsBlank(ruler[..]) && |rows| == level
      invariant forall k :: 0 <= k < level ==> IsRuler(rows[k], Pow2(DIVS - k))
    {
      DrawRow(ruler, level);
      rows := rows + [ruler[..]];
      Reset(ruler);
    }
  }
}
