/**
 Runs of a state machine. A machine is a partial step function `next`: given a
 state and an action (which thread moves, what the environment answers), it
 gives the next state, or None when the action is not enabled. A run is a
 finite sequence of actions, so "for every run" is "for every sequence".
 */
module Runs {
  datatype Option<+T> = None | Some(value: T)

  /** The state after the actions in order, or None if one of them is not enabled. */
  ghost function Exec<S(!new), A(!new)>(next: (S, A) -> Option<S>, s: S, acts: seq<A>): Option<S>
    decreases |acts|
  {
    if acts == [] then Some(s)
    else
      match Exec(next, s, acts[..|acts| - 1])
      case None => None
      case Some(m) => next(m, acts[|acts| - 1])
  }

  /** `inv` is kept by every enabled action. */
  ghost predicate Inductive<S(!new), A(!new)>(next: (S, A) -> Option<S>, inv: S -> bool) {
    forall m, a :: inv(m) && next(m, a).Some? ==> inv(next(m, a).value)
  }

  /** An inductive property of the first state holds in every reachable state. */
  lemma {:induction false} Always<S(!new), A(!new)>(next: (S, A) -> Option<S>, inv: S -> bool, s: S, acts: seq<A>)
    requires inv(s) && Inductive(next, inv)
    requires Exec(next, s, acts).Some?
    ensures inv(Exec(next, s, acts).value)
    decreases |acts|
  {
    if acts != [] {
      Always(next, inv, s, acts[..|acts| - 1]);
    }
  }

  /** Every enabled action lowers the rank of a state that satisfies `inv`. */
  ghost predicate Ranked<S(!new), A(!new)>(next: (S, A) -> Option<S>, inv: S -> bool, rank: S -> nat) {
    forall m, a :: inv(m) && next(m, a).Some? ==> rank(next(m, a).value) < rank(m)
  }

  /** A run is no longer than the rank it uses up, so every run is finite. */
  lemma {:induction false} Bounded<S(!new), A(!new)>(
    next: (S, A) -> Option<S>, inv: S -> bool, rank: S -> nat, s: S, acts: seq<A>)
    requires inv(s) && Inductive(next, inv) && Ranked(next, inv, rank)
    requires Exec(next, s, acts).Some?
    ensures |acts| <= rank(s) - rank(Exec(next, s, acts).value)
    decreases |acts|
  {
    if acts != [] {
      Always(next, inv, s, acts[..|acts| - 1]);
      Bounded(next, inv, rank, s, acts[..|acts| - 1]);
    }
  }

  /** One more action extends a run. */
  lemma ExecSnoc<S(!new), A(!new)>(next: (S, A) -> Option<S>, s: S, acts: seq<A>, a: A)
    requires Exec(next, s, acts).Some?
    ensures Exec(next, s, acts + [a]) == next(Exec(next, s, acts).value, a)
  {
  }

  /** Runs compose. */
  lemma {:induction false} ExecAppend<S(!new), A(!new)>(next: (S, A) -> Option<S>, s: S, first: seq<A>, second: seq<A>)
    requires Exec(next, s, first).Some?
    ensures Exec(next, s, first + second) == Exec(next, Exec(next, s, first).value, second)
    decreases |second|
  {
    if second == [] {
      assert first + second == first;
    } else {
      ExecAppend(next, s, first, second[..|second| - 1]);
      assert (first + second)[..|first + second| - 1] == first + second[..|second| - 1];
    }
  }

  /** A run starts with its first action. */
  lemma ExecCons<S(!new), A(!new)>(next: (S, A) -> Option<S>, s: S, a: A, rest: seq<A>)
    requires next(s, a).Some?
    ensures Exec(next, s, [a] + rest) == Exec(next, next(s, a).value, rest)
  {
    ExecSnoc(next, s, [], a);
    assert [] + [a] == [a];
    ExecAppend(next, s, [a], rest);
  }

  /** Every prefix of a run is a run. */
  lemma {:induction false} ExecPrefix<S(!new), A(!new)>(next: (S, A) -> Option<S>, s: S, acts: seq<A>, n: nat)
    requires Exec(next, s, acts).Some? && n <= |acts|
    ensures Exec(next, s, acts[..n]).Some?
    decreases |acts|
  {
    if n == |acts| {
      assert acts[..n] == acts;
    } else {
      ExecPrefix(next, s, acts[..|acts| - 1], n);
      assert acts[..|acts| - 1][..n] == acts[..n];
    }
  }

  /** A run of three actions, spelled out. */
  lemma ExecThree<S(!new), A(!new)>(next: (S, A) -> Option<S>, s: S, a: A, b: A, c: A)
    requires next(s, a).Some? && next(next(s, a).value, b).Some?
    ensures Exec(next, s, [a, b, c]) == next(next(next(s, a).value, b).value, c)
  {
    ExecSnoc(next, s, [], a);
    ExecSnoc(next, s, [a], b);
    ExecSnoc(next, s, [a, b], c);
    assert [] + [a] == [a] && [a] + [b] == [a, b] && [a, b] + [c] == [a, b, c];
  }

  /** A ranked machine can be run from any good state to one where nothing is enabled. */
  lemma {:induction false} RunToEnd<S(!new), A(!new)>(next: (S, A) -> Option<S>, inv: S -> bool, rank: S -> nat, s: S)
    returns (acts: seq<A>)
    requires inv(s) && Inductive(next, inv) && Ranked(next, inv, rank)
    ensures Exec(next, s, acts).Some? && forall a :: next(Exec(next, s, acts).value, a).None?
    decreases rank(s)
  {
    acts := [];
    if a: A :| next(s, a).Some? {
      var rest := RunToEnd(next, inv, rank, next(s, a).value);
      acts := [a] + rest;
      ExecSnoc(next, s, [], a);
      assert [] + [a] == [a];
      ExecAppend(next, s, [a], rest);
    }
  }
}
