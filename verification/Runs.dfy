/** Runs of a transition system, given as a relation between a state, a step and the next state. */
module Runs {
  ghost predicate IsRun<S(!new), T(!new)>(moves: (S, T, S) -> bool, states: seq<S>, steps: seq<T>) {
    && |states| == |steps| + 1
    && forall i :: 0 <= i < |steps| ==> moves(states[i], steps[i], states[i + 1])
  }

  /** Some run of n steps leads from one state to the other. */
  ghost predicate LeadsTo<S(!new), T(!new)>(moves: (S, T, S) -> bool, from: S, to: S, n: nat) {
    exists states: seq<S>, steps: seq<T> ::
      IsRun(moves, states, steps) && |steps| == n && states[0] == from && states[n] == to
  }

  lemma Stay<S(!new), T(!new)>(moves: (S, T, S) -> bool, from: S)
    ensures LeadsTo(moves, from, from, 0)
  {
    assert IsRun(moves, [from], []);
  }

  lemma NoStep<S(!new), T(!new)>(moves: (S, T, S) -> bool, from: S, to: S)
    requires LeadsTo(moves, from, to, 0)
    ensures to == from
  {
  }

  lemma LastStep<S(!new), T(!new)>(moves: (S, T, S) -> bool, from: S, to: S, n: nat) returns (before: S, step: T)
    requires LeadsTo(moves, from, to, n) && n > 0
    ensures LeadsTo(moves, from, before, n - 1) && moves(before, step, to)
  {
    var states: seq<S>, steps: seq<T> :|
      IsRun(moves, states, steps) && |steps| == n && states[0] == from && states[n] == to;
    before, step := states[n - 1], steps[n - 1];
    assert IsRun(moves, states[..n], steps[..n - 1]);
  }

  lemma Extend<S(!new), T(!new)>(moves: (S, T, S) -> bool, from: S, before: S, n: nat, step: T, to: S)
    requires LeadsTo(moves, from, before, n) && moves(before, step, to)
    ensures LeadsTo(moves, from, to, n + 1)
  {
    var states: seq<S>, steps: seq<T> :|
      IsRun(moves, states, steps) && |steps| == n && states[0] == from && states[n] == before;
    var longer, taken := states + [to], steps + [step];
    forall i | 0 <= i < |taken|
      ensures moves(longer[i], taken[i], longer[i + 1])
    {
      if i < n {
        assert moves(states[i], steps[i], states[i + 1]);
      }
    }
    assert IsRun(moves, longer, taken);
  }

  lemma {:induction false} Join<S(!new), T(!new)>(moves: (S, T, S) -> bool, from: S, middle: S, m: nat, to: S, n: nat)
    requires LeadsTo(moves, from, middle, m) && LeadsTo(moves, middle, to, n)
    ensures LeadsTo(moves, from, to, m + n)
    decreases n
  {
    if n == 0 {
      NoStep(moves, middle, to);
    } else {
      var before, step := LastStep(moves, middle, to, n);
      Join(moves, from, middle, m, before, n - 1);
      Extend(moves, from, before, m + n - 1, step, to);
    }
  }
}
