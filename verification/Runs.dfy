/** Runs of a state machine: finite sequences of states, each the next of the one before. */
module Runs {

  ghost predicate StepAt<S(!new)>(next: (S, S) -> bool, run: seq<S>, i: nat)
    requires i + 1 < |run|
  {
    next(run[i], run[i + 1])
  }

  ghost predicate IsPath<S(!new)>(first: S, next: (S, S) -> bool, run: seq<S>) {
    && run != [] && run[0] == first
    && forall i :: 0 <= i < |run| - 1 ==> StepAt(next, run, i)
  }

  /** The state a run reaches. */
  function Final<S>(run: seq<S>): S
    requires run != []
  {
    run[|run| - 1]
  }

  /** What comes before a run's last step is a run. */
  lemma PathPrefix<S(!new)>(first: S, next: (S, S) -> bool, run: seq<S>)
    requires IsPath(first, next, run) && |run| > 1
    ensures IsPath(first, next, run[..|run| - 1]) && next(Final(run[..|run| - 1]), Final(run))
  {
    var before := run[..|run| - 1];
    forall i | 0 <= i < |before| - 1
      ensures StepAt(next, before, i)
    {
      assert StepAt(next, run, i);
    }
    assert StepAt(next, run, |run| - 2);
  }

  lemma PathGrows<S(!new)>(first: S, next: (S, S) -> bool, run: seq<S>, s: S)
    requires IsPath(first, next, run) && next(Final(run), s)
    ensures IsPath(first, next, run + [s]) && Final(run + [s]) == s
  {
    var more := run + [s];
    forall i | 0 <= i < |more| - 1
      ensures StepAt(next, more, i)
    {
      if i < |run| - 1 {
        assert StepAt(next, run, i);
      }
    }
  }
}
