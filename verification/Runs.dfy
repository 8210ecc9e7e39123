/** Histories of instructions over any state. An instruction that fails is rolled back. */
module Runs {
  import opened Basics

  ghost function Commit<S>(before: S, outcome: Result<S>): S {
    if outcome.Ok? then outcome.value else before
  }

  ghost function Run<S, I>(step: (S, I) -> Result<S>, state: S, history: seq<I>): S {
    if history == [] then state
    else Run(step, Commit(state, step(state, history[0])), history[1..])
  }

  ghost predicate Preserved<S(!new), I(!new)>(step: (S, I) -> Result<S>, law: S -> bool) {
    forall s, i :: law(s) && step(s, i).Ok? ==> law(step(s, i).value)
  }

  lemma {:induction false} RunKeeps<S(!new), I(!new)>(step: (S, I) -> Result<S>, law: S -> bool, state: S, history: seq<I>)
    requires Preserved(step, law) && law(state)
    ensures law(Run(step, state, history))
    decreases |history|
  {
    if history != [] {
      RunKeeps(step, law, Commit(state, step(state, history[0])), history[1..]);
    }
  }

  /** A history unfolds step by step from the front. */
  lemma RunMore<S, I>(step: (S, I) -> Result<S>, state: S, i: I, rest: seq<I>)
    ensures Run(step, state, [i] + rest) == Run(step, Commit(state, step(state, i)), rest)
  {
    assert ([i] + rest)[1..] == rest;
  }

  lemma RunNothing<S, I>(step: (S, I) -> Result<S>, state: S)
    ensures Run(step, state, []) == state
  {
  }
}
