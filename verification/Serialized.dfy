/** Vocabulary of serialized run-to-completion execution. */
module Serialized {
  import opened Common

  datatype TurnState = Idle | Running | Poisoned

  datatype TurnOutcome = Completed | PoisonedTurn

  /** The inputs of queue entries. */
  function Inputs<I, R>(entries: seq<(I, R)>): seq<I> {
    if entries == [] then [] else Inputs(entries[..|entries| - 1]) + [entries[|entries| - 1].0]
  }

  lemma FoldNext<M, I, O, R>(step: (M, I) -> (O, M), initial: M, entries: seq<(I, R)>, k: nat)
    requires k <= |entries|
    ensures k == 0 ==> Fold(step, initial, Inputs(entries[..k])) == ([], initial)
    ensures k < |entries| ==>
      var (outputs, state) := Fold(step, initial, Inputs(entries[..k]));
      var (output, next) := step(state, entries[k].0);
      Fold(step, initial, Inputs(entries[..k + 1])) == (outputs + [output], next)
  {
    if k < |entries| {
      assert entries[..k + 1][..k] == entries[..k];
      FoldExtends(step, initial, Inputs(entries[..k]), entries[k].0);
    }
  }
}
