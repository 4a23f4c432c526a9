/** The rules engine of `src/n_r_ai/core/rules.py`. As written it is a stub:
    the only legal action is NOOP and every transition advances the turn
    counter and nothing else. */
module Rules {
  import opened GameStates
  import opened Actions

  /** `Rules.legal_actions`: the same one-element list for every state. */
  function LegalActions(s: GameState): (acts: seq<Action>)
    ensures |acts| == 1
    ensures forall a :: a in acts <==> a == NoopAction
  {
    [NoopAction]
  }

  /** A caller that picks any position of the legal list gets NOOP, so picking
      the first element is always safe. */
  lemma LegalActionsPickable(s: GameState, i: int)
    requires 0 <= i < |LegalActions(s)|
    ensures LegalActions(s)[i] == NoopAction
    ensures LegalActions(s) != []
  {
  }

  /** `Rules.apply`: `state.next(turn=state.turn + 1)`. */
  function Apply(s: GameState, a: Action): (r: GameState)
    ensures r.turn == s.turn + 1
    ensures forall f :: f != TurnField ==> Get(r, f) == Get(s, f)
  {
    Next(s, [SetTurn(s.turn + 1)])
  }

  /** Only the turn counter changes. */
  lemma ApplyBumpsTurnOnly(s: GameState, a: Action)
    ensures Apply(s, a) == s.(turn := s.turn + 1)
  {
    var r, t := Apply(s, a), s.(turn := s.turn + 1);
    forall f
      ensures Get(r, f) == Get(t, f)
    {
    }
    Extensionality(r, t);
  }

  /** The result does not depend on the action. */
  lemma ApplyIgnoresAction(s: GameState, a: Action, b: Action)
    ensures Apply(s, a) == Apply(s, b)
  {
  }

  /** The consistency invariant survives a transition. */
  lemma ApplyPreservesConsistent(s: GameState, a: Action)
    requires Consistent(s)
    ensures Consistent(Apply(s, a))
  {
    ApplyBumpsTurnOnly(s, a);
  }

  /** Applies a list of actions one after another. */
  function ApplyAll(s: GameState, acts: seq<Action>): GameState
    decreases |acts|
  {
    if acts == [] then s else ApplyAll(Apply(s, acts[0]), acts[1..])
  }

  /** `n` transitions raise the turn counter by exactly `n` and change nothing else. */
  lemma {:induction false} ApplyAllBumpsTurn(s: GameState, acts: seq<Action>)
    ensures ApplyAll(s, acts) == s.(turn := s.turn + |acts|)
    decreases |acts|
  {
    if acts != [] {
      ApplyBumpsTurnOnly(s, acts[0]);
      ApplyAllBumpsTurn(Apply(s, acts[0]), acts[1..]);
    }
  }
}
