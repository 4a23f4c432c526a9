/** The environment wrapper of `src/n_r_ai/engine/environment.py`: a current
    state, a `done` flag, `reset` and `step`. The simulator's `step`
    (`src/n_r_ai/engine/simulator.py`) only forwards to `Rules.apply`, so it is
    inlined here. The reward is the constant 0.0 and the info dictionary is
    always empty, so the latter is not modelled. */
module Environments {
  import opened Wrappers
  import opened GameStates
  import opened Actions
  import Rules

  /** The environment's two attributes. */
  datatype Env = Env(state: GameState, done: bool)

  /** What `step` returns, together with the environment it leaves behind. */
  datatype StepResult = StepResult(env: Env, observation: GameState, reward: real, done: bool)

  /** `Environment()`: the default state, not done. */
  function Create(): (e: Env)
    ensures !e.done && e.state.seed == None && e.state.turn == 0 && Consistent(e.state)
    ensures e.state == Initial(None)
  {
    Env(Initial(None), false)
  }

  /** `Environment.reset(seed)`: the default state carrying `seed`, with `done`
      cleared; the new state is also returned. Nothing of the old environment
      survives. */
  function ResetEnv(e: Env, seed: Option<int>): (r: (Env, GameState))
    ensures !r.0.done && r.1 == r.0.state
    ensures r.0.state.seed == seed && r.0.state.turn == 0 && Consistent(r.0.state)
    ensures r.0.state == Initial(seed)
  {
    var started := Env(Initial(seed), false);
    (started, started.state)
  }

  /** Nothing of the environment before `reset` survives it. */
  lemma ResetForgetsHistory(e: Env, e': Env, seed: Option<int>)
    ensures ResetEnv(e, seed) == ResetEnv(e', seed)
  {
  }

  /** `Environment.step(action)`. */
  function StepEnv(e: Env, a: Action): (r: StepResult)
    ensures r.reward == 0.0
    ensures e.done ==> r.env == e && r.observation == e.state && r.done
    ensures !e.done ==> !r.done && !r.env.done && r.observation == r.env.state
    ensures !e.done ==> r.env.state == Rules.Apply(e.state, a)
    ensures !e.done ==> r.env.state.turn == e.state.turn + 1
    ensures !e.done ==> forall f :: f != TurnField ==> Get(r.env.state, f) == Get(e.state, f)
  {
    if e.done then StepResult(e, e.state, 0.0, true)
    else
      var next := Rules.Apply(e.state, a);
      StepResult(Env(next, false), next, 0.0, false)
  }

  /** The environment after a sequence of `step` calls. */
  function Run(e: Env, acts: seq<Action>): Env
    decreases |acts|
  {
    if acts == [] then e else Run(StepEnv(e, acts[0]).env, acts[1..])
  }

  /** From a running environment, any number of steps keeps it running and
      amounts to that many transitions of the rules. */
  lemma {:induction false} RunFromRunning(e: Env, acts: seq<Action>)
    requires !e.done
    ensures !Run(e, acts).done
    ensures Run(e, acts).state == Rules.ApplyAll(e.state, acts)
    decreases |acts|
  {
    if acts != [] {
      RunFromRunning(StepEnv(e, acts[0]).env, acts[1..]);
    }
  }

  /** Every environment reached from a running one is running, so `step` never
      takes its early-return branch. */
  lemma NeverDone(e: Env, acts: seq<Action>)
    requires !e.done
    ensures forall k :: 0 <= k <= |acts| ==> !Run(e, acts[..k]).done
    ensures forall k :: 0 <= k < |acts| ==> !StepEnv(Run(e, acts[..k]), acts[k]).done
  {
    forall k | 0 <= k <= |acts|
      ensures !Run(e, acts[..k]).done
    {
      RunFromRunning(e, acts[..k]);
    }
  }

  /** After `reset(seed)` and `k` steps the turn counter is `k`, the seed is
      unchanged and every other field holds its default. */
  lemma {:induction false} ResetThenRun(e: Env, seed: Option<int>, acts: seq<Action>)
    ensures !Run(ResetEnv(e, seed).0, acts).done
    ensures Run(ResetEnv(e, seed).0, acts).state == Initial(seed).(turn := |acts|)
    ensures Run(ResetEnv(e, seed).0, acts).state.seed == seed
  {
    RunFromRunning(ResetEnv(e, seed).0, acts);
    Rules.ApplyAllBumpsTurn(Initial(seed), acts);
  }

  /** The same holds from a freshly constructed environment. */
  lemma {:induction false} CreateThenRun(acts: seq<Action>)
    ensures !Run(Create(), acts).done
    ensures Run(Create(), acts).state == Initial(None).(turn := |acts|)
  {
    RunFromRunning(Create(), acts);
    Rules.ApplyAllBumpsTurn(Initial(None), acts);
  }

  /** The environment as a mutable object; each method is the function above
      applied to its two attributes. */
  class Environment {
    var state: GameState
    var done: bool

    /** The object's invariant: it is never done. */
    ghost predicate Valid()
      reads this
    {
      !done
    }

    constructor()
      ensures Valid() && Env(state, done) == Create()
    {
      state := Initial(None);
      done := false;
    }

    method Reset(seed: Option<int>) returns (s: GameState)
      modifies this
      ensures Valid() && s == state && s == Initial(seed)
    {
      var r := ResetEnv(Env(state, done), seed);
      state, done := r.0.state, r.0.done;
      s := r.1;
    }

    method Step(a: Action) returns (observation: GameState, reward: real, isDone: bool)
      modifies this
      ensures reward == 0.0 && observation == state && isDone == done == old(done)
      ensures old(Valid()) ==> state == Rules.Apply(old(state), a)
      ensures !old(Valid()) ==> state == old(state)
    {
      var r := StepEnv(Env(state, done), a);
      state, done := r.env.state, r.env.done;
      observation, reward, isDone := r.observation, r.reward, r.done;
    }
  }
}
