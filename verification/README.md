# n-r-ai game-state core, modelled in Dafny

This project models the deterministic game-state machine of the n-r-ai board-game simulator as the
repository's code defines it:

- the undirected room graph (`Board` and its `neighbors` adjacency, where an edge may be stored in
  either orientation);
- the frozen `GameState` record, its `Phase` enumeration, its defaults, and the persistent update
  `next(**changes)`, which copies the record and overrides only the named fields;
- the `Rules` engine, which as written is a stub: `legal_actions` is always `[NOOP]`, and `apply`
  raises `turn` by one and changes nothing else;
- the `Environment` wrapper, which holds a state and a `done` flag. Its `step` forwards through
  `simulator.step` to `Rules.apply`.

The repository's tests (for example tests/test_phases_v1.py, tests/test_rooms_surgery_engine.py and
tests/test_ammo_and_attack_deck.py) expect a much richer engine: movement, noise, combat, phases,
events and self-destruct. None of it exists in the code, so the model follows the code.

Files, one module each:

- `wrappers.dfy` holds `Option` and `Result`.
- `board.dfy` (`Boards`) models `core/board.py` and the default board.
- `game_state.dfy` (`GameStates`) models `core/game_state.py`.
- `actions.dfy` (`Actions`) models `core/actions.py`.
- `rules.dfy` (`Rules`) models `core/rules.py`.
- `environment.dfy` (`Environments`) models `engine/environment.py`, with `engine/simulator.py` inlined.

How Python constructs are represented:

- `next(**changes)` takes a list of typed `Change` values that name distinct fields. Python rejects a
  keyword given twice.
- The update's contract is stated field by field, through a reflective `Get(state, field)`.
  `Extensionality` turns agreement on every field into equality of states.
- Frozen records are Dafny datatype values. In the model a snapshot cannot be changed after it is
  built; the Python record only forbids reassigning its attributes (see "## Left out").
- `Phase` is a datatype with exactly five constructors, `Setup` to `Cleanup`, for SETUP, PLAYER, ENEMY, EVENT and CLEANUP,
  so the enumeration is closed by construction.
- `Consistent` is the model's own well-formedness invariant for a snapshot. Examples: every edge
  endpoint is a declared room, the player's room is declared, and health, oxygen, ammo and
  actions_in_turn are non-negative; the other counters are unconstrained. The record
  itself does not check it. The model proves that the default state satisfies it and that `apply`
  preserves it.
- The `Environment` class keeps its two attributes. Its constructor, `Reset` and `Step` apply the pure
  functions `Create`, `ResetEnv` and `StepEnv` to those attributes, and keep the object's invariant
  `Valid()` (not done): the constructor and `Reset` establish it, and `Step` never changes `done`.

## Model

| member | source | states |
|---|---|---|
| Boards.Neighbors | src/n_r_ai/core/board.py:12-13 | `x` is a neighbour of `r` exactly when `(r,x)` or `(x,r)` is a stored edge |
| Boards.NeighborsSymmetric | src/n_r_ai/core/board.py:13 | adjacency is symmetric: `y` neighbours `x` iff `x` neighbours `y` |
| Boards.FlipEdgeKeepsNeighbors | src/n_r_ai/core/board.py:13 | storing an edge `(x,y)` as `(y,x)` instead leaves every room's neighbour set unchanged |
| Boards.IsolatedRoomHasNoNeighbors | src/n_r_ai/core/board.py:13 | a room that no edge touches has no neighbours, whether or not it is declared |
| Boards.NeighborsIgnoreRooms | src/n_r_ai/core/board.py:8-13 | the declared room set plays no part in adjacency |
| Boards.NeighborsAreRooms | src/n_r_ai/core/board.py:8-13 | on a board whose edge endpoints are all declared, every neighbour is a declared room |
| Boards.BothOrientationsCountOnce | src/n_r_ai/core/board.py:13 | also storing the reverse of a stored edge leaves every room's neighbour set unchanged: the other endpoint is counted once |
| Boards.ComputeNeighbors | src/n_r_ai/core/board.py:13 | walking the edge set one edge at a time and collecting far and near endpoints yields the same set as the adjacency definition |
| Boards.Construct | src/n_r_ai/core/board.py:7-10 | the record's generated initialiser succeeds exactly when `rooms` and `edges` are given and no other keyword is; the result holds the given rooms and edges; a `room_types` keyword is rejected |
| Boards.DefaultBoardAsWritten | src/n_r_ai/core/game_state.py:23-29 | building the default board as the factory requests it, with the room-type map, always fails |
| Boards.DefaultBoard | src/n_r_ai/core/game_state.py:23-26 | the default board without the room-type map is well formed, declares rooms A, B, C, stores exactly the edges (A,B) and (B,C), and forms the path A-B-C |
| GameStates.Override | src/n_r_ai/core/game_state.py:61-62 | `next(f=v)` sets field `f` to `v` and leaves every other field unchanged |
| GameStates.Next | src/n_r_ai/core/game_state.py:61-62 | `next(**changes)` gives every named field its new value and every unnamed field the receiver's value |
| GameStates.NextWithoutChanges | src/n_r_ai/core/game_state.py:61-62 | `next()` with no keywords returns a state equal to the receiver |
| GameStates.NextOrderIrrelevant | src/n_r_ai/core/game_state.py:61-62 | the order of the keyword arguments does not change the result |
| GameStates.Initial | src/n_r_ai/core/game_state.py:15-59 | the default state carries the given seed, holds the corrected default board, satisfies the consistency invariant, starts in a declared room A whose only neighbour is B, and has the source's scalar defaults and empty collections |
| GameStates.InitialAsWritten | src/n_r_ai/core/game_state.py:23-29 | as written, constructing a default state fails for every seed, with the unexpected `room_types` keyword |
| Rules.LegalActions | src/n_r_ai/core/rules.py:7-8 | for every state the legal list has length 1, and an action is in it exactly when it is NOOP without parameters |
| Rules.LegalActionsPickable | src/n_r_ai/core/rules.py:7-8 | the legal list is never empty, and every position a caller can pick holds NOOP |
| Rules.Apply | src/n_r_ai/core/rules.py:10-11 | `apply` raises `turn` by one and leaves every other field unchanged |
| Rules.ApplyBumpsTurnOnly | src/n_r_ai/core/rules.py:10-11 | the result of `apply` is the input state with only `turn` increased by one |
| Rules.ApplyIgnoresAction | src/n_r_ai/core/rules.py:10-11 | the result of `apply` does not depend on the action |
| Rules.ApplyPreservesConsistent | src/n_r_ai/core/rules.py:10-11 | a consistent state stays consistent after `apply` |
| Rules.ApplyAllBumpsTurn | src/n_r_ai/core/rules.py:10-11 | `n` successive applications raise `turn` by exactly `n` and change nothing else |
| Environments.Create | src/n_r_ai/engine/environment.py:9-12 | a new environment holds the default state without a seed (consistent, at turn 0) and is not done |
| Environments.ResetEnv | src/n_r_ai/engine/environment.py:14-17 | `reset(seed)` installs the default state carrying `seed` (consistent, at turn 0), clears `done`, and returns the installed state |
| Environments.ResetForgetsHistory | src/n_r_ai/engine/environment.py:14-17 | the outcome of `reset` does not depend on the environment's previous contents |
| Environments.StepEnv | src/n_r_ai/engine/environment.py:19-25 | a done environment returns its state unchanged, with done true and reward 0; otherwise the state becomes the rules' transition of the old state (through the simulator's step), only `turn` changes, and the step reports not done and reward 0 |
| Environments.Environment.constructor | src/n_r_ai/engine/environment.py:9-12 | a new object holds the default state of `Create` and satisfies its invariant: it is not done |
| Environments.Environment.Reset | src/n_r_ai/engine/environment.py:14-17 | `reset(seed)` leaves the object valid (not done), with the default state carrying `seed` installed and returned |
| Environments.Environment.Step | src/n_r_ai/engine/environment.py:19-25 | `step` reports reward 0, returns the object's new state and never changes `done`; a valid object's state becomes the rules' transition of the old state, while a done object's state is unchanged |
| Environments.RunFromRunning | src/n_r_ai/engine/environment.py:19-25 | any sequence of steps from a running environment keeps it running and equals applying the rules to each action in turn |
| Environments.NeverDone | src/n_r_ai/engine/environment.py:19-25 | every environment reached by steps from a running one is running, so the early-return branch of `step` is never taken |
| Environments.ResetThenRun | src/n_r_ai/engine/environment.py:14-25 | after `reset(seed)` and `k` steps the environment is not done, `turn == k`, the seed is unchanged, and every other field holds its default |
| Environments.CreateThenRun | src/n_r_ai/engine/environment.py:9-25 | after construction and `k` steps the environment is not done and the state is the default state at turn `k` |

## Left out

- The richer engine that the repository's tests expect is left out because the code does not
  implement it. This covers movement, doors, noise, encounters, combat, the attack deck, room
  use, escape, phase effects, intruder pathing, event cards, the token bag and self-destruct.
  `Rules` is a stub, and `ActionType` has only NOOP.
- The per-room type map has no semantics here. `Board` declares no field for it; see Findings.
- Edges are not canonicalised: the code stores `(A,B)` and `(B,A)` as different keys, and the model
  does the same.
- Snapshots share their mutable collections. `next` is a shallow `dataclasses.replace`, so the result
  shares the receiver's `board`, `fires`, `noise`, `room_noise`, `doors` and `intruders` objects, and
  `frozen=True` only forbids reassigning attributes. Mutating one of those collections in place would
  change every snapshot sharing it. The model has value semantics and assumes no caller mutates them;
  no operation of the core does.
- GameStates.Next: only well-typed keyword values are modelled. Python does not check field types at
  run time, so a call such as `next(turn="x")` is accepted there but cannot be expressed here.
- GameStates.Next: an unknown keyword name is not modelled. Python raises `TypeError` for one, but
  `Change` covers exactly the record's fields.
- `Action` parameters are typed `Any` in the source. The model narrows them to integers, text and
  booleans.
- The `rules` constructor argument of `Environment` is left out: the only `Rules` is stateless.
- The info dictionary that `step` returns is left out: it is always empty.
- The float reward is modelled as the exact constant `0.0`.
- These parts of the repository are not part of this model:
  - MCTS and the uniform policy: floating-point scores and randomness.
  - The LLM client and agent: network and environment variables.
  - The HTTP façade and the CLI drivers: I/O plumbing.
  - The random-number wrappers and random agent: they wrap Python's `random`.
  - `state_key`: a SHA-256 over `repr`, foreign code.
  - The unused entity classes and the agent protocol: they have no behaviour.

## Findings

| source | as written | input that shows it | evidently intended | confidence | as-written member | corrected member |
|---|---|---|---|---|---|---|
| src/n_r_ai/core/game_state.py:23-29 | the default-board factory calls `Board(rooms=…, edges=…, room_types=…)`, but `Board` (src/n_r_ai/core/board.py:7-10) declares only `rooms` and `edges`, so the generated initialiser raises `TypeError` | `GameState()`, and with it `Environment()` and `Environment.reset(seed)` | a default board with rooms A, B, C and edges A-B, B-C | not executed; high, because a frozen dataclass's initialiser accepts only declared fields | Boards.DefaultBoardAsWritten | Boards.DefaultBoard |

`GameStates.InitialAsWritten` carries the same failure through to the default state.
`GameStates.Initial` and everything after it use the corrected board.
