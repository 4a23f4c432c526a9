/** The frozen game-state record of `src/n_r_ai/core/game_state.py`: the
    phase enumeration, the record's fields and defaults, and the persistent
    update `next(**changes)`. */
module GameStates {
  import opened Wrappers
  import opened Boards

  /** The five members of the phase enumeration, in declaration order. */
  datatype Phase = Setup | Player | Enemy | Event | Cleanup

  /** One snapshot of the game. Counters are unbounded integers, as in Python. */
  datatype GameState = GameState(
    turn: int,
    phase: Phase,
    seed: Option<int>,
    board: Board,
    playerRoom: RoomId,
    oxygen: int,
    health: int,
    ammo: int,
    actionsInTurn: int,
    lifeSupportActive: bool,
    fires: set<RoomId>,
    noise: map<Edge, int>,
    roomNoise: map<RoomId, int>,
    doors: set<Edge>,
    round: int,
    intruders: map<RoomId, int>,
    eventDeck: int,
    bagDevCount: int,
    intruderBurnLast: int,
    attackDeck: int)

  /** The names of the record's fields, one per keyword `next` accepts. */
  datatype Field =
    | TurnField | PhaseField | SeedField | BoardField | PlayerRoomField
    | OxygenField | HealthField | AmmoField | ActionsInTurnField
    | LifeSupportActiveField | FiresField | NoiseField | RoomNoiseField
    | DoorsField | RoundField | IntrudersField | EventDeckField
    | BagDevCountField | IntruderBurnLastField | AttackDeckField

  /** A field's contents, whatever its type. */
  datatype Value =
    | IntValue(i: int)
    | BoolValue(b: bool)
    | PhaseValue(p: Phase)
    | SeedValue(s: Option<int>)
    | BoardValue(board: Board)
    | RoomValue(room: RoomId)
    | RoomSetValue(rooms: set<RoomId>)
    | EdgeSetValue(edges: set<Edge>)
    | EdgeCountValue(edgeCounts: map<Edge, int>)
    | RoomCountValue(roomCounts: map<RoomId, int>)

  /** Reads the named field of a state. */
  function Get(s: GameState, f: Field): Value
  {
    match f
    case TurnField => IntValue(s.turn)
    case PhaseField => PhaseValue(s.phase)
    case SeedField => SeedValue(s.seed)
    case BoardField => BoardValue(s.board)
    case PlayerRoomField => RoomValue(s.playerRoom)
    case OxygenField => IntValue(s.oxygen)
    case HealthField => IntValue(s.health)
    case AmmoField => IntValue(s.ammo)
    case ActionsInTurnField => IntValue(s.actionsInTurn)
    case LifeSupportActiveField => BoolValue(s.lifeSupportActive)
    case FiresField => RoomSetValue(s.fires)
    case NoiseField => EdgeCountValue(s.noise)
    case RoomNoiseField => RoomCountValue(s.roomNoise)
    case DoorsField => EdgeSetValue(s.doors)
    case RoundField => IntValue(s.round)
    case IntrudersField => RoomCountValue(s.intruders)
    case EventDeckField => IntValue(s.eventDeck)
    case BagDevCountField => IntValue(s.bagDevCount)
    case IntruderBurnLastField => IntValue(s.intruderBurnLast)
    case AttackDeckField => IntValue(s.attackDeck)
  }

  /** Two states that agree on every field are the same state. */
  lemma Extensionality(a: GameState, b: GameState)
    requires forall f :: Get(a, f) == Get(b, f)
    ensures a == b
  {
    assert Get(a, TurnField) == Get(b, TurnField);
    assert Get(a, PhaseField) == Get(b, PhaseField);
    assert Get(a, SeedField) == Get(b, SeedField);
    assert Get(a, BoardField) == Get(b, BoardField);
    assert Get(a, PlayerRoomField) == Get(b, PlayerRoomField);
    assert Get(a, OxygenField) == Get(b, OxygenField);
    assert Get(a, HealthField) == Get(b, HealthField);
    assert Get(a, AmmoField) == Get(b, AmmoField);
    assert Get(a, ActionsInTurnField) == Get(b, ActionsInTurnField);
    assert Get(a, LifeSupportActiveField) == Get(b, LifeSupportActiveField);
    assert Get(a, FiresField) == Get(b, FiresField);
    assert Get(a, NoiseField) == Get(b, NoiseField);
    assert Get(a, RoomNoiseField) == Get(b, RoomNoiseField);
    assert Get(a, DoorsField) == Get(b, DoorsField);
    assert Get(a, RoundField) == Get(b, RoundField);
    assert Get(a, IntrudersField) == Get(b, IntrudersField);
    assert Get(a, EventDeckField) == Get(b, EventDeckField);
    assert Get(a, BagDevCountField) == Get(b, BagDevCountField);
    assert Get(a, IntruderBurnLastField) == Get(b, IntruderBurnLastField);
    assert Get(a, AttackDeckField) == Get(b, AttackDeckField);
  }

  /** One keyword argument of `next`, carrying a value of the field's type. */
  datatype Change =
    | SetTurn(turn: int)
    | SetPhase(phase: Phase)
    | SetSeed(seed: Option<int>)
    | SetBoard(board: Board)
    | SetPlayerRoom(playerRoom: RoomId)
    | SetOxygen(oxygen: int)
    | SetHealth(health: int)
    | SetAmmo(ammo: int)
    | SetActionsInTurn(actionsInTurn: int)
    | SetLifeSupportActive(lifeSupportActive: bool)
    | SetFires(fires: set<RoomId>)
    | SetNoise(noise: map<Edge, int>)
    | SetRoomNoise(roomNoise: map<RoomId, int>)
    | SetDoors(doors: set<Edge>)
    | SetRound(round: int)
    | SetIntruders(intruders: map<RoomId, int>)
    | SetEventDeck(eventDeck: int)
    | SetBagDevCount(bagDevCount: int)
    | SetIntruderBurnLast(intruderBurnLast: int)
    | SetAttackDeck(attackDeck: int)

  function FieldOf(c: Change): Field
  {
    match c
    case SetTurn(_) => TurnField
    case SetPhase(_) => PhaseField
    case SetSeed(_) => SeedField
    case SetBoard(_) => BoardField
    case SetPlayerRoom(_) => PlayerRoomField
    case SetOxygen(_) => OxygenField
    case SetHealth(_) => HealthField
    case SetAmmo(_) => AmmoField
    case SetActionsInTurn(_) => ActionsInTurnField
    case SetLifeSupportActive(_) => LifeSupportActiveField
    case SetFires(_) => FiresField
    case SetNoise(_) => NoiseField
    case SetRoomNoise(_) => RoomNoiseField
    case SetDoors(_) => DoorsField
    case SetRound(_) => RoundField
    case SetIntruders(_) => IntrudersField
    case SetEventDeck(_) => EventDeckField
    case SetBagDevCount(_) => BagDevCountField
    case SetIntruderBurnLast(_) => IntruderBurnLastField
    case SetAttackDeck(_) => AttackDeckField
  }

  function ValueOf(c: Change): Value
  {
    match c
    case SetTurn(v) => IntValue(v)
    case SetPhase(v) => PhaseValue(v)
    case SetSeed(v) => SeedValue(v)
    case SetBoard(v) => BoardValue(v)
    case SetPlayerRoom(v) => RoomValue(v)
    case SetOxygen(v) => IntValue(v)
    case SetHealth(v) => IntValue(v)
    case SetAmmo(v) => IntValue(v)
    case SetActionsInTurn(v) => IntValue(v)
    case SetLifeSupportActive(v) => BoolValue(v)
    case SetFires(v) => RoomSetValue(v)
    case SetNoise(v) => EdgeCountValue(v)
    case SetRoomNoise(v) => RoomCountValue(v)
    case SetDoors(v) => EdgeSetValue(v)
    case SetRound(v) => IntValue(v)
    case SetIntruders(v) => RoomCountValue(v)
    case SetEventDeck(v) => IntValue(v)
    case SetBagDevCount(v) => IntValue(v)
    case SetIntruderBurnLast(v) => IntValue(v)
    case SetAttackDeck(v) => IntValue(v)
  }

  /** The fields a list of keyword arguments names. */
  function Named(cs: seq<Change>): set<Field>
  {
    set c | c in cs :: FieldOf(c)
  }

  /** Python refuses a keyword given twice, so every field is named at most once. */
  predicate DistinctFields(cs: seq<Change>)
  {
    forall i, j :: 0 <= i < j < |cs| ==> FieldOf(cs[i]) != FieldOf(cs[j])
  }

  /** Overrides one field of a copy of `s`. */
  function Override(s: GameState, c: Change): (r: GameState)
    ensures Get(r, FieldOf(c)) == ValueOf(c)
    ensures forall f :: f != FieldOf(c) ==> Get(r, f) == Get(s, f)
  {
    match c
    case SetTurn(v) => s.(turn := v)
    case SetPhase(v) => s.(phase := v)
    case SetSeed(v) => s.(seed := v)
    case SetBoard(v) => s.(board := v)
    case SetPlayerRoom(v) => s.(playerRoom := v)
    case SetOxygen(v) => s.(oxygen := v)
    case SetHealth(v) => s.(health := v)
    case SetAmmo(v) => s.(ammo := v)
    case SetActionsInTurn(v) => s.(actionsInTurn := v)
    case SetLifeSupportActive(v) => s.(lifeSupportActive := v)
    case SetFires(v) => s.(fires := v)
    case SetNoise(v) => s.(noise := v)
    case SetRoomNoise(v) => s.(roomNoise := v)
    case SetDoors(v) => s.(doors := v)
    case SetRound(v) => s.(round := v)
    case SetIntruders(v) => s.(intruders := v)
    case SetEventDeck(v) => s.(eventDeck := v)
    case SetBagDevCount(v) => s.(bagDevCount := v)
    case SetIntruderBurnLast(v) => s.(intruderBurnLast := v)
    case SetAttackDeck(v) => s.(attackDeck := v)
  }

  /** `GameState.next(**changes)`: a copy of `s` in which every named field
      holds its new value and every other field is the receiver's. */
  function Next(s: GameState, cs: seq<Change>): (r: GameState)
    requires DistinctFields(cs)
    ensures forall i :: 0 <= i < |cs| ==> Get(r, FieldOf(cs[i])) == ValueOf(cs[i])
    ensures forall f :: f !in Named(cs) ==> Get(r, f) == Get(s, f)
    decreases |cs|
  {
    if cs == [] then s
    else
      var r := Next(Override(s, cs[0]), cs[1..]);
      assert forall i :: 0 < i < |cs| ==> cs[i] == cs[1..][i - 1];
      assert forall f :: f !in Named(cs) ==> f !in Named(cs[1..]) && f != FieldOf(cs[0]);
      assert FieldOf(cs[0]) !in Named(cs[1..]) by {
        forall c | c in cs[1..]
          ensures FieldOf(c) != FieldOf(cs[0])
        {
          var k :| 0 <= k < |cs[1..]| && cs[1..][k] == c;
          assert cs[k + 1] == c;
        }
      }
      r
  }

  /** `next()` with no keywords returns a state equal to the receiver. */
  lemma NextWithoutChanges(s: GameState)
    ensures Next(s, []) == s
  {
  }

  /** The order of keyword arguments does not matter: any rearrangement of the
      same changes yields the same state. */
  lemma {:induction false} NextOrderIrrelevant(s: GameState, cs: seq<Change>, ds: seq<Change>)
    requires DistinctFields(cs) && DistinctFields(ds)
    requires multiset(cs) == multiset(ds)
    ensures Next(s, cs) == Next(s, ds)
  {
    var a, b := Next(s, cs), Next(s, ds);
    forall f
      ensures Get(a, f) == Get(b, f)
    {
      if i :| 0 <= i < |cs| && FieldOf(cs[i]) == f {
        assert cs[i] in multiset(ds);
        var j :| 0 <= j < |ds| && ds[j] == cs[i];
        assert Get(a, f) == ValueOf(cs[i]) == Get(b, f);
      } else {
        forall j | 0 <= j < |ds|
          ensures FieldOf(ds[j]) != f
        {
          assert ds[j] in multiset(cs);
        }
        assert f !in Named(cs) && f !in Named(ds);
      }
    }
    Extensionality(a, b);
  }

  /** The model's well-formedness invariant for a snapshot: every key and
      room the state mentions belongs to its board, and the resource
      counters are non-negative. The record itself checks none of this; the
      default state satisfies it and the rules preserve it. */
  predicate Consistent(s: GameState)
  {
    && WellFormed(s.board)
    && s.playerRoom in s.board.rooms
    && s.fires <= s.board.rooms
    && s.roomNoise.Keys <= s.board.rooms
    && s.intruders.Keys <= s.board.rooms
    && s.noise.Keys <= s.board.edges
    && s.doors <= s.board.edges
    && s.health >= 0 && s.oxygen >= 0 && s.ammo >= 0
    && s.actionsInTurn >= 0
  }

  /** `GameState(seed=seed)` with every other field at its default. */
  function Initial(seed: Option<int>): (s: GameState)
    ensures Consistent(s)
    ensures s.seed == seed
    ensures s.board == DefaultBoard()
    ensures s.turn == 0 && s.phase == Player && s.round == 1 && s.playerRoom == "A"
    ensures s.oxygen == 5 && s.health == 5 && s.ammo == 3 && s.actionsInTurn == 0
    ensures s.lifeSupportActive && s.eventDeck == 10 && s.attackDeck == 10
    ensures s.bagDevCount == 0 && s.intruderBurnLast == 0
    ensures s.fires == {} && s.noise == map[] && s.roomNoise == map[] && s.doors == {} && s.intruders == map[]
    ensures Neighbors(s.board, s.playerRoom) == {"B"}
  {
    GameState(
      turn := 0, phase := Player, seed := seed, board := DefaultBoard(),
      playerRoom := "A", oxygen := 5, health := 5, ammo := 3, actionsInTurn := 0,
      lifeSupportActive := true, fires := {}, noise := map[], roomNoise := map[],
      doors := {}, round := 1, intruders := map[], eventDeck := 10,
      bagDevCount := 0, intruderBurnLast := 0, attackDeck := 10)
  }

  /** `GameState(seed=seed)` as written: building the default board raises,
      so no default state is ever produced. */
  function InitialAsWritten(seed: Option<int>): (r: Result<GameState, InitError>)
    ensures r == Failure(UnexpectedKeyword("room_types"))
  {
    match DefaultBoardAsWritten()
    case Failure(e) => Failure(e)
    case Success(b) => Success(Initial(seed).(board := b))
  }
}
