/** The room graph of `src/n_r_ai/core/board.py`: a frozen record of rooms and
    corridor edges, with adjacency worked out from edges stored in either
    orientation. */
module Boards {
  import opened Wrappers

  type RoomId = string

  /** A corridor as stored: an ordered pair, although the graph is undirected. */
  type Edge = (RoomId, RoomId)

  /** The board record. It declares exactly two fields. The default board of
      the game state also passes a room-type map, which this record has no
      field for (see `Construct` and `DefaultBoardAsWritten` below). */
  datatype Board = Board(rooms: set<RoomId>, edges: set<Edge>)

  /** `x` and `y` are joined when an edge between them is stored either way round. */
  predicate Adjacent(b: Board, x: RoomId, y: RoomId)
  {
    (x, y) in b.edges || (y, x) in b.edges
  }

  /** Every edge endpoint is a declared room. */
  predicate WellFormed(b: Board)
  {
    forall e :: e in b.edges ==> e.0 in b.rooms && e.1 in b.rooms
  }

  /** `Board.neighbors`: the far ends of edges leaving `r`, union the near ends
      of edges arriving at `r`. */
  function Neighbors(b: Board, r: RoomId): (ns: set<RoomId>)
    ensures forall x :: x in ns <==> Adjacent(b, r, x)
  {
    var outgoing := set e | e in b.edges && e.0 == r :: e.1;
    var incoming := set e | e in b.edges && e.1 == r :: e.0;
    forall x | Adjacent(b, r, x)
      ensures x in outgoing + incoming
    {
      if (r, x) in b.edges {
        assert (r, x).1 in outgoing;
      } else {
        assert (x, r).0 in incoming;
      }
    }
    outgoing + incoming
  }

  /** Adjacency is symmetric: `y` neighbours `x` exactly when `x` neighbours `y`. */
  lemma NeighborsSymmetric(b: Board, x: RoomId, y: RoomId)
    ensures y in Neighbors(b, x) <==> x in Neighbors(b, y)
  {
  }

  /** Reversing the stored orientation of one edge changes no neighbour set. */
  function FlipEdge(b: Board, x: RoomId, y: RoomId): Board
  {
    b.(edges := b.edges - {(x, y)} + {(y, x)})
  }

  lemma FlipEdgeKeepsNeighbors(b: Board, x: RoomId, y: RoomId, r: RoomId)
    requires (x, y) in b.edges
    ensures Neighbors(FlipEdge(b, x, y), r) == Neighbors(b, r)
  {
  }

  /** A room that touches no edge has no neighbours, whether or not it is a
      declared room: the room set plays no part in adjacency. */
  lemma IsolatedRoomHasNoNeighbors(b: Board, r: RoomId)
    requires forall e :: e in b.edges ==> e.0 != r && e.1 != r
    ensures Neighbors(b, r) == {}
  {
  }

  lemma NeighborsIgnoreRooms(b: Board, rooms: set<RoomId>, r: RoomId)
    ensures Neighbors(b.(rooms := rooms), r) == Neighbors(b, r)
  {
  }

  /** On a well-formed board every neighbour is a declared room. */
  lemma NeighborsAreRooms(b: Board, r: RoomId)
    requires WellFormed(b)
    ensures Neighbors(b, r) <= b.rooms
  {
  }

  /** The result is a set: also storing the reverse of a stored edge adds
      nothing to any room's neighbours. */
  lemma BothOrientationsCountOnce(b: Board, x: RoomId, y: RoomId, r: RoomId)
    requires (x, y) in b.edges
    ensures Neighbors(b.(edges := b.edges + {(y, x)}), r) == Neighbors(b, r)
  {
  }

  /** The same adjacency computed edge by edge, the way the comprehension walks
      the edge set. */
  method ComputeNeighbors(b: Board, r: RoomId) returns (ns: set<RoomId>)
    ensures ns == Neighbors(b, r)
  {
    ns := {};
    var todo := b.edges;
    while todo != {}
      invariant todo <= b.edges
      invariant forall x :: x in ns <==> exists e :: e in b.edges - todo && ((e.0 == r && e.1 == x) || (e.1 == r && e.0 == x))
      decreases todo
    {
      var e :| e in todo;
      if e.0 == r {
        ns := ns + {e.1};
      }
      if e.1 == r {
        ns := ns + {e.0};
      }
      todo := todo - {e};
    }
    forall x | x in ns
      ensures x in Neighbors(b, r)
    {
      var e :| e in b.edges && ((e.0 == r && e.1 == x) || (e.1 == r && e.0 == x));
      assert Adjacent(b, r, x);
    }
    forall x | x in Neighbors(b, r)
      ensures x in ns
    {
      if (r, x) in b.edges {
        var e := (r, x);
        assert e in b.edges - todo;
      } else {
        var e := (x, r);
        assert e in b.edges - todo;
      }
    }
  }

  /** The keyword arguments the repository passes when it builds a board. */
  datatype BoardCall = BoardCall(
    rooms: Option<set<RoomId>>,
    edges: Option<set<Edge>>,
    roomTypes: Option<map<RoomId, string>>)

  /** What the record's generated initialiser raises. */
  datatype InitError = UnexpectedKeyword(name: string) | MissingArgument(name: string)

  /** The frozen record's generated initialiser: it accepts exactly the
      keywords `rooms` and `edges`; any other keyword is rejected first, then a
      missing one. */
  function Construct(call: BoardCall): (r: Result<Board, InitError>)
    ensures r.Success? <==> call.rooms.Some? && call.edges.Some? && call.roomTypes.None?
    ensures r.Success? ==> r.value.rooms == call.rooms.value && r.value.edges == call.edges.value
    ensures call.roomTypes.Some? ==> r == Failure(UnexpectedKeyword("room_types"))
  {
    if call.roomTypes.Some? then Failure(UnexpectedKeyword("room_types"))
    else if call.rooms.None? then Failure(MissingArgument("rooms"))
    else if call.edges.None? then Failure(MissingArgument("edges"))
    else Success(Board(call.rooms.value, call.edges.value))
  }

  const DefaultRooms: set<RoomId> := {"A", "B", "C"}
  const DefaultEdges: set<Edge> := {("A", "B"), ("B", "C")}

  /** The default board exactly as the game state's factory requests it,
      room-type map included. */
  function DefaultBoardAsWritten(): (r: Result<Board, InitError>)
    ensures r.Failure?
  {
    Construct(BoardCall(Some(DefaultRooms), Some(DefaultEdges),
      Some(map["A" := "DEFAULT", "B" := "CONTROL", "C" := "DEFAULT"])))
  }

  /** The default board with the undeclared room-type map left out: rooms
      A, B, C on the path A-B-C. */
  function DefaultBoard(): (b: Board)
    ensures WellFormed(b)
    ensures b.rooms == {"A", "B", "C"}
    ensures b.edges == {("A", "B"), ("B", "C")}
    ensures Neighbors(b, "A") == {"B"}
    ensures Neighbors(b, "B") == {"A", "C"}
    ensures Neighbors(b, "C") == {"B"}
  {
    var r := Construct(BoardCall(Some(DefaultRooms), Some(DefaultEdges), None));
    var b := r.value;
    assert Adjacent(b, "A", "B") && Adjacent(b, "B", "C");
    assert forall x :: Adjacent(b, "A", x) ==> x == "B";
    assert forall x :: Adjacent(b, "C", x) ==> x == "B";
    assert forall x :: Adjacent(b, "B", x) ==> x == "A" || x == "C";
    b
  }
}
