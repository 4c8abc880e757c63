/**
  The payloads that travel between the browser clients and the relay,
  in the shapes of client/src/types.ts, and the messages a client sends.
 */
module Wire {

  /** A socket.io connection id. */
  type Id = string

  datatype Option<T> = None | Some(value: T)

  /**
    Whether `id` is the client's own: `id === socket.id`. `own` is `None`
    while `socket.id` is undefined, and then no id is the client's own.
   */
  predicate IsOwn(id: Id, own: Option<Id>)
  {
    own.Some? && own.value == id
  }

  /** The side of the square each client announces for its own player. */
  const LocalSize: real := 40.0

  /** The descriptor a client announces for itself on `connect`: centred in the window, not turned. */
  function LocalDescriptor(id: Id, innerWidth: real, innerHeight: real, color: string): PlayerData
  {
    PlayerData(id, innerWidth / 2.0, innerHeight / 2.0, LocalSize, LocalSize, 0.0, color)
  }

  /** `PlayerData`: the descriptor a client announces and the relay keeps. */
  datatype PlayerData = PlayerData(id: Id, x: real, y: real, width: real, height: real, angle: real, color: string)

  /** The `{id, x, y, angle}` payload of `playerMove` and `playerJump`. */
  datatype MoveData = MoveData(id: Id, x: real, y: real, angle: real)

  /** `PositionData`: the `{id, x, y}` payload of `playerPosition`. */
  datatype PositionData = PositionData(id: Id, x: real, y: real)

  /** What a client emits to the relay. */
  datatype ClientMsg =
    | EmitNewPlayer(player: PlayerData)
    | EmitShowPlayers
    | EmitPlayerMove(move: MoveData)

  /** The ids among `list` other than the client's own. */
  function ListedIds(list: seq<PlayerData>, own: Option<Id>): set<Id>
  {
    set i | 0 <= i < |list| && !IsOwn(list[i].id, own) :: list[i].id
  }

  /** `list[i]` is the last descriptor in `list` with its id. */
  ghost predicate LastWithId(list: seq<PlayerData>, i: int)
    requires 0 <= i < |list|
  {
    forall j :: i < j < |list| ==> list[j].id != list[i].id
  }

  lemma ListedIdsInit(list: seq<PlayerData>, own: Option<Id>)
    requires list != []
    ensures var d := list[|list| - 1];
      ListedIds(list, own) == ListedIds(list[..|list| - 1], own) + (if !IsOwn(d.id, own) then {d.id} else {})
  {
    var init, d := list[..|list| - 1], list[|list| - 1];
    forall k | k in ListedIds(list, own)
      ensures k in ListedIds(init, own) || (k == d.id && !IsOwn(d.id, own))
    {
      var i :| 0 <= i < |list| && !IsOwn(list[i].id, own) && list[i].id == k;
      if i < |list| - 1 {
        assert init[i] == list[i];
      }
    }
    forall k | k in ListedIds(init, own)
      ensures k in ListedIds(list, own)
    {
      var i :| 0 <= i < |init| && !IsOwn(init[i].id, own) && init[i].id == k;
      assert list[i] == init[i];
    }
  }

  lemma LastWithIdInit(list: seq<PlayerData>)
    requires list != []
    ensures forall i :: 0 <= i < |list| - 1 && LastWithId(list, i) ==> LastWithId(list[..|list| - 1], i)
  {
  }
}
