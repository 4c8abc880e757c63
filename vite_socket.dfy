/**
  The socket handlers of vite/src/socket.ts: a module-level table from
  connection id to player mirror, and one handler per socket event. Its
  `createPlayer` passes thirteen arguments, id first, then friction 0.008 and
  restitution 0.1. That call fits the constructor of client/src/class/Player.ts,
  not the eleven-parameter one of vite/src/class/Player.ts that `./class/Player`
  names from this directory. The model takes the call as written for the former,
  so its mirrors are `ClientPlayer` states.

  Unlike vite/src/main.ts, `createPlayer` never checks whether an entry
  exists, and position updates do not skip the local player.
 */
module ViteSocket {
  import opened Wire
  import opened Physics
  import ClientPlayer

  type Table = map<Id, ClientPlayer.State>

  /** The friction and restitution `createPlayer` passes to the constructor. */
  const MirrorFriction: real := 0.008
  const MirrorRestitution: real := 0.1

  /** The mirror `createPlayer` builds from a descriptor. */
  function Mirror(d: PlayerData): (s: ClientPlayer.State)
    ensures s.id == d.id && s.body.position == Vec(d.x, d.y) && s.body.angle == d.angle
    ensures s.area == d.width * d.height && s.color == d.color && !s.isGrounded
    ensures s.friction == MirrorFriction && s.restitution == MirrorRestitution
  {
    ClientPlayer.Created(d.id, d.x, d.y, d.width, d.height, MirrorFriction, MirrorRestitution, d.angle, d.color)
  }

  /** `createPlayer`: stores a new mirror under the descriptor's id, replacing any entry there. */
  function CreatePlayer(m: Table, d: PlayerData): (r: Table)
    ensures r.Keys == m.Keys + {d.id}
    ensures r[d.id] == Mirror(d)
    ensures forall k :: k in m && k != d.id ==> r[k] == m[k]
  {
    m[d.id := Mirror(d)]
  }

  /** `handleNewPlayer`: a mirror is created, or replaced, exactly when the id is not the own one. */
  function NewPlayer(m: Table, ownId: Option<Id>, d: PlayerData): (r: Table)
    ensures !IsOwn(d.id, ownId) ==> r == CreatePlayer(m, d)
    ensures IsOwn(d.id, ownId) ==> r == m
  {
    if !IsOwn(d.id, ownId) then CreatePlayer(m, d) else m
  }

  /**
    `handleShowPlayers` over `list`: an entry for every listed id other than
    the own one, and none created for the own id; unlisted entries and the
    own entry stay as they were.
   */
  function ShowPlayers(m: Table, ownId: Option<Id>, list: seq<PlayerData>): (r: Table)
    ensures r.Keys == m.Keys + ListedIds(list, ownId)
    ensures ownId.Some? && ownId.value in m ==> r[ownId.value] == m[ownId.value]
    ensures forall k :: k in m && k !in ListedIds(list, ownId) ==> r[k] == m[k]
    ensures forall i :: 0 <= i < |list| && !IsOwn(list[i].id, ownId) && LastWithId(list, i) ==>
      r[list[i].id] == Mirror(list[i])
  {
    if list == [] then m
    else
      var init, d := list[..|list| - 1], list[|list| - 1];
      var before := ShowPlayers(m, ownId, init);
      ListedIdsInit(list, ownId);
      LastWithIdInit(list);
      if !IsOwn(d.id, ownId) then before[d.id := Mirror(d)] else before
  }

  /** `handleShowPlayers` neither creates nor removes an entry under the own id. */
  lemma ShowPlayersOwnEntry(m: Table, ownId: Id, list: seq<PlayerData>)
    ensures ownId in ShowPlayers(m, Some(ownId), list) <==> ownId in m
  {
    assert ownId !in ListedIds(list, Some(ownId));
  }

  /** One more turn of the `forEach` in `handleShowPlayers` handles one more descriptor. */
  lemma ShowPlayersStep(m: Table, ownId: Option<Id>, list: seq<PlayerData>, i: nat)
    requires i < |list|
    ensures ShowPlayers(m, ownId, list[..i + 1]) == NewPlayer(ShowPlayers(m, ownId, list[..i]), ownId, list[i])
  {
    assert list[..i + 1][..i] == list[..i];
  }

  /**
    `handlePlayerDisconnected`: the entry goes if present; every other entry
    stays. vite/src/main.ts has its own handler for the same event, over its
    own table, hence `ViteMain.PlayerDisconnected` beside this one.
   */
  function PlayerDisconnected(m: Table, id: Id): (r: Table)
    ensures r.Keys == m.Keys - {id}
    ensures forall k :: k in r ==> r[k] == m[k]
  {
    m - {id}
  }

  /**
    `handlePlayerPosition`: the entry with the update's id, whoever's it is,
    the own one included, gets the new x and y; its angle and everything else
    stay. An unknown id changes nothing. The handler writes `body.position.x`
    and `.y` directly rather than calling `Body.setPosition`; the model, which
    keeps no vertices or previous position, records both the same way.
   */
  function PlayerPosition(m: Table, d: PositionData): (r: Table)
    ensures r.Keys == m.Keys
    ensures forall k :: k in m && k != d.id ==> r[k] == m[k]
    ensures d.id in m ==> r[d.id] == m[d.id].(body := m[d.id].body.(position := Vec(d.x, d.y)))
  {
    if d.id in m then
      var p := m[d.id];
      m[d.id := p.(body := p.body.(position := Vec(d.x, d.y)))]
    else m
  }

  /**
    `createPlayer` overwrites: announcing an id twice keeps only the later
    mirror, where the table of vite/src/main.ts would keep the earlier one.
   */
  lemma CreatePlayerOverwrites(m: Table, first: PlayerData, second: PlayerData)
    requires first.id == second.id
    ensures CreatePlayer(CreatePlayer(m, first), second) == CreatePlayer(m, second)
  {
  }

  /** A position update carrying the own id moves the own entry: there is no self check. */
  lemma OwnPositionNotSkipped(m: Table, ownId: Id, x: real, y: real)
    requires ownId in m
    ensures PlayerPosition(m, PositionData(ownId, x, y))[ownId].body.position == Vec(x, y)
  {
  }

  class Client {
    /** `socket.id`: `None` until the first `connect`, then the id of the latest connection. */
    var ownId: Option<Id>
    var players: Table

    constructor()
      ensures ownId == None && players == map[]
    {
      ownId := None;
      players := map[];
    }

    /**
      `handleConnect`, on every (re)connection with a fresh `socket.id`: asks
      for the roster (`showPlayers`) first, then announces the own player
      (`newPlayer`) and stores it under that id. An entry stored under an
      earlier id stays.
     */
    method HandleConnect(id: Id, innerWidth: real, innerHeight: real, color: string) returns (out: seq<ClientMsg>)
      modifies this
      ensures ownId == Some(id)
      ensures var d := LocalDescriptor(id, innerWidth, innerHeight, color);
        && out == [EmitShowPlayers, EmitNewPlayer(d)]
        && players == CreatePlayer(old(players), d)
    {
      ownId := Some(id);
      out := [EmitShowPlayers];
      var playerData := LocalDescriptor(id, innerWidth, innerHeight, color);
      out := out + [EmitNewPlayer(playerData)];
      CreatePlayerStep(playerData, innerWidth, innerHeight);
    }

    method HandleShowPlayers(list: seq<PlayerData>, innerWidth: real, innerHeight: real)
      modifies this
      ensures ownId == old(ownId)
      ensures players == ShowPlayers(old(players), ownId, list)
    {
      for i := 0 to |list|
        invariant ownId == old(ownId)
        invariant players == ShowPlayers(old(players), ownId, list[..i])
      {
        var playerData := list[i];
        if !IsOwn(playerData.id, ownId) {
          CreatePlayerStep(playerData, innerWidth, innerHeight);
        }
        ShowPlayersStep(old(players), ownId, list, i);
      }
      assert list[..|list|] == list;
    }

    method HandleNewPlayer(d: PlayerData, innerWidth: real, innerHeight: real)
      modifies this
      ensures ownId == old(ownId)
      ensures players == NewPlayer(old(players), ownId, d)
    {
      if !IsOwn(d.id, ownId) {
        CreatePlayerStep(d, innerWidth, innerHeight);
      }
    }

    method HandlePlayerDisconnected(id: Id)
      modifies this
      ensures ownId == old(ownId)
      ensures players == PlayerDisconnected(old(players), id)
    {
      if id in players {
        players := players - {id};
      }
    }

    method HandlePlayerPosition(d: PositionData)
      modifies this
      ensures ownId == old(ownId)
      ensures players == PlayerPosition(old(players), d)
    {
      if d.id in players {
        var player := players[d.id];
        player := player.(body := player.body.(position := player.body.position.(x := d.x)));
        player := player.(body := player.body.(position := player.body.position.(y := d.y)));
        players := players[d.id := player];
      }
    }

    /** `createPlayer`: constructs the player and stores it, with no existence check. */
    method CreatePlayerStep(d: PlayerData, innerWidth: real, innerHeight: real)
      modifies this
      ensures ownId == old(ownId)
      ensures players == CreatePlayer(old(players), d)
    {
      var newPlayer := new ClientPlayer.Player(d.id, d.x, d.y, d.width, d.height, innerWidth, innerHeight,
                                               MirrorFriction, MirrorRestitution, d.angle, d.color);
      players := players[d.id := newPlayer.View()];
    }
  }
}
