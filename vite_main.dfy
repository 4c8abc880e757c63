/**
  The client of vite/src/main.ts: a table from connection id to the `Player`
  that mirrors it, its own connection id, and one handler per socket event.
  Each handler is a step on the table, specified by a function on tables.
  The answers of matter-js's collision test and of `Math.random` (the colour)
  are parameters, as is the window size.
 */
module ViteMain {
  import opened Wire
  import opened Physics
  import opened VitePlayer

  type Table = map<Id, PlayerState>

  /** The player `connect` creates for itself, centred in the window, not turned. */
  function LocalPlayer(innerWidth: real, innerHeight: real, color: string): (s: PlayerState)
    ensures s.body.position == Vec(innerWidth / 2.0, innerHeight / 2.0)
    ensures s.width == LocalSize && s.height == LocalSize && s.angle == 0.0 && s.body.angle == 0.0
    ensures s.color == color && !s.isGrounded
  {
    Created(innerWidth / 2.0, innerHeight / 2.0, LocalSize, LocalSize, innerWidth, innerHeight,
            DefaultJumpForce, 0.0, color)
  }

  /** The mirror `playerConnected` creates: every field of the descriptor where it belongs. */
  function ConnectedMirror(d: PlayerData, innerWidth: real, innerHeight: real): (s: PlayerState)
    ensures s.body.position == Vec(d.x, d.y) && s.width == d.width && s.height == d.height
    ensures s.angle == d.angle && s.body.angle == d.angle && s.color == d.color
    ensures s.canvasWidth == innerWidth && s.canvasHeight == innerHeight && !s.isGrounded
  {
    Created(d.x, d.y, d.width, d.height, innerWidth, innerHeight, DefaultJumpForce, d.angle, d.color)
  }

  /**
    The mirror `showPlayers` creates. Its constructor call passes the
    descriptor's angle where the canvas height goes and its colour where the
    speed goes, and stops there, so the angle and the colour take their
    defaults: the mirror is not turned and is drawn in "#eee".
   */
  function ListedMirror(d: PlayerData, innerWidth: real): (s: PlayerState)
    ensures s.body.position == Vec(d.x, d.y) && s.width == d.width && s.height == d.height
    ensures s.angle == 0.0 && s.body.angle == 0.0 && s.color == DefaultColor
    ensures s.canvasWidth == innerWidth && s.canvasHeight == d.angle
    ensures s.jumpForce == DefaultJumpForce && !s.isGrounded
  {
    Created(d.x, d.y, d.width, d.height, innerWidth, d.angle, DefaultJumpForce, DefaultAngle, DefaultColor)
  }

  /**
    `playerConnected`: a mirror is created only for an id the table lacks;
    an id already present keeps its entry, and nothing else changes.
   */
  function PlayerConnected(m: Table, d: PlayerData, innerWidth: real, innerHeight: real): (r: Table)
    ensures r.Keys == m.Keys + {d.id}
    ensures forall k :: k in m ==> r[k] == m[k]
    ensures d.id !in m ==> r[d.id] == ConnectedMirror(d, innerWidth, innerHeight)
  {
    if d.id !in m then m[d.id := ConnectedMirror(d, innerWidth, innerHeight)] else m
  }

  /**
    `playerMove`: the entry of another player moves to (x, y) and turns to
    `angle`; a move carrying the local id or an unknown id changes nothing,
    and no other entry changes.
   */
  function PlayerMoved(m: Table, localId: Option<Id>, d: MoveData): (r: Table)
    ensures r.Keys == m.Keys
    ensures forall k :: k in m && k != d.id ==> r[k] == m[k]
    ensures d.id in m && !IsOwn(d.id, localId) ==>
      r[d.id] == m[d.id].(body := m[d.id].body.(position := Vec(d.x, d.y), angle := d.angle))
    ensures IsOwn(d.id, localId) || d.id !in m ==> r == m
  {
    if d.id in m && !IsOwn(d.id, localId) then
      var p := m[d.id];
      m[d.id := p.(body := SetAngle(SetPosition(p.body, Vec(d.x, d.y)), d.angle))]
    else m
  }

  /**
    `playerJump`: the entry of another player is moved to (x, y) and then
    jumps as `Player.jump` does; a jump carrying the local id or an unknown id
    changes nothing, and no other entry changes.
   */
  function PlayerJumped(m: Table, localId: Option<Id>, d: MoveData, collides: bool): (r: Table)
    ensures r.Keys == m.Keys
    ensures forall k :: k in m && k != d.id ==> r[k] == m[k]
    ensures d.id in m && !IsOwn(d.id, localId) ==>
      r[d.id] == Jumped(m[d.id].(body := m[d.id].body.(position := Vec(d.x, d.y))), collides)
    ensures IsOwn(d.id, localId) || d.id !in m ==> r == m
  {
    if !IsOwn(d.id, localId) && d.id in m then
      var p := m[d.id];
      m[d.id := Jumped(p.(body := SetPosition(p.body, Vec(d.x, d.y))), collides)]
    else m
  }

  /** `playerDisconnected`: the entry goes if present; every other entry stays. */
  function PlayerDisconnected(m: Table, id: Id): (r: Table)
    ensures r.Keys == m.Keys - {id}
    ensures forall k :: k in r ==> r[k] == m[k]
  {
    m - {id}
  }

  /**
    `showPlayers` over `list`: every listed id other than the local one gets a
    fresh mirror, created or overwritten, from the last descriptor listed
    with that id; the local entry and every unlisted entry stay as they were.
   */
  function PlayersListed(m: Table, localId: Option<Id>, list: seq<PlayerData>, innerWidth: real): (r: Table)
    ensures r.Keys == m.Keys + ListedIds(list, localId)
    ensures localId.Some? && localId.value in m ==> r[localId.value] == m[localId.value]
    ensures forall k :: k in m && k !in ListedIds(list, localId) ==> r[k] == m[k]
    ensures forall i :: 0 <= i < |list| && !IsOwn(list[i].id, localId) && LastWithId(list, i) ==>
      r[list[i].id] == ListedMirror(list[i], innerWidth)
  {
    if list == [] then m
    else
      var init, d := list[..|list| - 1], list[|list| - 1];
      var before := PlayersListed(m, localId, init, innerWidth);
      ListedIdsInit(list, localId);
      LastWithIdInit(list);
      if !IsOwn(d.id, localId) then before[d.id := ListedMirror(d, innerWidth)] else before
  }

  /** One more turn of the `showPlayers` loop handles one more descriptor. */
  lemma PlayersListedStep(m: Table, localId: Option<Id>, list: seq<PlayerData>, i: nat, innerWidth: real)
    requires i < |list|
    ensures var before, d := PlayersListed(m, localId, list[..i], innerWidth), list[i];
      PlayersListed(m, localId, list[..i + 1], innerWidth)
        == if !IsOwn(d.id, localId) then before[d.id := ListedMirror(d, innerWidth)] else before
  {
    assert list[..i + 1][..i] == list[..i];
  }

  /** `playerConnected` is idempotent: a repeated announcement changes nothing more. */
  lemma PlayerConnectedIdempotent(m: Table, d: PlayerData, innerWidth: real, innerHeight: real)
    ensures PlayerConnected(PlayerConnected(m, d, innerWidth, innerHeight), d, innerWidth, innerHeight)
         == PlayerConnected(m, d, innerWidth, innerHeight)
  {
  }

  /**
    The relay echoes a client's own `newPlayer` back to it as `playerConnected`;
    once `connect` has stored the local player, that echo leaves the table as it is.
   */
  lemma OwnEchoIgnored(m: Table, localId: Id, innerWidth: real, innerHeight: real, color: string, echo: PlayerData)
    requires echo.id == localId
    ensures var t := m[localId := LocalPlayer(innerWidth, innerHeight, color)];
      PlayerConnected(t, echo, innerWidth, innerHeight) == t
  {
  }

  class Client {
    /** `socket.id`: `None` until the first `connect`, then the id of the latest connection. */
    var localId: Option<Id>
    var players: Table
    /**
      The `keydown` listeners registered so far. Each `connect` adds one, and
      on every key press each listener runs the local player's move or jump.
     */
    var keydownListeners: nat

    constructor()
      ensures localId == None && players == map[] && keydownListeners == 0
    {
      localId := None;
      players := map[];
      keydownListeners := 0;
    }

    /**
      `connect`, fired on every (re)connection with a fresh `socket.id`:
      announces the local player (`newPlayer`), stores it under that id,
      then asks for the roster (`showPlayers`) and registers one more
      `keydown` listener. An entry stored under an earlier id stays, and so
      do the listeners registered by earlier connects.
     */
    method OnConnect(id: Id, innerWidth: real, innerHeight: real, color: string) returns (out: seq<ClientMsg>)
      modifies this
      ensures localId == Some(id)
      ensures keydownListeners == old(keydownListeners) + 1
      ensures players == old(players)[id := LocalPlayer(innerWidth, innerHeight, color)]
      ensures out == [EmitNewPlayer(LocalDescriptor(id, innerWidth, innerHeight, color)), EmitShowPlayers]
    {
      localId := Some(id);
      out := [EmitNewPlayer(LocalDescriptor(id, innerWidth, innerHeight, color))];
      var newPlayer := new Player(innerWidth / 2.0, innerHeight / 2.0, LocalSize, LocalSize, innerWidth, innerHeight,
                                  DefaultSpeed, DefaultJumpForce, 0.0, color);
      players := players[id := newPlayer.View()];
      out := out + [EmitShowPlayers];
      keydownListeners := keydownListeners + 1;
    }

    method OnPlayerJump(d: MoveData, collides: bool)
      modifies this
      ensures localId == old(localId) && keydownListeners == old(keydownListeners)
      ensures players == PlayerJumped(old(players), localId, d, collides)
    {
      if !IsOwn(d.id, localId) {
        if d.id in players {
          var other := players[d.id];
          other := other.(body := SetPosition(other.body, Vec(d.x, d.y)));
          players := players[d.id := Jumped(other, collides)];
        }
      }
    }

    method OnShowPlayers(list: seq<PlayerData>, innerWidth: real)
      modifies this
      ensures localId == old(localId) && keydownListeners == old(keydownListeners)
      ensures players == PlayersListed(old(players), localId, list, innerWidth)
    {
      for i := 0 to |list|
        invariant localId == old(localId) && keydownListeners == old(keydownListeners)
        invariant players == PlayersListed(old(players), localId, list[..i], innerWidth)
      {
        var player := list[i];
        if !IsOwn(player.id, localId) {
          players := players[player.id := ListedMirror(player, innerWidth)];
        }
        PlayersListedStep(old(players), localId, list, i, innerWidth);
      }
      assert list[..|list|] == list;
    }

    method OnPlayerConnected(d: PlayerData, innerWidth: real, innerHeight: real)
      modifies this
      ensures localId == old(localId) && keydownListeners == old(keydownListeners)
      ensures players == PlayerConnected(old(players), d, innerWidth, innerHeight)
    {
      if d.id !in players {
        players := players[d.id := ConnectedMirror(d, innerWidth, innerHeight)];
      }
    }

    method OnPlayerMove(d: MoveData)
      modifies this
      ensures localId == old(localId) && keydownListeners == old(keydownListeners)
      ensures players == PlayerMoved(old(players), localId, d)
    {
      if d.id in players && !IsOwn(d.id, localId) {
        var other := players[d.id];
        other := other.(body := SetPosition(other.body, Vec(d.x, d.y)));
        other := other.(body := SetAngle(other.body, d.angle));
        players := players[d.id := other];
      }
    }

    method OnPlayerDisconnected(id: Id)
      modifies this
      ensures localId == old(localId) && keydownListeners == old(keydownListeners)
      ensures players == PlayerDisconnected(old(players), id)
    {
      if id in players {
        players := players - {id};
      }
    }

    /**
      `emitPlayerPosition`: a `playerMove` carrying the local player's id,
      position and body angle, sent only when the client is connected and
      its entry exists.
     */
    method EmitPlayerPosition() returns (out: Option<ClientMsg>)
      ensures out.Some? <==> localId.Some? && localId.value in players
      ensures out.Some? ==>
        var b := players[localId.value].body;
        out.value == EmitPlayerMove(MoveData(localId.value, b.position.x, b.position.y, b.angle))
    {
      if localId.Some? && localId.value in players {
        var player := players[localId.value];
        out := Some(EmitPlayerMove(MoveData(localId.value, player.body.position.x, player.body.position.y,
                                            player.body.angle)));
      } else {
        out := None;
      }
    }
  }

  /**
    A reconnection: `connect` fires again with a fresh `socket.id`. The new
    local player is stored under the new id, and the one stored under the old
    id stays in the table, now treated like any other player's entry. Two
    `keydown` listeners are now registered, so each key press moves or jumps
    the local player twice.
   */
  method Reconnect(first: Id, second: Id, innerWidth: real, innerHeight: real, color1: string, color2: string)
    returns (client: Client)
    requires first != second
    ensures client.localId == Some(second)
    ensures client.keydownListeners == 2
    ensures client.players.Keys == {first, second}
    ensures client.players[first] == LocalPlayer(innerWidth, innerHeight, color1)
    ensures client.players[second] == LocalPlayer(innerWidth, innerHeight, color2)
  {
    client := new Client();
    var firstOut := client.OnConnect(first, innerWidth, innerHeight, color1);
    var secondOut := client.OnConnect(second, innerWidth, innerHeight, color2);
  }
}
