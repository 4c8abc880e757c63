# Player lifecycle and relay bookkeeping of a matter-js / socket.io platformer

This project models the bookkeeping of a browser multiplayer platformer. The
physics belongs to matter-js and the transport to socket.io. What remains is
state that the game's own code keeps:

- **The relay roster** (`server/index.js`). This is a JavaScript `Map` from connection id to the
  descriptor that connection announced. It is modelled as entries plus
  insertion order, because `showPlayers` replays it with `forEach`. Each socket
  handler is one atomic step (`Relay.RelayServer`). The step returns the
  messages it emits, scoped `All` (`io.emit`) or `Requester` (`socket.emit`).
  The step is proved against the functions `Set`, `Delete` and `Replay`.
- **The client mirror tables.** `vite/src/main.ts` (`ViteMain.Client`) and
  `vite/src/socket.ts` (`ViteSocket.Client`) each keep a table from connection
  id to player mirror. The two files are different variants: `main.ts`
  creates on `playerConnected` only for an absent id and never moves its own
  entry. `socket.ts` always overwrites in `createPlayer` and moves any entry,
  its own included. Each handler is a method proved against a function on tables.
- **The player and ground classes.** These are `vite/src/class/Player.ts` (`VitePlayer.Player`),
  `client/src/class/Player.ts` (`ClientPlayer.Player`) and
  `client/src/class/Ground.ts` (`ClientGround.Ground`). They cover the grounded latch
  of `jump` and the choice `update` makes between gravity and friction. They
  also cover the one-shift horizontal wrap, and the way the ground's stored size
  makes `Body.scale` factors relative.

The answer of matter-js's collision test is a boolean parameter (`collides`). The
same goes for the window size and the colour that `Math.random` picks. `Body.applyForce` and `Body.scale`
are recorded as effects: the forces, in call order, on the body value
(`Physics.Body.forces`), and the scale factors on the ground. Coordinates are reals.

Points where the code does other than its event and method names suggest:

- `newPlayer` is announced with `io.emit`, so it goes to every connection,
  the sender included. The sender's own echo is
  harmless in `main.ts`, because its entry already exists (`ViteMain.OwnEchoIgnored`).
- `update` wraps by a single shift of the canvas width: a body more than one
  width off the canvas is still off it afterwards (`VitePlayer.WrapIsNotModulo`).
- The server has no `playerPosition` handler, and it never emits `showPlayers`,
  `newPlayer` or `playerPosition` to clients. So the `showPlayers` handler of
  `main.ts`, and the `handleShowPlayers`, `handleNewPlayer` and
  `handlePlayerPosition` handlers of `socket.ts`, are not fed by this server.
  They are modelled as written.
- `socket.ts` imports `Player` from `./class/Player`, which from `vite/src` is
  `vite/src/class/Player.ts` with eleven parameters. Yet `createPlayer` passes
  thirteen arguments, id first, then friction 0.008 and restitution 0.1. That
  fits the constructor of `client/src/class/Player.ts`, which is what
  `client/src/main.ts` (importing `./socket`) and `client/src/types.ts`
  (supplying `PlayerData`) pair it with. The model reads the call as written for
  that constructor, so the mirrors of `socket.ts` are `ClientPlayer` states.
  Against the class the import names, the arguments would shift: x would
  receive the id, the world the height and the canvas width the world.
  `Composite.add` would then receive a number as its world.
- `socket.id` is `undefined` until `connect` fires, and it takes a fresh value on
  every reconnection. So each client keeps its own id as a field that starts
  `None` and that every `connect` sets (`ViteMain.Client.localId`,
  `ViteSocket.Client.ownId`).
- In `main.ts`, `showPlayers` calls the `Player` constructor with its arguments
  shifted. The descriptor's angle lands in the canvas height and its colour in
  the speed. Then angle and colour take their defaults, 0 and `"#eee"`
  (`ViteMain.ListedMirror`).

## Model

| member | source | states |
|---|---|---|
| `Relay.RelayServer.constructor` | server/index.js:29 | the roster starts empty and satisfies the roster invariant |
| `Relay.Set` | server/index.js:47 | `players.set`: the key holds the new descriptor, every other entry is unchanged, old keys keep their order, and well-formedness is preserved |
| `Relay.Delete` | server/index.js:53 | `players.delete`: the key is gone, every other entry is unchanged, well-formedness is preserved, and deleting an absent key changes nothing |
| `Relay.Replay` | server/index.js:56-64 | the `showPlayers` reply holds only Requester-scoped `playerConnected` messages for roster descriptors whose id is not the requester's, and it holds one for every such entry |
| `Relay.ReplayCount` | server/index.js:59-63 | the reply has exactly as many messages as the roster has keys other than the requester's, so each other entry is sent exactly once |
| `Relay.ReplayOmitsRequester` | server/index.js:59-62 | the requester's own descriptor is never in the reply |
| `Relay.RosterInvariant` | server/index.js:44-54 | `newPlayer` and `disconnect` keep the roster well formed and keep every descriptor's id equal to its key |
| `Relay.NewPlayerTwice` | server/index.js:44-47 | `newPlayer` sent twice by one connection leaves the roster as if only the later one had been sent |
| `Relay.NewThenDisconnect` | server/index.js:44-54 | `newPlayer` then `disconnect` on one connection gives what `disconnect` alone gives; for a connection not in the roster it restores the roster exactly |
| `Relay.RelayServer.OnPlayerMove` | server/index.js:35-37 | the payload is re-emitted verbatim to All; the method has no write frame, so the roster is untouched and positions are not persisted |
| `Relay.RelayServer.OnPlayerJump` | server/index.js:40-42 | the payload is re-emitted verbatim to All; the roster is untouched |
| `Relay.RelayServer.OnNewPlayer` | server/index.js:44-49 | the descriptor is stamped with the connection id whatever id was sent, then stored under that id, then announced once to All |
| `Relay.RelayServer.OnDisconnect` | server/index.js:51-54 | `playerDisconnected(c)` goes to All, and the roster loses `c` and nothing else |
| `Relay.RelayServer.OnShowPlayers` | server/index.js:56-64 | the loop over the roster in insertion order emits exactly `Replay`, and the roster is unchanged |
| `Relay.JoinTwo` | server/index.js:44-64 | on a fresh relay, A joins and gets an empty reply, then B joins and All hear of it; the roster is then A and B, in that order |
| `Relay.TwoClientScenario` | server/index.js:31-65 | on a fresh relay: A joins and gets an empty reply; B joins and All hear of it; B's reply names only A; when A leaves, All hear of it, and the roster holds B alone |
| `VitePlayer.Player.constructor` | vite/src/class/Player.ts:25-52 | the player starts not grounded; speed, jump force, canvas size, angle and colour are stored as given; the body is turned to the angle |
| `VitePlayer.Player.MoveLeft` | vite/src/class/Player.ts:54-57 | records the force (-speed, 0) and leaves the grounded flag alone |
| `VitePlayer.Player.MoveRight` | vite/src/class/Player.ts:59-62 | records the force (speed, 0) and leaves the grounded flag alone |
| `VitePlayer.Jumped` | vite/src/class/Player.ts:64-72 | after `jump` the flag is always false; the force (0, -jumpForce) is added iff the collision test said grounded; nothing else changes |
| `VitePlayer.Player.Jump` | vite/src/class/Player.ts:64-72 | the field updates of `jump` produce `Jumped` of the old state |
| `VitePlayer.Updated` | vite/src/class/Player.ts:74-136 | after `update` the flag equals the collision answer; exactly one of gravity (vy + 0.5, when airborne) or friction (vx * 0.9, when grounded) applies; x wraps and y is kept |
| `VitePlayer.Player.Update` | vite/src/class/Player.ts:74-88 | the steps of `update` produce `Updated` of the old state |
| `VitePlayer.Player.ApplyGravity` | vite/src/class/Player.ts:90-98 | adds 0.5 to the vertical velocity only when airborne |
| `VitePlayer.Player.ApplyFriction` | vite/src/class/Player.ts:100-108 | scales the horizontal velocity by 0.9 only when grounded |
| `VitePlayer.Player.HandleCanvasWrap` | vite/src/class/Player.ts:121-136 | moves the body to the wrapped x and keeps y |
| `VitePlayer.WrapIsOneShift` | vite/src/class/Player.ts:121-136 | x < 0 gains the width, x past the width loses it, x on the canvas stays; the result is on the canvas iff -w <= x <= 2w |
| `VitePlayer.WrapIsNotModulo` | vite/src/class/Player.ts:124-134 | a body three widths out lands at two widths, still off the canvas |
| `VitePlayer.WrapPastRightEdge` | vite/src/class/Player.ts:121-136 | a body 5 past the right edge reappears at x = 5 with y unchanged |
| `ClientPlayer.Player.constructor` | client/src/class/Player.ts:10-39 | stores the id, and the player starts not grounded |
| `ClientPlayer.Player.MoveLeft` | client/src/class/Player.ts:41-43 | records (-0.05, 0) and leaves the flag alone |
| `ClientPlayer.Player.MoveRight` | client/src/class/Player.ts:45-47 | records (0.05, 0) and leaves the flag alone |
| `ClientPlayer.Jumped` | client/src/class/Player.ts:49-54 | a grounded player gets (0, -0.1) and loses the flag; an airborne one is unchanged |
| `ClientPlayer.Player.Jump` | client/src/class/Player.ts:49-54 | the field updates of `jump` produce `Jumped` of the old state |
| `ClientPlayer.JumpLatchFiresOnce` | client/src/class/Player.ts:49-54 | a second `jump` without a landing does nothing, so at most one impulse is applied |
| `ClientPlayer.Player.Update` | client/src/class/Player.ts:56-58 | changes nothing |
| `ClientGround.Ground.constructor` | client/src/class/Ground.ts:8-21 | stores width and height exactly as given; no scale has been applied yet |
| `ClientGround.ScaleFactor` | client/src/class/Ground.ts:25 | the factor given to `Body.scale` turns the stored size into the new one |
| `ClientGround.ResizeByFactor` | client/src/class/Ground.ts:25 | a resize to k times the stored size scales by exactly k |
| `ClientGround.ScaledSize` | client/src/class/Ground.ts:25-27 | if the stored size is the initial size times the factors so far, then after one more `Body.scale` the new size is the initial size times all the factors |
| `ClientGround.ProductAppend` | client/src/class/Ground.ts:25-27 | one more scale multiplies the accumulated factor by that scale |
| `ClientGround.Ground.UpdatePositionAndSize` | client/src/class/Ground.ts:23-28 | the body moves to (x, y) and is scaled by new/stored size, computed before the stored size is overwritten; afterwards the stored size equals the arguments |
| `ClientGround.Ground.ScalesAreRelative` | client/src/class/Ground.ts:23-28 | over any run of updates, the product of the applied factors is the current size over the initial size |
| `ViteMain.Client.constructor` | vite/src/main.ts:61 | the mirror table starts empty, and no own id is known before `connect` |
| `ViteMain.LocalPlayer` | vite/src/main.ts:119-131 | the local player is at (innerWidth/2, innerHeight/2), 40 by 40, angle 0, in the chosen colour, not grounded |
| `ViteMain.Client.OnConnect` | vite/src/main.ts:103-150 | the connection's id becomes the own id; `newPlayer` with the local descriptor is emitted before `showPlayers`; the local player is stored under that id, and every other entry stays; one more `keydown` listener is registered |
| `ViteMain.Reconnect` | vite/src/main.ts:103-150 | a second `connect` with a fresh id stores a second local player under it, the one under the old id stays in the table, and two `keydown` listeners are registered |
| `ViteMain.ListedMirror` | vite/src/main.ts:171-180 | a `showPlayers` mirror has angle 0 and colour `"#eee"`, and the listed angle becomes its canvas height |
| `ViteMain.PlayersListed` | vite/src/main.ts:166-184 | every listed id other than the local one gets an entry, created or overwritten, from the last descriptor with that id; the local entry and unlisted entries are unchanged |
| `ViteMain.Client.OnShowPlayers` | vite/src/main.ts:169-183 | the `for…of` loop produces `PlayersListed` of the old table |
| `ViteMain.ConnectedMirror` | vite/src/main.ts:197-213 | a `playerConnected` mirror carries the descriptor's position, size, angle and colour |
| `ViteMain.PlayerConnected` | vite/src/main.ts:199-214 | a mirror is inserted only when the id is absent; existing entries, that id's included, are unchanged |
| `ViteMain.Client.OnPlayerConnected` | vite/src/main.ts:186-216 | the handler produces `PlayerConnected` of the old table |
| `ViteMain.PlayerConnectedIdempotent` | vite/src/main.ts:199-214 | a repeated `playerConnected` changes nothing more |
| `ViteMain.OwnEchoIgnored` | vite/src/main.ts:199-214 | once `connect` has stored the local player, the relay's echo of the client's own `newPlayer` leaves the table unchanged |
| `ViteMain.PlayerMoved` | vite/src/main.ts:221-228 | only an existing entry with an id other than the local one gets the new x, y and angle; other entries are unchanged; the local or an unknown id changes nothing |
| `ViteMain.Client.OnPlayerMove` | vite/src/main.ts:218-230 | the handler produces `PlayerMoved` of the old table |
| `ViteMain.PlayerJumped` | vite/src/main.ts:156-161 | another player's existing mirror is moved to (x, y) and then jumps; the local or an unknown id changes nothing; other entries are unchanged |
| `ViteMain.Client.OnPlayerJump` | vite/src/main.ts:152-164 | the handler produces `PlayerJumped` of the old table |
| `ViteMain.PlayerDisconnected` | vite/src/main.ts:232-239 | the entry is removed if present; every other entry is unchanged |
| `ViteMain.Client.OnPlayerDisconnected` | vite/src/main.ts:232-239 | the handler produces `PlayerDisconnected` of the old table |
| `ViteMain.Client.EmitPlayerPosition` | vite/src/main.ts:263-273 | a `playerMove` with the own id, position and body angle is emitted iff the client is connected and its entry exists |
| `ViteSocket.Client.constructor` | vite/src/socket.ts:8 | the mirror table starts empty, and no own id is known before `connect` |
| `ViteSocket.Mirror` | vite/src/socket.ts:95-110 | the mirror carries the descriptor's id, position, angle, area and colour, with friction 0.008 and restitution 0.1, and is not grounded |
| `ViteSocket.CreatePlayer` | vite/src/socket.ts:95-112 | the new mirror is stored under the descriptor's id whether or not an entry exists; other entries are unchanged |
| `ViteSocket.Client.CreatePlayerStep` | vite/src/socket.ts:95-112 | constructing the player and storing it produces `CreatePlayer` of the old table |
| `ViteSocket.CreatePlayerOverwrites` | vite/src/socket.ts:111 | announcing one id twice keeps only the later mirror |
| `ViteSocket.Client.HandleConnect` | vite/src/socket.ts:34-53 | the connection's id becomes the own id; `showPlayers` is emitted before `newPlayer`; then the own player is stored under that id |
| `ViteSocket.ShowPlayers` | vite/src/socket.ts:55-66 | every listed id other than the own one gets the mirror of its last listing; none is created for the own id; the own entry and unlisted entries are unchanged |
| `ViteSocket.ShowPlayersOwnEntry` | vite/src/socket.ts:61-65 | the roster reply neither creates nor removes an entry under the own id |
| `ViteSocket.Client.HandleShowPlayers` | vite/src/socket.ts:55-66 | the `forEach` loop produces `ShowPlayers` of the old table |
| `ViteSocket.NewPlayer` | vite/src/socket.ts:68-77 | an entry is created or replaced exactly when the id is not the own id |
| `ViteSocket.Client.HandleNewPlayer` | vite/src/socket.ts:68-77 | the handler produces `NewPlayer` of the old table |
| `ViteSocket.PlayerDisconnected` | vite/src/socket.ts:79-85 | the entry is removed if present; every other entry is unchanged |
| `ViteSocket.Client.HandlePlayerDisconnected` | vite/src/socket.ts:79-85 | the handler produces `PlayerDisconnected` of the old table |
| `ViteSocket.PlayerPosition` | vite/src/socket.ts:87-93 | only x and y of the entry with the matching id change, its angle included among what stays; an unknown id changes nothing |
| `ViteSocket.OwnPositionNotSkipped` | vite/src/socket.ts:87-93 | an update carrying the own id moves the own entry, because there is no self check |
| `ViteSocket.Client.HandlePlayerPosition` | vite/src/socket.ts:87-93 | assigning x and then y produces `PlayerPosition` of the old table |

## Left out

- Transport and server setup: socket.io framing, express, CORS, static files and
  `server.listen` (server/index.js:1-27, 67-69). Handlers are called directly
  with the connection id.
- The physics engine. The collision test of `checkIfGrounded` is the parameter `collides`.
  `Body.applyForce` and `Body.scale` are recorded, not integrated, and no engine step runs.
  `setVelocity`, `setPosition` and `setAngle` are field writes.
- World membership of bodies (`Composite.add`, `World.add`, `World.remove`) is not
  tracked. So the model does not show that a mirror overwritten by `showPlayers` or
  `createPlayer` leaves its old body in the world.
- Rendering, `draw`, the mouse constraint, hot module replacement and the `forceApplied` patch
  with its logging (vite/src/main.ts:19-59, 73-89, 241-251; vite/src/class/Player.ts:138-145): these are display and debugging code.
- ViteMain.Client.OnConnect: counts the `keydown` listeners it registers (vite/src/main.ts:137-149)
  but does not model a key press. Each `connect` adds a new listener and none is ever removed,
  so after n connects every key press runs the local player's `moveLeft`, `moveRight` or `jump`
  n times. ArrowLeft and ArrowRight then apply their force n times. ArrowUp runs `jump` n times,
  and each of those asks the collision test again before any engine step, so it can apply
  (0, -jumpForce) more than once.
- Event wiring. The `collisionStart` and `keydown` handlers of client/src/eventHandler.ts
  (lines 14-39) look players up in a `Map` of their own (line 6) that nothing fills, so they never
  reach a player. The same holds for the loop exported by vite/src/gameLoop.ts: it looks the player
  up in its own module-level `Map` (line 3), which nothing fills, so its `player.update()`
  (lines 7-9) never runs; nothing in vite/src calls that export either. The `requestAnimationFrame`
  loop of vite/src/main.ts:254-261 and the `afterUpdate` hook (vite/src/main.ts:275-277) are
  registered once, call `update` and `emitPlayerPosition` and keep no state of their own. The `collisionStart` handler (vite/src/main.ts:92-100) calls no modelled operation.
  It sets `isGrounded` on the local player directly. `jump` and `update` overwrite that flag from
  the collision test before they read it (vite/src/class/Player.ts:65, 76), so the write cannot
  be observed through the modelled operations.
- Setup code: client/src/main.ts and vite/src/engine.ts. The `emitPlayerPosition` in engine.ts is empty.
- `randomHexcolor`: it reads `Math.random`, so the colour is a parameter.
- Floating point: coordinates, velocities and factors are reals, and NaN and infinities do not occur.
- ClientGround.Ground.UpdatePositionAndSize: requires a non-zero stored width and height. In the
  source a zero divisor would hand an infinite or NaN factor to `Body.scale`.
- VitePlayer.PlayerState: has no `speed`. Only `moveLeft` and `moveRight` read it, and only
  on the local player. So the colour string that `showPlayers` passes in the speed position
  is not recorded.
- The `ground` reference that client/src/class/Player.ts stores, and the `world` argument of
  every constructor, are not modelled. Nothing in the modelled code reads them.
- After a dropped connection, socket.io-client clears `socket.id` until the next `connect`.
  The model has no event for the drop, so the own id keeps its last value until the next
  `OnConnect` or `HandleConnect` replaces it.
- Relay.RelayServer.OnNewPlayer: the payload is taken to be the descriptor object that the
  clients send. The relay does not validate it. A null or missing payload makes the stamping at
  server/index.js:45 throw, so nothing is stored or emitted. A primitive payload is stored
  unstamped, because assigning a property to a primitive does nothing, and `showPlayers` would
  then send the requester its own entry.
- ViteSocket.Mirror: uses the constructor of client/src/class/Player.ts, for which the call in
  vite/src/socket.ts:96-110 was written. It does not use the class that `./class/Player`
  resolves to from vite/src, vite/src/class/Player.ts. With that class the arguments shift and
  `createPlayer` would hand `Composite.add` a number as its world (vite/src/class/Player.ts:51).
- The `playerMove` and `playerJump` payloads are arbitrary JSON that the relay passes on.
  They are modelled as the `{id, x, y, angle}` record that the clients send.
- The mirror tables hold `Player` objects. The model holds their states as values, which is
  sound because each object is reachable only through its table entry.
- vite/src/class/Ground.ts is not part of this model. `main.ts` uses the ground only through
  the collision test.
