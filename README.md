# Player-state synchronisation of the F4F multiplayer prototype, in Dafny

This project models how the F4F prototype keeps player positions in step between
its relay server and its browsers. It has two parts:

- **The server** (`server.dfy`, module `Server`). It keeps a registry from socket id
  to `{x, y, z, rotation, skin}`. When a socket connects, the server creates the
  socket's entry at the origin with a skin from 1..3. It sends the whole registry to
  the newcomer (`currentPlayers`) and announces the newcomer to every other socket
  (`newPlayer`). A `playerMovement` message overwrites the sender's coordinates and
  heading, but only when the sender has an entry. The server then relays the stored
  state, skin included, to every other socket (`playerMoved`). On `disconnect` it
  deletes the entry and tells every remaining socket (`playerDisconnected`).
- **The client** (`client.dfy`, module `Client`). Each browser keeps `otherPlayers`,
  a replica of the remote players. Adding a remote player happens in two steps,
  because the browser must load a model first. `addOtherPlayer` only starts the load.
  The insertion happens when the load completes, and loads can complete in any order.

`protocol.dfy` (module `Protocol`) defines what the two sides share: the stored
record, the five catalogue events, and the three addressing modes of the server's
emits. The modes are "only this socket" (`socket.emit`), "every socket but this
one" (`socket.broadcast.emit`) and "every socket" (`io.emit`). `Addressees` maps a
mode and the set of connected sockets to the sockets the emit reaches.
`sync.dfy` (module `Sync`) links the two sides. It shows what a delivered server
event does to a client's replica. `Sync.Deliver` is the client's dispatch of the four
server events, and `Sync.Receive` applies, in order, the emits addressed to one
client.

Each side has two layers:

- A value (`Server.Session`, `Client.Replica`) with one handler function per event.
  These functions are the specification.
- A class (`Server.Relay`, `Client.Game`) that makes the same updates in place, step
  by step, as the JavaScript does. The class's methods are proved equal to the
  handler functions.

`Client.Game.OnCurrentPlayers` keeps the source's loop over the snapshot keys. Its
invariant says that the loads requested so far are exactly those for the keys
already visited.

Emits are entries appended to an outbox, each with its addressing mode. The run
lemmas of `Server` cover any sequence of connections, movements and disconnects.

Behaviour of the code that the lemmas make explicit:

- The snapshot sent to a newcomer already contains the newcomer's own entry, because
  the entry is inserted before the emit (server.js:19-28). So the first client to
  connect receives a one-entry snapshot holding itself, not an empty one.
  `Server.JoinMoveLeaveScenario` states this.
- A `playerMoved` that arrives while that player's model is still loading is dropped.
  When the load completes, the avatar stands where the join payload put it
  (`Client.MovementBeforeLoadIsLost`).
- A load that completes after the player's `playerDisconnected` inserts the avatar
  again (`Client.LoadAfterDisconnectReinserts`). Because the transport fires
  `disconnect` once per socket and never reuses an id, no later event removes that
  avatar. That transport guarantee is not modelled.

`Sync.Mirrors` states the intended relation between the two sides. The client's
`otherPlayers` holds exactly the registry's entries minus the client's own, each at
its stored position and heading with its skin, and no load is in flight.
`Sync.MirrorsOnceLoaded` is the same relation while loads are still in flight.

- A newcomer reaches `Mirrors` once all the loads its snapshot started have completed,
  in any order (`Sync.NewcomerMirrorsOnceLoaded`).
- Joins of other players (once the load completes), any movement, and leaves of other
  players preserve `Mirrors`.

The relation breaks in two places:

- A movement that arrives while the mover's load is pending leaves the avatar at the
  join position until the mover's next movement
  (`Sync.MovementDuringLoadBreaksMirror`).
- A load that completes after its player's `playerDisconnected` re-inserts a player
  who is no longer registered.

Coordinates and headings are only copied, never computed, so they are modelled as
`int`. The random skin draw (server.js:16) is a parameter constrained to 1..3. The
client's own socket id is the constant `Client.Game.self`.

## Model

| member | source | states |
|---|---|---|
| `Protocol.Addressees` | server.js:28-59 | An emit to one socket reaches that socket if it is connected. A broadcast reaches every connected socket except the sender. `io.emit` reaches every connected socket. |
| `Protocol.NoSelfEcho` | server.js:31-52 | A correctly addressed `newPlayer` or `playerMoved` reaches every live socket except the one it is about, and never that one. A snapshot reaches at most one socket. `playerDisconnected` reaches all live sockets. |
| `Server.HandleConnection` | server.js:12-34 | The socket becomes live. Its entry is (0, 0, 0), rotation 0, with the given skin. Other entries are unchanged. Exactly two emits are appended: the full post-insertion registry (including the newcomer's entry) to the newcomer only, then `newPlayer` with the id and stored state to exactly the previously live other sockets. The registry stays consistent. |
| `Server.HandleMovement` | server.js:37-54 | From an id without an entry: nothing changes and nothing is emitted. Otherwise only x, y, z and rotation of the sender's entry are overwritten. Its skin, every other entry and the key set are unchanged. One `playerMoved` is appended, carrying the stored coordinates, heading and skin, addressed to all but the sender. |
| `Server.HandleDisconnect` | server.js:56-60 | Exactly that id leaves the live set and the registry. Other entries are untouched, and an absent id leaves the registry as it was. One `playerDisconnected` with that id is appended, reaching exactly the remaining sockets. |
| `Server.DisconnectIdempotent` | server.js:58-59 | A second disconnect of the same id leaves registry and live set as after the first. It only announces again. |
| `Server.MovementAfterDisconnectIgnored` | server.js:38 | After a disconnect, a late movement of that id changes nothing and does not re-create the entry. |
| `Server.RegistryTracksConnections` | server.js:12-60 | Over any sequence of events, the registry's key set equals the set of connected sockets, computed from connects and disconnects alone. |
| `Server.RunKeepsConsistent` | server.js:16-25 | Over any sequence of events, the registry's keys stay the live sockets and every stored skin stays in 1..3. |
| `Server.RunRoutesEveryEmit` | server.js:28-59 | Every emit over any run uses its event's addressing: snapshot to one socket, join and movement to all but their subject, leave to all. |
| `Server.SkinNeverChanges` | server.js:16-52 | While an id is neither reconnected nor disconnected, its entry persists and its skin never changes, whatever movements are processed. |
| `Server.JoinMoveLeaveScenario` | server.js:19-59 | A connects and receives a snapshot holding only its own entry, and A's own `newPlayer` reaches nobody. B connects and receives both entries, and only A is told of B. B moves to (5, 0, -3) and only A gets it with B's skin. A leaves and B is told. A later C's snapshot lacks A. |
| `Server.Step` | server.js:12-60 | Each socket handler only appends to the outbox, and every emit it appends is routed for its event kind. A movement never changes who is registered or connected. The registry stays consistent. |
| `Server.Relay.constructor` | server.js:10 | The registry, connected set and outbox start empty and consistent. |
| `Server.Relay.Connect` | server.js:12-34 | The in-place handler leaves exactly the state `HandleConnection` describes and keeps the registry consistent. |
| `Server.Relay.Move` | server.js:37-54 | The guarded field-by-field overwrite and relay leave exactly the state `HandleMovement` describes. |
| `Server.Relay.Disconnect` | server.js:56-60 | The delete and announce leave exactly the state `HandleDisconnect` describes. |
| `Client.SkinId` | public/game.js:124 | An absent or zero skin becomes 1. Any other given skin is used as it is. The result is never 0. |
| `Client.Requests` | public/game.js:138-142 | Each visited snapshot entry whose id is not the client's own yields exactly one load request with that entry's data. Nothing else yields a request. |
| `Client.RequestsStep` | public/game.js:138-142 | Visiting one more key adds exactly its request, or nothing when it is the client's own id. |
| `Client.RequestsCount` | public/game.js:138-142 | Without the client's own id among the keys, there is one request per key. |
| `Client.RequestLoad` | public/game.js:123-125 | `addOtherPlayer` adds one pending load for (id, data). The replica of others is unchanged until the load completes. |
| `Client.HandleCurrentPlayers` | public/game.js:137-143 | Each snapshot entry except the client's own id gets exactly one more pending load, with that entry's data. No other load is added and `otherPlayers` is unchanged. |
| `Client.CurrentPlayersLoadsEveryEntry` | public/game.js:137-143 | A snapshot starts exactly one load per entry other than the client's own. That is one fewer than its entries when the client's own entry is in it, as in every snapshot the server sends, and as many as its entries otherwise. |
| `Client.HandleNewPlayer` | public/game.js:145-147 | `newPlayer` adds one pending load for the announced id and data, and nothing else. |
| `Client.HandleLoaded` | public/game.js:125-134 | On load completion, `otherPlayers[id]` is set (replacing any earlier one) with the fallback skin, position (data.x, data.y, data.z) and heading data.rotation. Other entries are unchanged and that one request leaves the pending loads. |
| `Client.HandlePlayerMoved` | public/game.js:149-155 | For an id without an avatar, the replica is unchanged. Otherwise only that avatar's position and heading change: its model, the other avatars and the pending loads stay. |
| `Client.HandlePlayerDisconnected` | public/game.js:157-162 | The id's avatar is removed if present, and the call is a no-op otherwise. Other avatars and the pending loads are unchanged. |
| `Client.MovementBeforeLoadIsLost` | public/game.js:125-155 | A movement handled while the player's load is pending is lost. The completed avatar has the join payload's position. |
| `Client.LoadAfterDisconnectReinserts` | public/game.js:125-161 | A load pending at `playerDisconnected` survives it, and its completion puts the avatar back. |
| `Client.Game.constructor` | public/game.js:19 | `otherPlayers` and the pending loads start empty. |
| `Client.Game.AddOtherPlayer` | public/game.js:123-135 | Leaves exactly the state `RequestLoad` describes. |
| `Client.Game.OnCurrentPlayers` | public/game.js:137-143 | The loop over the snapshot keys leaves exactly the state `HandleCurrentPlayers` describes. |
| `Client.Game.OnNewPlayer` | public/game.js:145-147 | Leaves exactly the state `HandleNewPlayer` describes. |
| `Client.Game.Loaded` | public/game.js:125-134 | The load callback's insertion and position and rotation setting leave exactly the state `HandleLoaded` describes. |
| `Client.Game.OnPlayerMoved` | public/game.js:149-155 | The guarded `position.set` and `rotation.y` overwrite leaves exactly the state `HandlePlayerMoved` describes. |
| `Client.Game.OnPlayerDisconnected` | public/game.js:157-162 | The guarded delete leaves exactly the state `HandlePlayerDisconnected` describes. |
| `Sync.ServerSkinSurvivesFallback` | public/game.js:124 | A skin the server assigned (1..3) is never replaced by the client's fallback. The loaded avatar carries it with the stored position and heading. |
| `Sync.SnapshotRequestsMirrorRegistry` | public/game.js:137-143 | The newcomer's snapshot contains its own entry. Handling it requests exactly one load for every previously registered player, with its stored state, and none for the newcomer itself. |
| `Sync.JoinReachesPeer` | server.js:31-34 | The `newPlayer` for B reaches every other live client. Once that client's load completes, it shows B at the origin, heading 0, with B's skin. |
| `Sync.MovementReachesPeer` | server.js:45-52 | The `playerMoved` reaches every other live client and carries the unchanged skin. A client already showing the mover places it at the stored position and heading, keeping its model. |
| `Sync.LeaveReachesPeers` | server.js:58-59 | `playerDisconnected` reaches every remaining client, and each one drops that avatar. |
| `Sync.Deliver` | public/game.js:137-162 | The client's dispatch of the four server events. `currentPlayers` and `newPlayer` never touch `otherPlayers`; `newPlayer` adds exactly its load. `playerMoved` and `playerDisconnected` never start or cancel a load and never add an avatar. After `playerDisconnected` the id has no avatar. |
| `Sync.MovementDuringLoadBreaksMirror` | public/game.js:125-155 | After another player joins and moves before the client's load for them completes, the load is still pending. Once it completes, the replica does not mirror the registry. The mover's next movement makes it mirror again. |
| `Sync.LoadKeepsMirrorsOnceLoaded` | public/game.js:125-134 | Completing any pending load keeps every avatar equal to its registry entry and every registered other player either shown or still loading. |
| `Sync.CompleteAllMirrors` | public/game.js:125-134 | Completing all pending loads, in any order, brings a replica that mirrors the registry up to loads to mirror it exactly. |
| `Sync.NewcomerMirrorsOnceLoaded` | public/game.js:137-143 | A client that connects to a registry that already has players receives only its snapshot. Once every load that snapshot started has completed, in any order, its replica mirrors the registry. |
| `Sync.JoinKeepsMirror` | server.js:31-34 | When another player connects, a mirroring live client receives only the `newPlayer` and has exactly that one load pending. Once the load completes, the client mirrors the new registry. |
| `Sync.MovementKeepsMirror` | server.js:37-54 | Any movement, including the client's own and one from an unknown id, keeps a live mirroring client mirroring the updated registry after it handles what is addressed to it. |
| `Sync.LeaveKeepsMirror` | server.js:56-60 | When another player disconnects, a live mirroring client handles the announcement and mirrors the registry without that player. |

## Left out

- Static file serving, the HTTP listener, the port setting and console logging (server.js:1-7, 13, 57, 63-66) are process plumbing and are not modelled.
- Socket delivery is not modelled. Emits are outbox entries with an addressing mode, and `Addressees` resolves a mode against the connected sockets at the time of the emit. Network delivery, its latency and its per-connection ordering are not modelled.
- `Math.random` (server.js:16) is replaced by a skin parameter that callers restrict to 1..3. Uniformity of the draw is not modelled.
- Coordinates and headings are `int`, not JavaScript numbers. Malformed or missing movement fields (which the source would copy as `undefined`) are not modelled: `Movement` always has all four fields.
- Client skin falsiness is modelled for absent values and 0. Other falsy JavaScript values (NaN, `null`, `""`, `false`) stand for the same case as absent or 0.
- Scene construction, the map, the animatronics, texture and glTF loading internals (public/game.js:1-119), `scene.add` / `scene.remove`, and the model file chosen from the skin are rendering. An avatar records only the skin variant it was loaded from, its position and its heading.
- Joystick and touch input, the animation loop, camera-relative movement, box collision and the resize handler (public/game.js:164-270) are input, float geometry and UI. The emitting of `playerMovement` by the client is therefore not modelled.
- `Object.keys` order is not modelled: `Client.Game.OnCurrentPlayers` visits the snapshot keys in an arbitrary order. This is harmless because the pending loads form a multiset.
- A repeated connection id overwrites the existing entry, as the assignment at server.js:19 does. Uniqueness of socket ids is a transport guarantee and is not modelled.
- One connection per client: the client's own id is fixed at construction, although the socket library assigns a new id on every automatic reconnection, which starts a new server session and a second `currentPlayers`. Reconnection is not modelled.
