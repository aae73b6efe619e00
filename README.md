# Online board game: the game controller, modelled in Dafny

This project models the authoritative game-state coordinator of a small
turn-based grid game server. One actor, the `GameController`, owns every
player record, the map from connected clients to the player each controls,
and (in the current version) a LIFO stack of players no client controls.
Clients connect, disconnect and send move inputs. The controller handles one
message at a time. It replies to a connecting client with a full snapshot
and broadcasts deltas (or, in the earlier version, the whole player list) to
the connected clients.

Files:

- `wrappers.dfy`: module `Wrappers`, the `Option` type.
- `json.dfy`: module `Json`, an abstract JSON value (objects as key maps, no
  text), and the decimal text serde_json uses for integer map keys, with its
  injectivity.
- `game.dfy`: module `Game`, for server/src/game.rs. It holds `GridPos`,
  `Health`, `PlayerTurn`, `Player`, `PlayerTurn::is_empty`, the
  `skip_serializing_if` key rules, and reference readers that show an omitted
  key loses nothing.
- `messaging.dfy`: module `Messaging`. It holds the client address as an
  opaque token, the three inbound messages, and the outbox a broadcast
  produces (`Fanout`).
- `controller.dfy`: module `Controller`, for server/src/game_controller.rs.
  The three handlers are pure step functions on a `State` value
  (`ConnectStep`, `DisconnectStep`, `MoveStep`, and `Run` for a whole
  mailbox). The lemmas are proved on them. The class
  `Controller.GameController` implements the handlers on mutable fields
  (`clients`, `unassigned`, `players`). Each method is proved to perform
  exactly the corresponding step. `Broadcast` is a loop over the connected
  clients that returns the outbox.
- `legacy_controller.dfy`: module `LegacyController`, for the earlier
  src/game_controller.rs. It has the same shape: a vector of players, no
  reuse, and a full `StateUpdate` after every change.

Positions and health values are `usize` fields in the source, so the model
types them as `nat` (server/src/game.rs:10-13, 20-23).

How sending is modelled: a broadcast does not send. It returns a set of
`Delivery(recipient, message)` values, one per connected client. The set
form reflects that the source iterates a `HashMap`, so its order is not
defined.

The invariant of the current controller (`Controller.Invariant`) has the
following parts:

- Player ids are exactly `0 .. |players| - 1`.
- No two clients control the same player.
- The stack has no repeats.
- The ids in use and the ids on the stack are disjoint.
- Together, the ids in use and the ids on the stack are all the ids.

`WellFormed` is the invariant without the last part. Every handler preserves
`WellFormed`. The last part is preserved as long as a connect comes from an
address that is not already registered. The actor runtime guarantees this,
because every client actor has its own address
(server/src/client_controller.rs:114-123) and sends `ClientConnected`
once, when it starts (server/src/client_controller.rs:35-46). `ReconnectStrandsPlayer` shows
what happens otherwise: `HashMap::insert` overwrites the old mapping, so the
old player is stranded.

A move from an unregistered client makes the source panic (`expect`). The
model therefore makes registration a `requires` of `MoveStep` and of
`HandleMoveAction`.

`Run` handles a sequence of messages one after another. It returns `None`
when the sequence leaves the protocol in either of two ways:

- a move comes from an unregistered client, where the source panics;
- an already registered address connects again. The source accepts this
  connect and overwrites the mapping (server/src/game_controller.rs:113),
  but the actor runtime never sends it.

So the run lemmas speak of sequences in which no registered address
connects again and every move comes from a registered client. The earlier
controller's `Run` returns `None` only for the unregistered move, because
there a repeated connect breaks nothing.

## Model

| member | source | states |
|---|---|---|
| Json.Decimal | server/src/game_controller.rs:176-178 | the text of an integer map key is non-empty, all digits, a single digit exactly for numbers below 10 |
| Json.DecimalInjective | server/src/game_controller.rs:176-178 | distinct player ids never share a key in the serialised `players` object |
| Game.IsEmpty | server/src/game.rs:50-52 | `PlayerTurn::is_empty`: no movement and no actions. Definition; its meaning is stated by `EmptyIsDefault`, `DefaultTurn` and `PlayerKeys` |
| Game.InitialPlayer | server/src/game_controller.rs:85-97 | the record for a new player (the same literal is at src/game_controller.rs:70-81). Definition; stated by `Controller.ConnectCreatesPlayer` and `LegacyController.ConnectAppendsPlayer` |
| Game.GridPosJson | server/src/game.rs:9-13 | serde output of `GridPos`, keys `x` and `y`. Definition; stated by `GridPosRoundTrip` |
| Game.HealthJson | server/src/game.rs:19-23 | serde output of `Health`, keys `max` and `current`. Definition; stated by `HealthRoundTrip` |
| Game.TurnJson | server/src/game.rs:41-47 | serde output of `PlayerTurn` under its two skip rules. Definition; stated by `TurnKeys` and `TurnRoundTrip` |
| Game.PlayerJson | server/src/game.rs:26-34 | serde output of `Player`, skipping an empty `pending_turn`. Definition; stated by `PlayerKeys`, `MovementIsSerialised` and `PlayerRoundTrip` |
| Game.DefaultTurn | server/src/game.rs:40-47 | the default turn (given to every new player) is empty |
| Game.EmptyIsDefault | server/src/game.rs:49-53 | `is_empty` holds exactly when `movement` is `None` and `actions` is empty, i.e. for the default turn and no other |
| Game.WithMovement | server/src/game_controller.rs:157 | setting `pending_turn.movement = Some(pos)` makes the turn non-empty and keeps position, health and actions |
| Game.WithMovementLastWriteWins | server/src/game_controller.rs:157 | a second movement overwrites the first; nothing is merged |
| Game.ActionsJson | server/src/game.rs:45-46 | each unit `PlayerAction` is written as `null`, one per action |
| Game.TurnKeys | server/src/game.rs:41-47 | a serialised turn has `movement` iff it is `Some` (holding that position), `actions` iff non-empty, and no other key |
| Game.PlayerKeys | server/src/game.rs:26-34 | a serialised player always has `pos` and `health`, and has `pending_turn` iff the turn is not empty |
| Game.MovementIsSerialised | server/src/game.rs:26-52 | after a movement is set, the serialised player carries it under `pending_turn.movement` |
| Game.GridPosRoundTrip | server/src/game.rs:9-13 | a position reads back from its serialised form |
| Game.HealthRoundTrip | server/src/game.rs:19-23 | a health value reads back from its serialised form |
| Game.ActionsRoundTrip | server/src/game.rs:45-46 | the action list reads back from its `null` items |
| Game.TurnRoundTrip | server/src/game.rs:41-47 | a turn reads back with omitted keys taken as `None` / no actions |
| Game.PlayerRoundTrip | server/src/game.rs:26-34 | omitting an empty `pending_turn` loses nothing: every player reads back unchanged |
| Messaging.Fanout | server/src/game_controller.rs:35-49 | a broadcast delivers the message to exactly the given recipients |
| Messaging.FanoutCardinality | server/src/game_controller.rs:41-48 | one delivery per recipient, never two |
| Messaging.FanoutEmpty | server/src/game_controller.rs:41 | a broadcast sends nothing exactly when nobody is connected |
| Controller.Init | server/src/game_controller.rs:30-32 | `GameController::new()`, all fields empty. Definition; stated by `InitInvariant` |
| Controller.ConnectStep | server/src/game_controller.rs:59-119 | the connect handler as one step. Definition; stated by `ConnectReusesLastFreed`, `ConnectCreatesPlayer`, `ConnectBroadcast`, `ConnectSnapshot`, `ConnectPreservesWellFormed`, `ConnectPreservesInvariant` and `ReconnectStrandsPlayer` |
| Controller.DisconnectStep | server/src/game_controller.rs:125-138 | the disconnect handler as one step. Definition; stated by `DisconnectFreesPlayer`, `DisconnectPreservesInvariant` and `ReconnectReusesFreedId` |
| Controller.MoveStep | server/src/game_controller.rs:144-164 | the move handler as one step; its requires are the `expect` and `unwrap` panics. Definition; stated by `MoveSetsMovement`, `MoveLastWriteWins` and `MovePreservesInvariant` |
| Controller.Run | server/src/game_controller.rs:56-165 | the handlers applied one message at a time, `None` outside the protocol. Definition; stated by `RunPreservesInvariant` |
| Controller.WorldStateJson | server/src/game_controller.rs:176-178 | serde output of `WorldState`. Definition; stated by `WorldStateEntries`, `ConnectSnapshotJson` and `EmptyWorldStateJson` |
| Controller.PlayerEntries | server/src/game_controller.rs:177 | the `players` object keyed by decimal ids. Definition; stated by `PlayerEntriesExact` |
| Controller.UpdateJson | server/src/game_controller.rs:197-205 | serde output of `Update` with `type`/`data` adjacent tagging. Definition; stated by `UpdateRoundTrip` |
| Controller.InitInvariant | server/src/game_controller.rs:29-32 | the initial, empty controller satisfies the invariant |
| Controller.ConnectReusesLastFreed | server/src/game_controller.rs:70-74 | with a non-empty stack, connect takes the top (most recently freed) id, pops it, keeps `players` and broadcasts nothing |
| Controller.ConnectCreatesPlayer | server/src/game_controller.rs:76-100 | with an empty stack, connect creates the fresh id `len` at `(len, 0)` with health 10/10 and an empty turn; `players` grows by exactly one |
| Controller.ConnectBroadcast | server/src/game_controller.rs:99-113 | `PlayerAdded` with the new record is sent iff a player was created, only to clients registered before the connecting one; something is sent iff the stack was empty and another client is connected |
| Controller.ConnectSnapshot | server/src/game_controller.rs:113-118 | the reply is `players` after the connect, the client is registered to the id it got, and that id is in the reply; no record disappears |
| Controller.ConnectPreservesWellFormed | server/src/game_controller.rs:59-119 | connect keeps ids dense, the client map injective, the stack repeat-free and disjoint from the ids in use, for any address |
| Controller.ConnectPreservesInvariant | server/src/game_controller.rs:59-119 | for an address not yet registered, connect keeps every id either in use or on the stack |
| Controller.ReconnectStrandsPlayer | server/src/game_controller.rs:113 | a connect for an already registered address strands its old player: in the table, neither in use nor on the stack |
| Controller.DisconnectFreesPlayer | server/src/game_controller.rs:130-137 | a registered client's mapping is removed and exactly its id is pushed; an unknown client changes nothing; `players` never changes |
| Controller.DisconnectPreservesInvariant | server/src/game_controller.rs:125-138 | disconnect keeps the invariant |
| Controller.ReconnectReusesFreedId | server/src/game_controller.rs:70-137 | disconnect then connect hands the new client the id just vacated, with no creation and no broadcast |
| Controller.MoveSetsMovement | server/src/game_controller.rs:153-163 | a move sets the sender's player's movement only; other players, other fields, clients and stack unchanged; `SetMovement` reaches every registered client, sender included, once each |
| Controller.MoveLastWriteWins | server/src/game_controller.rs:157 | two moves from one client leave the state of the second alone |
| Controller.MovePreservesInvariant | server/src/game_controller.rs:153-157 | a registered client's player always has a record (the `unwrap` cannot fail), and move keeps the invariant |
| Controller.RunPreservesInvariant | server/src/game_controller.rs:56-165 | along any sequence of messages in which no registered address connects again and every move comes from a registered client, the invariant holds and no player record is removed |
| Controller.ExampleSession | server/src/game_controller.rs:59-165 | A and B connect (ids 0 and 1, B's player announced to A), A moves to (3, 4) (both told), A leaves, C takes id 0 with the move still planned |
| Controller.PlayerEntriesExact | server/src/game_controller.rs:176-178 | the `players` object has a key exactly for each player id, its decimal text, holding that player's serialised record |
| Controller.WorldStateEntries | server/src/game_controller.rs:176-178 | the serialised snapshot has the one key `players`, with an entry under a decimal id exactly for each player, holding its serialised record |
| Controller.ConnectSnapshotJson | server/src/game_controller.rs:116-118 | the serialised reply to a connect has an entry for the client's own player |
| Controller.EmptyWorldStateJson | server/src/game_controller.rs:176-178 | the empty world is written `{"players": {}}` |
| Controller.UpdateRoundTrip | server/src/game_controller.rs:197-205 | the `type`/`data` tagging identifies the variant: every update reads back unchanged |
| Controller.GameController.constructor | server/src/game_controller.rs:30-32 | a new controller has no clients, an empty stack and no players |
| Controller.GameController.Broadcast | server/src/game_controller.rs:35-49 | the loop over the connected clients yields one delivery of the update to each of them |
| Controller.GameController.HandleConnected | server/src/game_controller.rs:59-119 | the fields, reply and outbox are exactly those of `ConnectStep` |
| Controller.GameController.HandleDisconnected | server/src/game_controller.rs:125-138 | the fields are exactly those of `DisconnectStep` |
| Controller.GameController.HandleMoveAction | server/src/game_controller.rs:144-164 | the fields and outbox are exactly those of `MoveStep` |
| LegacyController.Init | src/game_controller.rs:24-26 | `GameController::new()`, no clients and no players. Definition; the starting point of `MoveNeverOutOfBounds` |
| LegacyController.ConnectStep | src/game_controller.rs:51-85 | the connect handler as one step. Definition; stated by `ConnectAppendsPlayer`, `ConnectBroadcastsState`, `ConnectNeverReuses` and `ConnectPreservesInvariant` |
| LegacyController.DisconnectStep | src/game_controller.rs:91-97 | the disconnect handler as one step. Definition; stated by `DisconnectKeepsPlayers` and `DisconnectPreservesInvariant` |
| LegacyController.MoveStep | src/game_controller.rs:103-126 | the move handler as one step; its requires are the `expect` and index panics. Definition; stated by `MoveSetsMovement` and `MovePreservesInvariant` |
| LegacyController.Run | src/game_controller.rs:44-127 | the handlers applied one message at a time, `None` for a move from an unregistered client. Definition; stated by `RunPreservesInvariant`, `RunKeepsOldPlayers` and `MoveNeverOutOfBounds` |
| LegacyController.ConnectAppendsPlayer | src/game_controller.rs:59-81 | connect maps the client to `len` (read before the push) and appends the player at `(len, 0)` with health 10/10, so that index names the new record; the vector grows by one and keeps its prefix |
| LegacyController.ConnectBroadcastsState | src/game_controller.rs:29-40 | after connect every registered client, the new one included, gets one `StateUpdate` with the full vector |
| LegacyController.DisconnectKeepsPlayers | src/game_controller.rs:96 | disconnect removes only the client's mapping; `players` is unchanged |
| LegacyController.ConnectNeverReuses | src/game_controller.rs:59-65 | a client connecting after another left gets a new index, never the vacated one |
| LegacyController.MoveSetsMovement | src/game_controller.rs:111-125 | a move sets the sender's player's movement only and sends the updated full vector to every registered client |
| LegacyController.ConnectPreservesInvariant | src/game_controller.rs:59-81 | connect keeps every registered index below the vector length and no index shared |
| LegacyController.DisconnectPreservesInvariant | src/game_controller.rs:96 | disconnect keeps the invariant |
| LegacyController.MovePreservesInvariant | src/game_controller.rs:111-121 | a registered client's index is in bounds, and move keeps the invariant |
| LegacyController.RunPreservesInvariant | src/game_controller.rs:48-127 | along any sequence of messages in which every move comes from a registered client, the invariant holds and the vector never shrinks |
| LegacyController.RunKeepsOldPlayers | src/game_controller.rs:59-122 | along any such sequence, every player that already existed is still there with its position and health unchanged |
| LegacyController.MoveNeverOutOfBounds | src/game_controller.rs:119-121 | from the start, `self.players[player_index]` is in bounds for every registered client |
| LegacyController.StateUpdateJson | src/game_controller.rs:133-136 | a `StateUpdate` is written as `{"players": [...]}` with the players in vector order; `StateUpdateRoundTrip` shows nothing is lost |
| LegacyController.StateUpdateRoundTrip | src/game_controller.rs:133-136 | the full-state message loses nothing: every `StateUpdate` reads back with the same players in the same order |
| LegacyController.GameController.constructor | src/game_controller.rs:24-26 | a new controller has no clients and no players |
| LegacyController.GameController.BroadcastGameState | src/game_controller.rs:29-41 | the loop yields one delivery of the full vector to each connected client |
| LegacyController.GameController.HandleConnected | src/game_controller.rs:51-85 | the fields and outbox are exactly those of `ConnectStep` |
| LegacyController.GameController.HandleDisconnected | src/game_controller.rs:91-97 | the fields are exactly those of `DisconnectStep` |
| LegacyController.GameController.HandleMoveAction | src/game_controller.rs:103-126 | the fields and outbox are exactly those of `MoveStep` |

## Left out

- The actor runtime (actors, contexts, addresses, spawned futures, the
  `MessageResponse` glue at server/src/game_controller.rs:180-190) is left
  out. Each handler is one atomic step, and a client address is an
  equality-only token.
- Send failures are left out: the `expect` on failed sends at
  server/src/game_controller.rs:43 and src/game_controller.rs:35. These are
  transport failures. A broadcast is an outbox and never fails.
- Broadcast order is left out, because it follows `HashMap` iteration. The
  outbox is a set.
- Logging and `crate::default_hash` are left out. They have no effect on
  state.
- The client controllers (server/src/client_controller.rs,
  src/client_controller.rs) are left out: websocket frames and
  `serde_json` parsing of `MoveTo`. The inbound messages appear only as the
  `Messaging.Event` values they produce. src/main.rs (bootstrap, static
  files) and the browser and Unity clients are not part of this model.
- src/game.rs is not part of this model. It is a `Player` without
  `pending_turn`, which src/game_controller.rs does not match. The earlier
  controller uses the record of server/src/game.rs.
- Textual JSON is left out: quoting, escapes, whitespace, number syntax. Only
  the keys and values of the serde output are modelled. The readers
  (`PlayerFromJson`, `UpdateFromJson` and the rest) are reference
  definitions for the round-trip lemmas. The source derives no
  `Deserialize` for `Player`, `WorldState` or `Update`.
- The round trip of an empty `WorldState` is left out, because `WorldState`
  has no deserialiser in the source. The model proves only the serialising
  half (`EmptyWorldStateJson`).
- Turn resolution and `PlayerAction` contents are left out. Nothing in the
  source consumes `pending_turn`, and `PlayerAction` has no fields.
- `usize` overflow is left out. Player counts and coordinates are unbounded
  naturals. `PlayerId(self.players.len())` and the new player's column
  cannot wrap in any reachable state.
- The player cap mentioned in a TODO (server/src/game_controller.rs:69) is
  left out, because it is not implemented.
