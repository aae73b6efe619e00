/**
 * The game controller of server/src/game_controller.rs: the single owner of
 * every player record, of the map from connected clients to the players
 * they control, and of the stack of players no client controls.
 *
 * The handlers are first given as pure step functions on a `State` value
 * (the actor handles one message at a time, so each handler is one atomic
 * step); the lemmas about the protocol are proved on those. The class
 * `GameController` then implements the handlers on mutable fields and is
 * proved to perform exactly those steps.
 */
module Controller {
  import opened Wrappers
  import opened Json
  import opened Game
  import opened Messaging

  /** `PlayerId(usize)`: the number of a player slot. */
  type PlayerId = nat

  /** The full snapshot sent to a client when it connects. */
  datatype WorldState = WorldState(players: map<PlayerId, Player>)

  /** A delta broadcast to connected clients. */
  datatype Update =
    | PlayerAdded(id: PlayerId, data: Player)
    | SetMovement(id: PlayerId, pos: GridPos)

  /** The controller's three fields. `unassigned` is a stack whose top is its last element, as with `Vec::push`/`Vec::pop`. */
  datatype State = State(
    clients: map<ClientAddr, PlayerId>,
    unassigned: seq<PlayerId>,
    players: map<PlayerId, Player>)

  /** `GameController::new()`: everything empty. */
  function Init(): State
  {
    State(map[], [], map[])
  }

  // ---------------------------------------------------------------------
  // Invariants
  // ---------------------------------------------------------------------

  /** Player ids are exactly 0 .. |players| - 1. */
  ghost predicate Dense(players: map<PlayerId, Player>)
  {
    forall id: PlayerId :: id in players <==> id < |players|
  }

  /** No two clients control the same player. */
  ghost predicate Injective(clients: map<ClientAddr, PlayerId>)
  {
    forall a, b :: a in clients && b in clients && a != b ==> clients[a] != clients[b]
  }

  ghost predicate Distinct(pool: seq<PlayerId>)
  {
    forall i, j :: 0 <= i < j < |pool| ==> pool[i] != pool[j]
  }

  /**
   * What every handler keeps: dense ids, an injective client map, a stack
   * without repeats, every id in use or in the stack names a record, and no
   * id is both in use and in the stack.
   */
  ghost predicate WellFormed(s: State)
  {
    && Dense(s.players)
    && Injective(s.clients)
    && Distinct(s.unassigned)
    && (forall a :: a in s.clients ==> s.clients[a] in s.players)
    && (forall i :: 0 <= i < |s.unassigned| ==> s.unassigned[i] in s.players && s.unassigned[i] !in s.clients.Values)
  }

  /** Every player is either controlled by a client or waiting in the stack. */
  ghost predicate Covered(s: State)
  {
    forall id :: id in s.players ==> id in s.clients.Values || id in s.unassigned
  }

  /**
   * The full invariant: the ids in use and the ids in the stack are
   * disjoint, and together they are exactly the ids created so far,
   * 0 .. |players| - 1.
   */
  ghost predicate Invariant(s: State)
  {
    WellFormed(s) && Covered(s)
  }

  lemma InitInvariant()
    ensures Invariant(Init())
  {
  }

  // ---------------------------------------------------------------------
  // Handlers as steps
  // ---------------------------------------------------------------------

  datatype ConnectResult = ConnectResult(post: State, id: PlayerId, world: WorldState, outbox: set<Delivery<Update>>)

  /**
   * `Handler<ClientConnected>`: take the most recently freed player if there
   * is one; otherwise create player `|players|`, and announce it to the
   * clients already connected (the broadcast happens before the new client
   * is registered). Then register the client and reply with the snapshot.
   */
  function ConnectStep(s: State, addr: ClientAddr): ConnectResult
  {
    if |s.unassigned| > 0 then
      var id := s.unassigned[|s.unassigned| - 1];
      var post := State(s.clients[addr := id], s.unassigned[..|s.unassigned| - 1], s.players);
      ConnectResult(post, id, WorldState(post.players), {})
    else
      var id := |s.players|;
      var player := InitialPlayer(|s.players|);
      var players := s.players[id := player];
      var outbox := Fanout(s.clients.Keys, PlayerAdded(id, player));
      ConnectResult(State(s.clients[addr := id], s.unassigned, players), id, WorldState(players), outbox)
  }

  /** `Handler<ClientDisconnected>`: an unknown client changes nothing. */
  function DisconnectStep(s: State, addr: ClientAddr): State
  {
    if addr in s.clients then
      State(s.clients - {addr}, s.unassigned + [s.clients[addr]], s.players)
    else
      s
  }

  datatype MoveResult = MoveResult(post: State, outbox: set<Delivery<Update>>)

  /**
   * `Handler<InputMoveAction>`. The source panics when the client is not
   * registered (`expect`) or its player has no record (`unwrap`).
   */
  function MoveStep(s: State, addr: ClientAddr, pos: GridPos): MoveResult
    requires addr in s.clients && s.clients[addr] in s.players
  {
    var id := s.clients[addr];
    MoveResult(
      s.(players := s.players[id := WithMovement(s.players[id], pos)]),
      Fanout(s.clients.Keys, SetMovement(id, pos)))
  }

  /**
   * The controller's mailbox: events handled one at a time, in order.
   * `None` when a run leaves the protocol: a move from a client that is not
   * registered (the source panics), or a second connect for a live address
   * (which the actor runtime never produces, since every client actor has
   * its own address).
   */
  function Run(s: State, events: seq<Event>): Option<State>
    decreases |events|
  {
    if events == [] then Some(s)
    else
      var rest := events[1..];
      match events[0]
      case Connected(a) =>
        if a in s.clients then None else Run(ConnectStep(s, a).post, rest)
      case Disconnected(a) =>
        Run(DisconnectStep(s, a), rest)
      case MoveInput(a, pos) =>
        if a in s.clients && s.clients[a] in s.players then Run(MoveStep(s, a, pos).post, rest) else None
  }

  // ---------------------------------------------------------------------
  // Connect
  // ---------------------------------------------------------------------

  /** A connect while a player is free takes the one freed last, creates nothing and broadcasts nothing. */
  lemma ConnectReusesLastFreed(s: State, addr: ClientAddr)
    requires |s.unassigned| > 0
    ensures var r := ConnectStep(s, addr);
      && r.id == s.unassigned[|s.unassigned| - 1]
      && r.post.unassigned == s.unassigned[..|s.unassigned| - 1]
      && r.post.clients == s.clients[addr := r.id]
      && r.post.players == s.players
      && r.outbox == {}
  {
  }

  /**
   * A connect while no player is free creates player `|players|`, a fresh
   * id, with position (|players|, 0), health 10 of 10 and an empty turn;
   * the player table grows by exactly that one record.
   */
  lemma ConnectCreatesPlayer(s: State, addr: ClientAddr)
    requires WellFormed(s) && |s.unassigned| == 0
    ensures var r := ConnectStep(s, addr);
      && r.id == |s.players| && r.id !in s.players
      && r.post.players == s.players[r.id := InitialPlayer(r.id)]
      && |r.post.players| == |s.players| + 1
      && r.post.players[r.id].pos == GridPos(|s.players|, 0)
      && r.post.players[r.id].health == Health(10, 10)
      && IsEmpty(r.post.players[r.id].pendingTurn)
      && r.post.clients == s.clients[addr := r.id]
      && r.post.unassigned == []
  {
  }

  /**
   * `PlayerAdded` is sent exactly when a player is created, carries that
   * player, and goes only to the clients registered before this one; so
   * something is sent iff the stack was empty and someone else is connected.
   */
  lemma ConnectBroadcast(s: State, addr: ClientAddr)
    requires WellFormed(s)
    ensures var r := ConnectStep(s, addr);
      && (|s.unassigned| == 0 <==> r.id !in s.players)
      && (|s.unassigned| == 0 ==> r.outbox == Fanout(s.clients.Keys, PlayerAdded(r.id, r.post.players[r.id])))
      && (|s.unassigned| > 0 ==> r.outbox == {})
      && (forall d :: d in r.outbox ==> d.recipient in s.clients && d.message.PlayerAdded?)
      && (addr !in s.clients ==> forall d :: d in r.outbox ==> d.recipient != addr)
      && (r.outbox != {} <==> |s.unassigned| == 0 && s.clients != map[])
  {
    var r := ConnectStep(s, addr);
    if |s.unassigned| == 0 {
      FanoutEmpty(s.clients.Keys, PlayerAdded(r.id, r.post.players[r.id]));
      assert s.clients.Keys == {} <==> s.clients == map[];
    }
  }

  /** The reply is the table after the connect, and it holds the connecting client's own player. */
  lemma ConnectSnapshot(s: State, addr: ClientAddr)
    requires WellFormed(s)
    ensures var r := ConnectStep(s, addr);
      && r.world.players == r.post.players
      && addr in r.post.clients && r.post.clients[addr] == r.id
      && r.id in r.world.players
      && s.players.Keys <= r.post.players.Keys
  {
  }

  lemma ConnectPreservesWellFormed(s: State, addr: ClientAddr)
    requires WellFormed(s)
    ensures WellFormed(ConnectStep(s, addr).post)
  {
    var r := ConnectStep(s, addr);
    var t := r.post;
    forall a, b | a in t.clients && b in t.clients && a != b ensures t.clients[a] != t.clients[b] {
      if a != addr && b != addr {
        assert t.clients[a] == s.clients[a] && t.clients[b] == s.clients[b];
      } else {
        var other := if a == addr then b else a;
        assert t.clients[other] == s.clients[other];
        if |s.unassigned| > 0 {
          assert r.id == s.unassigned[|s.unassigned| - 1];
          assert s.clients[other] in s.clients.Values;
        }
      }
    }
  }

  /** The full invariant survives a connect from a client not yet registered. */
  lemma ConnectPreservesInvariant(s: State, addr: ClientAddr)
    requires Invariant(s) && addr !in s.clients
    ensures Invariant(ConnectStep(s, addr).post)
  {
    ConnectPreservesWellFormed(s, addr);
    var r := ConnectStep(s, addr);
    var t := r.post;
    forall id | id in t.players ensures id in t.clients.Values || id in t.unassigned {
      if id == r.id {
        assert t.clients[addr] == id;
      } else if id in s.unassigned {
        var i :| 0 <= i < |s.unassigned| && s.unassigned[i] == id;
        assert i < |s.unassigned| - 1;
        assert t.unassigned[i] == id;
      } else {
        assert id in s.clients.Values;
        var a :| a in s.clients && s.clients[a] == id;
        assert t.clients[a] == id;
      }
    }
  }

  /**
   * Why the invariant needs a fresh address: `HashMap::insert` overwrites,
   * so a second connect for a live address strands that address's old
   * player, in the table but neither controlled nor free.
   */
  lemma ReconnectStrandsPlayer(s: State, addr: ClientAddr)
    requires WellFormed(s) && addr in s.clients
    ensures var t := ConnectStep(s, addr).post;
      && s.clients[addr] in t.players
      && s.clients[addr] !in t.clients.Values
      && s.clients[addr] !in t.unassigned
      && !Covered(t)
  {
  }

  // ---------------------------------------------------------------------
  // Disconnect
  // ---------------------------------------------------------------------

  /**
   * A registered client's mapping is removed and exactly its player goes on
   * top of the stack; an unknown client changes nothing. No record is ever
   * removed.
   */
  lemma DisconnectFreesPlayer(s: State, addr: ClientAddr)
    ensures var t := DisconnectStep(s, addr);
      && t.players == s.players
      && (addr in s.clients ==>
            && t.clients == s.clients - {addr}
            && t.unassigned == s.unassigned + [s.clients[addr]])
      && (addr !in s.clients ==> t == s)
  {
  }

  lemma DisconnectPreservesInvariant(s: State, addr: ClientAddr)
    requires WellFormed(s)
    ensures WellFormed(DisconnectStep(s, addr))
    ensures Covered(s) ==> Covered(DisconnectStep(s, addr))
  {
    if addr in s.clients {
      var t := DisconnectStep(s, addr);
      var id := s.clients[addr];
      assert id in s.clients.Values;
      if Covered(s) {
        forall x | x in t.players ensures x in t.clients.Values || x in t.unassigned {
          if x == id {
            assert t.unassigned[|s.unassigned|] == x;
          } else if x in s.unassigned {
            var i :| 0 <= i < |s.unassigned| && s.unassigned[i] == x;
            assert t.unassigned[i] == x;
          } else {
            var a :| a in s.clients && s.clients[a] == x;
            assert a != addr && t.clients[a] == x;
          }
        }
      }
    }
  }

  /**
   * A client that disconnects and a new client that connects right after
   * it: the new client gets the id just vacated, and no player is created
   * or announced.
   */
  lemma ReconnectReusesFreedId(s: State, leaving: ClientAddr, joining: ClientAddr)
    requires leaving in s.clients
    ensures var r := ConnectStep(DisconnectStep(s, leaving), joining);
      && r.id == s.clients[leaving]
      && r.outbox == {}
      && r.post.players == s.players
      && r.post.unassigned == s.unassigned
  {
    var t := DisconnectStep(s, leaving);
    assert t.unassigned[..|t.unassigned| - 1] == s.unassigned;
  }

  // ---------------------------------------------------------------------
  // Move
  // ---------------------------------------------------------------------

  /**
   * A move from client `addr` sets its own player's planned movement and
   * changes nothing else; `SetMovement` goes to every registered client,
   * the sender included.
   */
  lemma MoveSetsMovement(s: State, addr: ClientAddr, pos: GridPos)
    requires addr in s.clients && s.clients[addr] in s.players
    ensures var r := MoveStep(s, addr, pos); var id := s.clients[addr];
      && r.post.players.Keys == s.players.Keys
      && r.post.players[id].pendingTurn.movement == Some(pos)
      && r.post.players[id].pos == s.players[id].pos
      && r.post.players[id].health == s.players[id].health
      && r.post.players[id].pendingTurn.actions == s.players[id].pendingTurn.actions
      && (forall other :: other in s.players && other != id ==> r.post.players[other] == s.players[other])
      && r.post.clients == s.clients && r.post.unassigned == s.unassigned
      && r.outbox == Fanout(s.clients.Keys, SetMovement(id, pos))
      && Delivery(addr, SetMovement(id, pos)) in r.outbox
      && |r.outbox| == |s.clients|
  {
    FanoutCardinality(s.clients.Keys, SetMovement(s.clients[addr], pos));
  }

  /** Two moves from the same client: the second overwrites the first. */
  lemma MoveLastWriteWins(s: State, addr: ClientAddr, first: GridPos, second: GridPos)
    requires addr in s.clients && s.clients[addr] in s.players
    ensures var t := MoveStep(s, addr, first).post;
      && addr in t.clients && t.clients[addr] in t.players
      && MoveStep(t, addr, second).post == MoveStep(s, addr, second).post
  {
    var id := s.clients[addr];
    WithMovementLastWriteWins(s.players[id], first, second);
    var t := MoveStep(s, addr, first).post;
    assert t.players[id := WithMovement(t.players[id], second)] == s.players[id := WithMovement(s.players[id], second)];
  }

  lemma MovePreservesInvariant(s: State, addr: ClientAddr, pos: GridPos)
    requires WellFormed(s) && addr in s.clients
    ensures s.clients[addr] in s.players
    ensures WellFormed(MoveStep(s, addr, pos).post)
    ensures Covered(s) ==> Covered(MoveStep(s, addr, pos).post)
  {
  }

  // ---------------------------------------------------------------------
  // Whole runs
  // ---------------------------------------------------------------------

  /**
   * For any sequence of events that stays within the protocol, the
   * invariant holds afterwards (and so after every prefix), and no player
   * record is ever removed.
   */
  lemma {:induction false} RunPreservesInvariant(s: State, events: seq<Event>)
    requires Invariant(s)
    ensures Run(s, events).Some? ==> Invariant(Run(s, events).value)
    ensures Run(s, events).Some? ==> s.players.Keys <= Run(s, events).value.players.Keys
    decreases |events|
  {
    if events != [] {
      var rest := events[1..];
      match events[0]
      case Connected(a) =>
        if a !in s.clients {
          ConnectPreservesInvariant(s, a);
          ConnectSnapshot(s, a);
          RunPreservesInvariant(ConnectStep(s, a).post, rest);
        }
      case Disconnected(a) =>
        DisconnectPreservesInvariant(s, a);
        RunPreservesInvariant(DisconnectStep(s, a), rest);
      case MoveInput(a, pos) =>
        if a in s.clients && s.clients[a] in s.players {
          MovePreservesInvariant(s, a, pos);
          RunPreservesInvariant(MoveStep(s, a, pos).post, rest);
        }
    }
  }

  /**
   * A sample session: A and B connect, A moves to (3, 4), A leaves, C
   * connects and takes over player 0 with its planned move intact.
   */
  lemma ExampleSession(a: ClientAddr, b: ClientAddr, c: ClientAddr)
    requires a != b && b != c
    ensures
      var r1 := ConnectStep(Init(), a);
      var r2 := ConnectStep(r1.post, b);
      var m := MoveStep(r2.post, a, GridPos(3, 4));
      var s3 := DisconnectStep(m.post, a);
      var r4 := ConnectStep(s3, c);
      && r1.id == 0 && r1.outbox == {} && r1.world.players == map[0 := InitialPlayer(0)]
      && r2.id == 1 && r2.outbox == {Delivery(a, PlayerAdded(1, InitialPlayer(1)))}
      && r2.world.players.Keys == {0, 1}
      && m.outbox == {Delivery(a, SetMovement(0, GridPos(3, 4))), Delivery(b, SetMovement(0, GridPos(3, 4)))}
      && s3.unassigned == [0]
      && r4.id == 0 && r4.outbox == {}
      && r4.world.players.Keys == {0, 1}
      && r4.world.players[0].pendingTurn.movement == Some(GridPos(3, 4))
  {
  }

  // ---------------------------------------------------------------------
  // Serialisation of the outgoing messages
  // ---------------------------------------------------------------------

  /** `WorldState` as serde writes it: `{"players": {"<id>": <player>, ...}}`. */
  function WorldStateJson(w: WorldState): Json
  {
    JObject(map["players" := JObject(PlayerEntries(w.players))])
  }

  /** The entries of the `players` object, keyed by the decimal text of each id. */
  function PlayerEntries(players: map<PlayerId, Player>): map<string, Json>
  {
    DecimalInjectiveAll();
    map id | id in players :: Decimal(id) := PlayerJson(players[id])
  }

  /** One entry per player, under that player's decimal id, holding its serialised record. */
  lemma PlayerEntriesExact(players: map<PlayerId, Player>, id: PlayerId)
    ensures Decimal(id) in PlayerEntries(players) <==> id in players
    ensures id in players ==> PlayerEntries(players)[Decimal(id)] == PlayerJson(players[id])
  {
    if Decimal(id) in PlayerEntries(players) {
      var other :| other in players && Decimal(other) == Decimal(id);
      DecimalInjective(other, id);
    }
    if id in players {
      DecimalInjectiveAll();
      assert Decimal(id) in PlayerEntries(players);
    }
  }

  /** A serialised snapshot has the one key `players`, holding exactly the entries above. */
  lemma WorldStateEntries(w: WorldState, id: PlayerId)
    ensures WorldStateJson(w).JObject? && WorldStateJson(w).fields.Keys == {"players"}
    ensures var entries := WorldStateJson(w).fields["players"];
      && entries.JObject?
      && (Decimal(id) in entries.fields <==> id in w.players)
      && (id in w.players ==> entries.fields[Decimal(id)] == PlayerJson(w.players[id]))
  {
    PlayerEntriesExact(w.players, id);
  }

  /** The serialised reply to a connect has an entry for the connecting client's own player. */
  lemma ConnectSnapshotJson(s: State, addr: ClientAddr)
    requires WellFormed(s)
    ensures var r := ConnectStep(s, addr);
      && Decimal(r.id) in WorldStateJson(r.world).fields["players"].fields
      && WorldStateJson(r.world).fields["players"].fields[Decimal(r.id)] == PlayerJson(r.post.players[r.id])
  {
    var r := ConnectStep(s, addr);
    ConnectSnapshot(s, addr);
    WorldStateEntries(r.world, r.id);
  }

  /** The empty world is written `{"players": {}}`. */
  lemma EmptyWorldStateJson()
    ensures WorldStateJson(WorldState(map[])) == JObject(map["players" := JObject(map[])])
  {
  }

  /** `Update` with adjacent tagging: `{"type": <variant>, "data": <fields>}`. */
  function UpdateJson(u: Update): Json
  {
    match u
    case PlayerAdded(id, data) =>
      JObject(map["type" := JString("PlayerAdded"), "data" := JObject(map["id" := JNat(id), "data" := PlayerJson(data)])])
    case SetMovement(id, pos) =>
      JObject(map["type" := JString("SetMovement"), "data" := JObject(map["id" := JNat(id), "pos" := GridPosJson(pos)])])
  }

  /** Reference reader for an `Update`, dispatching on the `type` tag. */
  function UpdateFromJson(j: Json): Option<Update>
  {
    if !j.JObject? || "type" !in j.fields || "data" !in j.fields || !j.fields["data"].JObject? then None
    else
      var data := j.fields["data"].fields;
      var id := NatField(data, "id");
      if id.None? then None
      else if j.fields["type"] == JString("PlayerAdded") && "data" in data then
        match PlayerFromJson(data["data"])
        case Some(p) => Some(PlayerAdded(id.value, p))
        case None => None
      else if j.fields["type"] == JString("SetMovement") && "pos" in data then
        match GridPosFromJson(data["pos"])
        case Some(p) => Some(SetMovement(id.value, p))
        case None => None
      else None
  }

  /** The tag identifies the variant: every update reads back unchanged. */
  lemma UpdateRoundTrip(u: Update)
    ensures UpdateFromJson(UpdateJson(u)) == Some(u)
  {
    assert "PlayerAdded"[0] != "SetMovement"[0];
    match u
    case PlayerAdded(id, data) => PlayerRoundTrip(data);
    case SetMovement(id, pos) => GridPosRoundTrip(pos);
  }

  // ---------------------------------------------------------------------
  // The actor's state, updated in place
  // ---------------------------------------------------------------------

  class GameController {
    /** Maps each connected client to the player it controls. */
    var clients: map<ClientAddr, PlayerId>
    /** Players no connected client controls; the last element is the top. */
    var unassigned: seq<PlayerId>
    /** Every player ever created. */
    var players: map<PlayerId, Player>

    function Snapshot(): State
      reads this
    {
      State(clients, unassigned, players)
    }

    constructor ()
      ensures Snapshot() == Init()
    {
      clients := map[];
      unassigned := [];
      players := map[];
    }

    /** `broadcast`: one delivery of `u` to each connected client. */
    method Broadcast(u: Update) returns (outbox: set<Delivery<Update>>)
      ensures outbox == Fanout(clients.Keys, u)
    {
      outbox := {};
      var pending := clients.Keys;
      while pending != {}
        invariant pending <= clients.Keys
        invariant outbox == Fanout(clients.Keys - pending, u)
        decreases pending
      {
        var client :| client in pending;
        outbox := outbox + {Delivery(client, u)};
        pending := pending - {client};
      }
    }

    method HandleConnected(addr: ClientAddr) returns (world: WorldState, outbox: set<Delivery<Update>>)
      modifies this
      ensures var r := ConnectStep(old(Snapshot()), addr);
        Snapshot() == r.post && world == r.world && outbox == r.outbox
    {
      var id: PlayerId;
      if |unassigned| > 0 {
        id := unassigned[|unassigned| - 1];
        unassigned := unassigned[..|unassigned| - 1];
        outbox := {};
      } else {
        id := |players|;
        var player := InitialPlayer(|players|);
        players := players[id := player];
        outbox := Broadcast(PlayerAdded(id, player));
      }
      clients := clients[addr := id];
      world := WorldState(players);
    }

    method HandleDisconnected(addr: ClientAddr)
      modifies this
      ensures Snapshot() == DisconnectStep(old(Snapshot()), addr)
    {
      if addr in clients {
        var id := clients[addr];
        clients := clients - {addr};
        unassigned := unassigned + [id];
      }
    }

    method HandleMoveAction(client: ClientAddr, pos: GridPos) returns (outbox: set<Delivery<Update>>)
      requires client in clients && clients[client] in players
      modifies this
      ensures var r := MoveStep(old(Snapshot()), client, pos);
        Snapshot() == r.post && outbox == r.outbox
    {
      var id := clients[client];
      players := players[id := WithMovement(players[id], pos)];
      outbox := Broadcast(SetMovement(id, pos));
    }
  }
}
