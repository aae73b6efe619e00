/**
 * The earlier game controller of src/game_controller.rs. Players live in a
 * vector, every connect appends a new one (a freed player is never handed
 * to a later client), and every change sends the whole vector to every
 * connected client. The player record has the shape of server/src/game.rs.
 */
module LegacyController {
  import opened Wrappers
  import opened Json
  import opened Game
  import opened Messaging

  /** `StateUpdate`: the full player vector. */
  datatype StateUpdate = StateUpdate(players: seq<Player>)

  /** The controller's two fields; a client maps to an index into `players`. */
  datatype State = State(clients: map<ClientAddr, nat>, players: seq<Player>)

  function Init(): State
  {
    State(map[], [])
  }

  /** Every registered index names a player, so `players[index]` never panics. */
  ghost predicate InBounds(s: State)
  {
    forall a :: a in s.clients ==> s.clients[a] < |s.players|
  }

  /** No two clients share a player. */
  ghost predicate Injective(s: State)
  {
    forall a, b :: a in s.clients && b in s.clients && a != b ==> s.clients[a] != s.clients[b]
  }

  ghost predicate Invariant(s: State)
  {
    InBounds(s) && Injective(s)
  }

  datatype StepResult = StepResult(post: State, outbox: set<Delivery<StateUpdate>>)

  /**
   * `Handler<ClientConnected>`: register the client under the index the
   * new player is about to get, append that player, then send the full
   * state to every client, the new one included.
   */
  function ConnectStep(s: State, addr: ClientAddr): StepResult
  {
    var post := State(s.clients[addr := |s.players|], s.players + [InitialPlayer(|s.players|)]);
    StepResult(post, Fanout(post.clients.Keys, StateUpdate(post.players)))
  }

  /** `Handler<ClientDisconnected>`: forget the client; its player stays. */
  function DisconnectStep(s: State, addr: ClientAddr): State
  {
    s.(clients := s.clients - {addr})
  }

  /**
   * `Handler<InputMoveAction>`. The source panics for an unregistered
   * client (`expect`) and for an index out of bounds.
   */
  function MoveStep(s: State, addr: ClientAddr, pos: GridPos): StepResult
    requires addr in s.clients && s.clients[addr] < |s.players|
  {
    var index := s.clients[addr];
    var post := s.(players := s.players[index := WithMovement(s.players[index], pos)]);
    StepResult(post, Fanout(post.clients.Keys, StateUpdate(post.players)))
  }

  /** Events handled in order; `None` when a move comes from an unregistered client. */
  function Run(s: State, events: seq<Event>): Option<State>
    decreases |events|
  {
    if events == [] then Some(s)
    else
      var rest := events[1..];
      match events[0]
      case Connected(a) => Run(ConnectStep(s, a).post, rest)
      case Disconnected(a) => Run(DisconnectStep(s, a), rest)
      case MoveInput(a, pos) =>
        if a in s.clients && s.clients[a] < |s.players| then Run(MoveStep(s, a, pos).post, rest) else None
  }

  /**
   * A connect gives the client index `|players|` (read before the push),
   * and that index names the player just appended; the vector grows by
   * exactly one and the existing players are kept.
   */
  lemma ConnectAppendsPlayer(s: State, addr: ClientAddr)
    ensures var t := ConnectStep(s, addr).post;
      && t.clients == s.clients[addr := |s.players|]
      && |t.players| == |s.players| + 1
      && t.players[..|s.players|] == s.players
      && t.players[t.clients[addr]] == InitialPlayer(|s.players|)
      && t.players[t.clients[addr]].pos == GridPos(|s.players|, 0)
      && t.players[t.clients[addr]].health == Health(10, 10)
      && IsEmpty(t.players[t.clients[addr]].pendingTurn)
  {
  }

  /** After a connect every client now registered, the new one too, gets the whole vector. */
  lemma ConnectBroadcastsState(s: State, addr: ClientAddr)
    ensures var r := ConnectStep(s, addr);
      && Delivery(addr, StateUpdate(r.post.players)) in r.outbox
      && (forall d :: d in r.outbox <==> d.recipient in r.post.clients && d.message == StateUpdate(r.post.players))
      && |r.outbox| == |r.post.clients|
  {
    var r := ConnectStep(s, addr);
    FanoutCardinality(r.post.clients.Keys, StateUpdate(r.post.players));
  }

  /** A disconnect removes only the client's mapping. */
  lemma DisconnectKeepsPlayers(s: State, addr: ClientAddr)
    ensures var t := DisconnectStep(s, addr);
      && t.players == s.players
      && t.clients.Keys == s.clients.Keys - {addr}
      && forall a :: a in t.clients ==> t.clients[a] == s.clients[a]
  {
  }

  /**
   * No reuse: a client connecting right after another left gets a new
   * player, never the one just vacated.
   */
  lemma ConnectNeverReuses(s: State, leaving: ClientAddr, joining: ClientAddr)
    requires InBounds(s) && leaving in s.clients
    ensures var t := ConnectStep(DisconnectStep(s, leaving), joining).post;
      && t.clients[joining] == |s.players|
      && t.clients[joining] != s.clients[leaving]
      && |t.players| == |s.players| + 1
  {
  }

  /**
   * A move sets the movement of the sender's player only, and sends the
   * whole updated vector to every connected client.
   */
  lemma MoveSetsMovement(s: State, addr: ClientAddr, pos: GridPos)
    requires addr in s.clients && s.clients[addr] < |s.players|
    ensures var r := MoveStep(s, addr, pos); var index := s.clients[addr];
      && |r.post.players| == |s.players|
      && r.post.players[index] == WithMovement(s.players[index], pos)
      && r.post.players[index].pendingTurn.movement == Some(pos)
      && (forall i :: 0 <= i < |s.players| && i != index ==> r.post.players[i] == s.players[i])
      && r.post.clients == s.clients
      && (forall d :: d in r.outbox <==> d.recipient in s.clients && d.message == StateUpdate(r.post.players))
  {
  }

  lemma ConnectPreservesInvariant(s: State, addr: ClientAddr)
    requires Invariant(s)
    ensures Invariant(ConnectStep(s, addr).post)
  {
    var t := ConnectStep(s, addr).post;
    forall a, b | a in t.clients && b in t.clients && a != b ensures t.clients[a] != t.clients[b] {
      if a != addr && b != addr {
        assert t.clients[a] == s.clients[a] && t.clients[b] == s.clients[b];
      } else {
        var other := if a == addr then b else a;
        assert t.clients[other] == s.clients[other] < |s.players|;
      }
    }
  }

  lemma DisconnectPreservesInvariant(s: State, addr: ClientAddr)
    requires Invariant(s)
    ensures Invariant(DisconnectStep(s, addr))
  {
  }

  lemma MovePreservesInvariant(s: State, addr: ClientAddr, pos: GridPos)
    requires Invariant(s) && addr in s.clients
    ensures s.clients[addr] < |s.players|
    ensures Invariant(MoveStep(s, addr, pos).post)
  {
  }

  /**
   * Along any run the invariant holds, so a move from a registered client
   * is always in bounds; and the vector never shrinks.
   */
  lemma {:induction false} RunPreservesInvariant(s: State, events: seq<Event>)
    requires Invariant(s)
    ensures Run(s, events).Some? ==> Invariant(Run(s, events).value)
    ensures Run(s, events).Some? ==> |s.players| <= |Run(s, events).value.players|
    decreases |events|
  {
    if events != [] {
      var rest := events[1..];
      match events[0]
      case Connected(a) =>
        ConnectPreservesInvariant(s, a);
        RunPreservesInvariant(ConnectStep(s, a).post, rest);
      case Disconnected(a) =>
        DisconnectPreservesInvariant(s, a);
        RunPreservesInvariant(DisconnectStep(s, a), rest);
      case MoveInput(a, pos) =>
        if a in s.clients && s.clients[a] < |s.players| {
          MovePreservesInvariant(s, a, pos);
          RunPreservesInvariant(MoveStep(s, a, pos).post, rest);
        }
    }
  }

  /**
   * Along any run, every player that already existed keeps its position and
   * its health: only planned moves change, and nothing is removed.
   */
  lemma {:induction false} RunKeepsOldPlayers(s: State, events: seq<Event>, i: nat)
    requires i < |s.players|
    ensures Run(s, events).Some? ==>
      && i < |Run(s, events).value.players|
      && Run(s, events).value.players[i].pos == s.players[i].pos
      && Run(s, events).value.players[i].health == s.players[i].health
    decreases |events|
  {
    if events != [] {
      var rest := events[1..];
      match events[0]
      case Connected(a) =>
        RunKeepsOldPlayers(ConnectStep(s, a).post, rest, i);
      case Disconnected(a) =>
        RunKeepsOldPlayers(DisconnectStep(s, a), rest, i);
      case MoveInput(a, pos) =>
        if a in s.clients && s.clients[a] < |s.players| {
          RunKeepsOldPlayers(MoveStep(s, a, pos).post, rest, i);
        }
    }
  }

  /** A move from a registered client never panics on the index, along any run from the start. */
  lemma MoveNeverOutOfBounds(events: seq<Event>, addr: ClientAddr)
    requires Run(Init(), events).Some? && addr in Run(Init(), events).value.clients
    ensures Run(Init(), events).value.clients[addr] < |Run(Init(), events).value.players|
  {
    RunPreservesInvariant(Init(), events);
  }

  /** `StateUpdate` as serde writes it: `{"players": [<player>, ...]}` in vector order. */
  function StateUpdateJson(u: StateUpdate): (j: Json)
    ensures j.JObject? && j.fields.Keys == {"players"} && j.fields["players"].JArray?
    ensures |j.fields["players"].items| == |u.players|
    ensures forall i :: 0 <= i < |u.players| ==> j.fields["players"].items[i] == PlayerJson(u.players[i])
  {
    JObject(map["players" := JArray(seq(|u.players|, i requires 0 <= i < |u.players| => PlayerJson(u.players[i])))])
  }

  /** Reference reader for a `StateUpdate`: every item of the `players` array must read as a player. */
  function StateUpdateFromJson(j: Json): Option<StateUpdate>
  {
    if !j.JObject? || "players" !in j.fields || !j.fields["players"].JArray? then None
    else
      var items := j.fields["players"].items;
      if forall i :: 0 <= i < |items| ==> PlayerFromJson(items[i]).Some?
      then Some(StateUpdate(seq(|items|, i requires 0 <= i < |items| => PlayerFromJson(items[i]).value)))
      else None
  }

  /** The full-state message loses nothing: every `StateUpdate` reads back unchanged, players in order. */
  lemma StateUpdateRoundTrip(u: StateUpdate)
    ensures StateUpdateFromJson(StateUpdateJson(u)) == Some(u)
  {
    var items := StateUpdateJson(u).fields["players"].items;
    forall i | 0 <= i < |items| ensures PlayerFromJson(items[i]) == Some(u.players[i]) {
      PlayerRoundTrip(u.players[i]);
    }
    assert seq(|items|, i requires 0 <= i < |items| => PlayerFromJson(items[i]).value) == u.players;
  }

  class GameController {
    /** Maps each connected client to the index of the player it controls. */
    var clients: map<ClientAddr, nat>
    /** Every player ever created, in creation order. */
    var players: seq<Player>

    function Snapshot(): State
      reads this
    {
      State(clients, players)
    }

    constructor ()
      ensures Snapshot() == Init()
    {
      clients := map[];
      players := [];
    }

    /** `broadcast_game_state`: one `StateUpdate` with the full vector to each connected client. */
    method BroadcastGameState() returns (outbox: set<Delivery<StateUpdate>>)
      ensures outbox == Fanout(clients.Keys, StateUpdate(players))
    {
      outbox := {};
      var pending := clients.Keys;
      while pending != {}
        invariant pending <= clients.Keys
        invariant outbox == Fanout(clients.Keys - pending, StateUpdate(players))
        decreases pending
      {
        var client :| client in pending;
        outbox := outbox + {Delivery(client, StateUpdate(players))};
        pending := pending - {client};
      }
    }

    method HandleConnected(addr: ClientAddr) returns (outbox: set<Delivery<StateUpdate>>)
      modifies this
      ensures var r := ConnectStep(old(Snapshot()), addr);
        Snapshot() == r.post && outbox == r.outbox
    {
      clients := clients[addr := |players|];
      var pos := GridPos(|players|, 0);
      players := players + [Player(pos, Health(10, 10), DefaultTurn())];
      outbox := BroadcastGameState();
    }

    method HandleDisconnected(addr: ClientAddr)
      modifies this
      ensures Snapshot() == DisconnectStep(old(Snapshot()), addr)
    {
      clients := clients - {addr};
    }

    method HandleMoveAction(client: ClientAddr, pos: GridPos) returns (outbox: set<Delivery<StateUpdate>>)
      requires client in clients && clients[client] < |players|
      modifies this
      ensures var r := MoveStep(old(Snapshot()), client, pos);
        Snapshot() == r.post && outbox == r.outbox
    {
      var index := clients[client];
      players := players[index := WithMovement(players[index], pos)];
      outbox := BroadcastGameState();
    }
  }
}
