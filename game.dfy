/**
 * The game's value types (server/src/game.rs): grid positions, health, a
 * player's pending turn and the player record, the emptiness test on a
 * turn, and the `skip_serializing_if` rules that decide which keys a
 * serialised record carries.
 */
module Game {
  import opened Wrappers
  import opened Json

  /** A cell of the board; both coordinates are `usize`, so never negative. */
  datatype GridPos = GridPos(x: nat, y: nat)

  datatype Health = Health(max: nat, current: nat)

  /** A non-move action; the source declares it as a field-less struct. */
  datatype PlayerAction = PlayerAction

  /** What a player has planned for the next turn: one move, then any number of actions. */
  datatype PlayerTurn = PlayerTurn(movement: Option<GridPos>, actions: seq<PlayerAction>)

  datatype Player = Player(pos: GridPos, health: Health, pendingTurn: PlayerTurn)

  /** `PlayerTurn::default()`: no move planned and no actions queued. */
  function DefaultTurn(): (t: PlayerTurn)
    ensures IsEmpty(t)
  {
    PlayerTurn(None, [])
  }

  /** `PlayerTurn::is_empty`. */
  predicate IsEmpty(t: PlayerTurn)
  {
    t.movement.None? && |t.actions| == 0
  }

  /** The empty turn is the default one and no other. */
  lemma EmptyIsDefault(t: PlayerTurn)
    ensures IsEmpty(t) <==> t == DefaultTurn()
  {
  }

  /**
   * The record both game controllers give a newly created player: column
   * `index` of row 0, health 10 of 10, nothing planned.
   */
  function InitialPlayer(index: nat): Player
  {
    Player(GridPos(index, 0), Health(10, 10), DefaultTurn())
  }

  /** Writing `pending_turn.movement = Some(pos)`; everything else about the player is kept. */
  function WithMovement(p: Player, pos: GridPos): (q: Player)
    ensures q.pendingTurn.movement == Some(pos) && !IsEmpty(q.pendingTurn)
    ensures q.pos == p.pos && q.health == p.health && q.pendingTurn.actions == p.pendingTurn.actions
  {
    p.(pendingTurn := p.pendingTurn.(movement := Some(pos)))
  }

  /** A later move overwrites an earlier one: last write wins, nothing is merged. */
  lemma WithMovementLastWriteWins(p: Player, a: GridPos, b: GridPos)
    ensures WithMovement(WithMovement(p, a), b) == WithMovement(p, b)
  {
  }

  // ---------------------------------------------------------------------
  // Serialisation (serde derive output, as an abstract JSON value)
  // ---------------------------------------------------------------------

  function GridPosJson(p: GridPos): Json
  {
    JObject(map["x" := JNat(p.x), "y" := JNat(p.y)])
  }

  function HealthJson(h: Health): Json
  {
    JObject(map["max" := JNat(h.max), "current" := JNat(h.current)])
  }

  /** `PlayerAction` is a unit struct, which serde writes as `null`. */
  function ActionsJson(actions: seq<PlayerAction>): (items: seq<Json>)
    ensures |items| == |actions|
    ensures forall i :: 0 <= i < |items| ==> items[i] == JNull
  {
    seq(|actions|, i => JNull)
  }

  /**
   * A serialised `PlayerTurn`: `movement` is skipped when it is `None`,
   * `actions` when it is empty.
   */
  function TurnJson(t: PlayerTurn): Json
  {
    JObject(
      (if t.movement.Some? then map["movement" := GridPosJson(t.movement.value)] else map[])
      + (if |t.actions| > 0 then map["actions" := JArray(ActionsJson(t.actions))] else map[]))
  }

  /** A serialised `Player`: `pending_turn` is skipped when the turn is empty. */
  function PlayerJson(p: Player): Json
  {
    JObject(
      map["pos" := GridPosJson(p.pos), "health" := HealthJson(p.health)]
      + (if IsEmpty(p.pendingTurn) then map[] else map["pending_turn" := TurnJson(p.pendingTurn)]))
  }

  /** Which keys a serialised turn has. */
  lemma TurnKeys(t: PlayerTurn)
    ensures TurnJson(t).JObject?
    ensures "movement" in TurnJson(t).fields <==> t.movement.Some?
    ensures "actions" in TurnJson(t).fields <==> |t.actions| > 0
    ensures TurnJson(t).fields.Keys <= {"movement", "actions"}
    ensures t.movement.Some? ==> TurnJson(t).fields["movement"] == GridPosJson(t.movement.value)
  {
  }

  /** Which keys a serialised player has: always `pos` and `health`, `pending_turn` exactly when the turn is non-empty. */
  lemma PlayerKeys(p: Player)
    ensures PlayerJson(p).JObject?
    ensures "pos" in PlayerJson(p).fields && "health" in PlayerJson(p).fields
    ensures "pending_turn" in PlayerJson(p).fields <==> !IsEmpty(p.pendingTurn)
    ensures PlayerJson(p).fields.Keys <= {"pos", "health", "pending_turn"}
  {
  }

  /** After a move is set, the serialised player shows it under `pending_turn.movement`. */
  lemma MovementIsSerialised(p: Player, pos: GridPos)
    ensures var j := PlayerJson(WithMovement(p, pos));
      && "pending_turn" in j.fields
      && j.fields["pending_turn"].JObject?
      && "movement" in j.fields["pending_turn"].fields
      && j.fields["pending_turn"].fields["movement"] == GridPosJson(pos)
  {
    var q := WithMovement(p, pos);
    TurnKeys(q.pendingTurn);
  }

  // ---------------------------------------------------------------------
  // Reference decoders: an omitted key reads back as the value it stands for
  // ---------------------------------------------------------------------

  function NatField(fields: map<string, Json>, key: string): Option<nat>
  {
    if key in fields && fields[key].JNat? then Some(fields[key].n) else None
  }

  function GridPosFromJson(j: Json): Option<GridPos>
  {
    if !j.JObject? then None
    else
      var x, y := NatField(j.fields, "x"), NatField(j.fields, "y");
      if x.Some? && y.Some? then Some(GridPos(x.value, y.value)) else None
  }

  function HealthFromJson(j: Json): Option<Health>
  {
    if !j.JObject? then None
    else
      var max, current := NatField(j.fields, "max"), NatField(j.fields, "current");
      if max.Some? && current.Some? then Some(Health(max.value, current.value)) else None
  }

  function ActionsFromJson(items: seq<Json>): Option<seq<PlayerAction>>
  {
    if forall i :: 0 <= i < |items| ==> items[i] == JNull
    then Some(seq(|items|, i => PlayerAction))
    else None
  }

  /** A missing `movement` reads as `None`, a missing `actions` as no actions. */
  function TurnFromJson(j: Json): Option<PlayerTurn>
  {
    if !j.JObject? then None
    else
      var movement :=
        if "movement" !in j.fields then Some(None)
        else match GridPosFromJson(j.fields["movement"])
          case Some(p) => Some(Some(p))
          case None => None;
      var actions :=
        if "actions" !in j.fields then Some([])
        else if j.fields["actions"].JArray? then ActionsFromJson(j.fields["actions"].items)
        else None;
      if movement.Some? && actions.Some? then Some(PlayerTurn(movement.value, actions.value)) else None
  }

  /** A missing `pending_turn` reads as the default (empty) turn. */
  function PlayerFromJson(j: Json): Option<Player>
  {
    if !j.JObject? || "pos" !in j.fields || "health" !in j.fields then None
    else
      var pos, health := GridPosFromJson(j.fields["pos"]), HealthFromJson(j.fields["health"]);
      var turn := if "pending_turn" in j.fields then TurnFromJson(j.fields["pending_turn"]) else Some(DefaultTurn());
      if pos.Some? && health.Some? && turn.Some? then Some(Player(pos.value, health.value, turn.value)) else None
  }

  lemma GridPosRoundTrip(p: GridPos)
    ensures GridPosFromJson(GridPosJson(p)) == Some(p)
  {
  }

  lemma HealthRoundTrip(h: Health)
    ensures HealthFromJson(HealthJson(h)) == Some(h)
  {
  }

  lemma ActionsRoundTrip(actions: seq<PlayerAction>)
    ensures ActionsFromJson(ActionsJson(actions)) == Some(actions)
  {
    forall i | 0 <= i < |actions| ensures actions[i] == PlayerAction {
      match actions[i] { case PlayerAction => }
    }
    assert seq(|actions|, i => PlayerAction) == actions;
  }

  lemma TurnRoundTrip(t: PlayerTurn)
    ensures TurnFromJson(TurnJson(t)) == Some(t)
  {
    TurnKeys(t);
    if t.movement.Some? {
      GridPosRoundTrip(t.movement.value);
    }
    if |t.actions| > 0 {
      ActionsRoundTrip(t.actions);
    }
  }

  /**
   * Skipping an empty `pending_turn` loses nothing: every player reads back
   * from its serialised form unchanged.
   */
  lemma PlayerRoundTrip(p: Player)
    ensures PlayerFromJson(PlayerJson(p)) == Some(p)
  {
    PlayerKeys(p);
    GridPosRoundTrip(p.pos);
    HealthRoundTrip(p.health);
    if IsEmpty(p.pendingTurn) {
      EmptyIsDefault(p.pendingTurn);
    } else {
      TurnRoundTrip(p.pendingTurn);
    }
  }
}
