/**
 * What passes between the client actors and the game controller: the
 * client's address (an opaque token compared only for equality), the
 * messages a client sends, and the outbox a broadcast produces.
 */
module Messaging {
  import opened Game

  /**
   * `ClientAddr`, the address of a client actor. It is the only identity a
   * client has; the model keeps just a token to compare.
   */
  datatype ClientAddr = ClientAddr(token: nat)

  /** `ClientConnected`, `ClientDisconnected` and `InputMoveAction`, in arrival order at the controller. */
  datatype Event =
    | Connected(addr: ClientAddr)
    | Disconnected(addr: ClientAddr)
    | MoveInput(client: ClientAddr, pos: GridPos)

  /** One message handed to one client for sending. */
  datatype Delivery<M> = Delivery(recipient: ClientAddr, message: M)

  /**
   * A broadcast of `m` to `recipients`: every recipient gets `m`, and no one
   * else gets anything. Send order follows hash-map iteration and is not
   * modelled.
   */
  function Fanout<M(==,!new)>(recipients: set<ClientAddr>, m: M): (out: set<Delivery<M>>)
    ensures forall d :: d in out <==> d.recipient in recipients && d.message == m
  {
    set c | c in recipients :: Delivery(c, m)
  }

  /** Exactly one delivery per recipient: nothing is sent twice in one broadcast. */
  lemma {:induction false} FanoutCardinality<M(!new)>(recipients: set<ClientAddr>, m: M)
    ensures |Fanout(recipients, m)| == |recipients|
    decreases |recipients|
  {
    if recipients != {} {
      var c :| c in recipients;
      var rest := recipients - {c};
      FanoutCardinality(rest, m);
      assert Fanout(recipients, m) == Fanout(rest, m) + {Delivery(c, m)};
      assert Delivery(c, m) !in Fanout(rest, m);
    }
  }

  /** Broadcasting to nobody sends nothing. */
  lemma FanoutEmpty<M(!new)>(recipients: set<ClientAddr>, m: M)
    ensures Fanout(recipients, m) == {} <==> recipients == {}
  {
    if recipients != {} {
      var c :| c in recipients;
      assert Delivery(c, m) in Fanout(recipients, m);
    }
  }
}
