/** The values exchanged between the relay server and its clients: connection ids,
    stored player states, the five events of the message catalogue, and the three
    addressing modes used by the server's emits. */
module Protocol {

  /** A transport-assigned connection id (socket.id). */
  type Id = string

  /** A coordinate or heading. The protocol only copies these values, never computes
      with them, so an unbounded integer stands in for a JavaScript number. */
  type Coord = int

  datatype Option<T> = None | Some(value: T)

  /** The record the server keeps per connection. */
  datatype PlayerState = PlayerState(x: Coord, y: Coord, z: Coord, rotation: Coord, skin: int)

  /** The payload of an inbound `playerMovement` event. */
  datatype Movement = Movement(x: Coord, y: Coord, z: Coord, rotation: Coord)

  /** The server-to-client events. */
  datatype Message =
    | CurrentPlayers(players: map<Id, PlayerState>)
    | NewPlayer(id: Id, player: PlayerState)
    | PlayerMoved(id: Id, x: Coord, y: Coord, z: Coord, rotation: Coord, skin: int)
    | PlayerDisconnected(id: Id)

  /** `socket.emit` (the one socket), `socket.broadcast.emit` (every socket but this
      one) and `io.emit` (every socket). */
  datatype Recipients = Only(target: Id) | AllExcept(excluded: Id) | All

  /** One entry of the server's outbox. */
  datatype Emit = Emit(to: Recipients, msg: Message)

  /** The connections an emit reaches when `live` is the set of connected sockets. */
  function Addressees(to: Recipients, live: set<Id>): (r: set<Id>)
    ensures r <= live
    ensures to.Only? ==> forall c :: c in live ==> (c in r <==> c == to.target)
    ensures to.AllExcept? ==> forall c :: c in live ==> (c in r <==> c != to.excluded)
    ensures to.All? ==> r == live
  {
    match to
    case Only(t) => live * {t}
    case AllExcept(x) => live - {x}
    case All => live
  }

  /** The addressing each event kind must use: a snapshot goes to one socket, a join or a
      movement goes to everyone but its subject, a leave goes to everyone. */
  predicate Routed(e: Emit)
  {
    match e.msg
    case CurrentPlayers(_) => e.to.Only?
    case NewPlayer(id, _) => e.to == AllExcept(id)
    case PlayerMoved(id, _, _, _, _, _) => e.to == AllExcept(id)
    case PlayerDisconnected(_) => e.to == All
  }

  /** A correctly routed join or movement is never delivered to the connection it is
      about, and reaches every other live connection. */
  lemma NoSelfEcho(e: Emit, live: set<Id>)
    requires Routed(e)
    ensures (e.msg.NewPlayer? || e.msg.PlayerMoved?) ==>
              Addressees(e.to, live) == live - {e.msg.id}
    ensures e.msg.CurrentPlayers? ==> |Addressees(e.to, live)| <= 1
    ensures e.msg.PlayerDisconnected? ==> Addressees(e.to, live) == live
  {
    if e.msg.CurrentPlayers? {
      var r := Addressees(e.to, live);
      assert r <= {e.to.target};
      if r != {} {
        assert r == {e.to.target};
      }
    }
  }
}
