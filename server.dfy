/** The relay server: a registry from connection id to player state, the set of
    connected sockets, and an outbox of addressed emits. Each socket event handler runs
    to completion, so the server is a sequential state machine over these three. The
    handler functions below are the specification; the class `Relay` performs the same
    updates in place and is proved to agree with them. */
module Server {
  import opened Protocol

  /** Skins are drawn from 1..SkinCount. */
  const SkinCount: int := 3

  datatype Session = Session(players: map<Id, PlayerState>, live: set<Id>, outbox: seq<Emit>)

  const Empty: Session := Session(map[], {}, [])

  /** The registry holds exactly the connected sockets, and every stored skin is one of
      the variants. */
  ghost predicate Consistent(s: Session)
  {
    s.players.Keys == s.live &&
    forall id :: id in s.players ==> 1 <= s.players[id].skin <= SkinCount
  }

  /** The `connection` handler: the socket becomes live, its entry is created at the
      origin with rotation 0 and the drawn skin, the whole registry is sent to it, and
      the new entry is announced to every other socket. */
  function HandleConnection(s: Session, id: Id, skin: int): (s': Session)
    requires 1 <= skin <= SkinCount
    ensures s'.live == s.live + {id}
    ensures id in s'.players && s'.players[id] == PlayerState(0, 0, 0, 0, skin)
    ensures forall other :: other != id ==> (other in s'.players <==> other in s.players)
    ensures forall other :: other != id && other in s.players ==> s'.players[other] == s.players[other]
    ensures s'.outbox == s.outbox + [Emit(Only(id), CurrentPlayers(s'.players)),
                                     Emit(AllExcept(id), NewPlayer(id, s'.players[id]))]
    ensures id in s'.outbox[|s.outbox|].msg.players
    ensures Addressees(Only(id), s'.live) == {id}
    ensures Addressees(AllExcept(id), s'.live) == s.live - {id}
    ensures Consistent(s) ==> Consistent(s')
  {
    var players := s.players[id := PlayerState(0, 0, 0, 0, skin)];
    Session(players, s.live + {id},
            s.outbox + [Emit(Only(id), CurrentPlayers(players)), Emit(AllExcept(id), NewPlayer(id, players[id]))])
  }

  /** The `playerMovement` handler: ignored for an id without an entry; otherwise the
      entry's coordinates and rotation are overwritten (skin kept) and the stored state
      is relayed to every other socket. */
  function HandleMovement(s: Session, id: Id, m: Movement): (s': Session)
    ensures id !in s.players ==> s' == s
    ensures id in s.players ==>
              s'.live == s.live &&
              s'.players.Keys == s.players.Keys &&
              s'.players[id] == PlayerState(m.x, m.y, m.z, m.rotation, s.players[id].skin) &&
              (forall other :: other in s.players && other != id ==> s'.players[other] == s.players[other]) &&
              s'.outbox == s.outbox + [Emit(AllExcept(id), PlayerMoved(id, m.x, m.y, m.z, m.rotation, s.players[id].skin))]
    ensures forall c :: c in s.players ==> c in s'.players && s'.players[c].skin == s.players[c].skin
    ensures Consistent(s) ==> Consistent(s')
  {
    if id in s.players then
      var p := s.players[id].(x := m.x, y := m.y, z := m.z, rotation := m.rotation);
      Session(s.players[id := p], s.live,
              s.outbox + [Emit(AllExcept(id), PlayerMoved(id, p.x, p.y, p.z, p.rotation, p.skin))])
    else
      s
  }

  /** The `disconnect` handler: the socket is gone, its entry is deleted (a no-op when
      absent), and every remaining socket is told. */
  function HandleDisconnect(s: Session, id: Id): (s': Session)
    ensures s'.live == s.live - {id}
    ensures s'.players.Keys == s.players.Keys - {id}
    ensures forall other :: other in s'.players ==> s'.players[other] == s.players[other]
    ensures id !in s.players ==> s'.players == s.players
    ensures s'.outbox == s.outbox + [Emit(All, PlayerDisconnected(id))]
    ensures Addressees(All, s'.live) == s.live - {id}
    ensures Consistent(s) ==> Consistent(s')
  {
    Session(s.players - {id}, s.live - {id}, s.outbox + [Emit(All, PlayerDisconnected(id))])
  }

  /** Deleting twice leaves the registry and the live set as deleting once; only the
      announcement is repeated. */
  lemma DisconnectIdempotent(s: Session, id: Id)
    ensures var once := HandleDisconnect(s, id);
            var twice := HandleDisconnect(once, id);
            twice.players == once.players && twice.live == once.live &&
            twice.outbox == once.outbox + [Emit(All, PlayerDisconnected(id))]
  {
  }

  /** A movement that arrives after the disconnect changes nothing and does not
      re-create the entry. */
  lemma MovementAfterDisconnectIgnored(s: Session, id: Id, m: Movement)
    ensures var gone := HandleDisconnect(s, id);
            HandleMovement(gone, id, m) == gone && id !in gone.players
  {
  }

  // ----- runs of events -----

  datatype Event = ConnectEvent(id: Id, skin: int) | MoveEvent(id: Id, movement: Movement) | DisconnectEvent(id: Id)

  /** The skin of a connection is always one of the variants. */
  predicate Admissible(e: Event)
  {
    e.ConnectEvent? ==> 1 <= e.skin <= SkinCount
  }

  predicate AllAdmissible(events: seq<Event>)
  {
    forall i :: 0 <= i < |events| ==> Admissible(events[i])
  }

  /** The socket handler that an event triggers. The outbox only grows, every new emit
      is routed for its event kind, a movement never changes who is registered, and the
      registry stays consistent. */
  function Step(s: Session, e: Event): (s': Session)
    requires Admissible(e)
    ensures |s.outbox| <= |s'.outbox| && s'.outbox[..|s.outbox|] == s.outbox
    ensures forall i :: |s.outbox| <= i < |s'.outbox| ==> Routed(s'.outbox[i])
    ensures e.MoveEvent? ==> s'.live == s.live && s'.players.Keys == s.players.Keys
    ensures Consistent(s) ==> Consistent(s')
  {
    match e
    case ConnectEvent(id, skin) => HandleConnection(s, id, skin)
    case MoveEvent(id, m) => HandleMovement(s, id, m)
    case DisconnectEvent(id) => HandleDisconnect(s, id)
  }

  function Run(s: Session, events: seq<Event>): (s': Session)
    requires AllAdmissible(events)
    decreases |events|
  {
    if events == [] then s else Run(Step(s, events[0]), events[1..])
  }

  /** The connected sockets according to the transport alone: a connection adds its id,
      a disconnect removes it, a movement changes nothing. */
  function LiveAfter(live: set<Id>, events: seq<Event>): (live': set<Id>)
    decreases |events|
  {
    if events == [] then live
    else
      var e := events[0];
      var next := match e
        case ConnectEvent(id, _) => live + {id}
        case MoveEvent(_, _) => live
        case DisconnectEvent(id) => live - {id};
      LiveAfter(next, events[1..])
  }

  /** Over any sequence of connections, movements and disconnects, the registry's keys
      are exactly the sockets the transport considers connected: no entry leaks and none
      is removed early. */
  lemma {:induction false} RegistryTracksConnections(s: Session, events: seq<Event>)
    requires AllAdmissible(events)
    requires s.players.Keys == s.live
    ensures Run(s, events).players.Keys == LiveAfter(s.live, events)
    ensures Run(s, events).live == LiveAfter(s.live, events)
    decreases |events|
  {
    if events != [] {
      var s1 := Step(s, events[0]);
      assert AllAdmissible(events[1..]) by {
        forall i | 0 <= i < |events[1..]| ensures Admissible(events[1..][i]) {
          assert events[1..][i] == events[i + 1];
        }
      }
      RegistryTracksConnections(s1, events[1..]);
    }
  }

  /** Every step keeps the registry consistent. */
  lemma {:induction false} RunKeepsConsistent(s: Session, events: seq<Event>)
    requires AllAdmissible(events)
    requires Consistent(s)
    ensures Consistent(Run(s, events))
    decreases |events|
  {
    if events != [] {
      assert AllAdmissible(events[1..]) by {
        forall i | 0 <= i < |events[1..]| ensures Admissible(events[1..][i]) {
          assert events[1..][i] == events[i + 1];
        }
      }
      RunKeepsConsistent(Step(s, events[0]), events[1..]);
    }
  }

  predicate AllRouted(outbox: seq<Emit>)
  {
    forall i :: 0 <= i < |outbox| ==> Routed(outbox[i])
  }

  /** Every emit the server ever makes uses the addressing of its event kind, so (by
      `Protocol.NoSelfEcho`) no join or movement is echoed to its own socket. */
  lemma {:induction false} RunRoutesEveryEmit(s: Session, events: seq<Event>)
    requires AllAdmissible(events)
    requires AllRouted(s.outbox)
    ensures AllRouted(Run(s, events).outbox)
    decreases |events|
  {
    if events != [] {
      var s1 := Step(s, events[0]);
      assert AllRouted(s1.outbox) by {
        forall i | 0 <= i < |s1.outbox| ensures Routed(s1.outbox[i]) {
          if i < |s.outbox| {
            assert s1.outbox[i] == s.outbox[i];
          }
        }
      }
      assert AllAdmissible(events[1..]) by {
        forall i | 0 <= i < |events[1..]| ensures Admissible(events[1..][i]) {
          assert events[1..][i] == events[i + 1];
        }
      }
      RunRoutesEveryEmit(s1, events[1..]);
    }
  }

  /** No event in `events` connects or disconnects `id`. */
  predicate OnlyMovesOf(events: seq<Event>, id: Id)
  {
    forall i :: 0 <= i < |events| ==> events[i].MoveEvent? || events[i].id != id
  }

  /** The skin chosen at connection never changes while the session lasts, however many
      movements of any player are processed. */
  lemma {:induction false} SkinNeverChanges(s: Session, events: seq<Event>, id: Id)
    requires AllAdmissible(events)
    requires id in s.players
    requires OnlyMovesOf(events, id)
    ensures id in Run(s, events).players
    ensures Run(s, events).players[id].skin == s.players[id].skin
    decreases |events|
  {
    if events != [] {
      var s1 := Step(s, events[0]);
      assert events[0].MoveEvent? || events[0].id != id;
      assert id in s1.players && s1.players[id].skin == s.players[id].skin;
      assert AllAdmissible(events[1..]) && OnlyMovesOf(events[1..], id) by {
        forall i | 0 <= i < |events[1..]| ensures Admissible(events[1..][i]) && (events[1..][i].MoveEvent? || events[1..][i].id != id) {
          assert events[1..][i] == events[i + 1];
        }
      }
      SkinNeverChanges(s1, events[1..], id);
    }
  }

  /** The join, move, leave scenario: A connects and is sent a snapshot holding only its
      own entry; B connects, is sent both entries, and A is told of B; B moves and only A
      is told, with B's skin; A leaves and B is told; a later C is sent a snapshot
      without A. */
  lemma JoinMoveLeaveScenario()
    ensures var s1 := HandleConnection(Empty, "A", 2);
            var s2 := HandleConnection(s1, "B", 3);
            var s3 := HandleMovement(s2, "B", Movement(5, 0, -3, 1));
            var s4 := HandleDisconnect(s3, "A");
            var s5 := HandleConnection(s4, "C", 1);
            s1.outbox[0] == Emit(Only("A"), CurrentPlayers(map["A" := PlayerState(0, 0, 0, 0, 2)])) &&
            Addressees(s1.outbox[1].to, s1.live) == {} &&
            s2.outbox[2] == Emit(Only("B"), CurrentPlayers(map["A" := PlayerState(0, 0, 0, 0, 2), "B" := PlayerState(0, 0, 0, 0, 3)])) &&
            s2.outbox[3] == Emit(AllExcept("B"), NewPlayer("B", PlayerState(0, 0, 0, 0, 3))) &&
            Addressees(s2.outbox[3].to, s2.live) == {"A"} &&
            s3.outbox[4] == Emit(AllExcept("B"), PlayerMoved("B", 5, 0, -3, 1, 3)) &&
            Addressees(s3.outbox[4].to, s3.live) == {"A"} &&
            s4.outbox[5] == Emit(All, PlayerDisconnected("A")) &&
            Addressees(s4.outbox[5].to, s4.live) == {"B"} &&
            s5.outbox[6].to == Only("C") && "A" !in s5.outbox[6].msg.players
  {
    var s1 := HandleConnection(Empty, "A", 2);
    var s2 := HandleConnection(s1, "B", 3);
    assert s2.live == {"A", "B"};
    assert s2.players == map["A" := PlayerState(0, 0, 0, 0, 2), "B" := PlayerState(0, 0, 0, 0, 3)];
    var s3 := HandleMovement(s2, "B", Movement(5, 0, -3, 1));
    var s4 := HandleDisconnect(s3, "A");
    assert s4.live == {"B"};
  }

  /** The server as the program has it: the process-wide `players` dictionary, the
      transport's connected sockets and the emits made so far, updated in place. */
  class Relay {
    var players: map<Id, PlayerState>
    var connected: set<Id>
    var outbox: seq<Emit>

    function State(): (s: Session)
      reads this
    {
      Session(players, connected, outbox)
    }

    ghost predicate Valid()
      reads this
    {
      Consistent(State())
    }

    constructor ()
      ensures Valid() && State() == Empty
    {
      players := map[];
      connected := {};
      outbox := [];
    }

    method Connect(id: Id, skin: int)
      requires Valid()
      requires 1 <= skin <= SkinCount
      modifies this
      ensures Valid()
      ensures State() == HandleConnection(old(State()), id, skin)
    {
      connected := connected + {id};
      players := players[id := PlayerState(0, 0, 0, 0, skin)];
      outbox := outbox + [Emit(Only(id), CurrentPlayers(players))];
      outbox := outbox + [Emit(AllExcept(id), NewPlayer(id, players[id]))];
    }

    method Move(id: Id, m: Movement)
      requires Valid()
      modifies this
      ensures Valid()
      ensures State() == HandleMovement(old(State()), id, m)
    {
      if id in players {
        players := players[id := players[id].(x := m.x)];
        players := players[id := players[id].(y := m.y)];
        players := players[id := players[id].(z := m.z)];
        players := players[id := players[id].(rotation := m.rotation)];
        var p := players[id];
        outbox := outbox + [Emit(AllExcept(id), PlayerMoved(id, p.x, p.y, p.z, p.rotation, p.skin))];
      }
    }

    method Disconnect(id: Id)
      requires Valid()
      modifies this
      ensures Valid()
      ensures State() == HandleDisconnect(old(State()), id)
    {
      connected := connected - {id};
      players := players - {id};
      outbox := outbox + [Emit(All, PlayerDisconnected(id))];
    }
  }
}
