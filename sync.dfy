/** How the server's emits drive a client's replica: a server record travels as a
    client player record with its skin present; a newcomer's replica comes to mirror
    the registry once its snapshot loads complete, and each later join (once loaded),
    movement and leave keeps it mirroring, except for a movement that overtakes a
    pending load. */
module Sync {
  import opened Protocol
  import Server
  import Client

  /** A stored player state as the client receives it. */
  function Wire(p: PlayerState): (d: Client.PlayerData)
  {
    Client.PlayerData(p.x, p.y, p.z, p.rotation, Some(p.skin))
  }

  function WireMap(players: map<Id, PlayerState>): (m: map<Id, Client.PlayerData>)
  {
    map id | id in players :: Wire(players[id])
  }

  /** A skin assigned by the server is never replaced by the client's fallback. */
  lemma ServerSkinSurvivesFallback(p: PlayerState)
    requires 1 <= p.skin <= Server.SkinCount
    ensures Client.SkinId(Wire(p).skin) == p.skin
    ensures Client.Placed(Wire(p)) == Client.Avatar(p.skin, p.x, p.y, p.z, p.rotation)
  {
  }

  /** The snapshot a newcomer receives makes it request exactly one load for every
      player registered before it, with that player's stored state, and none for
      itself, although its own entry is in the snapshot. */
  lemma SnapshotRequestsMirrorRegistry(s: Server.Session, id: Id, skin: int, r: Client.Replica)
    requires 1 <= skin <= Server.SkinCount
    requires r.self == id
    ensures var s' := Server.HandleConnection(s, id, skin);
            var snap := s'.outbox[|s.outbox|].msg.players;
            var r' := Client.HandleCurrentPlayers(r, WireMap(snap));
            id in snap &&
            (forall other :: other in s.players && other != id ==>
               r'.pending[Client.LoadRequest(other, Wire(s.players[other]))] == r.pending[Client.LoadRequest(other, Wire(s.players[other]))] + 1) &&
            (forall req :: r'.pending[req] != r.pending[req] ==>
               req.id in s.players && req.id != id && req.data == Wire(s.players[req.id]))
  {
    var s' := Server.HandleConnection(s, id, skin);
    var snap := s'.outbox[|s.outbox|].msg.players;
    assert snap == s'.players;
  }

  /** After B connects, every other connected client is told, and once its load for B
      completes it shows B at the origin, heading 0, with B's skin. */
  lemma JoinReachesPeer(s: Server.Session, id: Id, skin: int, r: Client.Replica)
    requires 1 <= skin <= Server.SkinCount
    requires r.self in s.live && r.self != id
    ensures var s' := Server.HandleConnection(s, id, skin);
            var e := s'.outbox[|s'.outbox| - 1];
            r.self in Addressees(e.to, s'.live) &&
            e.msg.NewPlayer? && e.msg.id == id &&
            var r1 := Client.HandleNewPlayer(r, e.msg.id, Wire(e.msg.player));
            var r2 := Client.HandleLoaded(r1, e.msg.id, Wire(e.msg.player));
            r2.others[id] == Client.Avatar(skin, 0, 0, 0, 0)
  {
  }

  /** A relayed movement reaches every other client, and one that already shows the
      mover moves its avatar to the stored position and heading, keeping the model. */
  lemma MovementReachesPeer(s: Server.Session, id: Id, m: Movement, r: Client.Replica)
    requires id in s.players
    requires r.self in s.live && r.self != id
    requires id in r.others
    ensures var s' := Server.HandleMovement(s, id, m);
            var e := s'.outbox[|s'.outbox| - 1];
            var p := s'.players[id];
            r.self in Addressees(e.to, s'.live) &&
            e.msg.PlayerMoved? && e.msg.id == id && e.msg.skin == s.players[id].skin &&
            var r' := Client.HandlePlayerMoved(r, e.msg.id, e.msg.x, e.msg.y, e.msg.z, e.msg.rotation);
            r'.others[id] == Client.Avatar(r.others[id].model, p.x, p.y, p.z, p.rotation)
  {
  }

  /** A departure reaches every remaining client, and each drops the avatar. */
  lemma LeaveReachesPeers(s: Server.Session, id: Id, r: Client.Replica)
    requires r.self in s.live && r.self != id
    ensures var s' := Server.HandleDisconnect(s, id);
            var e := s'.outbox[|s'.outbox| - 1];
            r.self in Addressees(e.to, s'.live) &&
            e.msg == PlayerDisconnected(id) &&
            id !in Client.HandlePlayerDisconnected(r, id).others
  {
  }

  // ----- the replica as a mirror of the registry -----

  /** The avatar a client shows for a stored player state. */
  function AvatarOf(p: PlayerState): (a: Client.Avatar)
  {
    Client.Avatar(p.skin, p.x, p.y, p.z, p.rotation)
  }

  /** The client's `socket.on` dispatch: what each server event does to the replica. */
  function Deliver(r: Client.Replica, msg: Message): (r': Client.Replica)
    ensures r'.self == r.self
    ensures msg.CurrentPlayers? || msg.NewPlayer? ==> r'.others == r.others
    ensures msg.NewPlayer? ==> r'.pending == r.pending + multiset{Client.LoadRequest(msg.id, Wire(msg.player))}
    ensures msg.PlayerMoved? || msg.PlayerDisconnected? ==> r'.pending == r.pending && r'.others.Keys <= r.others.Keys
    ensures msg.PlayerDisconnected? ==> msg.id !in r'.others
  {
    match msg
    case CurrentPlayers(players) => Client.HandleCurrentPlayers(r, WireMap(players))
    case NewPlayer(id, p) => Client.HandleNewPlayer(r, id, Wire(p))
    case PlayerMoved(id, x, y, z, rotation, _) => Client.HandlePlayerMoved(r, id, x, y, z, rotation)
    case PlayerDisconnected(id) => Client.HandlePlayerDisconnected(r, id)
  }

  /** The client handles, in order, those of `emits` that are addressed to it. */
  function Receive(r: Client.Replica, live: set<Id>, emits: seq<Emit>): (r': Client.Replica)
    decreases |emits|
  {
    if emits == [] then r
    else
      var next := if r.self in Addressees(emits[0].to, live) then Deliver(r, emits[0].msg) else r;
      Receive(next, live, emits[1..])
  }

  /** The replica shows exactly the registry without the client itself, each avatar at
      its player's stored position and heading with its skin, and no load is in flight. */
  ghost predicate Mirrors(s: Server.Session, r: Client.Replica)
  {
    r.pending == multiset{} &&
    r.others.Keys == s.players.Keys - {r.self} &&
    forall id :: id in r.others ==> r.others[id] == AvatarOf(s.players[id])
  }

  /** What a handler emitted: the part of the outbox after the old one. */
  function Emitted(s: Server.Session, s': Server.Session): (emits: seq<Emit>)
    requires |s.outbox| <= |s'.outbox|
  {
    s'.outbox[|s.outbox|..]
  }

  /** When another player connects, a mirroring client receives only the `newPlayer`,
      and once that load completes it mirrors the new registry. */
  lemma JoinKeepsMirror(s: Server.Session, id: Id, skin: int, r: Client.Replica)
    requires 1 <= skin <= Server.SkinCount
    requires Server.Consistent(s) && Mirrors(s, r)
    requires r.self in s.live && r.self != id
    ensures var s' := Server.HandleConnection(s, id, skin);
            var r1 := Receive(r, s'.live, Emitted(s, s'));
            var data := Wire(PlayerState(0, 0, 0, 0, skin));
            r1.others == r.others && r1.pending == multiset{Client.LoadRequest(id, data)} &&
            Mirrors(s', Client.HandleLoaded(r1, id, data))
  {
    var s' := Server.HandleConnection(s, id, skin);
    var emits := Emitted(s, s');
    assert emits == [Emit(Only(id), CurrentPlayers(s'.players)), Emit(AllExcept(id), NewPlayer(id, s'.players[id]))];
    var data := Wire(PlayerState(0, 0, 0, 0, skin));
    var r1 := Client.HandleNewPlayer(r, id, data);
    assert r.self !in Addressees(emits[0].to, s'.live);
    assert Receive(r, s'.live, emits) == Receive(r, s'.live, emits[1..]);
    assert emits[1..] == [emits[1]];
    assert Receive(r, s'.live, emits[1..]) == Receive(r1, s'.live, []);
    var r2 := Client.HandleLoaded(r1, id, data);
    forall other | other in r2.others ensures r2.others[other] == AvatarOf(s'.players[other]) {
      if other != id {
        assert other in r.others;
      }
    }
  }

  /** Any movement keeps a mirroring client mirroring: an echo is not sent to the mover
      itself, a movement from an unknown id sends nothing, and every other client applies
      the relayed state. */
  lemma MovementKeepsMirror(s: Server.Session, id: Id, m: Movement, r: Client.Replica)
    requires Server.Consistent(s) && Mirrors(s, r)
    requires r.self in s.live
    ensures var s' := Server.HandleMovement(s, id, m);
            Mirrors(s', Receive(r, s'.live, Emitted(s, s')))
  {
    var s' := Server.HandleMovement(s, id, m);
    var emits := Emitted(s, s');
    if id in s.players {
      var e := Emit(AllExcept(id), PlayerMoved(id, m.x, m.y, m.z, m.rotation, s.players[id].skin));
      assert emits == [e];
      var r1 := if r.self in Addressees(e.to, s'.live) then Deliver(r, e.msg) else r;
      assert Receive(r, s'.live, emits) == Receive(r1, s'.live, []);
      if id != r.self {
        assert id in r.others;
        forall other | other in r1.others ensures r1.others[other] == AvatarOf(s'.players[other]) {
        }
      }
    } else {
      assert emits == [];
    }
  }

  /** When another player leaves, a mirroring client drops exactly that avatar and
      mirrors the new registry. */
  lemma LeaveKeepsMirror(s: Server.Session, id: Id, r: Client.Replica)
    requires Server.Consistent(s) && Mirrors(s, r)
    requires r.self in s.live && r.self != id
    ensures var s' := Server.HandleDisconnect(s, id);
            Mirrors(s', Receive(r, s'.live, Emitted(s, s')))
  {
    var s' := Server.HandleDisconnect(s, id);
    var emits := Emitted(s, s');
    assert emits == [Emit(All, PlayerDisconnected(id))];
    var r1 := Client.HandlePlayerDisconnected(r, id);
    assert Receive(r, s'.live, emits) == Receive(r1, s'.live, []);
  }

  /** A movement of a player whose model is still loading breaks the mirror: the
      loaded avatar stands at the join position while the registry holds the moved one.
      The mover's next movement restores it. */
  lemma MovementDuringLoadBreaksMirror(s: Server.Session, id: Id, skin: int, m: Movement, m2: Movement, r: Client.Replica)
    requires 1 <= skin <= Server.SkinCount
    requires Server.Consistent(s) && Mirrors(s, r)
    requires r.self in s.live && r.self != id && id !in s.players
    requires m.x != 0
    ensures var s1 := Server.HandleConnection(s, id, skin);
            var r1 := Receive(r, s1.live, Emitted(s, s1));
            var s2 := Server.HandleMovement(s1, id, m);
            var r2 := Receive(r1, s2.live, Emitted(s1, s2));
            var data := Wire(PlayerState(0, 0, 0, 0, skin));
            Client.LoadRequest(id, data) in r2.pending &&
            var r3 := Client.HandleLoaded(r2, id, data);
            var s3 := Server.HandleMovement(s2, id, m2);
            !Mirrors(s2, r3) && Mirrors(s3, Receive(r3, s3.live, Emitted(s2, s3)))
  {
    var s1 := Server.HandleConnection(s, id, skin);
    var data := Wire(PlayerState(0, 0, 0, 0, skin));
    JoinKeepsMirror(s, id, skin, r);
    var r1 := Receive(r, s1.live, Emitted(s, s1));
    assert id !in r1.others;
    var s2 := Server.HandleMovement(s1, id, m);
    var e2 := Emit(AllExcept(id), PlayerMoved(id, m.x, m.y, m.z, m.rotation, skin));
    assert Emitted(s1, s2) == [e2];
    assert Receive(r1, s2.live, [e2]) == Receive(Deliver(r1, e2.msg), s2.live, []);
    var r2 := Receive(r1, s2.live, Emitted(s1, s2));
    assert r2 == r1;
    var r3 := Client.HandleLoaded(r2, id, data);
    assert r3.others[id].x == 0 && s2.players[id].x == m.x;
    var s3 := Server.HandleMovement(s2, id, m2);
    var e3 := Emit(AllExcept(id), PlayerMoved(id, m2.x, m2.y, m2.z, m2.rotation, skin));
    assert Emitted(s2, s3) == [e3];
    assert Receive(r3, s3.live, [e3]) == Receive(Deliver(r3, e3.msg), s3.live, []);
    var r4 := Deliver(r3, e3.msg);
    forall k | k in r4.others ensures r4.others[k] == AvatarOf(s3.players[k]) {
      if k != id {
        assert k in r.others;
      }
    }
  }

  // ----- a newcomer's replica converges once its loads complete -----

  /** Completion of the given loads, in the given order. */
  function CompleteAll(r: Client.Replica, reqs: seq<Client.LoadRequest>): (r': Client.Replica)
    requires multiset(reqs) <= r.pending
    decreases |reqs|
  {
    if reqs == [] then r
    else
      assert reqs == [reqs[0]] + reqs[1..];
      CompleteAll(Client.HandleLoaded(r, reqs[0].id, reqs[0].data), reqs[1..])
  }

  /** The replica mirrors the registry up to loads in flight: every avatar is its
      registry entry, every pending load carries a registered player's stored state, and
      every other registered player has an avatar or a pending load. */
  ghost predicate MirrorsOnceLoaded(s: Server.Session, r: Client.Replica)
  {
    (forall k :: k in r.others ==> k in s.players && k != r.self && r.others[k] == AvatarOf(s.players[k])) &&
    (forall req :: req in r.pending ==> req.id in s.players && req.id != r.self && req.data == Wire(s.players[req.id])) &&
    (forall k :: k in s.players && k != r.self ==> k in r.others || Client.LoadRequest(k, Wire(s.players[k])) in r.pending)
  }

  /** With no load in flight, mirroring up to loads is mirroring. */
  lemma MirrorsOnceLoadedWithoutPending(s: Server.Session, r: Client.Replica)
    requires MirrorsOnceLoaded(s, r) && r.pending == multiset{}
    ensures Mirrors(s, r)
  {
    assert forall k :: k in s.players && k != r.self ==> k in r.others;
  }

  /** Completing any pending load keeps the replica mirroring up to loads. */
  lemma LoadKeepsMirrorsOnceLoaded(s: Server.Session, r: Client.Replica, req: Client.LoadRequest)
    requires Server.Consistent(s) && MirrorsOnceLoaded(s, r)
    requires req in r.pending
    ensures MirrorsOnceLoaded(s, Client.HandleLoaded(r, req.id, req.data))
  {
    var r' := Client.HandleLoaded(r, req.id, req.data);
    ServerSkinSurvivesFallback(s.players[req.id]);
    forall q | q in r'.pending
      ensures q.id in s.players && q.id != r.self && q.data == Wire(s.players[q.id])
    {
      assert q in r.pending;
    }
    forall k | k in s.players && k != r.self
      ensures k in r'.others || Client.LoadRequest(k, Wire(s.players[k])) in r'.pending
    {
      if k != req.id && k !in r.others {
        var q := Client.LoadRequest(k, Wire(s.players[k]));
        assert q in r.pending && q != req;
        assert r'.pending[q] == r.pending[q];
      }
    }
  }

  /** Completing all pending loads, in any order, turns mirroring up to loads into
      mirroring. */
  lemma {:induction false} CompleteAllMirrors(s: Server.Session, r: Client.Replica, reqs: seq<Client.LoadRequest>)
    requires Server.Consistent(s) && MirrorsOnceLoaded(s, r)
    requires multiset(reqs) == r.pending
    ensures Mirrors(s, CompleteAll(r, reqs))
    decreases |reqs|
  {
    if reqs == [] {
      MirrorsOnceLoadedWithoutPending(s, r);
    } else {
      assert reqs == [reqs[0]] + reqs[1..];
      assert reqs[0] in r.pending;
      var r1 := Client.HandleLoaded(r, reqs[0].id, reqs[0].data);
      LoadKeepsMirrorsOnceLoaded(s, r, reqs[0]);
      assert multiset(reqs[1..]) == r1.pending;
      CompleteAllMirrors(s, r1, reqs[1..]);
    }
  }

  /** A client that connects to a registry that already has players receives only its
      snapshot, and once all the loads it starts have completed, in any order, its
      replica mirrors the registry. */
  lemma NewcomerMirrorsOnceLoaded(s: Server.Session, id: Id, skin: int, reqs: seq<Client.LoadRequest>)
    requires 1 <= skin <= Server.SkinCount
    requires Server.Consistent(s)
    requires var s' := Server.HandleConnection(s, id, skin);
             multiset(reqs) == Receive(Client.Replica(id, map[], multiset{}), s'.live, Emitted(s, s')).pending
    ensures var s' := Server.HandleConnection(s, id, skin);
            var r1 := Receive(Client.Replica(id, map[], multiset{}), s'.live, Emitted(s, s'));
            multiset(reqs) <= r1.pending &&
            Mirrors(s', CompleteAll(r1, reqs))
  {
    var s' := Server.HandleConnection(s, id, skin);
    var r0 := Client.Replica(id, map[], multiset{});
    var emits := Emitted(s, s');
    assert emits == [Emit(Only(id), CurrentPlayers(s'.players)), Emit(AllExcept(id), NewPlayer(id, s'.players[id]))];
    var r1 := Deliver(r0, emits[0].msg);
    assert Receive(r0, s'.live, emits) == Receive(r1, s'.live, emits[1..]);
    assert emits[1..] == [emits[1]];
    assert id !in Addressees(emits[1].to, s'.live);
    assert Receive(r1, s'.live, emits[1..]) == Receive(r1, s'.live, []);
    assert r1 == Client.HandleCurrentPlayers(r0, WireMap(s'.players));
    forall k | k in s'.players && k != id
      ensures Client.LoadRequest(k, Wire(s'.players[k])) in r1.pending
    {
      assert r1.pending[Client.LoadRequest(k, Wire(s'.players[k]))] == 1;
    }
    forall req | req in r1.pending
      ensures req.id in s'.players && req.id != id && req.data == Wire(s'.players[req.id])
    {
      assert r1.pending[req] != 0;
    }
    CompleteAllMirrors(s', r1, reqs);
  }
}
