/** The browser client's replica of the remote players (`otherPlayers`). Adding a
    remote player is split in two, as in the program: the request starts a model load,
    and only the load's completion inserts the avatar. Pending loads finish in any order,
    so they form a multiset. The handler functions are the specification; the class
    `Game` performs the same updates in place. */
module Client {
  import opened Protocol

  /** A player record as the client receives it; `skin` may be absent. */
  datatype PlayerData = PlayerData(x: Coord, y: Coord, z: Coord, rotation: Coord, skin: Option<int>)

  /** A model load that `addOtherPlayer` started and that has not completed yet. */
  datatype LoadRequest = LoadRequest(id: Id, data: PlayerData)

  /** A loaded remote model: the skin variant it was loaded from, its position and its
      heading `rotation.y`. */
  datatype Avatar = Avatar(model: int, x: Coord, y: Coord, z: Coord, rotationY: Coord)

  datatype Replica = Replica(self: Id, others: map<Id, Avatar>, pending: multiset<LoadRequest>)

  /** `data.skin || 1`: an absent or falsy (zero) skin falls back to variant 1. */
  function SkinId(skin: Option<int>): (k: int)
    ensures skin.Some? && skin.value != 0 ==> k == skin.value
    ensures skin.None? || skin.value == 0 ==> k == 1
    ensures k != 0
  {
    match skin
    case None => 1
    case Some(n) => if n == 0 then 1 else n
  }

  /** The avatar a completed load installs. */
  function Placed(data: PlayerData): (a: Avatar)
  {
    Avatar(SkinId(data.skin), data.x, data.y, data.z, data.rotation)
  }

  /** The loads requested for the snapshot entries whose ids are in `ids`, skipping the
      client's own id: once each, with that entry's data. */
  function Requests(players: map<Id, PlayerData>, ids: set<Id>, self: Id): (reqs: multiset<LoadRequest>)
    ensures forall req :: reqs[req] == if req.id in ids && req.id in players && req.id != self && req.data == players[req.id] then 1 else 0
  {
    multiset(set id | id in ids && id in players && id != self :: LoadRequest(id, players[id]))
  }

  /** Visiting one more snapshot key adds that key's request, unless it is the client's
      own id. */
  lemma RequestsStep(players: map<Id, PlayerData>, ids: set<Id>, id: Id, self: Id)
    requires id !in ids
    ensures Requests(players, ids + {id}, self) ==
            Requests(players, ids, self) +
            (if id in players && id != self then multiset{LoadRequest(id, players[id])} else multiset{})
  {
    var a := Requests(players, ids + {id}, self);
    var b := Requests(players, ids, self) +
             (if id in players && id != self then multiset{LoadRequest(id, players[id])} else multiset{});
    assert forall req :: a[req] == b[req];
  }

  /** `addOtherPlayer`: starts the load for one remote player; the replica itself does
      not change yet. */
  function RequestLoad(r: Replica, id: Id, data: PlayerData): (r': Replica)
    ensures r'.self == r.self && r'.others == r.others
    ensures r'.pending == r.pending + multiset{LoadRequest(id, data)}
    ensures |r'.pending| == |r.pending| + 1
  {
    r.(pending := r.pending + multiset{LoadRequest(id, data)})
  }

  /** `currentPlayers`: one load per snapshot entry except the client's own. */
  function HandleCurrentPlayers(r: Replica, players: map<Id, PlayerData>): (r': Replica)
    ensures r'.self == r.self && r'.others == r.others
    ensures forall req :: r'.pending[req] == r.pending[req] + (if req.id in players && req.id != r.self && req.data == players[req.id] then 1 else 0)
  {
    r.(pending := r.pending + Requests(players, players.Keys, r.self))
  }

  /** A snapshot starts one load per entry other than the client's own: as many as the
      snapshot has entries, less one when (as with every snapshot the server sends) the
      client's own entry is among them. */
  lemma CurrentPlayersLoadsEveryEntry(r: Replica, players: map<Id, PlayerData>)
    ensures |HandleCurrentPlayers(r, players).pending| == |r.pending| + |players.Keys - {r.self}|
    ensures r.self in players ==> |HandleCurrentPlayers(r, players).pending| == |r.pending| + |players| - 1
    ensures r.self !in players ==> |HandleCurrentPlayers(r, players).pending| == |r.pending| + |players|
  {
    var peers := players.Keys - {r.self};
    RequestsCount(players, peers, r.self);
    var a := Requests(players, players.Keys, r.self);
    var b := Requests(players, peers, r.self);
    assert forall req :: a[req] == b[req];
    assert a == b;
    if r.self in players {
      assert players.Keys == peers + {r.self};
    } else {
      assert peers == players.Keys;
    }
  }

  /** Without the own id among the keys, there is one request per key. */
  lemma {:induction false} RequestsCount(players: map<Id, PlayerData>, ids: set<Id>, self: Id)
    requires ids <= players.Keys
    requires self !in ids
    ensures |Requests(players, ids, self)| == |ids|
    decreases |ids|
  {
    if ids != {} {
      var id :| id in ids;
      RequestsCount(players, ids - {id}, self);
      RequestsStep(players, ids - {id}, id, self);
      assert ids - {id} + {id} == ids;
    } else {
      assert Requests(players, ids, self) == multiset{};
    }
  }

  /** `newPlayer`: one load for the announced player. */
  function HandleNewPlayer(r: Replica, id: Id, player: PlayerData): (r': Replica)
    ensures r'.self == r.self && r'.others == r.others
    ensures r'.pending == r.pending + multiset{LoadRequest(id, player)}
  {
    RequestLoad(r, id, player)
  }

  /** Completion of a load: the avatar for the requested id is set (replacing any
      earlier one) with the requested skin variant, position and heading; nothing else
      in the replica changes. */
  function HandleLoaded(r: Replica, id: Id, data: PlayerData): (r': Replica)
    requires LoadRequest(id, data) in r.pending
    ensures r'.self == r.self
    ensures id in r'.others
    ensures r'.others[id] == Avatar(SkinId(data.skin), data.x, data.y, data.z, data.rotation)
    ensures forall other :: other != id ==> (other in r'.others <==> other in r.others)
    ensures forall other :: other != id && other in r.others ==> r'.others[other] == r.others[other]
    ensures r'.pending == r.pending - multiset{LoadRequest(id, data)}
    ensures |r'.pending| == |r.pending| - 1
  {
    Replica(r.self, r.others[id := Placed(data)], r.pending - multiset{LoadRequest(id, data)})
  }

  /** `playerMoved`: ignored unless the id has an avatar; otherwise only that avatar's
      position and heading change, and it keeps its model. */
  function HandlePlayerMoved(r: Replica, id: Id, x: Coord, y: Coord, z: Coord, rotation: Coord): (r': Replica)
    ensures id !in r.others ==> r' == r
    ensures id in r.others ==>
              r'.self == r.self && r'.pending == r.pending &&
              r'.others.Keys == r.others.Keys &&
              r'.others[id] == Avatar(r.others[id].model, x, y, z, rotation) &&
              forall other :: other in r.others && other != id ==> r'.others[other] == r.others[other]
  {
    if id in r.others then
      r.(others := r.others[id := r.others[id].(x := x, y := y, z := z, rotationY := rotation)])
    else
      r
  }

  /** `playerDisconnected`: removes the avatar if there is one, and is a no-op
      otherwise. Loads still pending for the id are not cancelled. */
  function HandlePlayerDisconnected(r: Replica, id: Id): (r': Replica)
    ensures id !in r.others ==> r' == r
    ensures r'.self == r.self && r'.pending == r.pending
    ensures r'.others.Keys == r.others.Keys - {id}
    ensures forall other :: other in r'.others ==> r'.others[other] == r.others[other]
  {
    if id in r.others then r.(others := r.others - {id}) else r
  }

  /** A movement that arrives while the player's load is still pending is lost: when the
      load completes, the avatar stands where the join payload put it. */
  lemma MovementBeforeLoadIsLost(r: Replica, id: Id, data: PlayerData, x: Coord, y: Coord, z: Coord, rotation: Coord)
    requires LoadRequest(id, data) in r.pending
    requires id !in r.others
    ensures var r' := HandleLoaded(HandlePlayerMoved(r, id, x, y, z, rotation), id, data);
            r'.others[id] == Avatar(SkinId(data.skin), data.x, data.y, data.z, data.rotation)
  {
  }

  /** A load that completes after the player's `playerDisconnected` re-inserts the
      avatar. */
  lemma LoadAfterDisconnectReinserts(r: Replica, id: Id, data: PlayerData)
    requires LoadRequest(id, data) in r.pending
    ensures LoadRequest(id, data) in HandlePlayerDisconnected(r, id).pending
    ensures id in HandleLoaded(HandlePlayerDisconnected(r, id), id, data).others
  {
  }

  /** The client as the program has it: its own socket id, the `otherPlayers`
      dictionary and the loads in flight, updated in place. */
  class Game {
    const self: Id
    var others: map<Id, Avatar>
    var pending: multiset<LoadRequest>

    function Model(): (r: Replica)
      reads this
    {
      Replica(self, others, pending)
    }

    constructor (self: Id)
      ensures Model() == Replica(self, map[], multiset{})
    {
      this.self := self;
      others := map[];
      pending := multiset{};
    }

    method AddOtherPlayer(id: Id, data: PlayerData)
      modifies this
      ensures Model() == RequestLoad(old(Model()), id, data)
    {
      pending := pending + multiset{LoadRequest(id, data)};
    }

    method OnCurrentPlayers(players: map<Id, PlayerData>)
      modifies this
      ensures Model() == HandleCurrentPlayers(old(Model()), players)
    {
      var todo := players.Keys;
      ghost var done: set<Id> := {};
      while todo != {}
        invariant todo + done == players.Keys && todo !! done
        invariant others == old(others)
        invariant pending == old(pending) + Requests(players, done, self)
        decreases todo
      {
        var id :| id in todo;
        if id != self {
          AddOtherPlayer(id, players[id]);
        }
        RequestsStep(players, done, id, self);
        todo := todo - {id};
        done := done + {id};
      }
    }

    method OnNewPlayer(id: Id, player: PlayerData)
      modifies this
      ensures Model() == HandleNewPlayer(old(Model()), id, player)
    {
      AddOtherPlayer(id, player);
    }

    method Loaded(id: Id, data: PlayerData)
      requires LoadRequest(id, data) in pending
      modifies this
      ensures Model() == HandleLoaded(old(Model()), id, data)
    {
      pending := pending - multiset{LoadRequest(id, data)};
      var skinId := SkinId(data.skin);
      others := others[id := Avatar(skinId, 0, 0, 0, 0)];
      others := others[id := others[id].(x := data.x, y := data.y, z := data.z)];
      others := others[id := others[id].(rotationY := data.rotation)];
    }

    method OnPlayerMoved(id: Id, x: Coord, y: Coord, z: Coord, rotation: Coord)
      modifies this
      ensures Model() == HandlePlayerMoved(old(Model()), id, x, y, z, rotation)
    {
      if id in others {
        others := others[id := others[id].(x := x, y := y, z := z)];
        others := others[id := others[id].(rotationY := rotation)];
      }
    }

    method OnPlayerDisconnected(id: Id)
      modifies this
      ensures Model() == HandlePlayerDisconnected(old(Model()), id)
    {
      if id in others {
        others := others - {id};
      }
    }
  }
}
