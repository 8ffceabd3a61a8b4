/** The registry of the TypeScript server (server/src/game.ts): the rooms by
    id, the open connections per player id, and the players by id. Room ids
    come from uuidv4 in the source; here the caller supplies them. Messages
    are not sent: the operations that send return the deliveries they would
    make, as (client, message) pairs in sending order. */
module TsGame {
  import opened Wrappers
  import opened JsCollections
  import opened TsPlayer
  import opened TsRoom

  /** A connection; only the player id it identified with matters here. */
  class Client {
    var playerId: string

    constructor (playerId: string)
      ensures this.playerId == playerId
    {
      this.playerId := playerId;
    }
  }

  // ---------------------------------------------------------------------
  // The per-player client lists

  /** The client list after a connection for pid is added: pushed onto an
      existing list, or a new one-element list set under pid. */
  function Attach<C>(m: JsMap<string, seq<C>>, pid: string, c: C): (r: JsMap<string, seq<C>>)
    requires MapValid(m)
    ensures MapValid(r)
    ensures pid in r.vals && r.vals[pid] == (if pid in m.vals then m.vals[pid] else []) + [c]
    ensures forall k :: k in m.vals && k != pid ==> k in r.vals && r.vals[k] == m.vals[k]
    ensures pid in m.vals ==> r.keys == m.keys
    ensures pid !in m.vals ==> r.keys == m.keys + [pid]
  {
    if pid in m.vals then MapSet(m, pid, m.vals[pid] + [c]) else MapSet(m, pid, [c])
  }

  /** The client list after removePlayerClient: splice at indexOf, so a
      client that is not in the list removes the last one. */
  function Detach<C(==)>(m: JsMap<string, seq<C>>, pid: string, c: C): (r: JsMap<string, seq<C>>)
    requires MapValid(m)
    ensures MapValid(r) && r.keys == m.keys
    ensures pid !in m.vals ==> r == m
    ensures forall k :: k in m.vals && k != pid ==> k in r.vals && r.vals[k] == m.vals[k]
    ensures pid in m.vals && c in m.vals[pid] ==> r.vals == m.vals[pid := RemoveFirst(m.vals[pid], c)]
    ensures pid in m.vals && c !in m.vals[pid] && m.vals[pid] != [] ==>
      r.vals == m.vals[pid := m.vals[pid][..|m.vals[pid]| - 1]]
    ensures pid in m.vals && m.vals[pid] == [] ==> r.vals == m.vals
  {
    if pid in m.vals then
      var cs := m.vals[pid];
      var index := IndexOf(cs, c);
      SpliceMinusOne(cs);
      MapSet(m, pid, Splice(cs, index, 1).1)
    else m
  }

  // ---------------------------------------------------------------------
  // Looking rooms up

  /** The first key, in insertion order, whose room has the given name: what
      Array.from(values()).find(r => r.name === name) picks. */
  function FirstNamed(keys: seq<string>, names: map<string, string>, name: string): (r: Option<string>)
    ensures r.None? <==> forall i :: 0 <= i < |keys| ==> !(keys[i] in names && names[keys[i]] == name)
    ensures r.Some? ==> r.value in keys && r.value in names && names[r.value] == name
    ensures r.Some? ==> forall i :: 0 <= i < IndexOf(keys, r.value) ==> !(keys[i] in names && names[keys[i]] == name)
  {
    var f := Find(keys, k => k in names && names[k] == name);
    if f.Some? then
      assert FindIndex(keys, k => k in names && names[k] == name) == IndexOf(keys, f.value);
      f
    else f
  }

  /** room.playerIds.find(pid => pid === id) is truthy: the id is listed and
      is not the empty string. */
  function Member(ids: seq<string>, id: string): (b: bool)
    ensures b <==> id in ids && id != ""
  {
    var f := Find(ids, pid => pid == id);
    f.Some? && f.value != ""
  }

  /** The room state a new Room starts in, its shuffled deck aside (the
      Room constructor states what the deck holds). */
  ghost predicate IsNewRoom(d: RoomFields, name: string)
  {
    d == RoomFields(name, None, [], EmptyMap(), EmptyMap(), 0, None, None, Waiting, d.deck, [], WaitingTurn, [])
  }

  /** new Room(name, game) as the registry sees it: a fresh room in its
      initial state. */
  method NewRoom(name: string, id: string, rnd: seq<nat>) returns (room: Room)
    ensures fresh(room) && room.id == id && IsNewRoom(room.fields, name)
  {
    room := new Room(name, id, rnd);
  }

  /** The fields of a Player, as a value. */
  datatype PlayerView = PlayerView(name: Option<string>, cards: seq<int>, roomId: Option<string>, points: int,
                                   ready: Option<bool>, status: PlayerStatus)

  function View(p: Player): PlayerView
    reads p
  {
    PlayerView(p.name, p.cards, p.roomId, p.points, p.ready, p.status)
  }

  /** The admission step of joinRoom, from the room state before to the one
      after, and from the player's fields before to those after: refused for
      a non-member once the game has started; a member of a started game is
      only pointed at the room; while waiting the player is pointed at the
      room, marked not ready, and added unless already a member. success is
      what on_join_room reports. */
  ghost predicate Admitted(before: ValidFields, after: RoomFields, roomId: string, pid: string,
                           p0: PlayerView, p1: PlayerView, success: bool)
  {
    var member := Member(before.playerIds, pid);
    if before.gameState != Waiting && !member then
      !success && after == before && p1 == p0
    else if before.gameState != Waiting then
      success && after == before && p1 == p0.(roomId := Some(roomId))
    else
      && success && p1 == p0.(roomId := Some(roomId), ready := Some(false))
      && after == if member then before
         else before.(playerIds := before.playerIds + [pid], playerState := MapSet(before.playerState, pid, FreshState(p0.name)))
  }

  /** A refused join changes nothing; an accepted one leaves the player
      listed in the room and pointed at it, and removes no one. */
  lemma AdmittedRoster(before: ValidFields, after: RoomFields, roomId: string, pid: string,
                       p0: PlayerView, p1: PlayerView, success: bool)
    requires Admitted(before, after, roomId, pid, p0, p1, success)
    ensures !success ==> after == before && p1 == p0
    ensures success ==> pid in after.playerIds && p1.roomId == Some(roomId)
    ensures before.playerIds <= after.playerIds && |after.playerIds| <= |before.playerIds| + 1
    ensures p1.name == p0.name && p1.cards == p0.cards && p1.points == p0.points && p1.status == p0.status
  {
  }

  /** The admission step of joinRoom, on the room and the player found. */
  method Admit(room: Room, player: Player) returns (success: bool)
    modifies room, player
    ensures Admitted(old(room.fields), room.fields, room.id, player.id, old(View(player)), View(player), success)
  {
    var member := Member(room.fields.playerIds, player.id);
    if room.fields.gameState != Waiting && !member {
      return false;
    } else if room.fields.gameState != Waiting && member {
      player.SetRoomId(room.id);
      return true;
    }
    player.SetRoomId(room.id);
    player.SetReady(false);
    if !member {
      var out := room.AddPlayer(player);
    }
    return true;
  }

  // ---------------------------------------------------------------------
  // Delivering messages

  /** game.send: the message once to each of the player's clients, in list
      order. */
  function ToEach<C, M>(cs: seq<C>, m: M): (r: seq<(C, M)>)
    ensures |r| == |cs|
    ensures forall i :: 0 <= i < |r| ==> r[i] == (cs[i], m)
  {
    if cs == [] then [] else ToEach(cs[..|cs| - 1], m) + [(cs[|cs| - 1], m)]
  }

  /** What sendAll delivers for the player k. */
  function SendTo<C, M>(rooms: map<string, Option<string>>, clients: map<string, seq<C>>, roomId: string,
                        msgOf: string -> Option<M>, k: string): seq<(C, M)>
  {
    if k in rooms && rooms[k] == Some(roomId) && msgOf(k).Some? && k in clients then ToEach(clients[k], msgOf(k).value)
    else []
  }

  /** What sendAll delivers, the players taken in key order. */
  function Deliveries<C, M>(keys: seq<string>, rooms: map<string, Option<string>>, clients: map<string, seq<C>>,
                            roomId: string, msgOf: string -> Option<M>): seq<(C, M)>
  {
    if keys == [] then []
    else Deliveries(keys[..|keys| - 1], rooms, clients, roomId, msgOf) + SendTo(rooms, clients, roomId, msgOf, keys[|keys| - 1])
  }

  /** Client c of player k gets message m from sendAll. */
  ghost predicate Reaches<C, M>(rooms: map<string, Option<string>>, clients: map<string, seq<C>>, roomId: string,
                                  msgOf: string -> Option<M>, k: string, c: C, m: M)
  {
    k in rooms && rooms[k] == Some(roomId) && msgOf(k) == Some(m) && k in clients && c in clients[k]
  }

  /** A delivery is made exactly to a client of a listed player who is in the
      room and for whom the message function gives a message. */
  lemma {:induction false} DeliveriesExact<C, M>(keys: seq<string>, rooms: map<string, Option<string>>,
                                                       clients: map<string, seq<C>>, roomId: string,
                                                       msgOf: string -> Option<M>, c: C, m: M)
    ensures (c, m) in Deliveries(keys, rooms, clients, roomId, msgOf) <==>
      exists k :: k in keys && Reaches(rooms, clients, roomId, msgOf, k, c, m)
  {
    if keys != [] {
      var init, last := keys[..|keys| - 1], keys[|keys| - 1];
      DeliveriesExact(init, rooms, clients, roomId, msgOf, c, m);
      assert keys == init + [last];
      var here := SendTo(rooms, clients, roomId, msgOf, last);
      assert (c, m) in here <==> Reaches(rooms, clients, roomId, msgOf, last, c, m) by {
        if (c, m) in here {
          var i :| 0 <= i < |here| && here[i] == (c, m);
          assert clients[last][i] == c;
        }
        if Reaches(rooms, clients, roomId, msgOf, last, c, m) {
          var i :| 0 <= i < |clients[last]| && clients[last][i] == c;
          assert here[i] == (c, m);
        }
      }
      if exists k :: k in keys && Reaches(rooms, clients, roomId, msgOf, k, c, m) {
        var k :| k in keys && Reaches(rooms, clients, roomId, msgOf, k, c, m);
        if k != last {
          assert k in init;
        }
      }
    }
  }

  // ---------------------------------------------------------------------
  // The registry

  class Game {
    var roomsByRoomId: JsMap<string, Room>
    var clients: JsMap<string, seq<Client>>
    var players: JsMap<string, Player>

    /** The maps list exactly their keys, and each room and player is
        stored under its own id. */
    ghost predicate Valid()
      reads this
    {
      && MapValid(roomsByRoomId) && MapValid(clients) && MapValid(players)
      && (forall k :: k in roomsByRoomId.vals ==> roomsByRoomId.vals[k].id == k)
      && (forall k :: k in players.vals ==> players.vals[k].id == k)
    }

    /** The name of each room, by room id. */
    function RoomNames(): map<string, string>
      reads this, roomsByRoomId.vals.Values
    {
      map k | k in roomsByRoomId.vals :: roomsByRoomId.vals[k].fields.name
    }

    /** The roomId of each player, by player id. */
    function PlayerRooms(): map<string, Option<string>>
      reads this, players.vals.Values
    {
      map k | k in players.vals :: players.vals[k].roomId
    }

    /** The room joinRoom would find by that name, if any. */
    function NamedRoom(name: string): set<Room>
      reads this, roomsByRoomId.vals.Values
    {
      var key := FirstNamed(roomsByRoomId.keys, RoomNames(), name);
      if key.Some? && key.value in roomsByRoomId.vals then {roomsByRoomId.vals[key.value]} else {}
    }

    /** The player stored under the id, if any. */
    function PlayerNamed(pid: string): set<Player>
      reads this
    {
      if pid in players.vals then {players.vals[pid]} else {}
    }

    /** new Game(): no rooms, no clients, no players. */
    constructor ()
      ensures Valid()
      ensures roomsByRoomId == EmptyMap() && clients == EmptyMap() && players == EmptyMap()
    {
      roomsByRoomId := EmptyMap();
      clients := EmptyMap();
      players := EmptyMap();
    }

    /** createRoom: a new room with that name stored under its id; with an
        id not in use that is exactly one more room. */
    method CreateRoom(name: string, newId: string, rnd: seq<nat>)
      requires Valid()
      modifies this
      ensures Valid()
      ensures clients == old(clients) && players == old(players)
      ensures newId in roomsByRoomId.vals && fresh(roomsByRoomId.vals[newId])
      ensures roomsByRoomId == MapSet(old(roomsByRoomId), newId, roomsByRoomId.vals[newId])
      ensures IsNewRoom(roomsByRoomId.vals[newId].fields, name)
      ensures newId !in old(roomsByRoomId.vals) ==> |roomsByRoomId.keys| == |old(roomsByRoomId.keys)| + 1
    {
      var room := NewRoom(name, newId, rnd);
      roomsByRoomId := MapSet(roomsByRoomId, newId, room);
    }

    /** addPlayerClient: an empty id is ignored; otherwise the client joins
        the id's list, and a Player is created for the id when there is none
        (so a reconnect keeps one entry in both maps). */
    method AddPlayerClient(client: Client)
      requires Valid()
      modifies this
      ensures Valid()
      ensures roomsByRoomId == old(roomsByRoomId)
      ensures client.playerId == "" ==> clients == old(clients) && players == old(players)
      ensures client.playerId != "" ==> clients == Attach(old(clients), client.playerId, client)
      ensures client.playerId != "" && client.playerId in old(players.vals) ==> players == old(players)
      ensures client.playerId != "" && client.playerId !in old(players.vals) ==>
        && client.playerId in players.vals
        && var p := players.vals[client.playerId];
        && fresh(p) && players == MapSet(old(players), client.playerId, p)
        && p.points == 0 && p.status == Unknown && p.cards == [] && p.roomId == None
    {
      if client.playerId == "" {
        return;
      }
      clients := Attach(clients, client.playerId, client);
      if client.playerId !in players.vals {
        var p := new Player(client.playerId);
        players := MapSet(players, client.playerId, p);
      }
    }

    /** removePlayerClient: the client at indexOf in its id's list is spliced
        out. */
    method RemovePlayerClient(client: Client)
      requires Valid()
      modifies this
      ensures Valid()
      ensures roomsByRoomId == old(roomsByRoomId) && players == old(players)
      ensures clients == Detach(old(clients), client.playerId, client)
    {
      clients := Detach(clients, client.playerId, client);
    }

    /** The lookup half of joinRoom: the first room with that exact name,
        or a new one stored under newId. */
    method FindOrCreateRoom(roomName: string, newId: string, rnd: seq<nat>) returns (room: Room)
      requires Valid()
      modifies this
      ensures Valid()
      ensures clients == old(clients) && players == old(players)
      ensures var key := FirstNamed(old(roomsByRoomId.keys), old(RoomNames()), roomName);
        key.Some? ==>
          && key.value in old(roomsByRoomId.vals) && room == old(roomsByRoomId.vals[key.value])
          && roomsByRoomId == old(roomsByRoomId)
      ensures var key := FirstNamed(old(roomsByRoomId.keys), old(RoomNames()), roomName);
        key.None? ==>
          && fresh(room) && room.id == newId && roomsByRoomId == MapSet(old(roomsByRoomId), newId, room)
          && IsNewRoom(room.fields, roomName)
    {
      var key := FirstNamed(roomsByRoomId.keys, RoomNames(), roomName);
      if key.Some? {
        room := roomsByRoomId.vals[key.value];
      } else {
        room := NewRoom(roomName, newId, rnd);
        roomsByRoomId := MapSet(roomsByRoomId, newId, room);
      }
    }

    /** joinRoom: the room FindOrCreateRoom gives; then, with no Player for
        the client's id, reading its id throws; otherwise Admit decides, and
        success is what on_join_room reports. room and before are the room
        used and its state before the admission. */
    method JoinRoom(roomName: string, client: Client, newId: string, rnd: seq<nat>)
      returns (out: Outcome, success: Option<bool>, ghost room: Room, ghost before: ValidFields)
      requires Valid()
      modifies this, NamedRoom(roomName), PlayerNamed(client.playerId)
      ensures Valid()
      ensures clients == old(clients) && players == old(players)
      ensures var key := FirstNamed(old(roomsByRoomId.keys), old(RoomNames()), roomName);
        key.Some? ==>
          && key.value in old(roomsByRoomId.vals) && room == old(roomsByRoomId.vals[key.value])
          && roomsByRoomId == old(roomsByRoomId) && before == old(room.fields)
      ensures var key := FirstNamed(old(roomsByRoomId.keys), old(RoomNames()), roomName);
        key.None? ==>
          && fresh(room) && room.id == newId && roomsByRoomId == MapSet(old(roomsByRoomId), newId, room)
          && IsNewRoom(before, roomName)
      ensures client.playerId !in players.vals ==> out == Threw(TypeError) && success == None && room.fields == before
      ensures client.playerId in players.vals ==>
        var p := players.vals[client.playerId];
        && out == Done && success.Some?
        && Admitted(before, room.fields, room.id, client.playerId, old(View(p)), View(p), success.value)
    {
      var r := FindOrCreateRoom(roomName, newId, rnd);
      room, before := r, r.fields;
      if client.playerId !in players.vals {
        return Threw(TypeError), None, room, before;
      }
      var player := players.vals[client.playerId];
      var s := Admit(r, player);
      return Done, Some(s), room, before;
    }

    /** send: the message to every client of the player, in list order. */
    method Send<M>(playerId: string, msg: M) returns (sent: seq<(Client, M)>)
      requires Valid()
      ensures sent == if playerId in clients.vals then ToEach(clients.vals[playerId], msg) else []
    {
      sent := [];
      if playerId in clients.vals {
        var cs := clients.vals[playerId];
        var j := 0;
        while j < |cs|
          invariant 0 <= j <= |cs|
          invariant sent == ToEach(cs[..j], msg)
        {
          assert cs[..j + 1][..j] == cs[..j];
          sent := sent + [(cs[j], msg)];
          j := j + 1;
        }
        assert cs[..j] == cs;
      }
    }

    /** sendAll: every player in key order whose roomId is roomId and for
        whom msgOf gives a message is sent it. The message function is taken
        on the player's id. */
    method SendAll<M>(roomId: string, msgOf: string -> Option<M>) returns (sent: seq<(Client, M)>)
      requires Valid()
      ensures sent == Deliveries(players.keys, PlayerRooms(), clients.vals, roomId, msgOf)
    {
      sent := [];
      var keys := players.keys;
      var i := 0;
      while i < |keys|
        invariant 0 <= i <= |keys|
        invariant sent == Deliveries(keys[..i], PlayerRooms(), clients.vals, roomId, msgOf)
      {
        var playerId := keys[i];
        assert keys[..i + 1][..i] == keys[..i];
        var player := players.vals[playerId];
        if player.roomId == Some(roomId) {
          var message := msgOf(playerId);
          if message.Some? {
            var more := Send(playerId, message.value);
            sent := sent + more;
          }
        }
        i := i + 1;
      }
      assert keys[..i] == keys;
    }
  }
}
