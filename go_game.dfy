/** The room registry of the Go server (server/game/game.go): rooms by id,
    a lower-casing lookup, create-if-absent, and the sweep that evicts old
    rooms. The registry lock is not modelled: every operation is sequential. */
module GoGame {
  import opened Wrappers
  import opened GoIds
  import opened GoRoom
  import Deck

  /** strings.ToLower on the ASCII letters. */
  function LowerChar(c: char): (r: char)
    ensures 'A' <= c <= 'Z' ==> 'a' <= r <= 'z' && r as int == c as int + 32
    ensures !('A' <= c <= 'Z') ==> r == c
  {
    if 'A' <= c <= 'Z' then (c as int + 32) as char else c
  }

  function ToLower(s: string): (r: string)
    ensures |r| == |s|
    ensures forall i :: 0 <= i < |s| ==> r[i] == LowerChar(s[i])
  {
    if s == [] then [] else [LowerChar(s[0])] + ToLower(s[1..])
  }

  /** A name is its own lower-case form exactly when it has no upper-case
      letter. */
  lemma {:induction false} ToLowerFixed(s: string)
    ensures ToLower(s) == s <==> forall i :: 0 <= i < |s| ==> !('A' <= s[i] <= 'Z')
  {
    if ToLower(s) != s {
      var i :| 0 <= i < |s| && ToLower(s)[i] != s[i];
      assert 'A' <= s[i] <= 'Z';
    }
  }

  lemma {:induction false} ToLowerIdempotent(s: string)
    ensures ToLower(ToLower(s)) == ToLower(s)
  {
    ToLowerFixed(ToLower(s));
  }

  /** One minute in nanoseconds, the unit of time.Duration. */
  const NanosPerMinute: int := 60_000_000_000

  /** int(d.Minutes()) for a duration of ns nanoseconds: the conversion to
      int truncates toward zero. */
  function WholeMinutes(ns: int): (m: int)
    ensures ns >= 0 ==> 0 <= m && m * NanosPerMinute <= ns < (m + 1) * NanosPerMinute
    ensures ns < 0 ==> m <= 0 && (m - 1) * NanosPerMinute < ns <= m * NanosPerMinute
  {
    if ns >= 0 then ns / NanosPerMinute else -((-ns) / NanosPerMinute)
  }

  /** The sweep's test: the room has lived maxMinutes whole minutes or more. */
  predicate Expired(createdAt: int, now: int, maxMinutes: int)
  {
    WholeMinutes(now - createdAt) >= maxMinutes
  }

  /** The rooms of m the sweep keeps. */
  function Surviving(m: map<string, Room>, now: int, maxMinutes: int): (r: map<string, Room>)
    ensures r.Keys <= m.Keys
    ensures forall k :: k in r ==> r[k] == m[k]
    ensures forall k :: k in m ==> (k in r <==> !Expired(m[k].createdAt, now, maxMinutes))
  {
    map k | k in m && !Expired(m[k].createdAt, now, maxMinutes) :: m[k]
  }

  /** The rooms of m the sweep still holds once it has yet to visit the keys
      in rest. */
  ghost function Unswept(m: map<string, Room>, rest: set<string>, now: int, maxMinutes: int): map<string, Room>
  {
    map k | k in m && (k in rest || !Expired(m[k].createdAt, now, maxMinutes)) :: m[k]
  }

  class Game {
    var roomsById: map<string, Room>

    /** Every room is stored under its own id, as CreateRoom stores it. */
    predicate Valid()
      reads this
    {
      forall k :: k in roomsById ==> roomsById[k].id == k
    }

    /** NewGame: no rooms. */
    constructor ()
      ensures Valid() && roomsById == map[]
    {
      roomsById := map[];
    }

    /** FindByRoomName: the room stored under the lower-cased name. */
    function FindByRoomName(roomName: string): (r: Option<Room>)
      reads this
      ensures r.Some? <==> ToLower(roomName) in roomsById
      ensures r.Some? ==> r.value == roomsById[ToLower(roomName)]
    {
      var key := ToLower(roomName);
      if key in roomsById then Some(roomsById[key]) else None
    }

    /** The deck a new room is given: the ids 0 .. cardCount-1. */
    static method NewDeck(cardCount: int) returns (cardIds: seq<int>)
      ensures |cardIds| == (if cardCount > 0 then cardCount else 0)
      ensures forall i :: 0 <= i < |cardIds| ==> cardIds[i] == i
    {
      cardIds := [];
      var idx := 0;
      while idx < cardCount
        invariant idx == |cardIds| && (cardCount > 0 ==> idx <= cardCount)
        invariant cardCount <= 0 ==> idx == 0
        invariant forall i :: 0 <= i < idx ==> cardIds[i] == i
      {
        cardIds := cardIds + [idx];
        idx := idx + 1;
      }
    }

    /** CreateRoom: the room found under the lower-cased name, else a new room
        owned by owner with a shuffle of the deck, stored under the name as
        given. */
    method CreateRoom(owner: PlayerId, roomName: string, cardCount: int, now: int, rnd: seq<nat>) returns (r: Room)
      requires Valid()
      modifies this
      ensures Valid()
      ensures old(FindByRoomName(roomName)).Some? ==> r == old(FindByRoomName(roomName)).value && roomsById == old(roomsById)
      ensures old(FindByRoomName(roomName)).None? ==>
        && fresh(r) && r.Valid() && roomsById == old(roomsById)[roomName := r]
        && r.id == roomName && r.ownerId == owner && r.createdAt == now
        && r.state == GoStates.WaitingForPlayers && r.playerMap == map[]
        && r.turns == [] && r.currentTurn == null && r.discardCardIds == []
        && multiset(r.cardIds) == multiset(Deck.Range(if cardCount > 0 then cardCount else 0))
    {
      var found := FindByRoomName(roomName);
      if found.Some? {
        return found.value;
      }
      var cardIds := NewDeck(cardCount);
      assert cardIds == Deck.Range(if cardCount > 0 then cardCount else 0);
      r := new Room(cardIds, owner, roomName, now, rnd);
      roomsById := roomsById[r.id := r];
    }

    /** The sweep of StartCleanup, at time now, in map iteration order (the
        returned order): every room whose age in whole minutes is maxMinutes
        or more is deleted, the others stay. */
    method Sweep(now: int, maxMinutes: int) returns (order: seq<string>)
      requires Valid()
      modifies this
      ensures Valid()
      ensures roomsById == Surviving(old(roomsById), now, maxMinutes)
      ensures forall k :: k in old(roomsById) <==> k in order
    {
      ghost var m0 := roomsById;
      var rest := roomsById.Keys;
      order := [];
      while rest != {}
        invariant Valid()
        invariant rest <= m0.Keys
        invariant forall k :: k in m0 ==> (k in order <==> k !in rest)
        invariant forall k :: k in order ==> k in m0
        invariant roomsById == Unswept(m0, rest, now, maxMinutes)
        decreases |rest|
      {
        var k :| k in rest;
        var val := roomsById[k];
        if WholeMinutes(now - val.createdAt) >= maxMinutes {
          roomsById := roomsById - {val.id};
        }
        rest := rest - {k};
        order := order + [k];
      }
      assert Unswept(m0, {}, now, maxMinutes) == Surviving(m0, now, maxMinutes);
    }
  }

  /** A freshly created room is found again by its name exactly when the name
      has no upper-case letter. */
  lemma {:induction false} CreatedRoomFoundAgain(g: Game, before: map<string, Room>, roomName: string, r: Room)
    requires ToLower(roomName) !in before
    requires g.roomsById == before[roomName := r]
    ensures g.FindByRoomName(roomName).Some? <==> forall i :: 0 <= i < |roomName| ==> !('A' <= roomName[i] <= 'Z')
    ensures g.FindByRoomName(roomName).Some? ==> g.FindByRoomName(roomName).value == r
  {
    ToLowerFixed(roomName);
  }
}
