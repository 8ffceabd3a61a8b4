/** The player of the TypeScript server (server/src/player.ts). Fields the
    source declares without an initial value start out undefined (None). */
module TsPlayer {
  import opened Wrappers
  import opened JsCollections

  /** PlayerStatus of the shared types: the values the server assigns. */
  datatype PlayerStatus =
    | Unknown | StoryTelling | StorySubmitted | PickingCard | SubmittedCard | VotingStatus | VoteSubmitted | FinishedStatus

  class Player {
    const id: string
    var name: Option<string>
    var cards: seq<int>
    var roomId: Option<string>
    var points: int
    var ready: Option<bool>
    var status: PlayerStatus

    /** new Player(id): 0 points, status "unknown", no cards; name, room and
        ready flag undefined. lastSeen is a clock reading and not modelled. */
    constructor (id: string)
      ensures this.id == id && points == 0 && status == Unknown && cards == []
      ensures name == None && roomId == None && ready == None
    {
      this.id := id;
      name := None;
      cards := [];
      roomId := None;
      points := 0;
      ready := None;
      status := Unknown;
    }

    /** The name setter. */
    method SetName(v: string)
      modifies this
      ensures name == Some(v)
      ensures cards == old(cards) && roomId == old(roomId) && points == old(points)
      ensures ready == old(ready) && status == old(status)
    {
      name := Some(v);
    }

    /** The roomId setter. */
    method SetRoomId(v: string)
      modifies this
      ensures roomId == Some(v)
      ensures name == old(name) && cards == old(cards) && points == old(points)
      ensures ready == old(ready) && status == old(status)
    {
      roomId := Some(v);
    }

    /** The points setter. */
    method SetPoints(v: int)
      modifies this
      ensures points == v
      ensures name == old(name) && cards == old(cards) && roomId == old(roomId)
      ensures ready == old(ready) && status == old(status)
    {
      points := v;
    }

    /** The ready setter. */
    method SetReady(v: bool)
      modifies this
      ensures ready == Some(v)
      ensures name == old(name) && cards == old(cards) && roomId == old(roomId)
      ensures points == old(points) && status == old(status)
    {
      ready := Some(v);
    }

    /** The status setter. */
    method SetStatus(v: PlayerStatus)
      modifies this
      ensures status == v
      ensures name == old(name) && cards == old(cards) && roomId == old(roomId)
      ensures points == old(points) && ready == old(ready)
    {
      status := v;
    }

    /** dealCards: the cards are pushed in the order given. */
    method DealCards(newCards: seq<int>)
      modifies this
      ensures cards == old(cards) + newCards
      ensures name == old(name) && roomId == old(roomId) && points == old(points)
      ensures ready == old(ready) && status == old(status)
    {
      cards := cards + newCards;
    }

    /** removeCard: findIndex, then splice out that one card when found. */
    method RemoveCard(cardId: int)
      modifies this
      ensures cards == RemoveFirst(old(cards), cardId)
      ensures name == old(name) && roomId == old(roomId) && points == old(points)
      ensures ready == old(ready) && status == old(status)
    {
      var index := FindIndex(cards, c => c == cardId);
      if index != -1 {
        assert index == IndexOf(cards, cardId);
        cards := Splice(cards, index, 1).1;
      }
    }
  }
}
