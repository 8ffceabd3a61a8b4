/** player.Player of the Go server (server/game/player/player.go). */
module GoPlayer {
  import opened GoIds

  /** PlayerReadyState, an int32 enumeration: Waiting = 0, Ready = 1. */
  datatype ReadyState = Waiting | Ready

  class Player {
    const id: PlayerId
    var name: string
    var readyState: ReadyState
    /** The JSON-visible copy of the ready flag, set together with readyState. */
    var ready: bool
    var points: int
    var cards: seq<int>

    /** NewPlayer: the given id and name, not ready, no points, no cards. */
    constructor (name: string, playerId: PlayerId)
      ensures id == playerId && this.name == name
      ensures readyState == Waiting && !ready && points == 0 && cards == []
    {
      id := playerId;
      this.name := name;
      readyState := Waiting;
      ready := false;
      points := 0;
      cards := [];
    }

    method SetName(newName: string)
      modifies this
      ensures name == newName
      ensures readyState == old(readyState) && ready == old(ready) && points == old(points) && cards == old(cards)
    {
      name := newName;
    }

    /** Sets both ready flags; a second call changes nothing. */
    method SetReady()
      modifies this
      ensures readyState == Ready && ready
      ensures old(readyState) == Ready && old(ready) ==> readyState == old(readyState) && ready == old(ready)
      ensures name == old(name) && points == old(points) && cards == old(cards)
    {
      readyState := Ready;
      ready := true;
    }

    /** IsReady reads readyState only, not the ready flag. */
    predicate IsReady()
      reads this
    {
      readyState == Ready
    }

    /** HasCard: a linear search of the hand. */
    method HasCard(cardId: int) returns (found: bool)
      ensures found <==> cardId in cards
    {
      var i := 0;
      while i < |cards|
        invariant 0 <= i <= |cards|
        invariant cardId !in cards[..i]
      {
        if cards[i] == cardId {
          return true;
        }
        assert cards[..i + 1] == cards[..i] + [cards[i]];
        i := i + 1;
      }
      assert cards[..i] == cards;
      return false;
    }
  }
}
