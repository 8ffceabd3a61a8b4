/** The plain records the Go turn keeps: vote.Vote (server/game/vote/vote.go)
    and cards.CardSubmitted (server/game/cards/card.go), and the outcome of a
    Go call that may return an error or crash. */
module GoRecords {
  import opened Wrappers
  import opened GoIds

  /** vote.Vote. Voter and Voted are *player.Player in the source; the room
      only ever reads their ids, so a player is represented by its id.
      voted == None is a nil Voted pointer. */
  datatype Vote = Vote(voter: PlayerId, voted: Option<PlayerId>, cardId: int)

  /** cards.CardSubmitted */
  datatype CardSubmitted = CardSubmitted(playerId: PlayerId, cardId: int)

  /** How a Go call ends: normally, with a returned error, or with a runtime
      panic (nil dereference, index out of range). */
  datatype Status = Success | Failure(msg: string) | Crash

  /** A submission a voter may pick for cardId: same card, someone else's. */
  predicate Eligible(c: CardSubmitted, cardId: int, voter: PlayerId)
  {
    c.cardId == cardId && c.playerId != voter
  }

  /** subs[i] is the first submission eligible for the vote. */
  predicate FirstEligible(subs: seq<CardSubmitted>, i: int, cardId: int, voter: PlayerId)
  {
    0 <= i < |subs| && Eligible(subs[i], cardId, voter) &&
    forall j :: 0 <= j < i ==> !Eligible(subs[j], cardId, voter)
  }

  /** The author AddVote resolves a non-story card to: the author of the
      first eligible submission, or none. */
  function OtherAuthor(subs: seq<CardSubmitted>, cardId: int, voter: PlayerId): (r: Option<PlayerId>)
    ensures r.None? <==> forall i :: 0 <= i < |subs| ==> !Eligible(subs[i], cardId, voter)
    ensures r.Some? ==> r.value != voter
    ensures r.Some? ==> exists i :: FirstEligible(subs, i, cardId, voter) && subs[i].playerId == r.value
  {
    if subs == [] then None
    else if Eligible(subs[0], cardId, voter) then Some(subs[0].playerId)
    else
      var r := OtherAuthor(subs[1..], cardId, voter);
      assert forall i :: 0 < i < |subs| ==> subs[i] == subs[1..][i - 1];
      r
  }
}
