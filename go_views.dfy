/** What the Go room shows each recipient (server/game/room/room.go:90-134),
    as functions of the turn's values. */
module GoViews {
  import opened Wrappers
  import opened GoIds
  import opened GoStates
  import opened GoRecords

  /** The card ids of the submissions not made by recipient, in submission
      order (room.go:93-98). */
  function CardsNotBy(subs: seq<CardSubmitted>, recipient: PlayerId): (r: seq<int>)
    ensures |r| <= |subs|
    ensures forall c :: c in r <==> exists i :: 0 <= i < |subs| && subs[i].cardId == c && subs[i].playerId != recipient
    ensures (forall i :: 0 <= i < |subs| ==> subs[i].playerId != recipient) ==> |r| == |subs|
  {
    if subs == [] then []
    else
      var rest := CardsNotBy(subs[1..], recipient);
      assert forall i :: 0 < i < |subs| ==> subs[i] == subs[1..][i - 1];
      if subs[0].playerId != recipient then [subs[0].cardId] + rest else rest
  }

  /** CardsNotBy grows at the end as the submissions do, which is how the
      loop of GetCardsForVoting builds it. */
  lemma {:induction false} CardsNotBySnoc(subs: seq<CardSubmitted>, c: CardSubmitted, recipient: PlayerId)
    ensures CardsNotBy(subs + [c], recipient) ==
      CardsNotBy(subs, recipient) + (if c.playerId != recipient then [c.cardId] else [])
  {
    if subs != [] {
      assert (subs + [c])[1..] == subs[1..] + [c];
      CardsNotBySnoc(subs[1..], c, recipient);
    }
  }

  /** The cards a recipient gets to vote on, before shuffling: nothing
      outside the Voting phase; otherwise everyone else's submissions and
      the story card when one was set (room.go:92-101). */
  function VotingCards(turnState: TurnState, subs: seq<CardSubmitted>, storyCard: int, recipient: PlayerId): (r: seq<int>)
    ensures turnState != Voting ==> r == []
    ensures turnState == Voting ==> forall c :: c in r <==>
      (c == storyCard && storyCard != -1) || exists i :: 0 <= i < |subs| && subs[i].cardId == c && subs[i].playerId != recipient
  {
    if turnState != Voting then []
    else CardsNotBy(subs, recipient) + (if storyCard != -1 then [storyCard] else [])
  }

  /** A recipient never sees a card only they submitted: every card shown
      is the story card or was submitted by someone else. */
  lemma OwnSubmissionHidden(turnState: TurnState, subs: seq<CardSubmitted>, storyCard: int, recipient: PlayerId, c: int)
    requires c != storyCard
    requires forall i :: 0 <= i < |subs| && subs[i].cardId == c ==> subs[i].playerId == recipient
    ensures c !in VotingCards(turnState, subs, storyCard, recipient)
  {
  }

  /** The storyCard field of the room-state message (room.go:130-134): the
      real card id for the storyteller, 0 for everyone else. */
  function StoryCardShown(storyPlayer: PlayerId, storyCard: int, recipient: PlayerId): (shown: int)
    ensures recipient == storyPlayer ==> shown == storyCard
    ensures recipient != storyPlayer ==> shown == 0
  {
    if storyPlayer == recipient then storyCard else 0
  }
}
