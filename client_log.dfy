/** The game log the web client builds from an on_turn_result message: one
    entry per turn, mapping each card id to who submitted it and who voted
    for it. The payload is the JSON the Go room sends at the end of a turn
    (votes, cardsSubmitted, storyPlayerId, storyCard, story). Both client
    state containers (app/src/stores/RoomStore.tsx and
    app/src/contexts/RoomContext.tsx) fill the entry's Map with the same two
    loops, modelled here once. */
module ClientLog {
  import opened Wrappers
  import opened JsCollections

  /** One element of payload.cardsSubmitted. */
  datatype SubmittedCard = SubmittedCard(cardId: int, playerId: string)

  /** One element of payload.votes; voter is vote.voter.id. */
  datatype Vote = Vote(voter: string, cardId: int)

  datatype TurnResultPayload = TurnResultPayload(
    story: string, storyPlayerId: string, storyCard: int,
    cardsSubmitted: seq<SubmittedCard>, votes: seq<Vote>)

  /** A card of a log entry. */
  datatype LogCard = LogCard(playerSubmitted: string, cardId: int, playersVoted: seq<string>)

  /** A log entry. The two flags are undefined (None) where a version of
      addGameLogEntry does not set them. */
  datatype GameLogEntry = GameLogEntry(
    story: string, storyPlayerId: string, storyCard: int,
    cardsSubmitted: JsMap<int, LogCard>,
    allVotesForStory: Option<bool>, noVotesForStory: Option<bool>)

  // ---------------------------------------------------------------------
  // Pieces of the client's room state

  /** A card as the client holds it: { cardId }. */
  datatype Card = Card(cardId: int)

  datatype JoinedState = NotJoined | Joining | Joined

  /** A player as the server lists it (PlayerState of the shared types). */
  datatype PlayerInfo = PlayerInfo(name: string, ready: bool, points: int, status: string)

  /** ids.map((cardId) => ({ cardId })): one card per id, in order. */
  function ToCards(ids: seq<int>): (r: seq<Card>)
    ensures |r| == |ids|
    ensures forall i :: 0 <= i < |ids| ==> r[i] == Card(ids[i])
  {
    if ids == [] then [] else [Card(ids[0])] + ToCards(ids[1..])
  }

  // ---------------------------------------------------------------------
  // Reference definitions

  /** The index of the last submission of card k, or -1. */
  function LastIndex(cards: seq<SubmittedCard>, k: int): (r: int)
    ensures -1 <= r < |cards|
    ensures r == -1 <==> forall i :: 0 <= i < |cards| ==> cards[i].cardId != k
    ensures r != -1 ==> cards[r].cardId == k && forall j :: r < j < |cards| ==> cards[j].cardId != k
  {
    if cards == [] then -1
    else if cards[|cards| - 1].cardId == k then |cards| - 1
    else
      var r := LastIndex(cards[..|cards| - 1], k);
      assert forall i :: 0 <= i < |cards| - 1 ==> cards[..|cards| - 1][i] == cards[i];
      r
  }

  /** The player of the last submission of card k, if any. */
  function LastSubmitter(cards: seq<SubmittedCard>, k: int): (r: Option<string>)
    ensures r.None? <==> forall i :: 0 <= i < |cards| ==> cards[i].cardId != k
    ensures r.Some? ==> r.value == cards[LastIndex(cards, k)].playerId
  {
    var i := LastIndex(cards, k);
    if i == -1 then None else Some(cards[i].playerId)
  }

  /** How many votes are for the card: the length of the filter. */
  function CountFor(votes: seq<Vote>, card: int): (n: nat)
    ensures n <= |votes|
  {
    if votes == [] then 0
    else CountFor(votes[..|votes| - 1], card) + (if votes[|votes| - 1].cardId == card then 1 else 0)
  }

  /** The voters for card k, in vote order. */
  function VotersOf(votes: seq<Vote>, k: int): (r: seq<string>)
    ensures |r| == CountFor(votes, k)
  {
    if votes == [] then []
    else VotersOf(votes[..|votes| - 1], k) + (if votes[|votes| - 1].cardId == k then [votes[|votes| - 1].voter] else [])
  }

  /** Every vote is for the card exactly when the count equals the number of
      votes, and none is when the count is 0; with no votes both hold. */
  lemma {:induction false} CountForExtremes(votes: seq<Vote>, card: int)
    ensures CountFor(votes, card) == |votes| <==> forall i :: 0 <= i < |votes| ==> votes[i].cardId == card
    ensures CountFor(votes, card) == 0 <==> forall i :: 0 <= i < |votes| ==> votes[i].cardId != card
  {
    if votes != [] {
      var init := votes[..|votes| - 1];
      CountForExtremes(init, card);
      assert forall i :: 0 <= i < |init| ==> init[i] == votes[i];
    }
  }

  // ---------------------------------------------------------------------
  // The two loops, as folds

  /** The card Map after the loop over payload.cardsSubmitted: each card is
      set under its id with no voters, a later one replacing an earlier. */
  function Submitted(cards: seq<SubmittedCard>): (r: JsMap<int, LogCard>)
    ensures MapValid(r)
  {
    if cards == [] then EmptyMap()
    else
      var c := cards[|cards| - 1];
      MapSet(Submitted(cards[..|cards| - 1]), c.cardId, LogCard(c.playerId, c.cardId, []))
  }

  /** The card Map after the loop over the votes: a vote for a card in the
      Map appends its voter; other votes are dropped. */
  function Tallied(m: JsMap<int, LogCard>, votes: seq<Vote>): (r: JsMap<int, LogCard>)
    requires MapValid(m)
    ensures MapValid(r) && r.keys == m.keys
    ensures forall k :: k in r.vals <==> k in m.vals
  {
    if votes == [] then m
    else
      var t := Tallied(m, votes[..|votes| - 1]);
      var v := votes[|votes| - 1];
      if v.cardId in t.vals then MapSet(t, v.cardId, t.vals[v.cardId].(playersVoted := t.vals[v.cardId].playersVoted + [v.voter]))
      else t
  }

  /** Submitted holds one entry per submitted card id, by its last
      submitter, with no voters. */
  lemma {:induction false} SubmittedSpec(cards: seq<SubmittedCard>, k: int)
    ensures k in Submitted(cards).vals <==> LastSubmitter(cards, k).Some?
    ensures k in Submitted(cards).vals ==> Submitted(cards).vals[k] == LogCard(LastSubmitter(cards, k).value, k, [])
  {
    if cards != [] {
      SubmittedSpec(cards[..|cards| - 1], k);
    }
  }

  /** Tallied appends to each card's voters exactly the voters for it, in
      vote order. */
  lemma {:induction false} TalliedSpec(m: JsMap<int, LogCard>, votes: seq<Vote>, k: int)
    requires MapValid(m) && k in m.vals
    ensures Tallied(m, votes).vals[k] == m.vals[k].(playersVoted := m.vals[k].playersVoted + VotersOf(votes, k))
  {
    if votes != [] {
      TalliedSpec(m, votes[..|votes| - 1], k);
    }
  }

  // ---------------------------------------------------------------------
  // The loops

  /** for (const card of payload.cardsSubmitted) cardsSubmitted.set(...) */
  method FillSubmitted(cards: seq<SubmittedCard>) returns (m: JsMap<int, LogCard>)
    ensures m == Submitted(cards)
  {
    m := EmptyMap();
    var i := 0;
    while i < |cards|
      invariant 0 <= i <= |cards|
      invariant m == Submitted(cards[..i])
    {
      assert cards[..i + 1][..i] == cards[..i];
      m := MapSet(m, cards[i].cardId, LogCard(cards[i].playerId, cards[i].cardId, []));
      i := i + 1;
    }
    assert cards[..i] == cards;
  }

  /** for (const vote of payload.votes) if (has(vote.cardId)) append. */
  method TallyVotes(m0: JsMap<int, LogCard>, votes: seq<Vote>) returns (m: JsMap<int, LogCard>)
    requires MapValid(m0)
    ensures m == Tallied(m0, votes)
  {
    m := m0;
    var i := 0;
    while i < |votes|
      invariant 0 <= i <= |votes|
      invariant m == Tallied(m0, votes[..i])
    {
      assert votes[..i + 1][..i] == votes[..i];
      var vote := votes[i];
      if vote.cardId in m.vals {
        var card := m.vals[vote.cardId];
        m := MapSet(m, vote.cardId, card.(playersVoted := card.playersVoted + [vote.voter]));
      }
      i := i + 1;
    }
    assert votes[..i] == votes;
  }
}
