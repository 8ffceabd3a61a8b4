/** The room store of the web client (app/src/stores/RoomStore.tsx): its
    addGameLogEntry, which also records whether all or none of the votes
    went to the story card, and the on_turn_result branch of
    handleRoomCommand, which puts the newest entry first. */
module ClientStore {
  import opened Wrappers
  import opened JsCollections
  import opened ClientLog

  /** The entry this version builds: the turn's story fields copied, the
      submitted cards with their voters, and the two story-vote flags. */
  function StoreEntry(p: TurnResultPayload): GameLogEntry
  {
    var n := CountFor(p.votes, p.storyCard);
    var cards := Tallied(Submitted(p.cardsSubmitted), p.votes);
    GameLogEntry(p.story, p.storyPlayerId, p.storyCard, cards, Some(n == |p.votes|), Some(n == 0))
  }

  /** What the entry holds: one card per submitted card id, by its last
      submitter, with the voters for it in vote order; whether every vote
      and whether no vote went to the story card. The story card is not
      added, so votes for it are recorded only when it was also submitted
      as an ordinary card. */
  lemma StoreEntrySpec(p: TurnResultPayload)
    ensures var e := StoreEntry(p);
      && e.story == p.story && e.storyPlayerId == p.storyPlayerId && e.storyCard == p.storyCard
      && e.allVotesForStory == Some(forall i :: 0 <= i < |p.votes| ==> p.votes[i].cardId == p.storyCard)
      && e.noVotesForStory == Some(forall i :: 0 <= i < |p.votes| ==> p.votes[i].cardId != p.storyCard)
    ensures forall k :: k in StoreEntry(p).cardsSubmitted.vals <==> LastSubmitter(p.cardsSubmitted, k).Some?
    ensures forall k :: k in StoreEntry(p).cardsSubmitted.vals ==>
      StoreEntry(p).cardsSubmitted.vals[k] == LogCard(LastSubmitter(p.cardsSubmitted, k).value, k, VotersOf(p.votes, k))
  {
    var submitted := Submitted(p.cardsSubmitted);
    var cards := Tallied(submitted, p.votes);
    CountForExtremes(p.votes, p.storyCard);
    forall k
      ensures k in cards.vals <==> LastSubmitter(p.cardsSubmitted, k).Some?
      ensures k in cards.vals ==> cards.vals[k] == LogCard(LastSubmitter(p.cardsSubmitted, k).value, k, VotersOf(p.votes, k))
    {
      SubmittedSpec(p.cardsSubmitted, k);
      if k in submitted.vals {
        TalliedSpec(submitted, p.votes, k);
      }
    }
  }

  /** With no votes, both flags hold. */
  lemma NoVotesBothFlags(p: TurnResultPayload)
    requires p.votes == []
    ensures StoreEntry(p).allVotesForStory == Some(true) && StoreEntry(p).noVotesForStory == Some(true)
  {
  }

  /** addGameLogEntry: the Map filled from the submissions, the votes for
      the story card counted with a filter, then the votes tallied. */
  method AddGameLogEntry(p: TurnResultPayload) returns (entry: GameLogEntry)
    ensures entry == StoreEntry(p)
  {
    var cards := FillSubmitted(p.cardsSubmitted);
    var votesForStoryCard := CountFor(p.votes, p.storyCard);
    var all := votesForStoryCard == |p.votes|;
    var none := votesForStoryCard == 0;
    cards := TallyVotes(cards, p.votes);
    entry := GameLogEntry(p.story, p.storyPlayerId, p.storyCard, cards, Some(all), Some(none));
  }

  /** The data fields of the store. */
  datatype StoreState = StoreState(
    roomId: string, ownerId: string, joinedState: JoinedState, turnState: string, turnNumber: int,
    roomState: string, storyCard: int, storyPlayerId: string, cards: seq<Card>, storyCards: seq<Card>,
    players: seq<PlayerInfo>, story: string, gameLog: seq<GameLogEntry>, submittedBy: seq<string>)

  /** The store's initial data. */
  const Initial: StoreState :=
    StoreState("", "", NotJoined, "not_started", 1, "waiting", -1, "", [], [], [], "", [], [])

  /** on_turn_result: set merges { gameLog: [entry, ...prev.gameLog] }, so
      the new entry comes first and nothing else changes. */
  function OnTurnResult(prev: StoreState, p: TurnResultPayload): (next: StoreState)
    ensures |next.gameLog| == |prev.gameLog| + 1
    ensures next.gameLog[0] == StoreEntry(p) && next.gameLog[1..] == prev.gameLog
    ensures next.(gameLog := prev.gameLog) == prev
  {
    prev.(gameLog := [StoreEntry(p)] + prev.gameLog)
  }

  /** The store after a run of on_turn_result messages. */
  function AfterResults(s: StoreState, ps: seq<TurnResultPayload>): StoreState
  {
    if ps == [] then s else OnTurnResult(AfterResults(s, ps[..|ps| - 1]), ps[|ps| - 1])
  }

  /** f of each element of xs, the last element's first. */
  function NewestFirst<X, T>(f: X -> T, xs: seq<X>): (r: seq<T>)
    ensures |r| == |xs|
  {
    if xs == [] then [] else [f(xs[|xs| - 1])] + NewestFirst(f, xs[..|xs| - 1])
  }

  /** Element i of NewestFirst comes from the i-th element counted from the
      end. */
  lemma {:induction false} NewestFirstAt<X, T>(f: X -> T, xs: seq<X>, i: int)
    requires 0 <= i < |xs|
    ensures NewestFirst(f, xs)[i] == f(xs[|xs| - 1 - i])
  {
    if i > 0 {
      var init := xs[..|xs| - 1];
      NewestFirstAt(f, init, i - 1);
      assert init[|init| - 1 - (i - 1)] == xs[|xs| - 1 - i];
    }
  }

  /** The newest first: after a run of results the log starts with their
      entries in reverse order (entry i from result |ps| - 1 - i, by
      NewestFirstAt), followed by the log before; nothing else changes. */
  lemma {:induction false} LogNewestFirst(s: StoreState, ps: seq<TurnResultPayload>)
    ensures AfterResults(s, ps).gameLog == NewestFirst(StoreEntry, ps) + s.gameLog
    ensures AfterResults(s, ps).(gameLog := s.gameLog) == s
  {
    if ps != [] {
      LogNewestFirst(s, ps[..|ps| - 1]);
    }
  }
}
