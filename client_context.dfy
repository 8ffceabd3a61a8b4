/** The room context of the web client (app/src/contexts/RoomContext.tsx):
    a reducer from server messages to the room state, and its own
    addGameLogEntry, which, unlike the store's, adds the story card to the
    entry and sets no story-vote flags. */
module ClientContext {
  import opened Wrappers
  import opened JsCollections
  import opened ClientLog

  /** The entry this version builds: the turn's story fields copied, the
      submitted cards, the story card set as the storyteller's, then the
      votes tallied; no story-vote flags. */
  function ContextEntry(p: TurnResultPayload): GameLogEntry
  {
    var submitted := Submitted(p.cardsSubmitted);
    var withStory := MapSet(submitted, p.storyCard, LogCard(p.storyPlayerId, p.storyCard, []));
    GameLogEntry(p.story, p.storyPlayerId, p.storyCard, Tallied(withStory, p.votes), None, None)
  }

  /** What the entry holds: the story card, under its id, as the
      storyteller's with all votes for it, even when it was also submitted
      by someone else; every other submitted card id by its last submitter,
      with the voters for it in vote order; both flags undefined. */
  lemma ContextEntrySpec(p: TurnResultPayload)
    ensures var e := ContextEntry(p);
      && e.story == p.story && e.storyPlayerId == p.storyPlayerId && e.storyCard == p.storyCard
      && e.allVotesForStory == None && e.noVotesForStory == None
      && p.storyCard in e.cardsSubmitted.vals
      && e.cardsSubmitted.vals[p.storyCard] == LogCard(p.storyPlayerId, p.storyCard, VotersOf(p.votes, p.storyCard))
    ensures forall k :: k != p.storyCard ==>
      (k in ContextEntry(p).cardsSubmitted.vals <==> LastSubmitter(p.cardsSubmitted, k).Some?)
    ensures forall k :: k != p.storyCard && k in ContextEntry(p).cardsSubmitted.vals ==>
      ContextEntry(p).cardsSubmitted.vals[k] == LogCard(LastSubmitter(p.cardsSubmitted, k).value, k, VotersOf(p.votes, k))
  {
    var submitted := Submitted(p.cardsSubmitted);
    var withStory := MapSet(submitted, p.storyCard, LogCard(p.storyPlayerId, p.storyCard, []));
    var cards := Tallied(withStory, p.votes);
    TalliedSpec(withStory, p.votes, p.storyCard);
    forall k | k != p.storyCard
      ensures k in cards.vals <==> LastSubmitter(p.cardsSubmitted, k).Some?
      ensures k in cards.vals ==> cards.vals[k] == LogCard(LastSubmitter(p.cardsSubmitted, k).value, k, VotersOf(p.votes, k))
    {
      SubmittedSpec(p.cardsSubmitted, k);
      if k in withStory.vals {
        TalliedSpec(withStory, p.votes, k);
      }
    }
  }

  /** addGameLogEntry: the Map filled from the submissions, the story card
      set, then the votes tallied. */
  method AddGameLogEntry(p: TurnResultPayload) returns (entry: GameLogEntry)
    ensures entry == ContextEntry(p)
  {
    var cards := FillSubmitted(p.cardsSubmitted);
    cards := MapSet(cards, p.storyCard, LogCard(p.storyPlayerId, p.storyCard, []));
    cards := TallyVotes(cards, p.votes);
    entry := GameLogEntry(p.story, p.storyPlayerId, p.storyCard, cards, None, None);
  }

  /** CurrentRoomState. */
  datatype RoomView = RoomView(
    roomId: string, ownerId: string, joinedState: JoinedState, turnState: string, roomState: string,
    storyPlayerId: string, cards: seq<Card>, lastSubmittedCard: int, storyCards: seq<Card>,
    players: seq<PlayerInfo>, story: string, gameLog: seq<GameLogEntry>, submittedBy: seq<string>)

  /** defaultRoomState. */
  const Default: RoomView :=
    RoomView("", "", NotJoined, "not_started", "waiting", "", [], -1, [], [], "", [], [])

  /** The fields a message payload may carry; an absent one is None. */
  datatype Patch = Patch(
    roomId: Option<string>, ownerId: Option<string>, turnState: Option<string>, roomState: Option<string>,
    storyPlayerId: Option<string>, lastSubmittedCard: Option<int>, players: Option<seq<PlayerInfo>>,
    story: Option<string>, submittedBy: Option<seq<string>>)

  /** The messages the reducer is given, by type. */
  datatype ResponseMsg =
    | OnRoomCreated(patch: Patch)
    | OnPlayersUpdated(patch: Patch)
    | OnJoined(patch: Patch, cardIds: seq<int>, submittedIds: seq<int>)
    | OnTurnResult(result: TurnResultPayload)
    | OnRoomStateUpdated(patch: Patch, submittedIds: seq<int>)
    | OnCards(cardIds: seq<int>)
    | Unrecognised(kind: string)

  function Or<T>(o: Option<T>, d: T): T
  {
    if o.Some? then o.value else d
  }

  /** { ...s, ...payload }: each field the payload carries replaces the
      state's; the others are kept. */
  function Spread(s: RoomView, p: Patch): (r: RoomView)
    ensures p == Patch(None, None, None, None, None, None, None, None, None) ==> r == s
    ensures r.joinedState == s.joinedState && r.cards == s.cards && r.storyCards == s.storyCards
    ensures r.gameLog == s.gameLog
    ensures p.roomId.Some? ==> r.roomId == p.roomId.value
    ensures p.roomId.None? ==> r.roomId == s.roomId
  {
    s.(roomId := Or(p.roomId, s.roomId), ownerId := Or(p.ownerId, s.ownerId),
       turnState := Or(p.turnState, s.turnState), roomState := Or(p.roomState, s.roomState),
       storyPlayerId := Or(p.storyPlayerId, s.storyPlayerId),
       lastSubmittedCard := Or(p.lastSubmittedCard, s.lastSubmittedCard),
       players := Or(p.players, s.players), story := Or(p.story, s.story),
       submittedBy := Or(p.submittedBy, s.submittedBy))
  }

  /** roomStateReducer. */
  function Reduce(prev: RoomView, msg: ResponseMsg): (next: RoomView)
    ensures msg.Unrecognised? ==> next == prev
    ensures msg.OnTurnResult? ==>
      && next.gameLog == prev.gameLog + [ContextEntry(msg.result)]
      && next.(gameLog := prev.gameLog) == prev
    ensures !msg.OnTurnResult? ==> next.gameLog == prev.gameLog
    ensures msg.OnJoined? ==>
      && next.joinedState == Joined
      && |next.cards| == |msg.cardIds| && (forall i :: 0 <= i < |msg.cardIds| ==> next.cards[i].cardId == msg.cardIds[i])
      && |next.storyCards| == |msg.submittedIds|
      && (forall i :: 0 <= i < |msg.submittedIds| ==> next.storyCards[i].cardId == msg.submittedIds[i])
    ensures msg.OnCards? ==> next == prev.(cards := ToCards(msg.cardIds))
  {
    match msg
    case OnRoomCreated(patch) => Spread(prev, patch)
    case OnPlayersUpdated(patch) => Spread(prev, patch)
    case OnJoined(patch, cardIds, submittedIds) =>
      Spread(prev, patch).(cards := ToCards(cardIds), storyCards := ToCards(submittedIds), joinedState := Joined)
    case OnTurnResult(result) => prev.(gameLog := prev.gameLog + [ContextEntry(result)])
    case OnRoomStateUpdated(patch, submittedIds) => Spread(prev, patch).(storyCards := ToCards(submittedIds))
    case OnCards(cardIds) => prev.(cards := ToCards(cardIds))
    case Unrecognised(_) => prev
  }

  /** The provider's initial state: the default with the room id of the
      route. */
  function InitialState(routeRoomId: string): RoomView
  {
    Default.(roomId := routeRoomId)
  }

  /** What the provider hands to its consumers: the state, with an empty
      room id filled in from the route. */
  function Provided(s: RoomView, routeRoomId: string): (v: RoomView)
    ensures v.(roomId := s.roomId) == s
    ensures s.roomId != "" ==> v == s
    ensures s.roomId == "" ==> v.roomId == routeRoomId
  {
    if s.roomId == "" then s.(roomId := routeRoomId) else s
  }

  /** The state after a run of messages. */
  function ReduceAll(s: RoomView, msgs: seq<ResponseMsg>): RoomView
  {
    if msgs == [] then s else Reduce(ReduceAll(s, msgs[..|msgs| - 1]), msgs[|msgs| - 1])
  }

  /** The entries of the on_turn_result messages of a run, in order. */
  function ResultEntries(msgs: seq<ResponseMsg>): (r: seq<GameLogEntry>)
    ensures |r| <= |msgs|
  {
    if msgs == [] then []
    else
      var last := msgs[|msgs| - 1];
      ResultEntries(msgs[..|msgs| - 1]) + (if last.OnTurnResult? then [ContextEntry(last.result)] else [])
  }

  /** Oldest first: after a run of messages the log is the log before
      followed by one entry per on_turn_result, in arrival order. */
  lemma {:induction false} LogOldestFirst(s: RoomView, msgs: seq<ResponseMsg>)
    ensures ReduceAll(s, msgs).gameLog == s.gameLog + ResultEntries(msgs)
  {
    if msgs != [] {
      LogOldestFirst(s, msgs[..|msgs| - 1]);
    }
  }

  /** The patch a message spreads into the state, if any. */
  function PatchOf(m: ResponseMsg): Option<Patch>
  {
    match m
    case OnRoomCreated(patch) => Some(patch)
    case OnPlayersUpdated(patch) => Some(patch)
    case OnJoined(patch, _, _) => Some(patch)
    case OnRoomStateUpdated(patch, _) => Some(patch)
    case _ => None
  }

  /** The room id carried by the last patch of a run that carries one. */
  function LastRoomId(msgs: seq<ResponseMsg>): (r: Option<string>)
    ensures r.None? <==> forall i :: 0 <= i < |msgs| ==> PatchOf(msgs[i]).None? || PatchOf(msgs[i]).value.roomId.None?
    ensures r.Some? ==> exists i :: 0 <= i < |msgs| && PatchOf(msgs[i]).Some? && PatchOf(msgs[i]).value.roomId == r
  {
    if msgs == [] then None
    else
      var last := PatchOf(msgs[|msgs| - 1]);
      if last.Some? && last.value.roomId.Some? then last.value.roomId
      else
        var r := LastRoomId(msgs[..|msgs| - 1]);
        assert forall i :: 0 <= i < |msgs| - 1 ==> msgs[..|msgs| - 1][i] == msgs[i];
        r
  }

  /** The state's room id after a run is the last one a patch carried, or
      the one before the run when no patch carried one. */
  lemma {:induction false} RoomIdAfter(s: RoomView, msgs: seq<ResponseMsg>)
    ensures ReduceAll(s, msgs).roomId == Or(LastRoomId(msgs), s.roomId)
  {
    if msgs != [] {
      RoomIdAfter(s, msgs[..|msgs| - 1]);
    }
  }

  /** Whatever messages arrive, a consumer sees the route's room id until a
      payload carries a non-empty one, and then the last room id a payload
      carried, unless that one is empty; the log holds exactly the turn
      results' entries, oldest first. */
  lemma {:induction false} ProvidedRoomId(routeRoomId: string, msgs: seq<ResponseMsg>)
    ensures (forall i :: 0 <= i < |msgs| && PatchOf(msgs[i]).Some? ==> PatchOf(msgs[i]).value.roomId in {None, Some("")}) ==>
      Provided(ReduceAll(InitialState(routeRoomId), msgs), routeRoomId).roomId == routeRoomId
    ensures LastRoomId(msgs).Some? && LastRoomId(msgs).value != "" ==>
      Provided(ReduceAll(InitialState(routeRoomId), msgs), routeRoomId).roomId == LastRoomId(msgs).value
    ensures LastRoomId(msgs) == Some("") ==>
      Provided(ReduceAll(InitialState(routeRoomId), msgs), routeRoomId).roomId == routeRoomId
    ensures ReduceAll(InitialState(routeRoomId), msgs).gameLog == ResultEntries(msgs)
  {
    RoomIdAfter(InitialState(routeRoomId), msgs);
    LogOldestFirst(InitialState(routeRoomId), msgs);
  }
}
