/** The decision logic of the Go HTTP handlers
    (server/game/handlers/room_handler.go): join, token resolution, the
    command table and the six commands. Requests, responses, JSON and status
    codes are not modelled: a handler takes its decoded arguments and returns
    its outcome. The broadcasts that follow a change are I/O and left out. */
module GoHandlers {
  import opened Wrappers
  import opened GoIds
  import opened GoStates
  import opened GoRecords
  import opened GoScoring
  import opened GoLedger
  import opened GoViews
  import opened GoPlayer
  import opened GoRoom
  import opened GoGame

  /** A parsed X-Game-Token: the player and the room it was issued for. */
  datatype Token = Token(playerId: PlayerId, roomId: string)

  /** The fields a command payload is decoded into; a field missing from the
      JSON keeps Go's zero value. */
  datatype Payload = Payload(story: string, cardId: int)

  /** The six entries of handlerByCommand. */
  datatype Command = SubmitCardCommand | SubmitStoryCommand | VoteCommand | ReadyCommand | StartCommand | FetchHistoryCommand

  function CommandName(c: Command): string
  {
    match c
    case SubmitCardCommand => "submit_card"
    case SubmitStoryCommand => "submit_story"
    case VoteCommand => "vote"
    case ReadyCommand => "ready"
    case StartCommand => "start"
    case FetchHistoryCommand => "fetch_history"
  }

  /** The lookup in handlerByCommand; a miss is the error of
      HandleGameCommand. */
  function LookupCommand(name: string): (r: Result<Command, string>)
    ensures r.Ok? ==> CommandName(r.value) == name
    ensures r.Err? ==> r.error == "Can't find that command"
    ensures r.Err? <==> name !in {"submit_card", "submit_story", "vote", "ready", "start", "fetch_history"}
  {
    if name == "submit_card" then Ok(SubmitCardCommand)
    else if name == "submit_story" then Ok(SubmitStoryCommand)
    else if name == "vote" then Ok(VoteCommand)
    else if name == "ready" then Ok(ReadyCommand)
    else if name == "start" then Ok(StartCommand)
    else if name == "fetch_history" then Ok(FetchHistoryCommand)
    else Err("Can't find that command")
  }

  /** Every command is found under its own name. */
  lemma {:induction false} LookupCommandName(c: Command)
    ensures LookupCommand(CommandName(c)) == Ok(c)
  {
    match c
    case SubmitCardCommand =>
    case SubmitStoryCommand =>
    case VoteCommand =>
    case ReadyCommand =>
    case StartCommand =>
    case FetchHistoryCommand =>
  }

  /** The rooms of the registry are each valid. */
  ghost predicate RoomsValid(g: Game)
    reads g, g.roomsById.Values, set r | r in g.roomsById.Values :: r.currentTurn
  {
    g.Valid() && forall r :: r in g.roomsById.Values ==> r.Valid()
  }

  /** findRoomAndPlayerFromToken: a token that failed to parse passes its
      error on; the token's room is looked up by (lower-cased) name and the
      player by the token's player id. */
  function ResolveToken(g: Game, token: Result<Token, string>): (r: Result<(Room, Player), string>)
    reads g, g.roomsById.Values
    ensures token.Err? ==> r == Err(token.error)
    ensures token.Ok? && g.FindByRoomName(token.value.roomId).None? ==> r == Err("room not found")
    ensures token.Ok? && g.FindByRoomName(token.value.roomId).Some? ==>
      (r.Err? <==> token.value.playerId !in g.FindByRoomName(token.value.roomId).value.playerMap)
    ensures r.Err? && token.Ok? && g.FindByRoomName(token.value.roomId).Some? ==>
      r.error == "player not found in the room"
    ensures r.Ok? ==> token.Ok? && g.FindByRoomName(token.value.roomId) == Some(r.value.0)
    ensures r.Ok? && r.value.0.KeyedById() ==>
      r.value.1.id == token.value.playerId && r.value.0.playerMap[token.value.playerId] == r.value.1
  {
    match token
    case Err(e) => Err(e)
    case Ok(t) =>
      match g.FindByRoomName(t.roomId)
      case None => Err("room not found")
      case Some(room) =>
        if t.playerId in room.playerMap then Ok((room, room.playerMap[t.playerId])) else Err("player not found in the room")
  }

  /** What the join response tells the joining player. */
  datatype JoinView = JoinView(
    roomId: string, ownerId: PlayerId, playerId: PlayerId, cards: seq<int>, roomState: RoomState,
    turnState: TurnState, turnNumber: nat, story: string, storyPlayerId: PlayerId, storyCard: int,
    cardsSubmitted: seq<int>)

  /** The join response for player p of room r (room_handler.go:108-150):
      without a turn the phase is NotStarted, the story empty and the
      storyteller nil; the story card is shown to the storyteller only. */
  method ViewOnJoin(r: Room, p: Player, rnd: seq<nat>) returns (v: JoinView)
    ensures v.roomId == r.id && v.ownerId == r.ownerId && v.playerId == p.id && v.cards == p.cards
    ensures v.roomState == r.state && v.turnNumber == |r.turns|
    ensures r.currentTurn == null ==>
      && v.turnState == NotStarted && v.story == "" && v.storyPlayerId == Nil && v.storyCard == 0
      && v.cardsSubmitted == []
    ensures r.currentTurn != null ==>
      && v.turnState == r.currentTurn.turnState && v.story == r.currentTurn.story
      && v.storyPlayerId == r.currentTurn.storyPlayerId
      && v.storyCard == StoryCardShown(r.currentTurn.storyPlayerId, r.currentTurn.storyCard, p.id)
      && multiset(v.cardsSubmitted) ==
           multiset(VotingCards(r.currentTurn.turnState, r.currentTurn.cardsSubmitted, r.currentTurn.storyCard, p.id))
  {
    var turnState := NotStarted;
    var turnStory := "";
    var turnStoryPlayer := Nil;
    var storyCard := 0;
    if r.currentTurn != null {
      turnState := r.currentTurn.turnState;
      turnStory := r.currentTurn.story;
      turnStoryPlayer := r.currentTurn.storyPlayerId;
      if turnStoryPlayer == p.id {
        storyCard := r.currentTurn.storyCard;
      }
    }
    var cards := r.GetCardsForVoting(p.id, rnd);
    v := JoinView(r.id, r.ownerId, p.id, p.cards, r.state, turnState, |r.turns|, turnStory, turnStoryPlayer, storyCard, cards);
  }

  /** The member search of HandleJoinRoom: the player of r whose id is
      playerId, looked for in Players() order. */
  method FindMember(r: Room, playerId: PlayerId) returns (p: Player?)
    requires r.KeyedById()
    ensures p == null <==> playerId !in r.playerMap
    ensures p != null ==> p == r.playerMap[playerId]
  {
    var order := r.PlayerOrder();
    var i := 0;
    while i < |order|
      invariant 0 <= i <= |order|
      invariant forall j :: 0 <= j < i ==> order[j] != playerId
    {
      if r.playerMap[order[i]].id == playerId {
        return r.playerMap[order[i]];
      }
      i := i + 1;
    }
    return null;
  }

  /** The path HandleJoinRoom takes (room_handler.go:50-98). */
  datatype JoinPath = Invalid(msg: string) | CreatesRoom | Rejoins | TurnedAway | NewMember

  /** The three arguments are checked in order before the registry is
      looked at. A missing room is created; in a found room a caller with a
      token who is a member rejoins; anyone else is turned away once the game
      has started and joins as a new player before. */
  function JoinPathOf(g: Game, hasToken: bool, playerName: string, roomName: string, playerId: PlayerId): JoinPath
    reads g, g.roomsById.Values
  {
    if playerId == Nil then Invalid("Invalid arg: playerId")
    else if playerName == "" then Invalid("Invalid playerName")
    else if roomName == "" then Invalid("Invalid roomName")
    else match g.FindByRoomName(roomName)
      case None => CreatesRoom
      case Some(r) =>
        if hasToken && playerId in r.playerMap then Rejoins
        else if r.state != WaitingForPlayers then TurnedAway
        else NewMember
  }

  /** HandleJoinRoom past the JSON decoding (room_handler.go:50-150).
      hasToken says whether a token parsed: its contents are never compared.
      The three arguments are validated before the registry is touched. A
      missing room is created with the caller as owner, but the caller is
      not added to it. In a found room, a caller with a token who is a
      member is taken as they are; anyone else is turned away once the game
      has started, and otherwise joins as a new player, replacing a member
      with the same id. rndDeck shuffles a new room's deck, rndView the cards
      of the response. */
  method HandleJoinRoom(g: Game, hasToken: bool, playerName: string, roomName: string, playerId: PlayerId,
                        cardCount: int, now: int, rndDeck: seq<nat>, rndView: seq<nat>)
    returns (res: Result<JoinView, string>, r: Room?, p: Player?)
    requires RoomsValid(g)
    modifies g, g.roomsById.Values
    ensures g.Valid()
    ensures old(JoinPathOf(g, hasToken, playerName, roomName, playerId)).Invalid? ==>
      res == Err(old(JoinPathOf(g, hasToken, playerName, roomName, playerId)).msg)
    ensures old(JoinPathOf(g, hasToken, playerName, roomName, playerId)) == TurnedAway ==> res == Err("game in progress")
    ensures res.Err? ==> g.roomsById == old(g.roomsById) && unchanged(old(g.roomsById.Values))
    ensures res.Ok? ==> r != null && p != null && p.id == playerId
    ensures res.Ok? ==> res.value.playerId == playerId && res.value.cards == p.cards
    ensures res.Ok? ==> res.value.roomId == r.id && res.value.roomState == r.state
    ensures old(JoinPathOf(g, hasToken, playerName, roomName, playerId)) == CreatesRoom ==>
      && res.Ok? && fresh(r) && fresh(p) && g.roomsById == old(g.roomsById)[roomName := r]
      && r.ownerId == playerId && r.id == roomName && r.playerMap == map[]
      && p.name == playerName && p.cards == [] && p.points == 0 && !p.IsReady()
      && unchanged(old(g.roomsById.Values))
    ensures old(JoinPathOf(g, hasToken, playerName, roomName, playerId)) in {Rejoins, NewMember} ==>
      g.roomsById == old(g.roomsById) && r == old(g.FindByRoomName(roomName)).value
    ensures old(JoinPathOf(g, hasToken, playerName, roomName, playerId)) == Rejoins ==>
      res.Ok? && unchanged(old(g.roomsById.Values)) && playerId in r.playerMap && p == r.playerMap[playerId]
    ensures old(JoinPathOf(g, hasToken, playerName, roomName, playerId)) == NewMember ==>
      && res.Ok? && fresh(p) && r.playerMap == old(r.playerMap)[playerId := p]
      && p.name == playerName && p.cards == [] && p.points == 0 && !p.IsReady()
      && r.Valid() && r.state == old(r.state) && r.turns == old(r.turns) && r.currentTurn == old(r.currentTurn)
      && r.cardIds == old(r.cardIds) && r.discardCardIds == old(r.discardCardIds)
  {
    if playerId == Nil {
      return Err("Invalid arg: playerId"), null, null;
    }
    if playerName == "" {
      return Err("Invalid playerName"), null, null;
    }
    if roomName == "" {
      return Err("Invalid roomName"), null, null;
    }
    var found := g.FindByRoomName(roomName);
    if found.None? {
      var roomPlayer := new Player(playerName, playerId);
      var room := g.CreateRoom(playerId, roomName, cardCount, now, rndDeck);
      var view := ViewOnJoin(room, roomPlayer, rndView);
      return Ok(view), room, roomPlayer;
    }
    assert found.value == g.roomsById[ToLower(roomName)];
    assert found.value in g.roomsById.Values;
    res, p := JoinFoundRoom(found.value, hasToken, playerName, playerId, rndView);
    r := if res.Ok? then found.value else null;
  }

  /** HandleJoinRoom once the room is found (room_handler.go:72-98). */
  method JoinFoundRoom(room: Room, hasToken: bool, playerName: string, playerId: PlayerId, rnd: seq<nat>)
    returns (res: Result<JoinView, string>, p: Player?)
    requires room.Valid()
    modifies room
    ensures room.Valid()
    ensures res.Ok? ==> p != null && p.id == playerId
    ensures res.Ok? ==> res.value.playerId == playerId && res.value.cards == p.cards
    ensures res.Ok? ==> res.value.roomId == room.id && res.value.roomState == room.state
    ensures hasToken && playerId in old(room.playerMap) ==>
      res.Ok? && unchanged(room) && playerId in room.playerMap && p == room.playerMap[playerId]
    ensures !(hasToken && playerId in old(room.playerMap)) && old(room.state) != WaitingForPlayers ==>
      res == Err("game in progress") && unchanged(room)
    ensures !(hasToken && playerId in old(room.playerMap)) && old(room.state) == WaitingForPlayers ==>
      && res.Ok? && fresh(p) && room.playerMap == old(room.playerMap)[playerId := p]
      && p.name == playerName && p.cards == [] && p.points == 0 && !p.IsReady()
      && room.state == old(room.state) && room.turns == old(room.turns) && room.currentTurn == old(room.currentTurn)
      && room.cardIds == old(room.cardIds) && room.discardCardIds == old(room.discardCardIds)
  {
    var roomPlayer: Player? := null;
    if hasToken {
      roomPlayer := FindMember(room, playerId);
    }
    if roomPlayer == null {
      if room.state != WaitingForPlayers {
        return Err("game in progress"), null;
      }
      roomPlayer := new Player(playerName, playerId);
      room.AddPlayer(roomPlayer);
    }
    var view := ViewOnJoin(room, roomPlayer, rnd);
    return Ok(view), roomPlayer;
  }

  /** HandleSubmitStoryCommand: only the storyteller may tell the story; no
      phase is checked. The card is discarded, story and card recorded and
      the phase becomes SelectingCards. A nil current turn panics. */
  method HandleSubmitStory(r: Room, p: Player, payload: Result<Payload, string>) returns (status: Status)
    modifies r, r.currentTurn, p
    ensures old(r.currentTurn) == null ==> status == Crash
    ensures old(r.currentTurn) != null && p.id != old(r.currentTurn.storyPlayerId) ==>
      status == Failure("can't tell story now")
    ensures old(r.currentTurn) != null && p.id == old(r.currentTurn.storyPlayerId) && payload.Err? ==>
      status == Failure(payload.error)
    ensures status != Success ==> unchanged(r, p) && (r.currentTurn != null ==> unchanged(r.currentTurn))
    ensures r.currentTurn == old(r.currentTurn) && r.state == old(r.state) && r.playerMap == old(r.playerMap)
    ensures r.cardIds == old(r.cardIds) && r.turns == old(r.turns)
    ensures old(r.currentTurn) != null && p.id == old(r.currentTurn.storyPlayerId) && payload.Ok? ==>
      && status == Success
      && r.discardCardIds == old(r.discardCardIds) + [payload.value.cardId]
      && p.cards == HandAfterDiscard(old(p.cards), payload.value.cardId)
      && r.currentTurn.story == payload.value.story && r.currentTurn.storyCard == payload.value.cardId
      && r.currentTurn.turnState == SelectingCards
      && r.currentTurn.votes == old(r.currentTurn.votes) && r.currentTurn.cardsSubmitted == old(r.currentTurn.cardsSubmitted)
      && r.currentTurn.storyPlayerId == old(r.currentTurn.storyPlayerId)
      && p.points == old(p.points)
  {
    if r.currentTurn == null {
      return Crash;
    }
    if p.id != r.currentTurn.storyPlayerId {
      return Failure("can't tell story now");
    }
    if payload.Err? {
      return Failure(payload.error);
    }
    var turn := r.currentTurn;
    r.DiscardCard(p, payload.value.cardId);
    turn.story := payload.value.story;
    turn.storyCard := payload.value.cardId;
    turn.turnState := SelectingCards;
    return Success;
  }

  /** HandleSubmitCardCommand: the payload is decoded first, then the card is
      submitted to the current turn (a nil turn panics). */
  method HandleSubmitCard(r: Room, p: Player, payload: Result<Payload, string>) returns (status: Status)
    requires r.Valid()
    modifies r, r.currentTurn, p
    ensures payload.Err? ==> status == Failure(payload.error)
    ensures r.currentTurn == old(r.currentTurn) && r.state == old(r.state) && r.playerMap == old(r.playerMap)
    ensures payload.Ok? && old(r.currentTurn) == null ==> status == Crash
    ensures payload.Ok? && old(r.currentTurn) != null && old(r.currentTurn.Submitted(p.id)) ==>
      && status == Failure("already submitted the card")
      && r.currentTurn.cardsSubmitted == old(r.currentTurn.cardsSubmitted) && p.cards == old(p.cards)
      && r.discardCardIds == old(r.discardCardIds)
    ensures payload.Err? || old(r.currentTurn) == null ==> unchanged(r, p) && (r.currentTurn != null ==> unchanged(r.currentTurn))
    ensures r.cardIds == old(r.cardIds) && r.turns == old(r.turns)
    ensures payload.Ok? && old(r.currentTurn) != null && !old(r.currentTurn.Submitted(p.id)) ==>
      && status == Success
      && r.currentTurn.cardsSubmitted == old(r.currentTurn.cardsSubmitted) + [CardSubmitted(p.id, payload.value.cardId)]
      && r.discardCardIds == old(r.discardCardIds) + [payload.value.cardId]
      && p.cards == HandAfterDiscard(old(p.cards), payload.value.cardId)
      && r.currentTurn.turnState ==
           (if |r.currentTurn.cardsSubmitted| == |r.playerMap| - 1 then Voting else old(r.currentTurn.turnState))
  {
    if payload.Err? {
      return Failure(payload.error);
    }
    if r.currentTurn == null {
      return Crash;
    }
    status := r.currentTurn.AddCardSubmitted(p, payload.value.cardId);
  }

  /** HandleReadyCommand: sets the player ready unless it already is, so a
      second call changes nothing. */
  method HandleReady(p: Player) returns (status: Status)
    modifies p
    ensures status == Success && p.IsReady()
    ensures !old(p.IsReady()) ==> p.ready
    ensures old(p.IsReady()) ==> unchanged(p)
    ensures p.name == old(p.name) && p.points == old(p.points) && p.cards == old(p.cards)
  {
    if !p.IsReady() {
      p.SetReady();
    }
    return Success;
  }

  /** Every player of the player map is ready. */
  ghost predicate AllReady(m: map<PlayerId, Player>)
    reads m.Values
  {
    forall k :: k in m ==> m[k].IsReady()
  }

  /** The ready loop of HandleStartCommand over Players(). */
  method CountReady(r: Room) returns (allReady: bool, countReady: nat)
    ensures allReady <==> AllReady(r.playerMap)
    ensures countReady == |r.playerMap|
  {
    var order := r.PlayerOrder();
    allReady := true;
    countReady := 0;
    var i := 0;
    while i < |order|
      invariant 0 <= i <= |order| && countReady == i
      invariant allReady <==> forall j :: 0 <= j < i ==> r.playerMap[order[j]].IsReady()
    {
      allReady := allReady && r.playerMap[order[i]].IsReady();
      countReady := countReady + 1;
      i := i + 1;
    }
    assert allReady ==> forall k :: k in r.playerMap ==> k in order;
  }

  /** HandleStartCommand: only the owner, only while waiting for players;
      the game starts when every player is ready and there are at least
      minPlayers of them, and otherwise the call succeeds with no effect.
      Starting an empty room panics (Crash). rnd are the random choices of
      a recycle of the discard pile. */
  method HandleStart(r: Room, p: Player, minPlayers: int, rnd: seq<nat>) returns (status: Status, started: bool)
    requires r.Valid()
    modifies r, r.playerMap.Values
    ensures r.Valid()
    ensures p.id != r.ownerId ==> status == Failure("not room owner")
    ensures p.id == r.ownerId && old(r.state) != WaitingForPlayers ==> status == Failure("already started")
    ensures started <==>
      p.id == r.ownerId && old(r.state) == WaitingForPlayers && old(AllReady(r.playerMap)) && |old(r.playerMap)| >= minPlayers
    ensures !started ==> unchanged(r) && unchanged(old(r.playerMap.Values))
    ensures !started && p.id == r.ownerId && old(r.state) == WaitingForPlayers ==> status == Success
    ensures started ==> (status == Crash <==> old(r.currentTurn) == null && |r.playerMap| == 0)
    ensures started ==> status != Crash ==> status == Success
    ensures started ==>
      && r.state == PlayingGame && r.playerMap == old(r.playerMap)
      && PointsOf(r.playerMap) == old(PointsOf(r.playerMap))
      && |r.turns| == |old(r.turns)| + 1 && r.turns[..|old(r.turns)|] == old(r.turns)
    ensures started && status == Success ==>
      && r.currentTurn == r.turns[|r.turns| - 1] && r.currentTurn.Untold()
      && StorytellerRule(old(r.currentTurn) == null, if old(r.currentTurn) != null then old(r.currentTurn.storyPlayerId) else Nil,
           r.currentTurn.storyPlayerId, r.playerMap.Keys)
  {
    if p.id != r.ownerId {
      return Failure("not room owner"), false;
    }
    if r.state != WaitingForPlayers {
      return Failure("already started"), false;
    }
    var allReady, countReady := CountReady(r);
    if allReady && countReady >= minPlayers {
      var ok, _ := r.StartGame(rnd);
      return if ok then Success else Crash, true;
    }
    return Success, false;
  }

  /** The vote command passes its guards: a turn in the Voting phase and a
      payload that decoded. */
  predicate VoteAdmitted(r: Room, payload: Result<Payload, string>)
    reads r, r.currentTurn
  {
    r.currentTurn != null && r.currentTurn.turnState == Voting && payload.Ok?
  }

  /** HandleVoteCommand: only in the Voting phase (a nil turn panics); the
      vote is added and the turn scored. No lock is taken here in the
      source; the model is sequential. */
  method HandleVote(r: Room, p: Player, payload: Result<Payload, string>, maxScore: int, rnd: seq<nat>)
    returns (status: Status)
    requires r.Valid() && p.id in r.playerMap && r.playerMap[p.id] == p
    modifies r, r.currentTurn, r.playerMap.Values
    ensures r.Valid() && r.playerMap == old(r.playerMap)
    ensures old(r.currentTurn) == null ==> status == Crash
    ensures old(r.currentTurn) != null && old(r.currentTurn.turnState) != Voting ==> status == Failure("can't vote now")
    ensures old(r.currentTurn) != null && old(r.currentTurn.turnState) == Voting && payload.Err? ==>
      status == Failure(payload.error)
    ensures old(r.currentTurn) == null || old(r.currentTurn.turnState) != Voting || payload.Err? ==>
      unchanged(r) && unchanged(old(r.playerMap.Values)) && (r.currentTurn != null ==> unchanged(r.currentTurn))
    ensures old(VoteAdmitted(r, payload)) ==>
      && old(r.currentTurn).votes == old(r.currentTurn.votes) + [old(r.currentTurn.NewVote(p.id, payload.value.cardId))]
      && (!Resolved(old(r.currentTurn.NewVote(p.id, payload.value.cardId))) ==> status == Crash)
    ensures old(VoteAdmitted(r, payload)) && Resolved(old(r.currentTurn.NewVote(p.id, payload.value.cardId))) ==>
      var votes := old(r.currentTurn).votes;
      && (|votes| != |r.playerMap| - 1 ==>
            status == Success && PointsOf(r.playerMap) == old(PointsOf(r.playerMap)) && r.state == old(r.state)
            && r.currentTurn == old(r.currentTurn) && HandsOf(r.playerMap) == old(HandsOf(r.playerMap)))
      && (|votes| == |r.playerMap| - 1 ==> (status == Crash <==> !AllResolved(votes)))
      && (|votes| == |r.playerMap| - 1 && AllResolved(votes) ==>
            PointsOf(r.playerMap) == ScoredPoints(old(PointsOf(r.playerMap)), votes, old(r.currentTurn.storyPlayerId)))
  {
    if r.currentTurn == null {
      return Crash;
    }
    if r.currentTurn.turnState != Voting {
      return Failure("can't vote now");
    }
    if payload.Err? {
      return Failure(payload.error);
    }
    status := r.currentTurn.AddVote(p, payload.value.cardId);
    if status == Crash {
      return Crash;
    }
    var order;
    status, order := r.ScoreTurn(maxScore, rnd);
  }

  /** One entry of the fetch_history answer. */
  datatype TurnData = TurnData(
    votes: seq<Option<Vote>>, submitted: seq<CardSubmitted>, storyPlayerId: PlayerId, storyCard: int, story: string,
    turnNumber: int)

  /** HandleFetchHistoryCommand: with at most one turn the answer is an empty
      list. Otherwise the loop fills a slice that shadows the response's, so
      the answer carries no list at all (None, a JSON null). Each entry the
      loop builds copies the current turn, which a nil current turn makes
      panic. */
  method HandleFetchHistory(r: Room) returns (status: Status, turns: Option<seq<TurnData>>)
    ensures |r.turns| <= 1 ==> status == Success && turns == Some([])
    ensures |r.turns| > 1 && r.currentTurn == null ==> status == Crash
    ensures |r.turns| > 1 && r.currentTurn != null ==> status == Success && turns == None
  {
    if |r.turns| <= 1 {
      return Success, Some([]);
    }
    var filled: seq<TurnData> := [];
    var i := 0;
    while i < |r.turns| - 1
      invariant 0 <= i <= |r.turns| - 1 && |filled| == i
      invariant i > 0 ==> r.currentTurn != null
    {
      if r.currentTurn == null {
        return Crash, None;
      }
      var t := r.currentTurn;
      filled := filled + [TurnData(t.votes, t.cardsSubmitted, t.storyPlayerId, t.storyCard, t.story, i)];
      i := i + 1;
    }
    return Success, None;
  }

  /** The players of the rooms of g. */
  ghost function PlayersOf(g: Game): set<Player>
    reads g, g.roomsById.Values
  {
    set r, q | r in g.roomsById.Values && q in r.playerMap.Values :: q
  }

  /** The current turns of the rooms of g. */
  ghost function TurnsOf(g: Game): set<Turn>
    reads g, g.roomsById.Values
  {
    set r | r in g.roomsById.Values && r.currentTurn != null :: r.currentTurn
  }

  /** HandleGameCommand: the token names a room and a member, the command
      name a handler, which is then run on them. */
  method HandleGameCommand(g: Game, token: Result<Token, string>, command: string, payload: Result<Payload, string>,
                           maxScore: int, minPlayers: int, rnd: seq<nat>)
    returns (status: Status, history: Option<seq<TurnData>>)
    requires RoomsValid(g)
    modifies g.roomsById.Values, TurnsOf(g), PlayersOf(g)
    ensures old(ResolveToken(g, token)).Err? ==> status == Failure(old(ResolveToken(g, token)).error)
    ensures old(ResolveToken(g, token)).Ok? && LookupCommand(command).Err? ==>
      status == Failure("Can't find that command")
    ensures old(ResolveToken(g, token)).Err? || LookupCommand(command).Err? ==>
      unchanged(g.roomsById.Values) && unchanged(TurnsOf(g)) && unchanged(PlayersOf(g))
    ensures history.Some? ==> old(ResolveToken(g, token)).Ok? && LookupCommand(command) == Ok(FetchHistoryCommand)
    // ready: the member ends up ready
    ensures var rp := old(ResolveToken(g, token));
      rp.Ok? && LookupCommand(command) == Ok(ReadyCommand) ==> status == Success && rp.value.1.IsReady()
    // fetch_history: HandleFetchHistory's answer
    ensures var rp := old(ResolveToken(g, token)); var r := if rp.Ok? then rp.value.0 else null;
      rp.Ok? && LookupCommand(command) == Ok(FetchHistoryCommand) ==>
      && (|old(r.turns)| <= 1 ==> status == Success && history == Some([]))
      && (|old(r.turns)| > 1 && old(r.currentTurn) == null ==> status == Crash)
      && (|old(r.turns)| > 1 && old(r.currentTurn) != null ==> status == Success && history == None)
    // submit_story: the nil-turn panic, the storyteller check, the payload, then the story recorded
    ensures var rp := old(ResolveToken(g, token)); var r := if rp.Ok? then rp.value.0 else null;
      var p := if rp.Ok? then rp.value.1 else null;
      rp.Ok? && LookupCommand(command) == Ok(SubmitStoryCommand) ==>
      && (old(r.currentTurn) == null ==> status == Crash)
      && (old(r.currentTurn) != null && p.id != old(r.currentTurn.storyPlayerId) ==> status == Failure("can't tell story now"))
      && (old(r.currentTurn) != null && p.id == old(r.currentTurn.storyPlayerId) && payload.Err? ==> status == Failure(payload.error))
      && (old(r.currentTurn) != null && p.id == old(r.currentTurn.storyPlayerId) && payload.Ok? ==>
            && status == Success && r.currentTurn == old(r.currentTurn)
            && r.currentTurn.story == payload.value.story && r.currentTurn.storyCard == payload.value.cardId
            && r.currentTurn.turnState == SelectingCards
            && r.discardCardIds == old(r.discardCardIds) + [payload.value.cardId])
    // submit_card: the payload, the nil-turn panic, a repeat submission, then the card submitted
    ensures var rp := old(ResolveToken(g, token)); var r := if rp.Ok? then rp.value.0 else null;
      var p := if rp.Ok? then rp.value.1 else null;
      rp.Ok? && LookupCommand(command) == Ok(SubmitCardCommand) ==>
      && (payload.Err? ==> status == Failure(payload.error))
      && (payload.Ok? && old(r.currentTurn) == null ==> status == Crash)
      && (payload.Ok? && old(r.currentTurn) != null && old(r.currentTurn.Submitted(p.id)) ==>
            status == Failure("already submitted the card"))
      && (payload.Ok? && old(r.currentTurn) != null && !old(r.currentTurn.Submitted(p.id)) ==>
            && status == Success && r.currentTurn == old(r.currentTurn)
            && r.currentTurn.cardsSubmitted == old(r.currentTurn.cardsSubmitted) + [CardSubmitted(p.id, payload.value.cardId)])
    // vote: the nil-turn panic, the phase check, the payload, then the vote appended
    ensures var rp := old(ResolveToken(g, token)); var r := if rp.Ok? then rp.value.0 else null;
      var p := if rp.Ok? then rp.value.1 else null;
      rp.Ok? && LookupCommand(command) == Ok(VoteCommand) ==>
      && (old(r.currentTurn) == null ==> status == Crash)
      && (old(r.currentTurn) != null && old(r.currentTurn.turnState) != Voting ==> status == Failure("can't vote now"))
      && (old(r.currentTurn) != null && old(r.currentTurn.turnState) == Voting && payload.Err? ==> status == Failure(payload.error))
      && (old(VoteAdmitted(r, payload)) ==>
            old(r.currentTurn).votes == old(r.currentTurn.votes) + [old(r.currentTurn.NewVote(p.id, payload.value.cardId))])
    // start: the owner check, the phase check, then a start exactly when everyone is ready and there are enough
    ensures var rp := old(ResolveToken(g, token)); var r := if rp.Ok? then rp.value.0 else null;
      var p := if rp.Ok? then rp.value.1 else null;
      rp.Ok? && LookupCommand(command) == Ok(StartCommand) ==>
      && (p.id != r.ownerId ==> status == Failure("not room owner"))
      && (p.id == r.ownerId && old(r.state) != WaitingForPlayers ==> status == Failure("already started"))
      && (p.id == r.ownerId && old(r.state) == WaitingForPlayers && old(AllReady(r.playerMap)) && |old(r.playerMap)| >= minPlayers ==>
            r.state == PlayingGame)
      && (p.id == r.ownerId && old(r.state) == WaitingForPlayers && !(old(AllReady(r.playerMap)) && |old(r.playerMap)| >= minPlayers) ==>
            status == Success && unchanged(r))
  {
    history := None;
    var resolved := ResolveToken(g, token);
    if resolved.Err? {
      return Failure(resolved.error), None;
    }
    var room, player := resolved.value.0, resolved.value.1;
    assert room == g.roomsById[ToLower(token.value.roomId)];
    assert room in g.roomsById.Values && room.currentTurn != null ==> room.currentTurn in TurnsOf(g);
    assert player in room.playerMap.Values;
    var handler := LookupCommand(command);
    if handler.Err? {
      return Failure(handler.error), None;
    }
    match handler.value
    case SubmitCardCommand =>
      status := HandleSubmitCard(room, player, payload);
    case SubmitStoryCommand =>
      status := HandleSubmitStory(room, player, payload);
    case VoteCommand =>
      status := HandleVote(room, player, payload, maxScore, rnd);
    case ReadyCommand =>
      status := HandleReady(player);
    case StartCommand =>
      var started;
      status, started := HandleStart(room, player, minPlayers, rnd);
    case FetchHistoryCommand =>
      status, history := HandleFetchHistory(room);
  }
}
