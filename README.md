# teexid rules engines in Dafny

teexid is an online version of the storytelling card game Dixit. Each turn
works like this:
- One player, the storyteller, tells a story about one of the cards in their hand.
- Every other player puts in a card of their own.
- The players then vote on which card was the storyteller's.
- Points go to the storyteller, to the players who found the story card, and
  to players whose cards drew votes.

The repository holds two independent server implementations of these rules,
plus client code that turns each turn's result into a game-log entry. This
project models all three and proves properties of the models:

- **Go server** (`server/game/...`, `server/turn_state.go`, `server/room_state.go`).
  - The `Room` and `Turn` objects, with their card ledger:
    - a draw pile dealt from its tail;
    - a discard pile that is reshuffled onto the draw pile when the draw pile runs short;
    - hands held by the players.
  - The turn phases, the 0/2 or 3/3 scoring rule with its +1 bonus, the end
    of the game, and the storyteller rotation in sorted-id order.
  - The voting view sent to each recipient, and who gets to see the story card.
  - The HTTP command handlers' decisions (join, submit story, submit card,
    ready, start, vote, fetch history, the command table).
  - The room registry: lookup by lower-cased name, create-if-absent, and the
    eviction sweep.
  - The JSON encoders of the two state enumerations.
- **TypeScript server** (`server/src/room.ts`, `game.ts`, `player.ts`): a
  separate engine with different rules:
  - the storyteller is chosen by the turn counter modulo the player count;
  - hands are topped up to five from the front of the deck;
  - each player has one vote at most, and a later vote replaces an earlier one;
  - the all-right and all-wrong tests hold vacuously when there are no votes.
- **Web client**: the game-log entry built from an `on_turn_result` message,
  in both versions:
  - the zustand store (`app/src/stores/RoomStore.tsx`), which prepends entries;
  - the React reducer (`app/src/contexts/RoomContext.tsx`), which appends
    entries and also adds the story card.

The Go and TypeScript code mutate objects in place: players, rooms, turns and
registries. Those objects become Dafny classes whose methods state their whole
new state. Each method is proved against a pure specification function:
- `DealPass` and `SendCards` for dealing;
- `ScoredPoints` and `Delta` for scoring;
- `VotingCards` for the voting view;
- `TopUpAll` and `Scored` for the TypeScript room.

Lemmas then prove what the source promises about those functions:
- conservation of cards;
- the scoring rule, player by player and in total;
- the rotation successor;
- that own submissions are hidden from their author;
- the dealing scenario of the repository's test, whatever the map iteration order.

Nondeterminism in the source is modelled as follows:
- Go map iteration order is a nondeterministic choice inside the method. The
  method returns the order it used, so contracts can speak about it.
- `rand.Shuffle` and `Math.random` are driven by an explicit stream of random
  choices. Contracts promise only "some permutation".
- Time, uuids, room ids and the current instant are parameters.

Failures are modelled as outcome values, not as preconditions:
- a Go panic (nil dereference, index out of range) is `Crash` or `ok == false`;
- a JavaScript `TypeError` on a missing map entry is `Threw`;
- an error message sent only to the caller is `Sent`.

Some behaviours of the code are easy to misread; the model follows the code
as written:
- **Repeat votes.** A repeat vote in the Go turn is appended, not rejected.
- **Storyteller submissions.** The storyteller is not barred from submitting
  a card.
- **Name case.** A room is stored under its name as given, so a name with
  upper-case letters cannot be found again (`GoGame.CreatedRoomFoundAgain`).
- **Panics.** Several of the Go errors are panics, not recoverable failures:
  a nil current turn, a nil vote, or a vote whose target is nil.
- **Join of a missing room.** The room is created with the caller as owner,
  but the caller is never added to its players.
- **`fetch_history`.** With more than one turn, the filled list is a shadowed
  local, so the answer carries no list.
- **`AddVote`.** Its own "invalid vote" error can never be returned. The log
  line after the append dereferences the unresolved vote first.

## Model

| member | source | states |
|---|---|---|
| GoStates.MarshalTurnState | server/turn_state.go:15-28 | Output always starts and ends with a double quote. Each of the five declared states gives its name in quotes; any other value gives `""`. |
| GoStates.MarshalTurnStateInjective | server/turn_state.go:15-21 | Distinct declared turn states marshal to distinct strings. |
| GoStates.MarshalRoomState | server/room_state.go:13-24 | WaitingForPlayers=0, PlayingGame=1 and Ended=2 give `"waiting"`, `"playing"` and `"ended"`. Any other int32 gives `""`; output is always quoted. |
| GoStates.MarshalRoomStateInjective | server/room_state.go:13-23 | The three declared room states marshal to three distinct strings. |
| GoPlayer.Player.constructor | server/game/player/player.go:23-30 | NewPlayer keeps the given id and name and starts not ready, with 0 points and an empty hand. |
| GoPlayer.Player.SetName | server/game/player/player.go:32-34 | Only the name changes. The id is a constant. |
| GoPlayer.Player.SetReady | server/game/player/player.go:36-39 | Both ready flags are set and nothing else changes, so a repeat call leaves the player as it was. |
| GoPlayer.Player.HasCard | server/game/player/player.go:41-48 | The search answers true exactly when the card is in the hand. |
| GoIds.LessIrreflexive | server/game/room/room.go:236-238 | No id sorts before itself under the string order of the sort. |
| GoIds.LessTransitive | server/game/room/room.go:236-238 | The string order of the sort is transitive. |
| GoIds.LessTotal | server/game/room/room.go:236-238 | Any two distinct ids are ordered one way or the other. |
| GoIds.LessAsymmetric | server/game/room/room.go:236-238 | Two ids are never each below the other. |
| GoIds.SortIdsSorted | server/game/room/room.go:231-238 | Sorting distinct ids gives a strictly increasing sequence of the same ids. |
| GoIds.SortedFirstIsMinimum | server/game/room/room.go:240-241 | With no previous turn, the first sorted id is the least player id. |
| GoIds.SortedRotation | server/game/room/room.go:244-253 | The id after the previous storyteller, wrapping to the front after the last, is the next larger id, or the least id when none is larger. |
| GoRecords.OtherAuthor | server/game/room/turn.go:67-77 | A non-story card goes to the author of the first submission of that card by someone other than the voter. There is none exactly when no such submission exists. |
| GoLedger.Take | server/game/room/room.go:272-277 | The count loop takes min(n, pile size) cards, and none for a non-positive n. |
| GoLedger.DealPass | server/game/room/room.go:270-286 | One dealing pass keeps the players' keys and never grows the pile. |
| GoLedger.DealAll | server/game/room/room.go:270-281 | The reference deal without the early return keeps the players' keys and never grows the pile. |
| GoLedger.DealNothing | server/game/room/room.go:272-281 | Once the pile is empty, or n is not positive, a pass changes no hand and no pile. |
| GoLedger.EarlyStopHarmless | server/game/room/room.go:283-285 | The early return on an empty hand changes nothing: the pass equals the deal that serves every player. |
| GoLedger.DealAllPrefix | server/game/room/room.go:280-281 | Dealing takes from the tail: the pile left is a prefix of the pile. |
| GoLedger.DealAllConserves | server/game/room/room.go:279-281 | The cards of the pile and of the hands together are the same multiset before and after a pass. |
| GoLedger.DealAllFrame | server/game/room/room.go:270-286 | A player outside the pass keeps their hand. |
| GoLedger.DealAllFull | server/game/room/room.go:270-281 | With n cards per player available, each player in the pass gains exactly n cards, taken from the tail in visiting order. |
| GoLedger.RecycleSpec | server/game/room/room.go:259-269 | Recycling happens only when the draw pile is smaller than the player count. The discard pile then becomes empty and a permutation of it is appended to the tail; otherwise both piles are unchanged. |
| GoLedger.SendCards | server/game/room/room.go:258-287 | sendCardsToEach on values keeps the players' keys. |
| GoLedger.SendCardsStages | server/game/room/room.go:258-287 | sendCardsToEach is the recycle step followed by one dealing pass. |
| GoLedger.SendCardsTwoFull | server/game/room/room.go:270-286 | With two players and at least 2n cards, each takes n. |
| GoLedger.SendCardsTwoShort | server/game/room/room.go:270-286 | With n + m cards left (m < n), the first player visited takes n and the second takes m. |
| GoLedger.SendCardsTwoEmpty | server/game/room/room.go:270-286 | With both piles empty, a pass deals nothing. |
| GoLedger.DealCardsScenario | server/game/room/room_test.go:38-70 | For any 11 cards, passes of 2, 1, 3 and 3 give hands of 2/2, 3/3, 6/5 and 6/5. The 6 goes to whichever player the third pass visits first, whatever the iteration orders. |
| GoLedger.SwapRemove | server/game/room/room.go:217-221 | As a multiset, the swap-with-last removal loses exactly the one card at the index and keeps the rest. |
| GoLedger.FirstIndex | server/game/room/room.go:204-211 | The search finds the first index holding the card, or none when the card is absent. |
| GoLedger.HandAfterDiscard | server/game/room/room.go:204-221 | A card not in hand leaves the hand unchanged. Otherwise exactly one copy leaves the hand. |
| GoScoring.VotesFor | server/game/room/room.go:303-308 | A count of votes received, between 0 and the number of votes. |
| GoScoring.VotesByFor | server/game/room/room.go:324-329 | A count of votes cast by a voter for a target, bounded by the votes received. |
| GoScoring.ResolvedCount | server/game/room/room.go:303-308 | A count of votes that name a target, bounded by the number of votes. |
| GoScoring.AllOrNoneScores | server/game/room/room.go:310-339 | When nobody or everybody finds the story card, the storyteller scores 0 and every other player 2 plus one per vote received. |
| GoScoring.SomeButNotAllScores | server/game/room/room.go:319-339 | Otherwise the storyteller scores 3 (each vote of their own for themselves adds 3 more). Every other player scores 3 per vote they gave the story card, plus one per vote received. |
| GoScoring.VotesForTarget | server/game/room/room.go:334-339 | Only players named as targets receive votes. |
| GoScoring.ScoredPoints | server/game/room/room.go:297-339 | The points after a scored turn are the points before plus each player's Delta, on the same players. |
| GoScoring.DeltaNonNegative | server/game/room/room.go:310-339 | Nobody loses points in a scored turn. |
| GoScoring.SumVotesForAll | server/game/room/room.go:334-339 | Over distinct players that include every target, each resolved vote counts for exactly one player. |
| GoScoring.SumVotesByForAll | server/game/room/room.go:324-329 | Over distinct players that include every voter, each vote for the story card counts for exactly one voter. |
| GoScoring.SumDeltaParts | server/game/room/room.go:310-339 | The total handed out splits into the 0/2 or 3/3 part and the bonus part. |
| GoScoring.TotalAwarded | server/game/room/room.go:310-339 | One turn hands out 2 to each non-storyteller, or 3 to the storyteller plus 3 per correct vote, plus one point per vote that did not go to the storyteller. |
| GoScoring.TwoForOthers | server/game/room/room.go:314-318 | The all-or-none loop keeps the players' keys. |
| GoScoring.ThreeForFinders | server/game/room/room.go:324-329 | The finders' loop keeps the players' keys. |
| GoScoring.BonusPoints | server/game/room/room.go:334-339 | The bonus loop keeps the players' keys. |
| GoScoring.TwoForOthersSpec | server/game/room/room.go:314-318 | Over distinct players, each listed player other than the storyteller gains 2 and nobody else gains anything. |
| GoScoring.ThreeForFindersSpec | server/game/room/room.go:324-329 | Each player gains 3 per vote they cast for the storyteller. |
| GoScoring.BonusPointsSpec | server/game/room/room.go:334-339 | Each player other than the storyteller gains one point per vote received. |
| GoScoring.ScoreExampleSplit | server/game/room/room.go:289-296 | One finder and one voter for the finder's card: the storyteller scores 3, the finder 3 + 1, the other player 0. |
| GoScoring.ScoreExampleAllRight | server/game/room/room.go:289-296 | Everybody finds the story card: the storyteller scores 0 and each other player 2. |
| GoScoring.ScoreExampleAllWrong | server/game/room/room.go:289-296 | Nobody finds the story card and the guessers vote for each other's cards: the storyteller scores 0 and each other player 2 + 1. |
| GoViews.CardsNotBy | server/game/room/room.go:93-98 | Exactly the cards of submissions not made by the recipient are listed, in submission order. |
| GoViews.CardsNotBySnoc | server/game/room/room.go:93-98 | The list grows at the end as the submissions do. |
| GoViews.VotingCards | server/game/room/room.go:92-101 | Outside Voting the list is empty. In Voting it holds everyone else's submissions plus the story card when that is not -1. |
| GoViews.OwnSubmissionHidden | server/game/room/room.go:93-98 | Every card the recipient sees is the story card or a card someone else submitted. |
| GoViews.StoryCardShown | server/game/room/room.go:130-134 | The storyteller sees the real story card; everyone else sees 0. |
| GoRoom.Turn.constructor | server/game/room/turn.go:26-36 | NewTurn: WaitingForStory, no votes, no submissions, story card -1, nil storyteller, empty story, and the room given. |
| GoRoom.Turn.AddCardSubmitted | server/game/room/turn.go:38-57 | A second submission by the same player id fails with "already submitted the card" and changes nothing. Otherwise one (player, card) pair is appended and the card is discarded through the room. The phase becomes Voting exactly when the submissions number players - 1. No phase or storyteller check. |
| GoRoom.Turn.AddVote | server/game/room/turn.go:59-90 | The resolved vote is appended before anything is checked; repeats are never rejected. The call succeeds exactly when the vote names a target, and otherwise crashes in the log line. |
| GoRoom.Room.constructor | server/game/room/room.go:36-56 | NewRoom: WaitingForPlayers, no players, no turns, no current turn, an empty discard pile, the given owner and id. The draw pile is a permutation of the given cards. |
| GoRoom.Room.PlayerOrder | server/game/room/room.go:58-64 | Players() lists every player id once, in some order. |
| GoRoom.Room.AddPlayer | server/game/room/room.go:177-179 | The player is stored under its id, replacing any player with that id; nothing else changes. |
| GoRoom.Room.DiscardCard | server/game/room/room.go:200-225 | The card always goes onto the discard pile. The hand becomes HandAfterDiscard of the old hand. |
| GoRoom.Room.DealTo | server/game/room/room.go:271-281 | The player takes the last min(n, size) cards of the draw pile onto the end of their hand, and the pile loses them. |
| GoRoom.Room.StartIndex | server/game/room/room.go:271-277 | The start index is the pile size minus the number taken. |
| GoRoom.Room.GiveCards | server/game/room/room.go:280 | The player's hand gains the cards at the end; no other hand or score changes. |
| GoRoom.Room.DealStep | server/game/room/room.go:270-286 | One loop step advances the remaining pass. When it takes the early return, the state is the whole pass's result. |
| GoRoom.Room.RecycleIfShort | server/game/room/room.go:259-269 | Both piles become what Recycle gives for the player count. |
| GoRoom.Room.DealLoop | server/game/room/room.go:270-286 | The hands and the pile become DealPass over the given order. Points are unchanged. |
| GoRoom.Room.DealRound | server/game/room/room.go:270-286 | The dealing pass runs over Players() order, which is returned. The result is DealPass over that order. |
| GoRoom.Room.SendCardsToEach | server/game/room/room.go:258-287 | The hands and both piles become SendCards over the returned order, and no points change. |
| GoRoom.Room.SortedPlayerIds | server/game/room/room.go:231-238 | The player ids, strictly sorted. |
| GoRoom.Room.FindNext | server/game/room/room.go:243-253 | The previous storyteller is found exactly when listed, and then the rotation successor is chosen. |
| GoRoom.Room.NextStoryteller | server/game/room/room.go:231-254 | With no turn, the least id, and a panic when there are no players. A surviving previous storyteller gives the rotation successor; a departed one gives the nil id. |
| GoRoom.Room.NextTurn | server/game/room/room.go:227-256 | Exactly one fresh, untold turn is appended. It is made current and told by NextStoryteller's choice; when that choice panics, the current turn stays unset. |
| GoRoom.Room.CountStoryVotes | server/game/room/room.go:303-308 | The count of votes for the storyteller. A nil vote or a nil target panics. |
| GoRoom.Room.TwoForOthersLoop | server/game/room/room.go:314-318 | The points become TwoForOthers over the order. |
| GoRoom.Room.AwardAllOrNone | server/game/room/room.go:312-318 | Every player except the storyteller gains 2. |
| GoRoom.Room.ThreeForFindersLoop | server/game/room/room.go:324-329 | The points become ThreeForFinders over the votes. |
| GoRoom.Room.AwardFinders | server/game/room/room.go:319-330 | The storyteller gains 3, and each voter gains 3 per vote for the storyteller. |
| GoRoom.Room.BonusLoop | server/game/room/room.go:334-339 | The points become BonusPoints over the votes. |
| GoRoom.Room.AwardBonus | server/game/room/room.go:332-339 | Every player except the storyteller gains one point per vote received. |
| GoRoom.Room.AwardStoryPoints | server/game/room/room.go:310-330 | Each player gains their 0/2 or 3/3 share for the given count of story votes. |
| GoRoom.Room.AwardPoints | server/game/room/room.go:303-339 | When every vote names a target, the points become ScoredPoints. Otherwise it panics before any point is given. |
| GoRoom.Room.AwardAll | server/game/room/room.go:310-339 | Each player gains exactly Delta; hands are unchanged. |
| GoRoom.Room.ScanWinner | server/game/room/room.go:342-349 | The loop finds no winner exactly when nobody in the order reaches maxScore. Otherwise the winner reaches it, has the most points, and is the first in order with that many. |
| GoRoom.Room.FindWinner | server/game/room/room.go:341-349 | Among all players, in the returned order: the same no-winner and winner conditions as ScanWinner. |
| GoRoom.Room.EndGame | server/game/room/room.go:399-403 | The room becomes Ended and nothing else changes. |
| GoRoom.Room.NextRound | server/game/room/room.go:359-364 | Each player is dealt one card (SendCards with 1). A fresh untold turn becomes current, with the rotation storyteller. |
| GoRoom.Room.FinishTurn | server/game/room/room.go:341-364 | With a player at or over maxScore, the room ends: no card is dealt and no turn is created. Otherwise the next round starts. |
| GoRoom.Room.MarkScoring | server/game/room/room.go:302 | The current turn's phase becomes Scoring and nothing else about it changes. |
| GoRoom.Room.ScoreTurn | server/game/room/room.go:297-368 | Nothing happens until votes number players - 1. Then: phase Scoring, points become ScoredPoints, and the game ends or the next round starts. A nil turn, a nil vote or a nil target panics. |
| GoRoom.Room.ScoreAllVotesIn | server/game/room/room.go:302-367 | ScoreTurn past its guard, with the same outcomes. |
| GoRoom.Room.StartGame | server/game/room/room.go:187-198 | The room is playing and every player is dealt five cards. The first turn is appended under the storyteller rule; with no players that choice panics. |
| GoRoom.Room.GetCardsForVoting | server/game/room/room.go:90-110 | A permutation of VotingCards for the recipient; empty with no turn. |
| GoRoom.Room.PlayersWhoSubmitted | server/game/room/room.go:112-124 | In Voting, the voters in vote order (a nil vote panics). In SelectingCards, the submitters in order. Otherwise nobody; a nil turn panics. |
| GoHandlers.LookupCommand | server/game/handlers/room_handler.go:184-217 | The six command names are found; any other name fails with "Can't find that command". |
| GoHandlers.LookupCommandName | server/game/handlers/room_handler.go:184-191 | Every command is found under its own name. |
| GoHandlers.ResolveToken | server/game/handlers/room_handler.go:159-179 | A token error is passed on. Otherwise the outcome is "room not found", or "player not found in the room", or the room found by name and its player stored under the token's id. |
| GoHandlers.ViewOnJoin | server/game/handlers/room_handler.go:108-150 | With no turn: NotStarted, an empty story, the nil storyteller and card 0. With a turn: its phase, story and storyteller, the story card only for the storyteller, and a permutation of VotingCards. |
| GoHandlers.FindMember | server/game/handlers/room_handler.go:72-80 | The member stored under the id, or none when there is no such member. |
| GoHandlers.HandleJoinRoom | server/game/handlers/room_handler.go:50-150 | A nil id, an empty name or an empty room name is rejected, in that order, with nothing changed. A missing room is created owned by the caller, who is not added to it. A member with a token rejoins unchanged. Others get "game in progress" once the game has started, and otherwise are added as a fresh player. |
| GoHandlers.JoinFoundRoom | server/game/handlers/room_handler.go:72-98 | The join decision in a found room, as for HandleJoinRoom. |
| GoHandlers.HandleSubmitStory | server/game/handlers/room_handler.go:228-249 | A nil current turn panics. Anyone but the storyteller fails with "can't tell story now" and nothing changes, as does a payload error. The storyteller's card is discarded, story and card are recorded, and the phase becomes SelectingCards, with no phase check. |
| GoHandlers.HandleSubmitCard | server/game/handlers/room_handler.go:252-277 | A payload error is passed on. Otherwise the card is submitted to the current turn with AddCardSubmitted's outcomes. A nil turn panics. |
| GoHandlers.HandleReady | server/game/handlers/room_handler.go:279-286 | The player ends up ready. A player already ready is left unchanged. |
| GoHandlers.CountReady | server/game/handlers/room_handler.go:295-301 | The loop's flag answers whether every player is ready; its count is the number of players. |
| GoHandlers.HandleStart | server/game/handlers/room_handler.go:288-306 | Fails with "not room owner" or "already started". Starts exactly when every player is ready and there are at least minPlayers. Otherwise succeeds with nothing changed. |
| GoHandlers.HandleVote | server/game/handlers/room_handler.go:308-331 | Outside Voting: "can't vote now" and nothing changed. Otherwise AddVote followed by ScoreTurn, with their outcomes. |
| GoHandlers.HandleFetchHistory | server/game/handlers/room_handler.go:333-373 | With at most one turn, an empty list. With more, no list at all, because of the shadowed local; a nil current turn panics. |
| GoHandlers.HandleGameCommand | server/game/handlers/room_handler.go:193-226 | A token failure or an unknown command is reported and changes nothing. A resolved command gets its handler's outcome. ready: Success, and the member is ready. fetch_history: HandleFetchHistory's status and list; no other command returns a list. submit_story: a nil-turn panic, "can't tell story now", the payload error, or Success with the story, card and SelectingCards recorded. submit_card: the payload error, a nil-turn panic, "already submitted the card", or Success with the submission appended. vote: a nil-turn panic, "can't vote now", the payload error, or the vote appended. start: "not room owner", "already started", a start exactly when everyone is ready and there are enough players, or Success with nothing changed. |
| GoGame.LowerChar | server/game/game.go:27 | An ASCII upper-case letter maps to its lower-case form; every other character is kept. |
| GoGame.ToLower | server/game/game.go:27 | strings.ToLower on ASCII: the same length, character by character. |
| GoGame.ToLowerFixed | server/game/game.go:27 | A name is its own lower-case form exactly when it has no upper-case letter. |
| GoGame.ToLowerIdempotent | server/game/game.go:27 | Lower-casing twice is lower-casing once. |
| GoGame.WholeMinutes | server/game/game.go:54-55 | int(d.Minutes()) truncates toward zero, on either side of 0. |
| GoGame.Surviving | server/game/game.go:53-58 | A room survives the sweep exactly when its age is under the limit, and survivors are unchanged. |
| GoGame.Game.constructor | server/game/game.go:19-24 | NewGame has no rooms. |
| GoGame.Game.FindByRoomName | server/game/game.go:26-29 | The room stored under the lower-cased name, if any. |
| GoGame.Game.NewDeck | server/game/game.go:36-39 | The deck 0 .. cardCount - 1, in order, and empty for a non-positive count. |
| GoGame.Game.CreateRoom | server/game/game.go:31-45 | A room found by name is returned with nothing changed. Otherwise a new room, with a permutation of the deck, is stored under the name as given. |
| GoGame.Game.Sweep | server/game/game.go:53-58 | The rooms become exactly those that survive at time now. Every key is visited once. |
| GoGame.CreatedRoomFoundAgain | server/game/game.go:31-45 | A new room is found again by its name exactly when the name has no upper-case letter. |
| Deck.Range | server/game/game.go:36-39 | The ids 0 .. n - 1 in order. |
| Deck.RangeIds | server/src/room.ts:449-452 | Range(n) holds each id below n exactly once. |
| Deck.SwapPermutes | server/src/room.ts:454-458 | Swapping two positions is a permutation. |
| Deck.ShufflePermutes | server/game/room/room.go:39-41 | Whatever the random choices, the swap shuffle is a permutation. |
| JsCollections.MapSet | server/src/room.ts:106 | Map.set: a new key goes to the end of the iteration order, and an existing key keeps its place. |
| JsCollections.MapSetDistinct | server/src/room.ts:106 | Map.set never lists a key twice. |
| JsCollections.FindIndex | server/src/room.ts:441 | The first index satisfying the test, or -1 exactly when none does. |
| JsCollections.Find | server/src/room.ts:243 | The first element satisfying the test, or undefined exactly when none does. |
| JsCollections.IndexOf | server/src/game.ts:39 | The first index holding the value, or -1 exactly when it is absent. |
| JsCollections.SpliceStart | server/src/game.ts:40 | A negative start counts from the end, and both ends are clamped. |
| JsCollections.Splice | server/src/game.ts:40 | splice(start, n) removes the clamped slice and returns it. |
| JsCollections.SpliceMinusOne | server/src/game.ts:39-40 | splice(-1, 1) removes the last element. |
| JsCollections.SpliceFront | server/src/room.ts:171 | splice(0, n) takes the first n elements, all when fewer remain, none when n is negative. |
| JsCollections.RemoveFirst | server/src/player.ts:71-76 | A missing element leaves the array unchanged. Otherwise the array is one shorter. |
| JsCollections.RemoveFirstSpec | server/src/player.ts:71-76 | Only the first occurrence is removed; the rest keep their order. |
| TsPlayer.Player.constructor | server/src/player.ts:6-10 | new Player(id): 0 points, status "unknown", no cards; name, room and ready flag undefined. |
| TsPlayer.Player.SetName | server/src/player.ts:15-17 | The name becomes the value given and nothing else changes. |
| TsPlayer.Player.SetRoomId | server/src/player.ts:35-37 | The room id becomes the value given and nothing else changes. |
| TsPlayer.Player.SetPoints | server/src/player.ts:43-45 | The points become the value given and nothing else changes. |
| TsPlayer.Player.SetReady | server/src/player.ts:51-53 | The ready flag becomes the value given and nothing else changes. |
| TsPlayer.Player.SetStatus | server/src/player.ts:63-65 | The status becomes the value given and nothing else changes. |
| TsPlayer.Player.DealCards | server/src/player.ts:67-69 | The cards are appended in the order given. |
| TsPlayer.Player.RemoveCard | server/src/player.ts:71-76 | The first card with the id is removed; a missing id changes nothing. |
| TsGame.Attach | server/src/game.ts:25-29 | The client is pushed onto its id's list, or a new list is set under the id. Other lists are kept. |
| TsGame.Detach | server/src/game.ts:36-42 | A listed client is spliced out. An unlisted client removes the last one (splice(-1, 1)). An id without a list changes nothing. |
| TsGame.FirstNamed | server/src/game.ts:139-141 | The first room, in insertion order, with exactly that name; none exactly when no room has it. |
| TsGame.Member | server/src/game.ts:161 | find(pid => pid === id) is truthy exactly when the id is listed and is not empty. |
| TsGame.NewRoom | server/src/game.ts:149 | A fresh room in its initial state, with the given name. |
| TsGame.AdmittedRoster | server/src/game.ts:159-204 | A refused join changes nothing. An accepted join leaves the player listed and pointed at the room; nobody is removed and at most one id is added. |
| TsGame.Admit | server/src/game.ts:159-204 | After a start, a non-member is refused. A member is pointed at the room and the roster is unchanged. While waiting, the player is pointed at the room, unreadied, and added unless already a member. |
| TsGame.ToEach | server/src/game.ts:209-212 | One delivery per client, in list order. |
| TsGame.DeliveriesExact | server/src/game.ts:216-230 | A message goes to a given client exactly when all hold: that client belongs to a listed player, the player is in the room, and the message function gives that message for the player. |
| TsGame.Game.constructor | server/src/game.ts:8-12 | No rooms, no clients, no players. |
| TsGame.Game.CreateRoom | server/src/game.ts:14-17 | A fresh room is stored under its id; with an unused id there is exactly one more room. |
| TsGame.Game.AddPlayerClient | server/src/game.ts:19-34 | An empty id is ignored. The client joins its id's list, and a Player is created only when none exists, so a reconnect keeps one entry. |
| TsGame.Game.RemovePlayerClient | server/src/game.ts:36-42 | The client lists become Detach of the old ones. |
| TsGame.Game.FindOrCreateRoom | server/src/game.ts:139-155 | The first room with exactly that name is used; otherwise a new room is stored under the new id. |
| TsGame.Game.JoinRoom | server/src/game.ts:137-205 | The room is found or created. Then a client without a Player throws, and otherwise Admit decides. |
| TsGame.Game.Send | server/src/game.ts:207-214 | The message goes once to each of the player's clients. |
| TsGame.Game.SendAll | server/src/game.ts:216-230 | Only players in the room, and only when their message is not null. |
| TsRoom.Restatus | server/src/room.ts:199-203 | Every record but the excepted one gets the status; nothing else changes. |
| TsRoom.RestatusFoldKeys | server/src/room.ts:199-203 | The forEach keeps the set of records. |
| TsRoom.RestatusFoldSpec | server/src/room.ts:199-203 | The forEach touches exactly the records under the ids it visits that are not excepted. |
| TsRoom.RestatusFoldCovers | server/src/room.ts:199-203 | Over ids covering every record, the forEach is Restatus. |
| TsRoom.RestatusEach | server/src/room.ts:230-234 | The loop gives Restatus of the records and keeps the key order. |
| TsRoom.RemoveCardIn | server/src/room.ts:439-445 | A missing record throws. Otherwise the record's hand loses its first copy of the card. |
| TsRoom.StoryTold | server/src/room.ts:197-210 | The records after a story keep their keys. |
| TsRoom.StoryToldBySteps | server/src/room.ts:197-210 | The teller's status, then everyone else's, then the card leaving the hand, give StoryTold. |
| TsRoom.Submitting | server/src/room.ts:218-220 | The records after a submission keep their keys. |
| TsRoom.CardSubmitted | server/src/room.ts:217-237 | The records after submitStoryCard keep their keys. |
| TsRoom.StatusCount | server/src/room.ts:222-226 | The filter count is at most the number of records. |
| TsRoom.TopUpCount | server/src/room.ts:171 | 5 - hand size, clamped: none for a full hand, never more than the deck, and never past 5. |
| TsRoom.TopUpAll | server/src/room.ts:169-173 | The dealing loop keeps the set of records. |
| TsRoom.TopUpAllShape | server/src/room.ts:169-173 | Only hands change, and only under the keys dealt to. |
| TsRoom.TopUpAllHand | server/src/room.ts:169-173 | A hand keeps its cards and gains only at the end. A full hand gains nothing; a short hand reaches 5 unless the deck runs out, and never passes 5. |
| TsRoom.TopUpAllHands | server/src/room.ts:169-173 | TopUpAllHand for every key dealt to. |
| TsRoom.TopUpAllConserves | server/src/room.ts:169-173 | The cards dealt, in order, followed by what is left of the deck, are the deck: the deck shrinks by exactly the cards dealt. |
| TsRoom.DealEach | server/src/room.ts:169-173 | The loop gives TopUpAll over the records in insertion order. |
| TsRoom.DealOne | server/src/room.ts:170-172 | One pass gives TopUp for that record. |
| TsRoom.VotersFor | server/src/room.ts:314-319 | The reduce lists exactly the voters for the player. |
| TsRoom.ScoreRule | server/src/room.ts:295-340 | With no votes both all-right and all-wrong hold. In the all/none case the storyteller gets 0 and everyone else 2. Otherwise the storyteller and each correct guesser get 3. Non-storytellers also get one point per voter for them. |
| TsRoom.VotersCount | server/src/room.ts:314-319 | Over distinct voters, the reduce lists each voter for the player once. |
| TsRoom.TurnResultOf | server/src/room.ts:51-84 | Null unless the turn is finished. "everyone_guessed" exactly when the story votes number players - 1. "nobody_guessed" exactly when there are none and the first test failed. |
| TsRoom.Occurrences | server/src/room.ts:304 | A count, at most the length of the list. |
| TsRoom.OccurrencesCount | server/src/room.ts:304 | The count is the multiplicity of the id, positive exactly when the id is listed. |
| TsRoom.PointsFold | server/src/room.ts:304-349 | The scoring loop keeps the set of records. |
| TsRoom.Scored | server/src/room.ts:304-349 | The scored records keep their keys. |
| TsRoom.RoundLog | server/src/room.ts:351-359 | The round log has a line exactly for each listed id with a record. |
| TsRoom.PointsFoldSpec | server/src/room.ts:304-349 | A record gains pointsToAdd once per listing of its id, and nothing else about it changes. |
| TsRoom.PointsFoldAt | server/src/room.ts:304-349 | A record's points gain add(k) for each listing of k. |
| TsRoom.LogFoldAt | server/src/room.ts:351-359 | A line exists exactly when k is listed and has a record. It is written at the last listing, with the points before that listing. |
| TsRoom.LogFoldSpec | server/src/room.ts:351-359 | LogFoldAt for every key. |
| TsRoom.FoldsCover | server/src/room.ts:304-362 | The two loops give Scored and RoundLog. |
| TsRoom.ScoreEach | server/src/room.ts:304-360 | The loop of scoreRound gives Scored and RoundLog. |
| TsRoom.ScoreOne | server/src/room.ts:305-359 | One pass: a listed id with a record gains its pointsToAdd and gets its log line; an id without a record changes nothing. |
| TsRoom.CastVote | server/src/room.ts:268 | The records after a vote keep their keys. |
| TsRoom.TellStoryIn | server/src/room.ts:197-210 | submitStory's record changes give StoryTold. |
| TsRoom.SubmitCardIn | server/src/room.ts:219-237 | A missing record throws. Otherwise the records become CardSubmitted, and the all-submitted test is returned. |
| TsRoom.CastVoteIn | server/src/room.ts:268-281 | The voter's status is set. When everyone has voted, everyone's status becomes finished. |
| TsRoom.ScoredFields | server/src/room.ts:287-363 | scoreRound keeps the records' keys. |
| TsRoom.Room.constructor | server/src/room.ts:20-90 | No players, turn 0, waiting, an empty table and no votes. The deck holds each of the ids 0..59 exactly once. |
| TsRoom.Room.ShuffleNewDeck | server/src/room.ts:448-465 | Whatever the random choices, the deck holds each of 0..59 exactly once. |
| TsRoom.Room.ShuffledIds | server/src/room.ts:449-463 | The fill loop and the swap loop give each id below n exactly once. |
| TsRoom.Room.AddPlayer | server/src/room.ts:100-118 | Unless waiting, it throws "Game already started" and nothing changes. Otherwise the id is appended without a repeat check, and a fresh record is set under it. |
| TsRoom.Room.MarkReady | server/src/room.ts:146-151 | The player's record, if any, becomes ready; nothing else changes. |
| TsRoom.Room.PickNextStoryTeller | server/src/room.ts:178-184 | The storyteller is playerIds[currentTurn mod n] and is marked as telling the story. With no players, it throws. |
| TsRoom.Room.DealHands | server/src/room.ts:169-173 | The records and the deck become TopUpAll over the records in insertion order. |
| TsRoom.Room.StartTurn | server/src/room.ts:153-176 | Playing and waiting for a story, with an empty table and no votes. The counter goes up before the storyteller is picked, then every hand is topped up. |
| TsRoom.Room.RemoveCardFromPlayer | server/src/room.ts:439-445 | The first copy of the card leaves the player's hand, and a missing card changes nothing. A missing record throws. |
| TsRoom.Room.SubmitStory | server/src/room.ts:186-215 | A non-storyteller is sent not_your_turn and nothing changes. Otherwise: guessing, story and card recorded, the card moved from the hand to the table, everyone else picking. |
| TsRoom.Room.SubmitStoryCard | server/src/room.ts:217-240 | The card goes on the table with no phase or duplicate check; a player without a record then throws. Otherwise the records become CardSubmitted, and voting starts when the submitted_card statuses number n - 1. |
| TsRoom.Room.ScoreRound | server/src/room.ts:287-363 | The fields become ScoredFields: points per listing of each id, and the round's log appended to scores. |
| TsRoom.Room.Vote | server/src/room.ts:242-285 | A card not on the table, or the voter's own card, is sent invalid_vote and nothing changes. Otherwise the voter's vote is set, and a later vote replaces an earlier one. When all have voted, the turn finishes and is scored. |
| TsRoom.LonePlayerEveryoneGuessed | server/src/room.ts:72-75 | With one player and no votes, a finished turn reads as everyone_guessed. |
| TsRoom.NoStoryVotesNobodyGuessed | server/src/room.ts:77-80 | With two or more players and no vote for the storyteller, a finished turn reads as nobody_guessed. |
| ClientLog.ToCards | app/src/contexts/RoomContext.tsx:75 | One card per id, in order. |
| ClientLog.LastIndex | app/src/stores/RoomStore.tsx:111-117 | The index of the last submission of card k, or -1 exactly when there is none. |
| ClientLog.LastSubmitter | app/src/stores/RoomStore.tsx:111-117 | The player of the last submission of card k, or none exactly when there is none. |
| ClientLog.CountFor | app/src/stores/RoomStore.tsx:120-122 | The filter count is at most the number of votes. |
| ClientLog.VotersOf | app/src/stores/RoomStore.tsx:127-132 | As many voters as votes for the card. |
| ClientLog.CountForExtremes | app/src/stores/RoomStore.tsx:119-125 | The count equals the number of votes exactly when every vote is for the card, and is 0 exactly when none is. |
| ClientLog.Submitted | app/src/stores/RoomStore.tsx:111-117 | The submissions loop builds a well-formed Map. |
| ClientLog.Tallied | app/src/stores/RoomStore.tsx:127-132 | The votes loop keeps the keys of the Map. |
| ClientLog.SubmittedSpec | app/src/stores/RoomStore.tsx:110-117 | One entry per submitted card id, by its last submitter, with no voters. |
| ClientLog.TalliedSpec | app/src/stores/RoomStore.tsx:127-132 | Each card in the Map gains exactly its voters, in vote order. |
| ClientLog.FillSubmitted | app/src/stores/RoomStore.tsx:111-117 | The loop gives Submitted. |
| ClientLog.TallyVotes | app/src/stores/RoomStore.tsx:127-132 | The loop gives Tallied. |
| ClientStore.StoreEntrySpec | app/src/stores/RoomStore.tsx:100-135 | Story, storyteller and story card are copied. One card per submitted id, by its last submitter, with its voters in vote order; the story card is not added. allVotesForStory and noVotesForStory hold exactly when every and no vote is for the story card. |
| ClientStore.NoVotesBothFlags | app/src/stores/RoomStore.tsx:124-125 | With no votes both flags hold. |
| ClientStore.AddGameLogEntry | app/src/stores/RoomStore.tsx:100-135 | The loops and the filter build StoreEntry. |
| ClientStore.OnTurnResult | app/src/stores/RoomStore.tsx:85-91 | The new entry is prepended to gameLog and nothing else changes. |
| ClientStore.LogNewestFirst | app/src/stores/RoomStore.tsx:85-91 | After a run of results, the log starts with their entries, newest first, followed by the old log; nothing else changes. |
| ClientContext.ContextEntrySpec | app/src/contexts/RoomContext.tsx:162-194 | The story card is in the Map as the storyteller's, with all votes for it, even when someone else submitted it. Every other submitted id is by its last submitter, with its voters in order. Both flags stay undefined. |
| ClientContext.AddGameLogEntry | app/src/contexts/RoomContext.tsx:162-194 | The loops and the story-card set build ContextEntry. |
| ClientContext.Spread | app/src/contexts/RoomContext.tsx:65-70 | Each field the payload carries replaces the state's. A payload with no fields leaves the state as it is. |
| ClientContext.Reduce | app/src/contexts/RoomContext.tsx:60-106 | An unknown type returns the previous state. on_turn_result appends the entry and keeps everything else. Only on_turn_result touches gameLog. on_joined sets cards and story cards from the ids, in order, and marks the player joined. on_cards replaces the cards only. |
| ClientContext.Provided | app/src/contexts/RoomContext.tsx:146-149 | An empty room id is filled in from the route; a non-empty one is kept, as are the other fields. |
| ClientContext.ResultEntries | app/src/contexts/RoomContext.tsx:82-87 | At most one entry per message. |
| ClientContext.LogOldestFirst | app/src/contexts/RoomContext.tsx:82-87 | After a run of messages, the log is the old log followed by one entry per on_turn_result, in arrival order. |
| ClientContext.LastRoomId | app/src/contexts/RoomContext.tsx:65-70 | None exactly when no payload of the run carries a room id; otherwise the room id of some payload that carries one. |
| ClientContext.RoomIdAfter | app/src/contexts/RoomContext.tsx:60-106 | After a run of messages, the room id is the last one a payload carried, or the earlier id when none carried one. |
| ClientContext.ProvidedRoomId | app/src/contexts/RoomContext.tsx:113-150 | From the initial state, after any run of messages: with no payload carrying a non-empty room id, consumers see the route's room id. Otherwise they see the last room id a payload carried, or the route's id when that last one is empty. The log holds exactly the results' entries, oldest first. |

## Left out

- Transport: HTTP requests and status codes, WebSocket connections, JSON
  decoding and encoding. A handler takes decoded arguments; a payload that
  fails to decode is a `Result` error passed in.
- Broadcasts: `BroadcastPlayers`, `BroadcastRoomState`, `revealTurnResults`
  and `updateRoomState`, and the messages `game.send` delivers. Only the views
  they compute per recipient are modelled: `GoViews.VotingCards`,
  `GoViews.StoryCardShown` and `GoHandlers.ViewOnJoin`. The TypeScript
  `updateRoomState` payload is not modelled.
- The TypeScript `game.handleMessage` switch, `updatePlayerName`,
  `updateLastSeen`, `updatePlayerLastSeen`, `updatePlayerRoomState` and
  `restartTurn`. These are message routing, clock readings, or calls outside
  this model.
- Concurrency: the registry and room locks. Every operation is sequential.
- Randomness: the shuffles take an explicit stream of random choices, and
  contracts state only that the result is a permutation. The TypeScript
  voting shuffle (`sort` with a random comparator) is not modelled.
- Time: `CreatedAt`, `lastSeen` and `inactive`. The sweep takes `now` as a
  parameter, and its timer is not modelled.
- JWT parsing and signing: a token is either a parsed (player id, room name)
  or an error. `HandleJoinRoom` sees only whether a token parsed.
- Configuration: the maximum score, the minimum number of players and the
  card count are parameters.
- uuid generation: ids are parameters. The Go nil uuid is a designated id.
- Go's `uuid.UUID` comparison is modelled on the canonical ASCII string form
  of the id.
- The zustand store's branches other than `on_turn_result`, which the store
  shares in shape with the reducer.
- `ClientContext.Spread`: the payload carries the fields the server sends for
  these types. Payload fields the client state does not declare are not kept.
- `ClientContext.Provided`: error messages from the socket are routed to
  navigation, not to the reducer. Navigation is not modelled, so the run of
  messages given to the reducer excludes them.
- `GoRoom.Room.StartGame`, `GoRoom.Room.NextTurn`: the turn's `CreatedAt` is
  not kept.
- `GoGame.Game.CreateRoom`, `TsGame.Game.CreateRoom`, `TsGame.NewRoom`: these
  promise the new room's initial fields and the permutation of its deck, but
  not the exact shuffled order, which depends on the random choices.
- `GoGame.WholeMinutes`: durations are whole nanoseconds, and `Minutes()` is
  computed exactly rather than in floating point.
- `GoGame.ToLower`: covers ASCII letters only. Player-chosen names outside
  ASCII are compared character by character without Unicode case folding.
- `GoRoom.Room.DealLoop`: the early `return` of the loop is modelled with a
  stop flag, and `GoLedger.EarlyStopHarmless` proves it unobservable.
- `JsCollections.MapValid`: a Map in the model lists its keys in insertion
  order. That each key is listed once (`KeysDistinct`) is proved only where an
  argument about iteration order needs it.
