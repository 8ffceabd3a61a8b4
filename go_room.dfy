/** The Go room and its turns (server/game/room/room.go, turn.go): the card
    ledger, the per-turn state machine, scoring, game end and storyteller
    rotation. Go's map iteration order is left open: every loop over the
    player map visits the players in some order the method returns, and its
    contract holds for every such order. */
module GoRoom {
  import opened Wrappers
  import opened GoIds
  import opened GoStates
  import opened GoRecords
  import opened GoLedger
  import opened GoScoring
  import opened GoViews
  import opened GoPlayer
  import Deck

  /** The hands of the players of a player map, by key. */
  ghost function HandsOf(m: map<PlayerId, Player>): (h: Hands)
    reads m.Values
    ensures h.Keys == m.Keys
  {
    map k | k in m :: m[k].cards
  }

  /** The points of the players of a player map, by key. */
  ghost function PointsOf(m: map<PlayerId, Player>): (pts: map<PlayerId, int>)
    reads m.Values
    ensures pts.Keys == m.Keys
  {
    map k | k in m :: m[k].points
  }

  /** The storyteller of a new turn (room.go:240-254): the least id when
      there was no turn before; otherwise the rotation successor of the
      previous storyteller when it is still a member, else the nil id. */
  ghost predicate StorytellerRule(first: bool, prev: PlayerId, next: PlayerId, ids: set<PlayerId>)
  {
    if first then IsMinimum(next, ids)
    else if prev in ids then IsRotation(next, prev, ids)
    else next == Nil
  }

  /** A turn (turn.go:14-24). Id and CreatedAt are not modelled. */
  class Turn {
    const room: Room
    var turnState: TurnState
    /** None is a nil *vote.Vote. */
    var votes: seq<Option<Vote>>
    var cardsSubmitted: seq<CardSubmitted>
    var storyPlayerId: PlayerId
    var story: string
    var storyCard: int

    /** NewTurn */
    constructor (r: Room)
      ensures room == r
      ensures turnState == WaitingForStory && votes == [] && cardsSubmitted == []
      ensures storyCard == -1 && storyPlayerId == Nil && story == ""
    {
      room := r;
      turnState := WaitingForStory;
      votes := [];
      cardsSubmitted := [];
      storyCard := -1;
      storyPlayerId := Nil;
      story := "";
    }

    /** Every vote's voter, and its Voted player when there is one, is one
        of keys. */
    ghost predicate VotesWithin(keys: set<PlayerId>)
      reads this
    {
      forall i :: 0 <= i < |votes| && votes[i].Some? ==>
        votes[i].value.voter in keys && (votes[i].value.voted.Some? ==> votes[i].value.voted.value in keys)
    }

    predicate Submitted(playerId: PlayerId)
      reads this
    {
      exists i :: 0 <= i < |cardsSubmitted| && cardsSubmitted[i].playerId == playerId
    }

    /** AddCardSubmitted: one submission per player id, then the card is
        discarded through the room, and the phase becomes Voting once all
        players but one have submitted. Neither the phase nor the storyteller
        is checked. */
    method AddCardSubmitted(p: Player, cardId: int) returns (status: Status)
      modifies this, room, p
      ensures old(Submitted(p.id)) ==> status == Failure("already submitted the card")
      ensures old(Submitted(p.id)) ==>
        && cardsSubmitted == old(cardsSubmitted) && turnState == old(turnState)
        && p.cards == old(p.cards) && room.discardCardIds == old(room.discardCardIds)
      ensures !old(Submitted(p.id)) ==> status == Success
      ensures !old(Submitted(p.id)) ==>
        && cardsSubmitted == old(cardsSubmitted) + [CardSubmitted(p.id, cardId)]
        && room.discardCardIds == old(room.discardCardIds) + [cardId]
        && p.cards == HandAfterDiscard(old(p.cards), cardId)
        && turnState == (if |cardsSubmitted| == |room.playerMap| - 1 then Voting else old(turnState))
      ensures votes == old(votes) && storyPlayerId == old(storyPlayerId) && story == old(story) && storyCard == old(storyCard)
      ensures p.points == old(p.points) && p.readyState == old(p.readyState) && p.ready == old(p.ready)
      ensures room.state == old(room.state) && room.playerMap == old(room.playerMap) && room.cardIds == old(room.cardIds)
      ensures room.turns == old(room.turns) && room.currentTurn == old(room.currentTurn)
    {
      var i := 0;
      while i < |cardsSubmitted|
        invariant 0 <= i <= |cardsSubmitted|
        invariant forall j :: 0 <= j < i ==> cardsSubmitted[j].playerId != p.id
      {
        if cardsSubmitted[i].playerId == p.id {
          return Failure("already submitted the card");
        }
        i := i + 1;
      }
      cardsSubmitted := cardsSubmitted + [CardSubmitted(p.id, cardId)];
      room.DiscardCard(p, cardId);
      if |cardsSubmitted| == |room.playerMap| - 1 {
        turnState := Voting;
      }
      return Success;
    }

    /** The vote AddVote appends for voter and cardId: the storyteller for
        the story card, else the author of the first other player's
        submission of that card, or a nil vote. */
    function NewVote(voter: PlayerId, cardId: int): Option<Vote>
      reads this, room
    {
      if cardId == storyCard then Some(Vote(voter, room.MemberId(storyPlayerId), cardId))
      else match OtherAuthor(cardsSubmitted, cardId, voter)
        case None => None
        case Some(author) => Some(Vote(voter, room.MemberId(author), cardId))
    }

    /** AddVote appends the vote before anything is checked and never rejects
        a repeat vote. The log line after the append reads the vote's Voted
        player, so a nil vote or a nil Voted crashes; its own "invalid vote"
        error, returned only when no vote was built, is never reached. */
    method AddVote(voter: Player, cardId: int) returns (status: Status)
      modifies this
      ensures votes == old(votes) + [old(NewVote(voter.id, cardId))]
      ensures status == Success <==> Resolved(votes[|votes| - 1])
      ensures status == Success || status == Crash
      ensures old(VotesWithin(room.playerMap.Keys)) && voter.id in room.playerMap && room.KeyedById() ==>
        VotesWithin(room.playerMap.Keys)
      ensures turnState == old(turnState) && cardsSubmitted == old(cardsSubmitted)
      ensures storyPlayerId == old(storyPlayerId) && story == old(story) && storyCard == old(storyCard)
    {
      var newVote: Option<Vote> := None;
      if cardId == storyCard {
        newVote := Some(Vote(voter.id, room.MemberId(storyPlayerId), cardId));
      } else {
        var i := 0;
        while i < |cardsSubmitted|
          invariant 0 <= i <= |cardsSubmitted|
          invariant forall j :: 0 <= j < i ==> !Eligible(cardsSubmitted[j], cardId, voter.id)
        {
          if Eligible(cardsSubmitted[i], cardId, voter.id) {
            assert FirstEligible(cardsSubmitted, i, cardId, voter.id);
            newVote := Some(Vote(voter.id, room.MemberId(cardsSubmitted[i].playerId), cardId));
            break;
          }
          i := i + 1;
        }
      }
      assert newVote.Some? ==> newVote.value.voter == voter.id;
      votes := votes + [newVote];
      if newVote.None? || newVote.value.voted.None? {
        return Crash;
      }
      return Success;
    }

    /** The state NewTurn leaves a turn in, the storyteller aside. */
    predicate Untold()
      reads this
    {
      turnState == WaitingForStory && votes == [] && cardsSubmitted == [] && storyCard == -1 && story == ""
    }

    /** All players minus the storyteller have voted. */
    predicate HasAllVotes()
      reads this, room
    {
      |votes| == |room.playerMap| - 1
    }
  }

  class Room {
    const id: string
    var state: RoomState
    const ownerId: PlayerId
    var playerMap: map<PlayerId, Player>
    var cardIds: seq<int>
    var discardCardIds: seq<int>
    var turns: seq<Turn>
    var currentTurn: Turn?
    /** time.Now() at creation, in nanoseconds */
    const createdAt: int

    /** Every player is stored under its own id. */
    ghost predicate KeyedById()
      reads this
    {
      forall k :: k in playerMap ==> playerMap[k].id == k
    }

    /** Every player is stored under its own id, and the current turn is the
        last turn, belongs to this room and only names members in its votes. */
    ghost predicate Valid()
      reads this, currentTurn
    {
      KeyedById() &&
      (currentTurn != null ==>
        |turns| > 0 && turns[|turns| - 1] == currentTurn && currentTurn.room == this &&
        currentTurn.VotesWithin(playerMap.Keys))
    }

    /** The id of the player a PlayerMap lookup yields: None is a nil
        *player.Player. */
    function MemberId(k: PlayerId): (r: Option<PlayerId>)
      reads this
      ensures r.Some? <==> k in playerMap
    {
      if k in playerMap then Some(playerMap[k].id) else None
    }

    /** NewRoom: the deck is shuffled by the random choices rnd. */
    constructor (cards: seq<int>, playerId: PlayerId, roomId: string, now: int, rnd: seq<nat>)
      ensures Valid()
      ensures id == roomId && ownerId == playerId && createdAt == now
      ensures state == WaitingForPlayers && playerMap == map[]
      ensures turns == [] && currentTurn == null && discardCardIds == []
      ensures |cardIds| == |cards| && multiset(cardIds) == multiset(cards)
    {
      Deck.ShufflePermutes(cards, rnd);
      id := roomId;
      state := WaitingForPlayers;
      ownerId := playerId;
      playerMap := map[];
      cardIds := Deck.Shuffle(cards, rnd);
      discardCardIds := [];
      turns := [];
      currentTurn := null;
      createdAt := now;
    }

    /** Players(): the ids of the players, in some map iteration order. */
    method PlayerOrder() returns (order: seq<PlayerId>)
      ensures Distinct(order) && |order| == |playerMap|
      ensures forall k :: k in order <==> k in playerMap
    {
      order := [];
      var rest := playerMap.Keys;
      while rest != {}
        invariant rest <= playerMap.Keys
        invariant forall k :: k in playerMap ==> (k in order <==> k !in rest)
        invariant forall k :: k in order ==> k in playerMap
        invariant Distinct(order) && |order| + |rest| == |playerMap|
        decreases |rest|
      {
        var k :| k in rest;
        order := order + [k];
        rest := rest - {k};
      }
    }

    /** AddPlayer stores p under its id, replacing a player with that id. */
    method AddPlayer(p: Player)
      requires Valid()
      modifies this
      ensures Valid()
      ensures playerMap == old(playerMap)[p.id := p]
      ensures state == old(state) && cardIds == old(cardIds) && discardCardIds == old(discardCardIds)
      ensures turns == old(turns) && currentTurn == old(currentTurn)
    {
      playerMap := playerMap[p.id := p];
    }

    /** DiscardCard: the card goes to the discard pile whether or not p holds
        it; if p does, the first copy is swapped with the last card and the
        hand shortened. */
    method DiscardCard(p: Player, cardId: int)
      modifies this, p
      ensures discardCardIds == old(discardCardIds) + [cardId]
      ensures p.cards == HandAfterDiscard(old(p.cards), cardId)
      ensures p.points == old(p.points) && p.name == old(p.name) && p.readyState == old(p.readyState) && p.ready == old(p.ready)
      ensures state == old(state) && playerMap == old(playerMap) && cardIds == old(cardIds)
      ensures turns == old(turns) && currentTurn == old(currentTurn)
    {
      discardCardIds := discardCardIds + [cardId];
      var idxToRemove := -1;
      var index := 0;
      while index < |p.cards|
        invariant 0 <= index <= |p.cards|
        invariant cardId !in p.cards[..index]
      {
        if p.cards[index] == cardId {
          idxToRemove := index;
          break;
        }
        assert p.cards[..index + 1] == p.cards[..index] + [p.cards[index]];
        index := index + 1;
      }
      if idxToRemove == -1 {
        assert p.cards[..index] == p.cards;
        return;
      }
      assert idxToRemove == FirstIndex(p.cards, cardId);
      var lastCard := |p.cards| - 1;
      p.cards := p.cards[idxToRemove := p.cards[lastCard]];
      p.cards := p.cards[..lastCard];
    }

    /** One step of the dealing loop: the player stored under k takes the
        last cardCount cards of the draw pile, or all of them when fewer are
        left (room.go:271-281). */
    method DealTo(k: PlayerId, cardCount: int)
      requires Valid() && k in playerMap
      modifies this, playerMap[k]
      ensures Valid()
      ensures var start := |old(cardIds)| - Take(cardCount, |old(cardIds)|);
        && HandsOf(playerMap) == old(HandsOf(playerMap))[k := old(HandsOf(playerMap))[k] + old(cardIds)[start..]]
        && cardIds == old(cardIds)[..start]
      ensures PointsOf(playerMap) == old(PointsOf(playerMap))
      ensures state == old(state) && playerMap == old(playerMap) && discardCardIds == old(discardCardIds)
      ensures turns == old(turns) && currentTurn == old(currentTurn)
    {
      var startIndex := StartIndex(cardCount);
      GiveCards(k, cardIds[startIndex..]);
      SetPile(cardIds[..startIndex]);
    }

    /** The draw pile becomes pile. */
    method SetPile(pile: seq<int>)
      requires Valid()
      modifies this
      ensures Valid()
      ensures cardIds == pile
      ensures state == old(state) && playerMap == old(playerMap) && discardCardIds == old(discardCardIds)
      ensures turns == old(turns) && currentTurn == old(currentTurn)
      ensures HandsOf(playerMap) == old(HandsOf(playerMap)) && PointsOf(playerMap) == old(PointsOf(playerMap))
    {
      cardIds := pile;
    }

    /** "Calculate N cards from the end" (room.go:271-277): the index of the
        first of the last cardCount cards of the draw pile, 0 when fewer are
        left. */
    method StartIndex(cardCount: int) returns (startIndex: nat)
      ensures startIndex == |cardIds| - Take(cardCount, |cardIds|)
    {
      startIndex := |cardIds|;
      var i := 0;
      while i < cardCount && startIndex > 0
        invariant 0 <= startIndex <= |cardIds| && i == |cardIds| - startIndex
        invariant i <= Take(cardCount, |cardIds|)
      {
        startIndex := startIndex - 1;
        i := i + 1;
      }
    }

    /** The player stored under k gets cards at the end of the hand
        (room.go:280). */
    method GiveCards(k: PlayerId, cards: seq<int>)
      requires Valid() && k in playerMap
      modifies playerMap[k]
      ensures Valid()
      ensures HandsOf(playerMap) == old(HandsOf(playerMap))[k := old(HandsOf(playerMap))[k] + cards]
      ensures PointsOf(playerMap) == old(PointsOf(playerMap))
    {
      var p := playerMap[k];
      ghost var h := HandsOf(playerMap);
      ghost var pts := PointsOf(playerMap);
      p.cards := p.cards + cards;
      forall j | j in playerMap && j != k
        ensures playerMap[j] != p
      {
        assert playerMap[j].id == j;
      }
      assert HandsOf(playerMap) == h[k := p.cards];
      assert PointsOf(playerMap) == pts;
    }

    /** The body of the dealing loop for the player order[j]; stop is the
        early return taken when that player's hand is empty. */
    method DealStep(order: seq<PlayerId>, j: nat, cardCount: int) returns (stop: bool)
      requires Valid() && j < |order|
      requires forall i :: 0 <= i < |order| ==> order[i] in playerMap
      modifies this, playerMap[order[j]]
      ensures Valid()
      ensures state == old(state) && playerMap == old(playerMap) && discardCardIds == old(discardCardIds)
      ensures turns == old(turns) && currentTurn == old(currentTurn)
      ensures PointsOf(playerMap) == old(PointsOf(playerMap))
      ensures stop ==> (HandsOf(playerMap), cardIds) == old(DealFrom(HandsOf(playerMap), cardIds, order, j, cardCount))
      ensures !stop ==> DealFrom(HandsOf(playerMap), cardIds, order, j + 1, cardCount) == old(DealFrom(HandsOf(playerMap), cardIds, order, j, cardCount))
    {
      DealTo(order[j], cardCount);
      var p := playerMap[order[j]];
      assert p.cards == HandsOf(playerMap)[order[j]];
      stop := |p.cards| == 0;
    }

    /** The recycle step of sendCardsToEach (room.go:259-269). */
    method RecycleIfShort(rnd: seq<nat>)
      requires Valid()
      modifies this
      ensures Valid()
      ensures (cardIds, discardCardIds) == Recycle(old(cardIds), old(discardCardIds), |playerMap|, rnd)
      ensures HandsOf(playerMap) == old(HandsOf(playerMap)) && PointsOf(playerMap) == old(PointsOf(playerMap))
      ensures state == old(state) && playerMap == old(playerMap)
      ensures turns == old(turns) && currentTurn == old(currentTurn)
    {
      var playerCount := |playerMap|;
      if |cardIds| < playerCount {
        cardIds := cardIds + Deck.Shuffle(discardCardIds, rnd);
        discardCardIds := [];
      }
    }

    /** The dealing loop of sendCardsToEach over the players in order. */
    method DealLoop(order: seq<PlayerId>, cardCount: int)
      requires Valid()
      requires forall i :: 0 <= i < |order| ==> order[i] in playerMap
      modifies this, playerMap.Values
      ensures Valid()
      ensures state == old(state) && playerMap == old(playerMap) && discardCardIds == old(discardCardIds)
      ensures turns == old(turns) && currentTurn == old(currentTurn)
      ensures PointsOf(playerMap) == old(PointsOf(playerMap))
      ensures (HandsOf(playerMap), cardIds) == old(DealPass(HandsOf(playerMap), cardIds, order, cardCount))
    {
      DealFromIsDealPass(HandsOf(playerMap), cardIds, order, 0, cardCount);
      assert order[0..] == order;
      ghost var target := DealFrom(HandsOf(playerMap), cardIds, order, 0, cardCount);
      ghost var pts := PointsOf(playerMap);
      var j := 0;
      var stop := false;
      while j < |order| && !stop
        invariant 0 <= j <= |order|
        invariant Valid() && playerMap == old(playerMap)
        invariant state == old(state) && turns == old(turns) && currentTurn == old(currentTurn)
        invariant discardCardIds == old(discardCardIds)
        invariant PointsOf(playerMap) == pts
        invariant !stop ==> DealFrom(HandsOf(playerMap), cardIds, order, j, cardCount) == target
        invariant stop ==> (HandsOf(playerMap), cardIds) == target
        decreases |order| - j, !stop
      {
        stop := DealStep(order, j, cardCount);
        if !stop {
          j := j + 1;
        }
      }
    }

    /** The dealing stage of sendCardsToEach: one pass over the players in
        the returned order. */
    method DealRound(cardCount: int) returns (order: seq<PlayerId>)
      requires Valid()
      modifies this, playerMap.Values
      ensures Valid()
      ensures state == old(state) && playerMap == old(playerMap) && discardCardIds == old(discardCardIds)
      ensures turns == old(turns) && currentTurn == old(currentTurn)
      ensures Distinct(order) && |order| == |playerMap|
      ensures forall i :: 0 <= i < |order| ==> order[i] in playerMap
      ensures (HandsOf(playerMap), cardIds) == DealPass(old(HandsOf(playerMap)), old(cardIds), order, cardCount)
      ensures PointsOf(playerMap) == old(PointsOf(playerMap))
    {
      order := PlayerOrder();
      DealLoop(order, cardCount);
    }

    /** sendCardsToEach: recycle the discard pile, shuffled by rnd, when the
        draw pile holds fewer cards than there are players; then deal to the
        players in the returned order. */
    method SendCardsToEach(cardCount: int, rnd: seq<nat>) returns (order: seq<PlayerId>)
      requires Valid()
      modifies this, playerMap.Values
      ensures Valid()
      ensures state == old(state) && playerMap == old(playerMap)
      ensures turns == old(turns) && currentTurn == old(currentTurn)
      ensures Distinct(order) && |order| == |playerMap|
      ensures forall i :: 0 <= i < |order| ==> order[i] in playerMap
      ensures (HandsOf(playerMap), cardIds, discardCardIds) ==
        SendCards(old(HandsOf(playerMap)), old(cardIds), old(discardCardIds), order, cardCount, rnd)
      ensures PointsOf(playerMap) == old(PointsOf(playerMap))
    {
      ghost var h0 := HandsOf(playerMap);
      assert |h0| == |playerMap| by {
        assert h0.Keys == playerMap.Keys;
      }
      RecycleIfShort(rnd);
      ghost var p1 := cardIds;
      ghost var d1 := discardCardIds;
      order := DealRound(cardCount);
      SendCardsStages(h0, old(cardIds), old(discardCardIds), order, cardCount, rnd);
      assert (p1, d1) == Recycle(old(cardIds), old(discardCardIds), |h0|, rnd);
    }

    /** The player ids of nextTurn sorted by their string order
        (room.go:231-238); the ids of the players are their keys. */
    method SortedPlayerIds() returns (sorted: seq<PlayerId>)
      ensures StrictlySorted(sorted)
      ensures (set x | x in sorted) == playerMap.Keys
    {
      var playerIds := PlayerOrder();
      SortIdsSorted(playerIds);
      sorted := SortIds(playerIds);
      assert forall x :: x in sorted <==> x in multiset(sorted);
    }

    /** The search of nextTurn for the previous storyteller among the sorted
        ids (room.go:243-253). */
    static method FindNext(sorted: seq<PlayerId>, prev: PlayerId) returns (found: bool, next: PlayerId)
      requires StrictlySorted(sorted)
      ensures found <==> prev in sorted
      ensures found ==> IsRotation(next, prev, set x | x in sorted)
    {
      var idx := 0;
      while idx < |sorted|
        invariant 0 <= idx <= |sorted|
        invariant prev !in sorted[..idx]
      {
        if sorted[idx] == prev {
          SortedRotation(sorted, idx);
          if idx + 1 >= |sorted| {
            next := sorted[0];
          } else {
            next := sorted[idx + 1];
          }
          return true, next;
        }
        assert sorted[..idx + 1] == sorted[..idx] + [sorted[idx]];
        idx := idx + 1;
      }
      assert sorted[..idx] == sorted;
      return false, Nil;
    }

    /** The storyteller nextTurn picks. ok is false when there is no current
        turn and no player, where indexing the sorted ids panics. */
    method NextStoryteller() returns (ok: bool, storyteller: PlayerId)
      ensures ok <==> currentTurn != null || |playerMap| > 0
      ensures ok && currentTurn == null ==> IsMinimum(storyteller, playerMap.Keys)
      ensures ok && currentTurn != null && currentTurn.storyPlayerId in playerMap ==>
        IsRotation(storyteller, currentTurn.storyPlayerId, playerMap.Keys)
      ensures ok && currentTurn != null && currentTurn.storyPlayerId !in playerMap ==>
        storyteller == Nil
    {
      var sorted := SortedPlayerIds();
      if currentTurn == null {
        if |sorted| == 0 {
          assert sorted == [];
          assert playerMap.Keys == {};
          return false, Nil;
        }
        SortedFirstIsMinimum(sorted);
        return true, sorted[0];
      }
      var found;
      found, storyteller := FindNext(sorted, currentTurn.storyPlayerId);
      if !found {
        storyteller := Nil;
      }
      return true, storyteller;
    }

    /** nextTurn: a fresh turn is appended and made current, told by
        NextStoryteller's choice. When that choice panics the new turn has
        already been appended and the current turn stays unset. */
    method NextTurn() returns (ok: bool)
      requires Valid()
      modifies this
      ensures Valid()
      ensures ok <==> old(currentTurn) != null || |playerMap| > 0
      ensures |turns| == |old(turns)| + 1 && turns[..|old(turns)|] == old(turns)
      ensures fresh(turns[|turns| - 1]) && turns[|turns| - 1].room == this
      ensures turns[|turns| - 1].Untold()
      ensures ok ==> currentTurn == turns[|turns| - 1]
      ensures !ok ==> currentTurn == null
      ensures ok && old(currentTurn) == null ==> IsMinimum(currentTurn.storyPlayerId, playerMap.Keys)
      ensures ok && old(currentTurn) != null && old(currentTurn.storyPlayerId) in playerMap ==>
        IsRotation(currentTurn.storyPlayerId, old(currentTurn.storyPlayerId), playerMap.Keys)
      ensures ok && old(currentTurn) != null && old(currentTurn.storyPlayerId) !in playerMap ==>
        currentTurn.storyPlayerId == Nil
      ensures state == old(state) && playerMap == old(playerMap)
      ensures cardIds == old(cardIds) && discardCardIds == old(discardCardIds)
      ensures HandsOf(playerMap) == old(HandsOf(playerMap)) && PointsOf(playerMap) == old(PointsOf(playerMap))
    {
      var storyteller;
      ok, storyteller := NextStoryteller();
      var t := new Turn(this);
      PushTurn(t, ok, storyteller);
    }

    /** Appends the new turn t to the turns; when current holds, t is told by
        storyteller and becomes the current turn. */
    method PushTurn(t: Turn, current: bool, storyteller: PlayerId)
      requires Valid() && t.room == this && t.Untold()
      requires t !in turns && t != currentTurn
      modifies this, t
      ensures Valid() || !current
      ensures turns == old(turns) + [t] && t.Untold()
      ensures current ==> currentTurn == t && t.storyPlayerId == storyteller
      ensures !current ==> currentTurn == old(currentTurn)
      ensures state == old(state) && playerMap == old(playerMap)
      ensures cardIds == old(cardIds) && discardCardIds == old(discardCardIds)
      ensures HandsOf(playerMap) == old(HandsOf(playerMap)) && PointsOf(playerMap) == old(PointsOf(playerMap))
    {
      turns := turns + [t];
      if current {
        t.storyPlayerId := storyteller;
        currentTurn := t;
      }
    }

    /** The points of the player stored under k go up by n. */
    method AddPoints(k: PlayerId, n: int)
      requires Valid() && k in playerMap
      modifies playerMap[k]
      ensures Valid()
      ensures PointsOf(playerMap) == old(PointsOf(playerMap))[k := old(PointsOf(playerMap))[k] + n]
      ensures HandsOf(playerMap) == old(HandsOf(playerMap))
    {
      var p := playerMap[k];
      ghost var h := HandsOf(playerMap);
      ghost var pts := PointsOf(playerMap);
      p.points := p.points + n;
      forall j | j in playerMap && j != k
        ensures playerMap[j] != p
      {
        assert playerMap[j].id == j;
      }
      assert HandsOf(playerMap) == h;
      assert PointsOf(playerMap) == pts[k := p.points];
    }

    /** The count of votes for the storyteller in ScoreTurn (room.go:303-308):
        reading vote.Voted.Id of a nil vote or a nil Voted panics (ok is
        false). */
    method CountStoryVotes() returns (ok: bool, count: nat)
      requires currentTurn != null
      ensures ok <==> AllResolved(currentTurn.votes)
      ensures ok ==> count == VotesFor(currentTurn.votes, currentTurn.storyPlayerId)
    {
      var votes := currentTurn.votes;
      var story := currentTurn.storyPlayerId;
      count := 0;
      var i := 0;
      while i < |votes|
        invariant 0 <= i <= |votes|
        invariant AllResolved(votes[..i])
        invariant count == VotesFor(votes[..i], story)
      {
        var v := votes[i];
        if v.None? || v.value.voted.None? {
          assert !Resolved(votes[i]);
          return false, 0;
        }
        assert votes[..i + 1][..i] == votes[..i];
        if v.value.voted.value == story {
          count := count + 1;
        }
        i := i + 1;
      }
      assert votes[..i] == votes;
      ok := true;
    }

    /** The loop of the all-or-none branch over the players in order. */
    method TwoForOthersLoop(order: seq<PlayerId>, story: PlayerId)
      requires Valid()
      requires forall i :: 0 <= i < |order| ==> order[i] in playerMap
      modifies playerMap.Values
      ensures Valid()
      ensures PointsOf(playerMap) == TwoForOthers(old(PointsOf(playerMap)), order, story)
      ensures HandsOf(playerMap) == old(HandsOf(playerMap))
    {
      ghost var p0 := PointsOf(playerMap);
      var j := 0;
      while j < |order|
        invariant 0 <= j <= |order|
        invariant Valid()
        invariant HandsOf(playerMap) == old(HandsOf(playerMap))
        invariant PointsOf(playerMap) == TwoForOthers(p0, order[..j], story)
      {
        assert order[..j + 1][..j] == order[..j];
        if order[j] != story {
          AddPoints(order[j], 2);
        }
        j := j + 1;
      }
      assert order[..j] == order;
    }

    /** The all-or-none branch of ScoreTurn (room.go:312-318): every player
        but the storyteller gets 2. */
    method AwardAllOrNone(story: PlayerId)
      requires Valid()
      modifies playerMap.Values
      ensures Valid()
      ensures forall k :: k in playerMap ==>
        PointsOf(playerMap)[k] == old(PointsOf(playerMap))[k] + (if k != story then 2 else 0)
      ensures HandsOf(playerMap) == old(HandsOf(playerMap))
    {
      var order := PlayerOrder();
      TwoForOthersLoop(order, story);
      TwoForOthersSpec(old(PointsOf(playerMap)), order, story);
    }

    /** The loop over the votes of the other branch of ScoreTurn. */
    method ThreeForFindersLoop(votes: seq<Option<Vote>>, story: PlayerId)
      requires Valid()
      requires forall i :: 0 <= i < |votes| && votes[i].Some? ==> votes[i].value.voter in playerMap
      modifies playerMap.Values
      ensures Valid()
      ensures PointsOf(playerMap) == ThreeForFinders(old(PointsOf(playerMap)), votes, story)
      ensures HandsOf(playerMap) == old(HandsOf(playerMap))
    {
      ghost var p0 := PointsOf(playerMap);
      var i := 0;
      while i < |votes|
        invariant 0 <= i <= |votes|
        invariant Valid()
        invariant HandsOf(playerMap) == old(HandsOf(playerMap))
        invariant PointsOf(playerMap) == ThreeForFinders(p0, votes[..i], story)
      {
        assert votes[..i + 1][..i] == votes[..i];
        if votes[i].Some? && votes[i].value.voted == Some(story) {
          AddPoints(votes[i].value.voter, 3);
        }
        i := i + 1;
      }
      assert votes[..i] == votes;
    }

    /** The other branch of ScoreTurn (room.go:319-330): the storyteller gets
        3, and so does every voter for each vote for the storyteller. */
    method AwardFinders()
      requires Valid() && currentTurn != null && currentTurn.storyPlayerId in playerMap
      modifies playerMap.Values
      ensures Valid()
      ensures forall k :: k in playerMap ==>
        PointsOf(playerMap)[k] == old(PointsOf(playerMap))[k]
          + (if k == currentTurn.storyPlayerId then 3 else 0)
          + 3 * VotesByFor(currentTurn.votes, k, currentTurn.storyPlayerId)
      ensures HandsOf(playerMap) == old(HandsOf(playerMap))
    {
      var story := currentTurn.storyPlayerId;
      AddPoints(story, 3);
      ghost var p1 := PointsOf(playerMap);
      ThreeForFindersLoop(currentTurn.votes, story);
      ThreeForFindersSpec(p1, currentTurn.votes, story);
    }

    /** The bonus loop of ScoreTurn over the votes. */
    method BonusLoop(votes: seq<Option<Vote>>, story: PlayerId)
      requires Valid()
      requires forall i :: 0 <= i < |votes| ==> Resolved(votes[i]) && votes[i].value.voted.value in playerMap
      modifies playerMap.Values
      ensures Valid()
      ensures PointsOf(playerMap) == BonusPoints(old(PointsOf(playerMap)), votes, story)
      ensures HandsOf(playerMap) == old(HandsOf(playerMap))
    {
      ghost var p0 := PointsOf(playerMap);
      var i := 0;
      while i < |votes|
        invariant 0 <= i <= |votes|
        invariant Valid()
        invariant HandsOf(playerMap) == old(HandsOf(playerMap))
        invariant PointsOf(playerMap) == BonusPoints(p0, votes[..i], story)
      {
        assert votes[..i + 1][..i] == votes[..i];
        var target := votes[i].value.voted.value;
        if target != story {
          AddPoints(target, 1);
        }
        i := i + 1;
      }
      assert votes[..i] == votes;
    }

    /** The bonus loop of ScoreTurn (room.go:332-339), over resolved votes:
        every player but the storyteller gets one point per vote received. */
    method AwardBonus()
      requires Valid() && currentTurn != null && AllResolved(currentTurn.votes)
      modifies playerMap.Values
      ensures Valid()
      ensures forall k :: k in playerMap ==>
        PointsOf(playerMap)[k] == old(PointsOf(playerMap))[k]
          + (if k != currentTurn.storyPlayerId then VotesFor(currentTurn.votes, k) else 0)
      ensures HandsOf(playerMap) == old(HandsOf(playerMap))
    {
      BonusLoop(currentTurn.votes, currentTurn.storyPlayerId);
      BonusPointsSpec(old(PointsOf(playerMap)), currentTurn.votes, currentTurn.storyPlayerId);
    }

    /** The 0/2 or 3/3 awards of ScoreTurn (room.go:310-330), given the
        number of votes for the storyteller. */
    method AwardStoryPoints(count: nat)
      requires Valid() && currentTurn != null
      requires count == VotesFor(currentTurn.votes, currentTurn.storyPlayerId)
      modifies playerMap.Values
      ensures Valid()
      ensures forall k :: k in playerMap ==>
        PointsOf(playerMap)[k] == old(PointsOf(playerMap))[k] + StoryPoints(currentTurn.votes, currentTurn.storyPlayerId, |playerMap|, k)
      ensures HandsOf(playerMap) == old(HandsOf(playerMap))
    {
      var story := currentTurn.storyPlayerId;
      var allRightOrAllWrong := count == 0 || count == |playerMap| - 1;
      if allRightOrAllWrong {
        AwardAllOrNone(story);
      } else {
        VotesForTarget(currentTurn.votes, playerMap.Keys, story);
        AwardFinders();
      }
    }

    /** ScoreTurn once every vote is in and the phase is Scoring
        (room.go:303-339). ok is false when a nil vote or a nil Voted player
        is read, which panics before any point is given. */
    method AwardPoints() returns (ok: bool)
      requires Valid() && currentTurn != null
      modifies playerMap.Values
      ensures Valid()
      ensures ok <==> AllResolved(currentTurn.votes)
      ensures ok ==> PointsOf(playerMap) == ScoredPoints(old(PointsOf(playerMap)), currentTurn.votes, currentTurn.storyPlayerId)
      ensures !ok ==> PointsOf(playerMap) == old(PointsOf(playerMap))
      ensures HandsOf(playerMap) == old(HandsOf(playerMap))
    {
      var count;
      ok, count := CountStoryVotes();
      if !ok {
        return;
      }
      ghost var p0 := PointsOf(playerMap);
      assert |p0| == |playerMap| by {
        assert p0.Keys == playerMap.Keys;
      }
      ghost var p1 := AwardAll(count);
      ghost var target := ScoredPoints(p0, currentTurn.votes, currentTurn.storyPlayerId);
      forall k | k in target
        ensures p1[k] == target[k]
      {
      }
      assert p1 == target;
    }

    /** The two award passes (room.go:310-339); next are the points after. */
    method AwardAll(count: nat) returns (ghost next: map<PlayerId, int>)
      requires Valid() && currentTurn != null
      requires count == VotesFor(currentTurn.votes, currentTurn.storyPlayerId)
      requires AllResolved(currentTurn.votes)
      modifies playerMap.Values
      ensures Valid()
      ensures next == PointsOf(playerMap) && next.Keys == playerMap.Keys
      ensures forall k :: k in playerMap ==>
        next[k] == old(PointsOf(playerMap))[k] + Delta(currentTurn.votes, currentTurn.storyPlayerId, |playerMap|, k)
      ensures HandsOf(playerMap) == old(HandsOf(playerMap))
    {
      AwardStoryPoints(count);
      AwardBonus();
      next := PointsOf(playerMap);
    }

    /** No player before position i of order has as many points as order[i]. */
    ghost predicate FirstWithPoints(pts: map<PlayerId, int>, order: seq<PlayerId>, i: nat)
      requires i < |order| && forall j :: 0 <= j <= i ==> order[j] in pts
    {
      forall j :: 0 <= j < i ==> pts[order[j]] < pts[order[i]]
    }

    /** The loop of the search for a winner over the players in order. */
    method ScanWinner(order: seq<PlayerId>, maxScore: int) returns (winner: Option<PlayerId>)
      requires forall j :: 0 <= j < |order| ==> order[j] in playerMap
      ensures winner.Some? ==> winner.value in playerMap
      ensures var pts := PointsOf(playerMap);
        winner.None? <==> forall j :: 0 <= j < |order| ==> pts[order[j]] < maxScore
      ensures var pts := PointsOf(playerMap);
        winner.Some? ==> forall j :: 0 <= j < |order| ==> pts[order[j]] <= pts[winner.value]
      ensures winner.Some? ==>
        exists i :: 0 <= i < |order| && order[i] == winner.value && PointsOf(playerMap)[winner.value] >= maxScore &&
          FirstWithPoints(PointsOf(playerMap), order, i)
    {
      ghost var pts := PointsOf(playerMap);
      winner := None;
      ghost var w := 0;
      var i := 0;
      while i < |order|
        invariant 0 <= i <= |order| && 0 <= w <= i
        invariant winner.None? <==> forall j :: 0 <= j < i ==> pts[order[j]] < maxScore
        invariant winner.Some? ==> w < i && order[w] == winner.value && pts[winner.value] >= maxScore
        invariant winner.Some? ==> playerMap[winner.value].points == pts[winner.value]
        invariant winner.Some? ==> forall j :: 0 <= j < i ==> pts[order[j]] <= pts[winner.value]
        invariant winner.Some? ==> forall j :: 0 <= j < w ==> pts[order[j]] < pts[winner.value]
      {
        var p := playerMap[order[i]];
        assert p.points == pts[order[i]];
        if p.points >= maxScore && (winner.None? || playerMap[winner.value].points < p.points) {
          winner := Some(order[i]);
          w := i;
        }
        i := i + 1;
      }
      assert winner.Some? ==> FirstWithPoints(pts, order, w);
    }

    /** The search for a winner (room.go:341-349): among the players, in the
        returned order, reaching maxScore, the first with the most points. */
    method FindWinner(maxScore: int) returns (winner: Option<PlayerId>, order: seq<PlayerId>)
      ensures Distinct(order) && forall k :: k in order <==> k in playerMap
      ensures var pts := PointsOf(playerMap);
        winner.None? <==> forall k :: k in pts ==> pts[k] < maxScore
      ensures var pts := PointsOf(playerMap);
        winner.Some? ==> winner.value in pts && pts[winner.value] >= maxScore
      ensures var pts := PointsOf(playerMap);
        winner.Some? ==> forall k :: k in pts ==> pts[k] <= pts[winner.value]
      ensures winner.Some? ==>
        exists i :: 0 <= i < |order| && order[i] == winner.value && FirstWithPoints(PointsOf(playerMap), order, i)
    {
      order := PlayerOrder();
      winner := ScanWinner(order, maxScore);
      ghost var pts := PointsOf(playerMap);
      forall k | k in pts
        ensures exists j :: 0 <= j < |order| && order[j] == k
      {
        assert k in order;
      }
    }

    /** endGame */
    method EndGame()
      modifies this
      ensures state == Ended
      ensures playerMap == old(playerMap) && cardIds == old(cardIds) && discardCardIds == old(discardCardIds)
      ensures turns == old(turns) && currentTurn == old(currentTurn)
      ensures Valid() <==> old(Valid())
      ensures HandsOf(playerMap) == old(HandsOf(playerMap)) && PointsOf(playerMap) == old(PointsOf(playerMap))
    {
      state := Ended;
    }

    /** The next round after a turn without winner (room.go:359-364): every
        player is dealt one card and the next turn starts. */
    method NextRound(rnd: seq<nat>) returns (order: seq<PlayerId>)
      requires Valid() && currentTurn != null
      modifies this, playerMap.Values
      ensures Valid()
      ensures playerMap == old(playerMap) && PointsOf(playerMap) == old(PointsOf(playerMap))
      ensures state == old(state)
      ensures forall i :: 0 <= i < |order| ==> order[i] in playerMap
      ensures (HandsOf(playerMap), cardIds, discardCardIds) ==
        SendCards(old(HandsOf(playerMap)), old(cardIds), old(discardCardIds), order, 1, rnd)
      ensures |turns| == |old(turns)| + 1 && turns[..|old(turns)|] == old(turns)
      ensures currentTurn == turns[|turns| - 1] && fresh(currentTurn) && currentTurn.Untold()
      ensures StorytellerRule(false, old(currentTurn.storyPlayerId), currentTurn.storyPlayerId, playerMap.Keys)
    {
      order := SendCardsToEach(1, rnd);
      var _ := NextTurn();
    }

    /** What ScoreTurn does once the points are awarded (room.go:341-364):
        a player at or over maxScore ends the game; otherwise the next round
        starts. */
    method FinishTurn(maxScore: int, rnd: seq<nat>) returns (ended: bool, order: seq<PlayerId>)
      requires Valid() && currentTurn != null
      modifies this, playerMap.Values
      ensures Valid()
      ensures playerMap == old(playerMap) && PointsOf(playerMap) == old(PointsOf(playerMap))
      ensures ended <==> exists k :: k in playerMap && PointsOf(playerMap)[k] >= maxScore
      ensures ended ==>
        && state == Ended && order == []
        && turns == old(turns) && currentTurn == old(currentTurn)
        && cardIds == old(cardIds) && discardCardIds == old(discardCardIds)
        && HandsOf(playerMap) == old(HandsOf(playerMap))
      ensures !ended ==>
        && state == old(state)
        && (forall i :: 0 <= i < |order| ==> order[i] in playerMap)
        && (HandsOf(playerMap), cardIds, discardCardIds) ==
             SendCards(old(HandsOf(playerMap)), old(cardIds), old(discardCardIds), order, 1, rnd)
        && |turns| == |old(turns)| + 1 && turns[..|old(turns)|] == old(turns)
        && currentTurn == turns[|turns| - 1] && fresh(currentTurn) && currentTurn.Untold()
        && StorytellerRule(false, old(currentTurn.storyPlayerId), currentTurn.storyPlayerId, playerMap.Keys)
    {
      var winner, _ := FindWinner(maxScore);
      if winner.Some? {
        assert PointsOf(playerMap)[winner.value] >= maxScore;
        EndGame();
        return true, [];
      }
      ended := false;
      order := NextRound(rnd);
    }

    /** The phase of the current turn becomes Scoring (room.go:302). */
    method MarkScoring()
      requires Valid() && currentTurn != null
      modifies currentTurn
      ensures Valid()
      ensures currentTurn.turnState == Scoring
      ensures currentTurn.votes == old(currentTurn.votes) && currentTurn.cardsSubmitted == old(currentTurn.cardsSubmitted)
      ensures currentTurn.storyPlayerId == old(currentTurn.storyPlayerId)
      ensures currentTurn.story == old(currentTurn.story) && currentTurn.storyCard == old(currentTurn.storyCard)
      ensures HandsOf(playerMap) == old(HandsOf(playerMap)) && PointsOf(playerMap) == old(PointsOf(playerMap))
    {
      currentTurn.turnState := Scoring;
    }

    /** The current turn has every vote in, and every vote names a player. */
    ghost predicate ReadyToScore()
      reads this, currentTurn
    {
      currentTurn != null && |currentTurn.votes| == |playerMap| - 1 && AllResolved(currentTurn.votes)
    }

    /** ScoreTurn (room.go:297-368) with the maximum score of the
        configuration; rnd are the random choices of a recycle of the
        discard pile. A nil current turn, a nil vote and a vote with a nil
        Voted player panic (Crash). Until every vote is in nothing happens.
        Once scored, a player at or over maxScore ends the game; otherwise
        each player is dealt one card, in the returned order, and the next
        turn starts. */
    method ScoreTurn(maxScore: int, rnd: seq<nat>) returns (status: Status, order: seq<PlayerId>)
      requires Valid()
      modifies this, currentTurn, playerMap.Values
      ensures Valid()
      ensures playerMap == old(playerMap)
      ensures status == Success || status == Crash
      ensures status == Crash <==>
        old(currentTurn) == null || (old(currentTurn.HasAllVotes()) && !AllResolved(old(currentTurn.votes)))
      ensures old(currentTurn) != null && old(currentTurn.HasAllVotes()) ==> old(currentTurn).turnState == Scoring
      ensures old(currentTurn) != null ==> old(currentTurn).votes == old(currentTurn.votes)
      ensures !old(ReadyToScore()) ==>
        && state == old(state) && turns == old(turns) && currentTurn == old(currentTurn) && order == []
        && cardIds == old(cardIds) && discardCardIds == old(discardCardIds)
        && HandsOf(playerMap) == old(HandsOf(playerMap)) && PointsOf(playerMap) == old(PointsOf(playerMap))
      ensures old(ReadyToScore()) ==>
        PointsOf(playerMap) == ScoredPoints(old(PointsOf(playerMap)), old(currentTurn.votes), old(currentTurn.storyPlayerId))
      ensures old(ReadyToScore()) && (exists k :: k in playerMap && PointsOf(playerMap)[k] >= maxScore) ==>
        && state == Ended && order == []
        && turns == old(turns) && currentTurn == old(currentTurn)
        && cardIds == old(cardIds) && discardCardIds == old(discardCardIds)
        && HandsOf(playerMap) == old(HandsOf(playerMap))
      ensures old(ReadyToScore()) && (forall k :: k in playerMap ==> PointsOf(playerMap)[k] < maxScore) ==>
        && state == old(state)
        && (forall i :: 0 <= i < |order| ==> order[i] in playerMap)
        && (HandsOf(playerMap), cardIds, discardCardIds) ==
             SendCards(old(HandsOf(playerMap)), old(cardIds), old(discardCardIds), order, 1, rnd)
        && |turns| == |old(turns)| + 1 && turns[..|old(turns)|] == old(turns)
        && currentTurn == turns[|turns| - 1] && fresh(currentTurn) && currentTurn.Untold()
        && StorytellerRule(false, old(currentTurn.storyPlayerId), currentTurn.storyPlayerId, playerMap.Keys)
    {
      if currentTurn == null {
        return Crash, [];
      }
      if !currentTurn.HasAllVotes() {
        return Success, [];
      }
      status, order := ScoreAllVotesIn(maxScore, rnd);
    }

    /** ScoreTurn past its guard (room.go:302-367). */
    method ScoreAllVotesIn(maxScore: int, rnd: seq<nat>) returns (status: Status, order: seq<PlayerId>)
      requires Valid() && currentTurn != null
      modifies this, currentTurn, playerMap.Values
      ensures Valid()
      ensures playerMap == old(playerMap)
      ensures status == Success || status == Crash
      ensures status == Crash <==> !AllResolved(old(currentTurn.votes))
      ensures old(currentTurn).turnState == Scoring
      ensures old(currentTurn).votes == old(currentTurn.votes)
      ensures status == Crash ==>
        && state == old(state) && turns == old(turns) && currentTurn == old(currentTurn) && order == []
        && cardIds == old(cardIds) && discardCardIds == old(discardCardIds)
        && HandsOf(playerMap) == old(HandsOf(playerMap)) && PointsOf(playerMap) == old(PointsOf(playerMap))
      ensures status == Success ==>
        PointsOf(playerMap) == ScoredPoints(old(PointsOf(playerMap)), old(currentTurn.votes), old(currentTurn.storyPlayerId))
      ensures status == Success && (exists k :: k in playerMap && PointsOf(playerMap)[k] >= maxScore) ==>
        && state == Ended && order == []
        && turns == old(turns) && currentTurn == old(currentTurn)
        && cardIds == old(cardIds) && discardCardIds == old(discardCardIds)
        && HandsOf(playerMap) == old(HandsOf(playerMap))
      ensures status == Success && (forall k :: k in playerMap ==> PointsOf(playerMap)[k] < maxScore) ==>
        && state == old(state)
        && (forall i :: 0 <= i < |order| ==> order[i] in playerMap)
        && (HandsOf(playerMap), cardIds, discardCardIds) ==
             SendCards(old(HandsOf(playerMap)), old(cardIds), old(discardCardIds), order, 1, rnd)
        && |turns| == |old(turns)| + 1 && turns[..|old(turns)|] == old(turns)
        && currentTurn == turns[|turns| - 1] && fresh(currentTurn) && currentTurn.Untold()
        && StorytellerRule(false, old(currentTurn.storyPlayerId), currentTurn.storyPlayerId, playerMap.Keys)
    {
      MarkScoring();
      var ok := AwardPoints();
      if !ok {
        return Crash, [];
      }
      var ended;
      ended, order := FinishTurn(maxScore, rnd);
      return Success, order;
    }

    /** StartGame (room.go:187-198): the room is playing, every player is
        dealt five cards, in the returned order, and the first turn starts.
        ok is false when the storyteller cannot be chosen (an empty room
        with no turn: indexing the sorted ids panics). */
    method StartGame(rnd: seq<nat>) returns (ok: bool, order: seq<PlayerId>)
      requires Valid()
      modifies this, playerMap.Values
      ensures Valid()
      ensures state == PlayingGame
      ensures playerMap == old(playerMap) && PointsOf(playerMap) == old(PointsOf(playerMap))
      ensures forall i :: 0 <= i < |order| ==> order[i] in playerMap
      ensures (HandsOf(playerMap), cardIds, discardCardIds) ==
        SendCards(old(HandsOf(playerMap)), old(cardIds), old(discardCardIds), order, 5, rnd)
      ensures |turns| == |old(turns)| + 1 && turns[..|old(turns)|] == old(turns)
      ensures fresh(turns[|turns| - 1]) && turns[|turns| - 1].Untold()
      ensures ok <==> old(currentTurn) != null || |playerMap| > 0
      ensures !ok ==> currentTurn == null
      ensures ok ==> currentTurn == turns[|turns| - 1]
      ensures ok ==>
        StorytellerRule(old(currentTurn) == null, if old(currentTurn) != null then old(currentTurn.storyPlayerId) else Nil,
          currentTurn.storyPlayerId, playerMap.Keys)
    {
      SetState(PlayingGame);
      order := SendCardsToEach(5, rnd);
      ok := NextTurn();
    }

    /** The room's state becomes s. */
    method SetState(s: RoomState)
      requires Valid()
      modifies this
      ensures Valid() && state == s
      ensures playerMap == old(playerMap) && cardIds == old(cardIds) && discardCardIds == old(discardCardIds)
      ensures turns == old(turns) && currentTurn == old(currentTurn)
      ensures HandsOf(playerMap) == old(HandsOf(playerMap)) && PointsOf(playerMap) == old(PointsOf(playerMap))
    {
      state := s;
    }

    /** GetCardsForVoting (room.go:90-110): outside the Voting phase nothing;
        otherwise the cards submitted by others and the story card when it
        is set, in an order chosen by the random choices rnd. */
    method GetCardsForVoting(recipient: PlayerId, rnd: seq<nat>) returns (cards: seq<int>)
      ensures currentTurn == null ==> cards == []
      ensures currentTurn != null ==>
        multiset(cards) == multiset(VotingCards(currentTurn.turnState, currentTurn.cardsSubmitted, currentTurn.storyCard, recipient))
    {
      cards := [];
      if currentTurn != null && currentTurn.turnState == Voting {
        var subs := currentTurn.cardsSubmitted;
        var i := 0;
        while i < |subs|
          invariant 0 <= i <= |subs|
          invariant cards == CardsNotBy(subs[..i], recipient)
        {
          assert subs[..i + 1] == subs[..i] + [subs[i]];
          CardsNotBySnoc(subs[..i], subs[i], recipient);
          if subs[i].playerId != recipient {
            cards := cards + [subs[i].cardId];
          }
          i := i + 1;
        }
        assert subs[..i] == subs;
        if currentTurn.storyCard != -1 {
          cards := cards + [currentTurn.storyCard];
        }
        Deck.ShufflePermutes(cards, rnd);
        cards := Deck.Shuffle(cards, rnd);
      }
    }

    /** GetPlayersWhoSubmitted (room.go:112-124): the voters in Voting, the
        submitters in SelectingCards, nobody otherwise. None stands for the
        panic on a nil current turn or a nil vote. */
    method PlayersWhoSubmitted() returns (r: Option<seq<PlayerId>>)
      ensures currentTurn == null ==> r.None?
      ensures currentTurn != null && currentTurn.turnState == Voting ==>
        && (r.None? <==> exists i :: 0 <= i < |currentTurn.votes| && currentTurn.votes[i].None?)
        && (r.Some? ==> |r.value| == |currentTurn.votes|)
        && (r.Some? ==> forall i :: 0 <= i < |r.value| ==> currentTurn.votes[i].Some? && r.value[i] == currentTurn.votes[i].value.voter)
      ensures currentTurn != null && currentTurn.turnState == SelectingCards ==>
        && r.Some? && |r.value| == |currentTurn.cardsSubmitted|
        && forall i :: 0 <= i < |r.value| ==> r.value[i] == currentTurn.cardsSubmitted[i].playerId
      ensures currentTurn != null && currentTurn.turnState != Voting && currentTurn.turnState != SelectingCards ==>
        r == Some([])
    {
      if currentTurn == null {
        return None;
      }
      var submittedBy := [];
      if currentTurn.turnState == Voting {
        var votes := currentTurn.votes;
        var i := 0;
        while i < |votes|
          invariant 0 <= i <= |votes| && |submittedBy| == i
          invariant forall j :: 0 <= j < i ==> votes[j].Some? && submittedBy[j] == votes[j].value.voter
        {
          if votes[i].None? {
            return None;
          }
          submittedBy := submittedBy + [votes[i].value.voter];
          i := i + 1;
        }
      } else if currentTurn.turnState == SelectingCards {
        var subs := currentTurn.cardsSubmitted;
        var i := 0;
        while i < |subs|
          invariant 0 <= i <= |subs| && |submittedBy| == i
          invariant forall j :: 0 <= j < i ==> submittedBy[j] == subs[j].playerId
        {
          submittedBy := submittedBy + [subs[i].playerId];
          i := i + 1;
        }
      }
      return Some(submittedBy);
    }
  }
}
