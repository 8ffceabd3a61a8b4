/** The room of the TypeScript server (server/src/room.ts), an engine of its
    own: the storyteller follows the turn counter, hands are topped up to
    five from the front of the deck, a vote is kept per voter (a later vote
    replaces an earlier one), and all-right/all-wrong are tests over every
    vote, both true when there are none. Messages sent to players
    (game.send, updateRoomState) are I/O: a refusal that only sends an error
    is the outcome Sent. A property access on a missing map entry throws a
    TypeError in JavaScript: the outcome Threw. */
module TsRoom {
  import opened Wrappers
  import opened JsCollections
  import opened TsPlayer
  import Deck

  const CardsTotal: nat := 60
  const HandSize: int := 5
  const TypeError: string := "TypeError"

  datatype GameState = Waiting | Playing

  /** TurnState of the shared types; the room starts in "waiting". */
  datatype TurnState = WaitingTurn | WaitingForStory | Guessing | Voting | Finished

  datatype TurnResult = StoryGuessed | NobodyGuessed | EveryoneGuessed

  /** A card on the table and the player it came from. */
  datatype TableCard = TableCard(cardId: int, from: string)

  /** The room's record of a player. lastSeen is a clock reading and not
      modelled; inactive is kept as stored. */
  datatype PlayerState = PlayerState(
    name: Option<string>, ready: bool, inactive: bool, status: PlayerStatus, points: int, cardsDealt: seq<int>)

  /** The record addPlayer stores. */
  function FreshState(name: Option<string>): PlayerState
  {
    PlayerState(name, false, false, Unknown, 0, [])
  }

  /** One player's line of a round's score log. */
  datatype ScoreLogEntry = ScoreLogEntry(
    turn: int, scoreBefore: int, score: int, votesFrom: seq<string>, votedFor: Option<string>,
    wasStoryTelling: bool, submittedCard: Option<int>)

  /** How a call ends: normally, after only sending the caller an error, or
      with an exception. */
  datatype Outcome = Done | Sent(code: string, message: string) | Threw(message: string)

  // ---------------------------------------------------------------------
  // Player records

  /** Every record whose key is not excepted gets status st. */
  function Restatus(vals: map<string, PlayerState>, except: Option<string>, st: PlayerStatus): (r: map<string, PlayerState>)
    ensures r.Keys == vals.Keys
    ensures forall k :: k in vals ==> r[k] == vals[k].(status := if Some(k) != except then st else vals[k].status)
  {
    map k | k in vals :: if Some(k) != except then vals[k].(status := st) else vals[k]
  }

  /** The forEach of SetStatusOfAll over ids, as a fold: each id in turn,
      unless excepted, has its record's status set to st. */
  function RestatusFold(vals: map<string, PlayerState>, ids: seq<string>, except: Option<string>, st: PlayerStatus): map<string, PlayerState>
  {
    if ids == [] then vals
    else
      var m := RestatusFold(vals, ids[..|ids| - 1], except, st);
      var pid := ids[|ids| - 1];
      if Some(pid) != except && pid in m then m[pid := m[pid].(status := st)] else m
  }

  /** The fold keeps the set of records. */
  lemma {:induction false} RestatusFoldKeys(vals: map<string, PlayerState>, ids: seq<string>, except: Option<string>, st: PlayerStatus)
    ensures RestatusFold(vals, ids, except, st).Keys == vals.Keys
  {
    if ids != [] {
      RestatusFoldKeys(vals, ids[..|ids| - 1], except, st);
    }
  }

  /** The fold touches the records under the ids it visits and no other, so
      over ids that cover every record it is Restatus. */
  lemma {:induction false} RestatusFoldSpec(vals: map<string, PlayerState>, ids: seq<string>, except: Option<string>, st: PlayerStatus)
    ensures RestatusFold(vals, ids, except, st).Keys == vals.Keys
    ensures forall k :: k in vals ==>
      RestatusFold(vals, ids, except, st)[k] ==
        vals[k].(status := if k in ids && Some(k) != except then st else vals[k].status)
  {
    if ids != [] {
      var init := ids[..|ids| - 1];
      RestatusFoldSpec(vals, init, except, st);
      assert forall k :: k in ids <==> k in init || k == ids[|ids| - 1];
    }
  }

  lemma {:induction false} RestatusFoldCovers(vals: map<string, PlayerState>, ids: seq<string>, except: Option<string>, st: PlayerStatus)
    requires forall k :: k in vals ==> k in ids
    ensures RestatusFold(vals, ids, except, st) == Restatus(vals, except, st)
  {
    RestatusFoldSpec(vals, ids, except, st);
  }

  lemma {:induction false} RestatusFoldStep(vals: map<string, PlayerState>, ids: seq<string>, except: Option<string>, st: PlayerStatus, i: nat)
    requires i < |ids|
    ensures var m := RestatusFold(vals, ids[..i], except, st);
      RestatusFold(vals, ids[..i + 1], except, st) ==
        if Some(ids[i]) != except && ids[i] in m then m[ids[i] := m[ids[i]].(status := st)] else m
  {
    assert ids[..i + 1][..i] == ids[..i];
  }

  /** The forEach of SetStatusOfAll on the records ps, over ids: each id
      in turn, unless excepted, has its record's status set, in place. */
  method RestatusEach(ps: JsMap<string, PlayerState>, ids: seq<string>, except: Option<string>, st: PlayerStatus)
    returns (r: JsMap<string, PlayerState>)
    requires MapValid(ps) && forall k :: k in ps.vals <==> k in ids
    ensures MapValid(r) && r.keys == ps.keys
    ensures r.vals == Restatus(ps.vals, except, st)
  {
    r := ps;
    var i := 0;
    while i < |ids|
      invariant 0 <= i <= |ids|
      invariant MapValid(r) && r.keys == ps.keys
      invariant r.vals == RestatusFold(ps.vals, ids[..i], except, st)
    {
      var pid := ids[i];
      RestatusFoldStep(ps.vals, ids, except, st, i);
      RestatusFoldKeys(ps.vals, ids[..i], except, st);
      if Some(pid) != except {
        r := MapSet(r, pid, r.vals[pid].(status := st));
      }
      i := i + 1;
    }
    assert ids[..i] == ids;
    RestatusFoldCovers(ps.vals, ids, except, st);
  }

  /** removeCardFromPlayer on the records ps: a player without a record
      throws; otherwise findIndex on the hand, then a splice of that one card
      when found. */
  method RemoveCardIn(ps: JsMap<string, PlayerState>, cardId: int, playerId: string) returns (out: Outcome, r: JsMap<string, PlayerState>)
    requires MapValid(ps)
    ensures MapValid(r) && r.keys == ps.keys
    ensures playerId !in ps.vals ==> out == Threw(TypeError) && r == ps
    ensures playerId in ps.vals ==>
      out == Done && r.vals == ps.vals[playerId := ps.vals[playerId].(cardsDealt := RemoveFirst(ps.vals[playerId].cardsDealt, cardId))]
  {
    if playerId !in ps.vals {
      return Threw(TypeError), ps;
    }
    var cards := ps.vals[playerId].cardsDealt;
    var index := FindIndex(cards, c => c == cardId);
    if index != -1 {
      assert index == IndexOf(cards, cardId);
      cards := Splice(cards, index, 1).1;
    }
    r := MapSet(ps, playerId, ps.vals[playerId].(cardsDealt := cards));
    out := Done;
  }

  /** The records after the storyteller teller tells a story with card:
      the teller's story is submitted and the card leaves the hand; everyone
      else picks a card. */
  function StoryTold(vals: map<string, PlayerState>, teller: string, card: int): (r: map<string, PlayerState>)
    ensures r.Keys == vals.Keys
  {
    map k | k in vals ::
      if k == teller then vals[k].(status := StorySubmitted, cardsDealt := RemoveFirst(vals[k].cardsDealt, card))
      else vals[k].(status := PickingCard)
  }

  /** submitStory's steps (the teller's status, the forEach over the others,
      then removeCardFromPlayer) build StoryTold. */
  lemma {:induction false} StoryToldBySteps(vals: map<string, PlayerState>, teller: string, card: int)
    requires teller in vals
    ensures var told := Restatus(vals[teller := vals[teller].(status := StorySubmitted)], Some(teller), PickingCard);
      told[teller := told[teller].(cardsDealt := RemoveFirst(told[teller].cardsDealt, card))] == StoryTold(vals, teller, card)
  {
  }

  /** The records once player has submitted card: the status is
      submitted_card and the card leaves the hand. */
  function Submitting(vals: map<string, PlayerState>, player: string, card: int): (r: map<string, PlayerState>)
    requires player in vals
    ensures r.Keys == vals.Keys
  {
    vals[player := vals[player].(status := SubmittedCard, cardsDealt := RemoveFirst(vals[player].cardsDealt, card))]
  }

  /** Whether, once player has submitted, as many records are submitted_card
      as there are ids less one. */
  predicate AllSubmitted(keys: seq<string>, vals: map<string, PlayerState>, player: string, card: int, idCount: nat)
    requires player in vals
  {
    StatusCount(keys, Submitting(vals, player, card), SubmittedCard) == idCount - 1
  }

  /** The records after submitStoryCard: Submitting, and when that makes
      everyone submitted, everyone but the storyteller votes. */
  function CardSubmitted(keys: seq<string>, vals: map<string, PlayerState>, player: string, card: int, teller: Option<string>, idCount: nat): (r: map<string, PlayerState>)
    requires player in vals
    ensures r.Keys == vals.Keys
  {
    if AllSubmitted(keys, vals, player, card, idCount) then Restatus(Submitting(vals, player, card), teller, VotingStatus)
    else Submitting(vals, player, card)
  }

  /** The number of records with status st, counted over the values in
      insertion order (the filter of Array.from(values())). */
  function StatusCount(keys: seq<string>, vals: map<string, PlayerState>, st: PlayerStatus): (c: nat)
    ensures c <= |keys|
  {
    if keys == [] then 0
    else
      var last := keys[|keys| - 1];
      StatusCount(keys[..|keys| - 1], vals, st) + (if last in vals && vals[last].status == st then 1 else 0)
  }

  // ---------------------------------------------------------------------
  // Dealing: startTurn tops each hand up to HandSize from the deck's front

  /** How many cards a hand of handLen cards takes from a deck of deckLen:
      5 - handLen, but none for a full hand and no more than the deck holds
      (splice(0, n) with n negative or too large). */
  function TopUpCount(handLen: nat, deckLen: nat): (n: nat)
    ensures n <= deckLen
    ensures handLen >= HandSize ==> n == 0
    ensures handLen < HandSize ==> n == HandSize - handLen || n == deckLen
    ensures handLen + n <= HandSize || n == 0
  {
    var want := HandSize - handLen;
    if want < 0 then 0 else if want > deckLen then deckLen else want
  }

  /** The deal to the record under k (the loop only visits keys that have
      a record). */
  function TopUp(vals: map<string, PlayerState>, deck: seq<int>, k: string): (map<string, PlayerState>, seq<int>)
  {
    if k !in vals then (vals, deck)
    else
      var hand := vals[k].cardsDealt;
      var n := TopUpCount(|hand|, |deck|);
      (vals[k := vals[k].(cardsDealt := hand + deck[..n])], deck[n..])
  }

  /** The deals to the records under keys, in order. */
  function TopUpAll(vals: map<string, PlayerState>, deck: seq<int>, keys: seq<string>): (r: (map<string, PlayerState>, seq<int>))
    ensures r.0.Keys == vals.Keys
  {
    if keys == [] then (vals, deck)
    else
      var prev := TopUpAll(vals, deck, keys[..|keys| - 1]);
      TopUp(prev.0, prev.1, keys[|keys| - 1])
  }

  /** The cards the deals take from the deck, in the order taken. */
  function Given(vals: map<string, PlayerState>, deck: seq<int>, keys: seq<string>): seq<int>
  {
    if keys == [] then []
    else
      var prev := TopUpAll(vals, deck, keys[..|keys| - 1]);
      var k := keys[|keys| - 1];
      var n := if k in prev.0 then TopUpCount(|prev.0[k].cardsDealt|, |prev.1|) else 0;
      Given(vals, deck, keys[..|keys| - 1]) + prev.1[..n]
  }

  /** The deals change hands only, and only under the keys dealt to. */
  lemma {:induction false} TopUpAllShape(vals: map<string, PlayerState>, deck: seq<int>, keys: seq<string>)
    requires forall i :: 0 <= i < |keys| ==> keys[i] in vals
    ensures var after := TopUpAll(vals, deck, keys).0;
      && (forall k :: k in vals ==> after[k] == vals[k].(cardsDealt := after[k].cardsDealt))
      && (forall k :: k in vals && k !in keys ==> after[k] == vals[k])
  {
    if keys != [] {
      var init := keys[..|keys| - 1];
      assert forall k :: k in keys <==> k in init || k == keys[|keys| - 1];
      TopUpAllShape(vals, deck, init);
    }
  }

  /** For distinct keys, the hand under one of them keeps its cards and
      gains only at the end; a full hand gains nothing; a short hand reaches
      HandSize unless the deck runs out, and never passes it. */
  lemma {:induction false} TopUpAllHand(vals: map<string, PlayerState>, deck: seq<int>, keys: seq<string>, j: string)
    requires forall i :: 0 <= i < |keys| ==> keys[i] in vals
    requires forall i, i' :: 0 <= i < i' < |keys| ==> keys[i] != keys[i']
    requires j in keys
    ensures var (after, rest) := TopUpAll(vals, deck, keys);
      && |vals[j].cardsDealt| <= |after[j].cardsDealt|
      && after[j].cardsDealt[..|vals[j].cardsDealt|] == vals[j].cardsDealt
      && (|vals[j].cardsDealt| >= HandSize ==> after[j].cardsDealt == vals[j].cardsDealt)
      && (|vals[j].cardsDealt| < HandSize ==> |after[j].cardsDealt| <= HandSize)
      && (|vals[j].cardsDealt| < HandSize ==> |after[j].cardsDealt| == HandSize || rest == [])
  {
    var init := keys[..|keys| - 1];
    var k := keys[|keys| - 1];
    assert forall i :: 0 <= i < |init| ==> init[i] == keys[i];
    var mid := TopUpAll(vals, deck, init);
    if j == k {
      assert k !in init;
      TopUpAllShape(vals, deck, init);
      assert mid.0[k] == vals[k];
    } else {
      assert j in init;
      TopUpAllHand(vals, deck, init, j);
    }
  }

  /** TopUpAllHand for every key dealt to. */
  lemma TopUpAllHands(vals: map<string, PlayerState>, deck: seq<int>, keys: seq<string>)
    requires forall i :: 0 <= i < |keys| ==> keys[i] in vals
    requires forall i, j :: 0 <= i < j < |keys| ==> keys[i] != keys[j]
    ensures var (after, rest) := TopUpAll(vals, deck, keys);
      forall k :: k in keys ==>
        && |vals[k].cardsDealt| <= |after[k].cardsDealt|
        && after[k].cardsDealt[..|vals[k].cardsDealt|] == vals[k].cardsDealt
        && (|vals[k].cardsDealt| >= HandSize ==> after[k].cardsDealt == vals[k].cardsDealt)
        && (|vals[k].cardsDealt| < HandSize ==> |after[k].cardsDealt| <= HandSize)
        && (|vals[k].cardsDealt| < HandSize ==> |after[k].cardsDealt| == HandSize || rest == [])
  {
    forall k | k in keys
      ensures var (after, rest) := TopUpAll(vals, deck, keys);
        && |vals[k].cardsDealt| <= |after[k].cardsDealt|
        && after[k].cardsDealt[..|vals[k].cardsDealt|] == vals[k].cardsDealt
        && (|vals[k].cardsDealt| >= HandSize ==> after[k].cardsDealt == vals[k].cardsDealt)
        && (|vals[k].cardsDealt| < HandSize ==> |after[k].cardsDealt| <= HandSize)
        && (|vals[k].cardsDealt| < HandSize ==> |after[k].cardsDealt| == HandSize || rest == [])
    {
      TopUpAllHand(vals, deck, keys, k);
    }
  }

  /** The cards taken, in the order taken, followed by what is left of the
      deck, are the deck as it was: nothing is lost or made up. */
  lemma {:induction false} TopUpAllConserves(vals: map<string, PlayerState>, deck: seq<int>, keys: seq<string>)
    ensures Given(vals, deck, keys) + TopUpAll(vals, deck, keys).1 == deck
  {
    if keys != [] {
      var init := keys[..|keys| - 1];
      var k := keys[|keys| - 1];
      TopUpAllConserves(vals, deck, init);
      var prev := TopUpAll(vals, deck, init);
      var n := if k in prev.0 then TopUpCount(|prev.0[k].cardsDealt|, |prev.1|) else 0;
      var before := Given(vals, deck, init);
      calc {
        Given(vals, deck, keys) + TopUpAll(vals, deck, keys).1;
        (before + prev.1[..n]) + prev.1[n..];
        before + (prev.1[..n] + prev.1[n..]);
        { assert prev.1[..n] + prev.1[n..] == prev.1; }
        before + prev.1;
      }
    }
  }

  lemma {:induction false} TopUpAllStep(vals: map<string, PlayerState>, deck: seq<int>, keys: seq<string>, i: nat)
    requires i < |keys|
    ensures var prev := TopUpAll(vals, deck, keys[..i]);
      TopUpAll(vals, deck, keys[..i + 1]) == TopUp(prev.0, prev.1, keys[i])
  {
    assert keys[..i + 1][..i] == keys[..i];
  }

  /** The dealing loop of startTurn on the records ps and the deck: every
      record in insertion order takes splice(0, 5 - hand size) from the
      front of the deck. */
  method DealEach(ps: JsMap<string, PlayerState>, deck: seq<int>) returns (r: JsMap<string, PlayerState>, rest: seq<int>)
    requires MapValid(ps)
    ensures MapValid(r) && r.keys == ps.keys
    ensures (r.vals, rest) == TopUpAll(ps.vals, deck, ps.keys)
  {
    var keys := ps.keys;
    r, rest := ps, deck;
    var i := 0;
    while i < |keys|
      invariant 0 <= i <= |keys|
      invariant MapValid(r) && r.keys == keys
      invariant (r.vals, rest) == TopUpAll(ps.vals, deck, keys[..i])
    {
      TopUpAllStep(ps.vals, deck, keys, i);
      r, rest := DealOne(r, rest, keys[i]);
      i := i + 1;
    }
    assert keys[..i] == keys;
  }

  /** One pass of the dealing loop: the record under k takes
      splice(0, 5 - hand size) from the front of the deck. */
  method DealOne(ps: JsMap<string, PlayerState>, deck: seq<int>, k: string) returns (r: JsMap<string, PlayerState>, rest: seq<int>)
    requires MapValid(ps) && k in ps.vals
    ensures MapValid(r) && r.keys == ps.keys
    ensures (r.vals, rest) == TopUp(ps.vals, deck, k)
  {
    var cardsDealt := ps.vals[k].cardsDealt;
    SpliceFront(deck, HandSize - |cardsDealt|);
    var newCards := Splice(deck, 0, HandSize - |cardsDealt|);
    rest := newCards.1;
    r := MapSet(ps, k, ps.vals[k].(cardsDealt := cardsDealt + newCards.0));
  }

  // ---------------------------------------------------------------------
  // Scoring: scoreRound and turnResult

  /** Every vote is for the storyteller; true when there are no votes. */
  predicate AllRight(votes: map<string, string>, story: Option<string>)
  {
    forall v :: v in votes ==> Some(votes[v]) == story
  }

  /** No vote is for the storyteller; true when there are no votes. */
  predicate AllWrong(votes: map<string, string>, story: Option<string>)
  {
    forall v :: v in votes ==> Some(votes[v]) != story
  }

  /** votedForThisPlayer: the reduce that prepends each voter for pid, so the
      voters in reverse vote order. */
  function VotersFor(voters: seq<string>, votes: map<string, string>, pid: string): (r: seq<string>)
    ensures forall v :: v in r <==> v in voters && v in votes && votes[v] == pid
  {
    if voters == [] then []
    else
      var last := voters[|voters| - 1];
      var rest := VotersFor(voters[..|voters| - 1], votes, pid);
      assert forall v :: v in voters <==> v in voters[..|voters| - 1] || v == last;
      if last in votes && votes[last] == pid then [last] + rest else rest
  }

  /** The vote pid cast, undefined when none. */
  function VoteOf(votes: map<string, string>, pid: string): Option<string>
  {
    if pid in votes then Some(votes[pid]) else None
  }

  /** pointsToAdd for pid. */
  function PointsToAdd(votes: JsMap<string, string>, story: Option<string>, pid: string): int
  {
    var isStoryTeller := story == Some(pid);
    var guessedStoryteller := !isStoryTeller && VoteOf(votes.vals, pid) == story;
    var base :=
      if AllRight(votes.vals, story) || AllWrong(votes.vals, story) then (if isStoryTeller then 0 else 2)
      else if guessedStoryteller then 3
      else if isStoryTeller then 3
      else 0;
    base + (if !isStoryTeller then |VotersFor(votes.keys, votes.vals, pid)| else 0)
  }

  /** The scoring rule as the game states it: when everybody or nobody
      finds the story card (vacuously so with no votes) the storyteller
      scores 0 and everyone else 2; otherwise the storyteller and each
      player who voted for the storyteller score 3. Every player other than
      the storyteller also gains one point per vote received. */
  lemma {:induction false} ScoreRule(votes: JsMap<string, string>, story: Option<string>, pid: string)
    requires MapValid(votes) && KeysDistinct(votes)
    ensures votes.vals == map[] ==> AllRight(votes.vals, story) && AllWrong(votes.vals, story)
    ensures story != Some(pid) ==>
      |VotersFor(votes.keys, votes.vals, pid)| == |set v | v in votes.vals && votes.vals[v] == pid|
    ensures story == Some(pid) ==>
      PointsToAdd(votes, story, pid) == (if AllRight(votes.vals, story) || AllWrong(votes.vals, story) then 0 else 3)
    ensures story != Some(pid) ==>
      var received := |set v | v in votes.vals && votes.vals[v] == pid|;
      PointsToAdd(votes, story, pid) ==
        (if AllRight(votes.vals, story) || AllWrong(votes.vals, story) then 2
         else if VoteOf(votes.vals, pid) == story then 3 else 0) + received
  {
    if story != Some(pid) {
      VotersCount(votes.keys, votes.vals, pid);
      assert (set v | v in votes.keys && v in votes.vals && votes.vals[v] == pid) == (set v | v in votes.vals && votes.vals[v] == pid);
    }
  }

  /** The voters for pid among distinct voters: VotersFor lists each of
      them once. */
  lemma {:induction false} VotersCount(voters: seq<string>, votes: map<string, string>, pid: string)
    requires forall i, j :: 0 <= i < j < |voters| ==> voters[i] != voters[j]
    ensures |VotersFor(voters, votes, pid)| == |set v | v in voters && v in votes && votes[v] == pid|
  {
    if voters != [] {
      var init := voters[..|voters| - 1];
      var last := voters[|voters| - 1];
      VotersCount(init, votes, pid);
      assert last !in init;
      assert voters == init + [last];
      VoterSetStep(init, last, votes, pid);
    }
  }

  lemma {:induction false} VoterSetStep(init: seq<string>, last: string, votes: map<string, string>, pid: string)
    ensures var before := set v | v in init && v in votes && votes[v] == pid;
      (set v | v in init + [last] && v in votes && votes[v] == pid) ==
        if last in votes && votes[last] == pid then before + {last} else before
  {
    assert forall v :: v in init + [last] <==> v in init || v == last;
  }

  /** The number of votes for the storyteller. */
  function VotesForStory(votes: map<string, string>, story: Option<string>): nat
  {
    |set v | v in votes && Some(votes[v]) == story|
  }

  /** turnResult: nothing until the turn is finished; then "everyone
      guessed" is tested before "nobody guessed". */
  function TurnResultOf(turnState: TurnState, votes: map<string, string>, story: Option<string>, playerCount: nat): (r: Option<TurnResult>)
    ensures r.None? <==> turnState != Finished
    ensures r == Some(EveryoneGuessed) <==> turnState == Finished && VotesForStory(votes, story) == playerCount - 1
    ensures r == Some(NobodyGuessed) <==>
      turnState == Finished && VotesForStory(votes, story) == 0 && playerCount - 1 != 0
  {
    if turnState != Finished then None
    else if VotesForStory(votes, story) == playerCount - 1 then Some(EveryoneGuessed)
    else if VotesForStory(votes, story) == 0 then Some(NobodyGuessed)
    else Some(StoryGuessed)
  }

  /** What scoring a round reads: the turn number, the votes, the
      storyteller and the table. */
  datatype Round = Round(turn: int, votes: JsMap<string, string>, story: Option<string>, table: seq<TableCard>)

  /** The score-log line of pid, given its points before the line. */
  function LogEntry(rd: Round, pid: string, before: int): ScoreLogEntry
  {
    var isStoryTeller := rd.story == Some(pid);
    var submitted := Find(rd.table, (c: TableCard) => c.from == pid);
    ScoreLogEntry(rd.turn, before, PointsToAdd(rd.votes, rd.story, pid), VotersFor(rd.votes.keys, rd.votes.vals, pid),
      if isStoryTeller then None else VoteOf(rd.votes.vals, pid), isStoryTeller,
      if submitted.Some? then Some(submitted.value.cardId) else None)
  }

  /** How often k is listed in ids. */
  function Occurrences(ids: seq<string>, k: string): (n: nat)
    ensures n <= |ids|
  {
    if ids == [] then 0
    else Occurrences(ids[..|ids| - 1], k) + (if ids[|ids| - 1] == k then 1 else 0)
  }

  /** Occurrences is the multiplicity of k in ids, so it is positive exactly
      for the listed ids. */
  lemma {:induction false} OccurrencesCount(ids: seq<string>, k: string)
    ensures Occurrences(ids, k) == multiset(ids)[k]
    ensures Occurrences(ids, k) > 0 <==> k in ids
  {
    if ids != [] {
      var init := ids[..|ids| - 1];
      OccurrencesCount(init, k);
      assert ids == init + [ids[|ids| - 1]];
      assert multiset(ids) == multiset(init) + multiset{ids[|ids| - 1]};
    }
  }

  /** pointsToAdd of a round, for each player. */
  function Adds(rd: Round): string -> int
  {
    pid => PointsToAdd(rd.votes, rd.story, pid)
  }

  /** The score-log line of a round, for each player and points before. */
  function Lines(rd: Round): (string, int) -> ScoreLogEntry
  {
    (pid, before) => LogEntry(rd, pid, before)
  }

  /** The points of scoreRound's loop as a fold over ids: each id in turn
      with a record gains add(id). */
  function PointsFold(vals: map<string, PlayerState>, ids: seq<string>, add: string -> int): (r: map<string, PlayerState>)
    ensures r.Keys == vals.Keys
  {
    if ids == [] then vals
    else
      var prev := PointsFold(vals, ids[..|ids| - 1], add);
      var pid := ids[|ids| - 1];
      if pid !in prev then prev
      else prev[pid := prev[pid].(points := prev[pid].points + add(pid))]
  }

  /** The log of scoreRound's loop as a fold over ids: each id in turn with
      a record has its line written, from the points it had just before. */
  function LogFold(vals: map<string, PlayerState>, ids: seq<string>, add: string -> int, line: (string, int) -> ScoreLogEntry)
    : map<string, ScoreLogEntry>
  {
    if ids == [] then map[]
    else
      var prev := LogFold(vals, ids[..|ids| - 1], add, line);
      var points := PointsFold(vals, ids[..|ids| - 1], add);
      var pid := ids[|ids| - 1];
      if pid !in points then prev
      else prev[pid := line(pid, points[pid].points)]
  }

  /** The records after scoreRound: every record gains add(k) once per
      listing of its id k. */
  function Scored(vals: map<string, PlayerState>, ids: seq<string>, add: string -> int): (r: map<string, PlayerState>)
    ensures r.Keys == vals.Keys
  {
    map k | k in vals :: vals[k].(points := vals[k].points + Occurrences(ids, k) * add(k))
  }

  /** The round's score log: one line per listed id with a record, the
      points before being those before its last listing. */
  function RoundLog(vals: map<string, PlayerState>, ids: seq<string>, add: string -> int, line: (string, int) -> ScoreLogEntry)
    : (r: map<string, ScoreLogEntry>)
    ensures forall k :: k in r <==> k in vals && k in ids
  {
    map k | k in vals && k in ids :: line(k, vals[k].points + (Occurrences(ids, k) - 1) * add(k))
  }

  lemma {:induction false} MulStep(c: int, p: int)
    ensures (c + 1) * p == c * p + p
  {
  }

  /** The points fold, key by key: a record gains add(k) once for each time
      k is listed, and nothing else about it changes. */
  lemma {:induction false} PointsFoldSpec(vals: map<string, PlayerState>, ids: seq<string>, add: string -> int)
    ensures PointsFold(vals, ids, add).Keys == vals.Keys
    ensures forall k :: k in vals ==>
      PointsFold(vals, ids, add)[k] == vals[k].(points := vals[k].points + Occurrences(ids, k) * add(k))
  {
    if ids != [] {
      var init := ids[..|ids| - 1];
      var pid := ids[|ids| - 1];
      PointsFoldSpec(vals, init, add);
      if pid in vals {
        MulStep(Occurrences(init, pid), add(pid));
      }
    }
  }

  /** The points fold at key k: the points gained, add(k) per listing. */
  lemma {:induction false} PointsFoldAt(vals: map<string, PlayerState>, ids: seq<string>, add: string -> int, k: string)
    requires k in vals
    ensures PointsFold(vals, ids, add)[k].points == vals[k].points + Occurrences(ids, k) * add(k)
  {
    if ids != [] {
      var init := ids[..|ids| - 1];
      PointsFoldAt(vals, init, add, k);
      if ids[|ids| - 1] == k {
        MulStep(Occurrences(init, k), add(k));
      }
    }
  }

  /** The log fold at key k: a line when k is listed and has a record,
      written at its last listing. */
  lemma {:induction false} LogFoldAt(vals: map<string, PlayerState>, ids: seq<string>, add: string -> int,
    line: (string, int) -> ScoreLogEntry, k: string)
    ensures k in LogFold(vals, ids, add, line) <==> k in vals && k in ids
    ensures k in LogFold(vals, ids, add, line) ==>
      LogFold(vals, ids, add, line)[k] == line(k, vals[k].points + (Occurrences(ids, k) - 1) * add(k))
  {
    if ids != [] {
      var init := ids[..|ids| - 1];
      var pid := ids[|ids| - 1];
      assert ids == init + [pid];
      LogFoldAt(vals, init, add, line, k);
      if k in vals {
        PointsFoldAt(vals, init, add, k);
      }
      var c := Occurrences(init, k);
      var points := PointsFold(vals, init, add);
      var prev := LogFold(vals, init, add, line);
      var log := LogFold(vals, ids, add, line);
      assert log == if pid !in points then prev else prev[pid := line(pid, points[pid].points)];
      if k == pid {
        if k in vals {
          assert Occurrences(ids, k) - 1 == c;
          assert log[k] == line(k, points[k].points);
          assert points[k].points == vals[k].points + c * add(k);
        }
      } else {
        assert Occurrences(ids, k) == c;
        assert k in log ==> log[k] == prev[k];
      }
    }
  }

  /** The log fold, key by key: a line for each listed id with a record,
      written at its last listing. */
  lemma LogFoldSpec(vals: map<string, PlayerState>, ids: seq<string>, add: string -> int, line: (string, int) -> ScoreLogEntry)
    ensures forall k :: k in LogFold(vals, ids, add, line) <==> k in vals && k in ids
    ensures forall k :: k in LogFold(vals, ids, add, line) ==>
      LogFold(vals, ids, add, line)[k] == line(k, vals[k].points + (Occurrences(ids, k) - 1) * add(k))
  {
    forall k
      ensures k in LogFold(vals, ids, add, line) <==> k in vals && k in ids
      ensures k in LogFold(vals, ids, add, line) ==>
        LogFold(vals, ids, add, line)[k] == line(k, vals[k].points + (Occurrences(ids, k) - 1) * add(k))
    {
      LogFoldAt(vals, ids, add, line, k);
    }
  }

  /** The folds are Scored and RoundLog. */
  lemma {:induction false} FoldsCover(vals: map<string, PlayerState>, ids: seq<string>, add: string -> int, line: (string, int) -> ScoreLogEntry)
    ensures PointsFold(vals, ids, add) == Scored(vals, ids, add)
    ensures LogFold(vals, ids, add, line) == RoundLog(vals, ids, add, line)
  {
    PointsFoldSpec(vals, ids, add);
    LogFoldSpec(vals, ids, add, line);
    assert PointsFold(vals, ids, add).Keys == Scored(vals, ids, add).Keys;
    assert LogFold(vals, ids, add, line).Keys == RoundLog(vals, ids, add, line).Keys;
  }

  lemma {:induction false} ScoreFoldStep(vals: map<string, PlayerState>, ids: seq<string>, add: string -> int,
    line: (string, int) -> ScoreLogEntry, i: nat)
    requires i < |ids|
    ensures var points := PointsFold(vals, ids[..i], add);
      var pid := ids[i];
      && PointsFold(vals, ids[..i + 1], add) ==
           (if pid !in points then points else points[pid := points[pid].(points := points[pid].points + add(pid))])
      && LogFold(vals, ids[..i + 1], add, line) ==
           (if pid !in points then LogFold(vals, ids[..i], add, line)
            else LogFold(vals, ids[..i], add, line)[pid := line(pid, points[pid].points)])
  {
    assert ids[..i + 1][..i] == ids[..i];
  }

  /** The loop of scoreRound on the records ps, over ids. */
  method ScoreEach(ps: JsMap<string, PlayerState>, ids: seq<string>, rd: Round) returns (r: JsMap<string, PlayerState>, roundScore: map<string, ScoreLogEntry>)
    requires MapValid(ps)
    ensures MapValid(r) && r.keys == ps.keys
    ensures r.vals == Scored(ps.vals, ids, Adds(rd)) && roundScore == RoundLog(ps.vals, ids, Adds(rd), Lines(rd))
  {
    r, roundScore := ps, map[];
    var i := 0;
    while i < |ids|
      invariant 0 <= i <= |ids|
      invariant MapValid(r) && r.keys == ps.keys
      invariant r.vals == PointsFold(ps.vals, ids[..i], Adds(rd)) && roundScore == LogFold(ps.vals, ids[..i], Adds(rd), Lines(rd))
    {
      ScoreFoldStep(ps.vals, ids, Adds(rd), Lines(rd), i);
      r, roundScore := ScoreOne(r, roundScore, ids[i], rd);
      i := i + 1;
    }
    assert ids[..i] == ids;
    FoldsCover(ps.vals, ids, Adds(rd), Lines(rd));
  }

  /** One pass of scoreRound's loop, for playerId. */
  method ScoreOne(ps: JsMap<string, PlayerState>, roundScore: map<string, ScoreLogEntry>, playerId: string, rd: Round)
    returns (r: JsMap<string, PlayerState>, log: map<string, ScoreLogEntry>)
    requires MapValid(ps)
    ensures MapValid(r) && r.keys == ps.keys
    ensures playerId !in ps.vals ==> r == ps && log == roundScore
    ensures playerId in ps.vals ==>
      && r.vals == ps.vals[playerId := ps.vals[playerId].(points := ps.vals[playerId].points + PointsToAdd(rd.votes, rd.story, playerId))]
      && log == roundScore[playerId := LogEntry(rd, playerId, ps.vals[playerId].points)]
  {
    if playerId !in ps.vals {
      return ps, roundScore;
    }
    var pointsToAdd := PointsToAdd(rd.votes, rd.story, playerId);
    var pointsBefore := ps.vals[playerId].points;
    r := MapSet(ps, playerId, ps.vals[playerId].(points := pointsBefore + pointsToAdd));
    log := roundScore[playerId := LogEntry(rd, playerId, pointsBefore)];
  }

  /** The records once voter has voted. */
  function CastVote(vals: map<string, PlayerState>, voter: string): (r: map<string, PlayerState>)
    requires voter in vals
    ensures r.Keys == vals.Keys
  {
    vals[voter := vals[voter].(status := VoteSubmitted)]
  }

  /** Whether, once voter has voted, as many records are vote_submitted as
      there are ids less one. */
  predicate AllVoted(keys: seq<string>, vals: map<string, PlayerState>, voter: string, idCount: nat)
    requires voter in vals
  {
    StatusCount(keys, CastVote(vals, voter), VoteSubmitted) == idCount - 1
  }

  /** submitStory's changes to the records ps, by the storyteller teller
      with card: the teller's status, the forEach over ids for everyone
      else, then removeCardFromPlayer. */
  method TellStoryIn(ps: JsMap<string, PlayerState>, ids: seq<string>, teller: string, card: int) returns (r: JsMap<string, PlayerState>)
    requires MapValid(ps) && (forall k :: k in ps.vals <==> k in ids) && teller in ps.vals
    ensures MapValid(r) && r.keys == ps.keys
    ensures r.vals == StoryTold(ps.vals, teller, card)
  {
    r := MapSet(ps, teller, ps.vals[teller].(status := StorySubmitted));
    r := RestatusEach(r, ids, Some(teller), PickingCard);
    var out;
    out, r := RemoveCardIn(r, card, teller);
    StoryToldBySteps(ps.vals, teller, card);
  }

  /** submitStoryCard's changes to the records ps: a player without a
      record throws; otherwise Submitting, and when that makes everyone
      submitted, the forEach over ids that sets everyone but the teller
      voting. */
  method SubmitCardIn(ps: JsMap<string, PlayerState>, playerId: string, cardId: int, ids: seq<string>, teller: Option<string>)
    returns (out: Outcome, r: JsMap<string, PlayerState>, allSubmitted: bool)
    requires MapValid(ps) && forall k :: k in ps.vals <==> k in ids
    ensures MapValid(r) && r.keys == ps.keys
    ensures playerId !in ps.vals ==> out == Threw(TypeError) && r == ps && !allSubmitted
    ensures playerId in ps.vals ==>
      && out == Done && allSubmitted == AllSubmitted(ps.keys, ps.vals, playerId, cardId, |ids|)
      && r.vals == CardSubmitted(ps.keys, ps.vals, playerId, cardId, teller, |ids|)
  {
    if playerId !in ps.vals {
      return Threw(TypeError), ps, false;
    }
    r := MapSet(ps, playerId, ps.vals[playerId].(status := SubmittedCard));
    out, r := RemoveCardIn(r, cardId, playerId);
    assert r.vals == Submitting(ps.vals, playerId, cardId);
    allSubmitted := StatusCount(r.keys, r.vals, SubmittedCard) == |ids| - 1;
    if allSubmitted {
      r := RestatusEach(r, ids, teller, VotingStatus);
    }
  }

  /** vote's changes to the records ps once the vote is accepted: the
      voter's status, and when that makes everyone voted, the forEach over
      ids that sets everyone finished. */
  method CastVoteIn(ps: JsMap<string, PlayerState>, ids: seq<string>, voter: string) returns (r: JsMap<string, PlayerState>, allVoted: bool)
    requires MapValid(ps) && (forall k :: k in ps.vals <==> k in ids) && voter in ps.vals
    ensures MapValid(r) && r.keys == ps.keys
    ensures allVoted == AllVoted(ps.keys, ps.vals, voter, |ids|)
    ensures r.vals == if allVoted then Restatus(CastVote(ps.vals, voter), None, FinishedStatus) else CastVote(ps.vals, voter)
  {
    r := MapSet(ps, voter, ps.vals[voter].(status := VoteSubmitted));
    allVoted := StatusCount(r.keys, r.vals, VoteSubmitted) == |ids| - 1;
    if allVoted {
      r := RestatusEach(r, ids, None, FinishedStatus);
    }
  }

  /** The fields of a room that its methods update. They are kept as one
      record, which each method of Room replaces, so that each contract
      states the whole new state. */
  datatype RoomFields = RoomFields(
    name: string, story: Option<string>, playerIds: seq<string>, playerState: JsMap<string, PlayerState>,
    votes: JsMap<string, string>, currentTurn: int, storyCard: Option<int>, storyPlayerId: Option<string>,
    gameState: GameState, deck: seq<int>, cardsOnTable: seq<TableCard>, turnState: TurnState,
    scores: seq<map<string, ScoreLogEntry>>)

  /** The records are keyed by exactly the ids in playerIds (which may list
      an id twice), the storyteller has a record, and the turn counter only
      grows from 0. */
  ghost predicate FieldsValid(d: RoomFields)
  {
    MapValid(d.playerState) && MapValid(d.votes) &&
    (forall k :: k in d.playerState.vals <==> k in d.playerIds) &&
    (d.storyPlayerId.Some? ==> d.storyPlayerId.value in d.playerState.vals) &&
    d.currentTurn >= 0
  }

  /** The room state the class keeps. */
  type ValidFields = d: RoomFields | FieldsValid(d)
    witness RoomFields("", None, [], JsMap([], map[]), JsMap([], map[]), 0, None, None, Waiting, [], [], WaitingTurn, [])

  /** The round scoreRound reads. */
  function RoundOf(d: RoomFields): Round
  {
    Round(d.currentTurn, d.votes, d.storyPlayerId, d.cardsOnTable)
  }

  /** The fields after scoreRound: every record gains pointsToAdd once per
      listing of its id, and the round's log is appended to scores. */
  function ScoredFields(d: RoomFields): (r: RoomFields)
    ensures r.playerState.keys == d.playerState.keys
  {
    d.(playerState := JsMap(d.playerState.keys, Scored(d.playerState.vals, d.playerIds, Adds(RoundOf(d)))),
       scores := d.scores + [RoundLog(d.playerState.vals, d.playerIds, Adds(RoundOf(d)), Lines(RoundOf(d)))])
  }

  class Room {
    const id: string
    var fields: ValidFields

    /** new Room(name, game) with the uuid id and the random choices rnd of
        shuffleNewDeck: no players, turn 0, waiting. */
    constructor (name: string, id: string, rnd: seq<nat>)
      ensures this.id == id
      ensures fields == RoomFields(name, None, [], EmptyMap(), EmptyMap(), 0, None, None, Waiting, fields.deck, [], WaitingTurn, [])
      ensures Deck.EachIdOnce(fields.deck, CardsTotal)
    {
      var d := ShuffleNewDeck(rnd);
      this.id := id;
      fields := RoomFields(name, None, [], EmptyMap(), EmptyMap(), 0, None, None, Waiting, d, [], WaitingTurn, []);
    }

    /** shuffleNewDeck: the ids 0..59 in an array, then position i swapped
        with a random position j for each i in turn (j = rnd[i] mod 60; with
        no choice left, j = i). */
    static method ShuffleNewDeck(rnd: seq<nat>) returns (deck: seq<int>)
      ensures Deck.EachIdOnce(deck, CardsTotal)
    {
      deck := ShuffledIds(CardsTotal, rnd);
    }

    /** The loops of shuffleNewDeck for a deck of n ids. */
    static method ShuffledIds(n: nat, rnd: seq<nat>) returns (deck: seq<int>)
      ensures Deck.EachIdOnce(deck, n)
    {
      var cards := new int[n];
      var i := 0;
      while i < n
        invariant 0 <= i <= n
        invariant forall j :: 0 <= j < i ==> cards[j] == j
      {
        cards[i] := i;
        i := i + 1;
      }
      assert cards[..] == Deck.Range(n);
      Deck.RangeIds(n);
      i := 0;
      while i < n
        invariant 0 <= i <= n
        invariant Deck.EachIdOnce(cards[..], n)
      {
        var j := if i < |rnd| then rnd[i] % n else i;
        ghost var before := cards[..];
        var tmp := cards[i];
        cards[i] := cards[j];
        cards[j] := tmp;
        assert cards[..] == before[i := before[j]][j := before[i]];
        Deck.SwapPermutes(before, j, i);
        i := i + 1;
      }
      deck := cards[..];
    }

    /** addPlayer: refused once the game has started; otherwise the id is
        appended to playerIds with no check for a repeat, and a fresh record
        stored under it. */
    method AddPlayer(player: Player) returns (out: Outcome)
      modifies this
      ensures old(fields.gameState) != Waiting ==> out == Threw("Game already started") && fields == old(fields)
      ensures old(fields.gameState) == Waiting ==>
        && out == Done
        && fields == old(fields).(playerIds := old(fields.playerIds) + [player.id],
             playerState := MapSet(old(fields.playerState), player.id, FreshState(player.name)))
    {
      if fields.gameState != Waiting {
        return Threw("Game already started");
      }
      fields := fields.(playerIds := fields.playerIds + [player.id],
        playerState := MapSet(fields.playerState, player.id, FreshState(player.name)));
      return Done;
    }

    /** markReady: the player's record, if there is one, becomes ready. */
    method MarkReady(playerId: string)
      modifies this
      ensures playerId !in old(fields.playerState.vals) ==> fields == old(fields)
      ensures playerId in old(fields.playerState.vals) ==>
        fields == old(fields).(playerState := MapSet(old(fields.playerState), playerId, old(fields.playerState.vals[playerId]).(ready := true)))
    {
      if playerId in fields.playerState.vals {
        fields := fields.(playerState := MapSet(fields.playerState, playerId, fields.playerState.vals[playerId].(ready := true)));
      }
    }

    /** pickNextStoryTeller: playerIds[currentTurn mod n], marked as telling
        the story. With no players the index is NaN, the storyteller
        undefined, and setting its status throws. */
    method PickNextStoryTeller() returns (out: Outcome)
      modifies this
      ensures old(fields.playerIds) == [] ==> out == Threw(TypeError) && fields == old(fields).(storyPlayerId := None)
      ensures old(fields.playerIds) != [] ==>
        var d := old(fields);
        var sp := d.playerIds[d.currentTurn % |d.playerIds|];
        && out == Done
        && fields == d.(storyPlayerId := Some(sp), playerState := MapSet(d.playerState, sp, d.playerState.vals[sp].(status := StoryTelling)))
    {
      if fields.playerIds == [] {
        fields := fields.(storyPlayerId := None);
        return Threw(TypeError);
      }
      var sp := fields.playerIds[fields.currentTurn % |fields.playerIds|];
      assert sp in fields.playerState.vals;
      fields := fields.(storyPlayerId := Some(sp),
        playerState := MapSet(fields.playerState, sp, fields.playerState.vals[sp].(status := StoryTelling)));
      return Done;
    }

    /** The dealing loop of startTurn, over the records in insertion order. */
    method DealHands()
      modifies this
      ensures var dealt := TopUpAll(old(fields.playerState.vals), old(fields.deck), old(fields.playerState.keys));
        fields == old(fields).(playerState := JsMap(old(fields.playerState.keys), dealt.0), deck := dealt.1)
    {
      var ps, deck := DealEach(fields.playerState, fields.deck);
      fields := fields.(playerState := ps, deck := deck);
    }

    /** startTurn: the game is playing and waits for a story, the table and
        the votes are cleared, the turn counter goes up, the storyteller is
        picked and, unless that throws, every hand is topped up. */
    method StartTurn() returns (out: Outcome)
      modifies this
      ensures var d := old(fields).(gameState := Playing, turnState := WaitingForStory, cardsOnTable := [],
          currentTurn := old(fields.currentTurn) + 1, votes := EmptyMap());
        if d.playerIds == [] then out == Threw(TypeError) && fields == d.(storyPlayerId := None)
        else
          var sp := d.playerIds[d.currentTurn % |d.playerIds|];
          var told := MapSet(d.playerState, sp, d.playerState.vals[sp].(status := StoryTelling));
          var dealt := TopUpAll(told.vals, d.deck, told.keys);
          && out == Done
          && fields == d.(storyPlayerId := Some(sp), playerState := JsMap(told.keys, dealt.0), deck := dealt.1)
    {
      fields := fields.(gameState := Playing, turnState := WaitingForStory, cardsOnTable := [],
        currentTurn := fields.currentTurn + 1, votes := EmptyMap());
      out := PickNextStoryTeller();
      if out.Threw? {
        return;
      }
      DealHands();
    }

    /** removeCardFromPlayer: findIndex on the player's hand, then a splice
        of that one card when found; a player without a record throws. */
    method RemoveCardFromPlayer(cardId: int, playerId: string) returns (out: Outcome)
      modifies this
      ensures playerId !in old(fields.playerState.vals) ==> out == Threw(TypeError) && fields == old(fields)
      ensures playerId in old(fields.playerState.vals) ==>
        var d := old(fields);
        && out == Done
        && fields == d.(playerState := MapSet(d.playerState, playerId,
             d.playerState.vals[playerId].(cardsDealt := RemoveFirst(d.playerState.vals[playerId].cardsDealt, cardId))))
    {
      var ps;
      out, ps := RemoveCardIn(fields.playerState, cardId, playerId);
      fields := fields.(playerState := ps);
    }

    /** submitStory: anyone but the storyteller is sent not_your_turn.
        Otherwise the storyteller's status is story_submitted and everyone
        else's picking_card, story and card are recorded, the phase becomes
        guessing, and the card moves from the hand to the table. */
    method SubmitStory(playerId: string, story: string, actualStoryCard: int) returns (out: Outcome)
      modifies this
      ensures Some(playerId) != old(fields.storyPlayerId) ==>
        out == Sent("not_your_turn", "It's not your turn to submit a story") && fields == old(fields)
      ensures Some(playerId) == old(fields.storyPlayerId) ==>
        var d := old(fields);
        && out == Done
        && fields == d.(story := Some(story), storyCard := Some(actualStoryCard), turnState := Guessing,
             cardsOnTable := d.cardsOnTable + [TableCard(actualStoryCard, playerId)],
             playerState := JsMap(d.playerState.keys, StoryTold(d.playerState.vals, playerId, actualStoryCard)))
    {
      if Some(playerId) != fields.storyPlayerId {
        return Sent("not_your_turn", "It's not your turn to submit a story");
      }
      var ps := TellStoryIn(fields.playerState, fields.playerIds, playerId, actualStoryCard);
      fields := fields.(playerState := ps, story := Some(story), storyCard := Some(actualStoryCard), turnState := Guessing,
        cardsOnTable := fields.cardsOnTable + [TableCard(actualStoryCard, playerId)]);
      return Done;
    }

    /** submitStoryCard: the card goes on the table first, without any check
        of phase or earlier submission; then the submitter's status is
        submitted_card and the card leaves the hand. Once as many records
        are submitted_card as there are ids in playerIds minus one, everyone
        but the storyteller votes. */
    method SubmitStoryCard(playerId: string, cardId: int) returns (out: Outcome)
      modifies this
      ensures var d := old(fields);
        var table := d.cardsOnTable + [TableCard(cardId, playerId)];
        if playerId !in d.playerState.vals then out == Threw(TypeError) && fields == d.(cardsOnTable := table)
        else
          var keys := d.playerState.keys;
          var all := AllSubmitted(keys, d.playerState.vals, playerId, cardId, |d.playerIds|);
          && out == Done
          && fields == d.(cardsOnTable := table, turnState := if all then Voting else d.turnState,
               playerState := JsMap(keys, CardSubmitted(keys, d.playerState.vals, playerId, cardId, d.storyPlayerId, |d.playerIds|)))
    {
      var ps, allSubmitted;
      out, ps, allSubmitted := SubmitCardIn(fields.playerState, playerId, cardId, fields.playerIds, fields.storyPlayerId);
      fields := fields.(cardsOnTable := fields.cardsOnTable + [TableCard(cardId, playerId)], playerState := ps,
        turnState := if allSubmitted then Voting else fields.turnState);
    }

    /** scoreRound: for each id in playerIds, in order and as often as it is
        listed, the record gains pointsToAdd and the round's score log gets
        that player's line; the log is then appended to scores. */
    method ScoreRound()
      modifies this
      ensures fields == ScoredFields(old(fields))
    {
      var ps, roundScore := ScoreEach(fields.playerState, fields.playerIds, RoundOf(fields));
      fields := fields.(playerState := ps, scores := fields.scores + [roundScore]);
    }

    /** vote: a card that is not on the table, or whose first table entry is
        the voter's own, is refused with invalid_vote. Otherwise the voter's
        status is vote_submitted and the vote is stored under the voter,
        replacing an earlier one. Once as many records are vote_submitted as
        there are ids in playerIds minus one, the turn is finished, everyone's
        status too, and the round is scored. */
    method Vote(playerId: string, voteCardId: int) returns (out: Outcome)
      modifies this
      ensures var d := old(fields);
        var voteCard := Find(d.cardsOnTable, (c: TableCard) => c.cardId == voteCardId);
        if voteCard.None? then out == Sent("invalid_vote", "Can't vote for this card") && fields == d
        else if voteCard.value.from == playerId then out == Sent("invalid_vote", "Can't vote for yourself") && fields == d
        else if playerId !in d.playerState.vals then out == Threw(TypeError) && fields == d
        else
          var keys := d.playerState.keys;
          var cast := CastVote(d.playerState.vals, playerId);
          var voted := d.(votes := MapSet(d.votes, playerId, voteCard.value.from));
          && out == Done
          && if AllVoted(keys, d.playerState.vals, playerId, |d.playerIds|)
             then fields == ScoredFields(voted.(turnState := Finished, playerState := JsMap(keys, Restatus(cast, None, FinishedStatus))))
             else fields == voted.(playerState := JsMap(keys, cast))
    {
      var voteCard := Find(fields.cardsOnTable, (c: TableCard) => c.cardId == voteCardId);
      if voteCard.None? {
        return Sent("invalid_vote", "Can't vote for this card");
      }
      var votedFor := voteCard.value.from;
      if votedFor == playerId {
        return Sent("invalid_vote", "Can't vote for yourself");
      }
      if playerId !in fields.playerState.vals {
        return Threw(TypeError);
      }
      var ps, allVoted := CastVoteIn(fields.playerState, fields.playerIds, playerId);
      fields := fields.(playerState := ps, votes := MapSet(fields.votes, playerId, votedFor));
      if allVoted {
        fields := fields.(turnState := Finished);
        ScoreRound();
      }
      return Done;
    }

    /** The turnResult getter. */
    function TurnResult(): Option<TurnResult>
      reads this
    {
      TurnResultOf(fields.turnState, fields.votes.vals, fields.storyPlayerId, |fields.playerIds|)
    }
  }

  /** With a single player and no votes, a finished turn reads as "everyone
      guessed", because that test comes first. */
  lemma {:induction false} LonePlayerEveryoneGuessed(votes: map<string, string>, story: Option<string>)
    requires votes == map[]
    ensures TurnResultOf(Finished, votes, story, 1) == Some(EveryoneGuessed)
  {
    assert (set v | v in votes && Some(votes[v]) == story) == {};
  }

  /** With two or more players and no vote for the storyteller, a finished
      turn reads as "nobody guessed". */
  lemma {:induction false} NoStoryVotesNobodyGuessed(votes: map<string, string>, story: Option<string>, playerCount: nat)
    requires playerCount >= 2
    requires forall v :: v in votes ==> Some(votes[v]) != story
    ensures TurnResultOf(Finished, votes, story, playerCount) == Some(NobodyGuessed)
  {
    assert (set v | v in votes && Some(votes[v]) == story) == {};
  }
}
