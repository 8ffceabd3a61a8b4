/** The scoring rule of the Go room (server/game/room/room.go:289-339) as a
    function of the turn's votes. The ScoreTurn method of GoRoom is proved
    to add exactly Delta to every player's points. */
module GoScoring {
  import opened Wrappers
  import opened GoIds
  import opened GoRecords

  /** v is a vote whose Voted player is target. */
  predicate VotedFor(v: Option<Vote>, target: PlayerId)
  {
    v.Some? && v.value.voted == Some(target)
  }

  /** v is a vote cast by voter for target. */
  predicate VotedByFor(v: Option<Vote>, voter: PlayerId, target: PlayerId)
  {
    VotedFor(v, target) && v.value.voter == voter
  }

  /** v is a vote with a Voted player (not a nil vote, not a nil target). */
  predicate Resolved(v: Option<Vote>)
  {
    v.Some? && v.value.voted.Some?
  }

  /** Every vote of the turn is resolved: ScoreTurn reads vote.Voted.Id of
      every vote, which crashes on a nil vote or a nil Voted. */
  predicate AllResolved(votes: seq<Option<Vote>>)
  {
    forall i :: 0 <= i < |votes| ==> Resolved(votes[i])
  }

  /** Votes received by target. */
  function VotesFor(votes: seq<Option<Vote>>, target: PlayerId): (c: nat)
    ensures c <= |votes|
  {
    if votes == [] then 0
    else VotesFor(votes[..|votes| - 1], target) + (if VotedFor(votes[|votes| - 1], target) then 1 else 0)
  }

  /** Votes cast by voter for target: a repeated vote counts every time. */
  function VotesByFor(votes: seq<Option<Vote>>, voter: PlayerId, target: PlayerId): (c: nat)
    ensures c <= VotesFor(votes, target)
  {
    if votes == [] then 0
    else VotesByFor(votes[..|votes| - 1], voter, target) + (if VotedByFor(votes[|votes| - 1], voter, target) then 1 else 0)
  }

  /** Resolved votes. */
  function ResolvedCount(votes: seq<Option<Vote>>): (c: nat)
    ensures c <= |votes|
    ensures AllResolved(votes) ==> c == |votes|
  {
    if votes == [] then 0
    else ResolvedCount(votes[..|votes| - 1]) + (if Resolved(votes[|votes| - 1]) then 1 else 0)
  }

  /** Nobody or everybody (players - 1 votes) found the story card
      (room.go:310). */
  predicate AllRightOrAllWrong(votes: seq<Option<Vote>>, story: PlayerId, playerCount: int)
  {
    var sv := VotesFor(votes, story);
    sv == 0 || sv == playerCount - 1
  }

  /** Points player k receives in a scored turn: the 0/2 or 3/3 rule plus
      one point per vote received on a card of someone other than the
      storyteller. */
  function Delta(votes: seq<Option<Vote>>, story: PlayerId, playerCount: int, k: PlayerId): int
  {
    StoryPoints(votes, story, playerCount, k) + BonusFor(votes, story, k)
  }

  /** The 0/2 or 3/3 part of Delta. */
  function StoryPoints(votes: seq<Option<Vote>>, story: PlayerId, playerCount: int, k: PlayerId): int
  {
    if AllRightOrAllWrong(votes, story, playerCount) then (if k != story then 2 else 0)
    else (if k == story then 3 else 0) + 3 * VotesByFor(votes, k, story)
  }

  /** The bonus part of Delta. */
  function BonusFor(votes: seq<Option<Vote>>, story: PlayerId, k: PlayerId): int
  {
    if k != story then VotesFor(votes, k) else 0
  }

  /** If nobody or everybody finds the story card, the storyteller scores
      nothing and every other player 2 plus their bonus. */
  lemma AllOrNoneScores(votes: seq<Option<Vote>>, story: PlayerId, playerCount: int, k: PlayerId)
    requires AllRightOrAllWrong(votes, story, playerCount)
    ensures k == story ==> Delta(votes, story, playerCount, k) == 0
    ensures k != story ==> Delta(votes, story, playerCount, k) == 2 + VotesFor(votes, k)
  {
  }

  /** Otherwise the storyteller scores 3 (3 more for each vote of their own
      for their card) and every other player 3 per vote they gave the story
      card, plus their bonus. */
  lemma SomeButNotAllScores(votes: seq<Option<Vote>>, story: PlayerId, playerCount: int, k: PlayerId)
    requires !AllRightOrAllWrong(votes, story, playerCount)
    ensures k == story ==> Delta(votes, story, playerCount, k) == 3 + 3 * VotesByFor(votes, story, story)
    ensures k != story ==> Delta(votes, story, playerCount, k) == 3 * VotesByFor(votes, k, story) + VotesFor(votes, k)
  {
  }

  /** Only players who are vote targets receive votes. */
  lemma {:induction false} VotesForTarget(votes: seq<Option<Vote>>, keys: set<PlayerId>, target: PlayerId)
    requires forall i :: 0 <= i < |votes| && Resolved(votes[i]) ==> votes[i].value.voted.value in keys
    ensures VotesFor(votes, target) > 0 ==> target in keys
  {
    if votes != [] {
      VotesForTarget(votes[..|votes| - 1], keys, target);
    }
  }

  /** The points of every player after a scored turn for which pts are the
      points before. */
  function ScoredPoints(pts: map<PlayerId, int>, votes: seq<Option<Vote>>, story: PlayerId): (r: map<PlayerId, int>)
    ensures r.Keys == pts.Keys
  {
    map k | k in pts :: pts[k] + Delta(votes, story, |pts|, k)
  }

  /** Nobody ever loses points. */
  lemma DeltaNonNegative(votes: seq<Option<Vote>>, story: PlayerId, playerCount: int, k: PlayerId)
    ensures Delta(votes, story, playerCount, k) >= 0
  {
  }

  // ---- the points handed out in one turn ----

  function SumDelta(votes: seq<Option<Vote>>, story: PlayerId, playerCount: int, order: seq<PlayerId>): int
  {
    if order == [] then 0 else Delta(votes, story, playerCount, order[0]) + SumDelta(votes, story, playerCount, order[1..])
  }

  function SumVotesFor(votes: seq<Option<Vote>>, order: seq<PlayerId>): nat
  {
    if order == [] then 0 else VotesFor(votes, order[0]) + SumVotesFor(votes, order[1..])
  }

  function SumVotesByFor(votes: seq<Option<Vote>>, order: seq<PlayerId>, target: PlayerId): nat
  {
    if order == [] then 0 else VotesByFor(votes, order[0], target) + SumVotesByFor(votes, order[1..], target)
  }

  /** How many of the distinct ids in order a single vote goes to. */
  function HitsFor(v: Option<Vote>, order: seq<PlayerId>): nat
  {
    if order == [] then 0 else (if VotedFor(v, order[0]) then 1 else 0) + HitsFor(v, order[1..])
  }

  function HitsByFor(v: Option<Vote>, order: seq<PlayerId>, target: PlayerId): nat
  {
    if order == [] then 0 else (if VotedByFor(v, order[0], target) then 1 else 0) + HitsByFor(v, order[1..], target)
  }

  lemma {:induction false} HitsForOne(v: Option<Vote>, order: seq<PlayerId>)
    requires Distinct(order)
    requires Resolved(v) ==> v.value.voted.value in order
    ensures HitsFor(v, order) == if Resolved(v) then 1 else 0
  {
    if order != [] {
      assert Distinct(order[1..]);
      if Resolved(v) && v.value.voted.value != order[0] {
        assert v.value.voted.value in order[1..];
      }
      if Resolved(v) && v.value.voted.value == order[0] {
        assert order[0] !in order[1..];
        HitsForNone(v, order[1..]);
      } else {
        HitsForOne(v, order[1..]);
      }
    }
  }

  lemma {:induction false} HitsForNone(v: Option<Vote>, order: seq<PlayerId>)
    requires v.Some? && v.value.voted.Some? && v.value.voted.value !in order
    ensures HitsFor(v, order) == 0
  {
    if order != [] {
      HitsForNone(v, order[1..]);
    }
  }

  lemma {:induction false} HitsByForOne(v: Option<Vote>, order: seq<PlayerId>, target: PlayerId)
    requires Distinct(order)
    requires v.Some? ==> v.value.voter in order
    ensures HitsByFor(v, order, target) == if VotedFor(v, target) then 1 else 0
  {
    if order != [] {
      assert Distinct(order[1..]);
      if v.Some? && v.value.voter != order[0] {
        assert v.value.voter in order[1..];
      }
      if v.Some? && v.value.voter == order[0] {
        assert order[0] !in order[1..];
        HitsByForNone(v, order[1..], target);
      } else {
        HitsByForOne(v, order[1..], target);
      }
    }
  }

  lemma {:induction false} HitsByForNone(v: Option<Vote>, order: seq<PlayerId>, target: PlayerId)
    requires v.Some? && v.value.voter !in order
    ensures HitsByFor(v, order, target) == 0
  {
    if order != [] {
      HitsByForNone(v, order[1..], target);
    }
  }

  lemma {:induction false} SumVotesForStep(votes: seq<Option<Vote>>, order: seq<PlayerId>)
    requires |votes| > 0
    ensures SumVotesFor(votes, order) == SumVotesFor(votes[..|votes| - 1], order) + HitsFor(votes[|votes| - 1], order)
  {
    if order != [] {
      SumVotesForStep(votes, order[1..]);
    }
  }

  lemma {:induction false} SumVotesByForStep(votes: seq<Option<Vote>>, order: seq<PlayerId>, target: PlayerId)
    requires |votes| > 0
    ensures SumVotesByFor(votes, order, target) == SumVotesByFor(votes[..|votes| - 1], order, target) + HitsByFor(votes[|votes| - 1], order, target)
  {
    if order != [] {
      SumVotesByForStep(votes, order[1..], target);
    }
  }

  /** Every resolved vote goes to exactly one player. */
  lemma {:induction false} SumVotesForAll(votes: seq<Option<Vote>>, order: seq<PlayerId>)
    requires Distinct(order)
    requires forall i :: 0 <= i < |votes| && Resolved(votes[i]) ==> votes[i].value.voted.value in order
    ensures SumVotesFor(votes, order) == ResolvedCount(votes)
    decreases |votes|
  {
    if votes == [] {
      SumVotesForEmpty(order);
    } else {
      var init := votes[..|votes| - 1];
      assert forall i :: 0 <= i < |init| ==> init[i] == votes[i];
      SumVotesForAll(init, order);
      SumVotesForStep(votes, order);
      HitsForOne(votes[|votes| - 1], order);
    }
  }

  /** Every vote for the story card was cast by exactly one player. */
  lemma {:induction false} SumVotesByForAll(votes: seq<Option<Vote>>, order: seq<PlayerId>, target: PlayerId)
    requires Distinct(order)
    requires forall i :: 0 <= i < |votes| && votes[i].Some? ==> votes[i].value.voter in order
    ensures SumVotesByFor(votes, order, target) == VotesFor(votes, target)
    decreases |votes|
  {
    if votes == [] {
      SumVotesByForEmpty(order, target);
    } else {
      var init := votes[..|votes| - 1];
      assert forall i :: 0 <= i < |init| ==> init[i] == votes[i];
      SumVotesByForAll(init, order, target);
      SumVotesByForStep(votes, order, target);
      HitsByForOne(votes[|votes| - 1], order, target);
    }
  }

  lemma {:induction false} SumVotesForEmpty(order: seq<PlayerId>)
    ensures SumVotesFor([], order) == 0
  {
    if order != [] {
      SumVotesForEmpty(order[1..]);
    }
  }

  lemma {:induction false} SumVotesByForEmpty(order: seq<PlayerId>, target: PlayerId)
    ensures SumVotesByFor([], order, target) == 0
  {
    if order != [] {
      SumVotesByForEmpty(order[1..], target);
    }
  }

  /** SumDelta split into its three parts, for an order holding the
      storyteller once. */
  lemma {:induction false} SumDeltaParts(votes: seq<Option<Vote>>, story: PlayerId, playerCount: int, order: seq<PlayerId>)
    requires Distinct(order)
    ensures var inOrder := if story in order then 1 else 0;
      SumDelta(votes, story, playerCount, order) ==
        (if AllRightOrAllWrong(votes, story, playerCount) then 2 * (|order| - inOrder)
         else 3 * inOrder + 3 * SumVotesByFor(votes, order, story))
        + SumVotesFor(votes, order) - inOrder * VotesFor(votes, story)
  {
    if order != [] {
      assert Distinct(order[1..]);
      assert order[0] == story ==> story !in order[1..];
      assert story in order && order[0] != story ==> story in order[1..];
      SumDeltaParts(votes, story, playerCount, order[1..]);
    }
  }

  /** The points one scored turn hands out, over all players: 2 to each
      non-storyteller, or 3 to the storyteller and 3 per correct vote; plus
      one per vote that did not go to the story card. */
  lemma TotalAwarded(votes: seq<Option<Vote>>, story: PlayerId, order: seq<PlayerId>)
    requires Distinct(order) && story in order
    requires AllResolved(votes)
    requires forall i :: 0 <= i < |votes| ==> votes[i].value.voter in order && votes[i].value.voted.value in order
    ensures var sv := VotesFor(votes, story);
      SumDelta(votes, story, |order|, order) ==
        (if AllRightOrAllWrong(votes, story, |order|) then 2 * (|order| - 1) else 3 + 3 * sv)
        + (|votes| - sv)
  {
    SumDeltaParts(votes, story, |order|, order);
    SumVotesForAll(votes, order);
    SumVotesByForAll(votes, order, story);
  }

  // ---- the award loops of ScoreTurn, one step at a time ----

  /** n more points for the player k of pts. */
  function Bump(pts: map<PlayerId, int>, k: PlayerId, n: int): (r: map<PlayerId, int>)
    ensures r.Keys == pts.Keys
  {
    if k in pts then pts[k := pts[k] + n] else pts
  }

  /** The all-or-none loop over the players in order (room.go:314-318). */
  function TwoForOthers(pts: map<PlayerId, int>, order: seq<PlayerId>, story: PlayerId): (r: map<PlayerId, int>)
    ensures r.Keys == pts.Keys
  {
    if order == [] then pts
    else
      var q := TwoForOthers(pts, order[..|order| - 1], story);
      var k := order[|order| - 1];
      if k != story then Bump(q, k, 2) else q
  }

  /** The loop over the votes giving 3 to every voter who found the story
      card (room.go:324-329). */
  function ThreeForFinders(pts: map<PlayerId, int>, votes: seq<Option<Vote>>, story: PlayerId): (r: map<PlayerId, int>)
    ensures r.Keys == pts.Keys
  {
    if votes == [] then pts
    else
      var q := ThreeForFinders(pts, votes[..|votes| - 1], story);
      var v := votes[|votes| - 1];
      if VotedFor(v, story) then Bump(q, v.value.voter, 3) else q
  }

  /** The bonus loop: one point to the target of every vote that did not go
      to the storyteller (room.go:334-339). */
  function BonusPoints(pts: map<PlayerId, int>, votes: seq<Option<Vote>>, story: PlayerId): (r: map<PlayerId, int>)
    ensures r.Keys == pts.Keys
  {
    if votes == [] then pts
    else
      var q := BonusPoints(pts, votes[..|votes| - 1], story);
      var v := votes[|votes| - 1];
      if Resolved(v) && v.value.voted.value != story then Bump(q, v.value.voted.value, 1) else q
  }

  /** Over distinct players the all-or-none loop gives 2 to each listed
      player other than the storyteller, and nothing to anyone else. */
  lemma {:induction false} TwoForOthersSpec(pts: map<PlayerId, int>, order: seq<PlayerId>, story: PlayerId)
    requires Distinct(order)
    ensures forall k :: k in pts ==>
      TwoForOthers(pts, order, story)[k] == pts[k] + (if k in order && k != story then 2 else 0)
  {
    if order != [] {
      var init := order[..|order| - 1];
      assert Distinct(init);
      TwoForOthersSpec(pts, init, story);
      forall k | k in pts
        ensures k in order <==> k in init || k == order[|order| - 1]
      {
        assert order == init + [order[|order| - 1]];
      }
      assert order[|order| - 1] !in init;
    }
  }

  /** The finders' loop gives every player 3 per vote they cast for the story
      card. */
  lemma {:induction false} ThreeForFindersSpec(pts: map<PlayerId, int>, votes: seq<Option<Vote>>, story: PlayerId)
    requires forall i :: 0 <= i < |votes| && votes[i].Some? ==> votes[i].value.voter in pts
    ensures forall k :: k in pts ==>
      ThreeForFinders(pts, votes, story)[k] == pts[k] + 3 * VotesByFor(votes, k, story)
  {
    if votes != [] {
      ThreeForFindersSpec(pts, votes[..|votes| - 1], story);
    }
  }

  /** The bonus loop gives every player other than the storyteller one point
      per vote received. */
  lemma {:induction false} BonusPointsSpec(pts: map<PlayerId, int>, votes: seq<Option<Vote>>, story: PlayerId)
    requires forall i :: 0 <= i < |votes| && Resolved(votes[i]) ==> votes[i].value.voted.value in pts
    ensures forall k :: k in pts ==>
      BonusPoints(pts, votes, story)[k] == pts[k] + (if k != story then VotesFor(votes, k) else 0)
  {
    if votes != [] {
      BonusPointsSpec(pts, votes[..|votes| - 1], story);
    }
  }

  // ---- worked examples with three players ----

  /** One of two guessers finds the story card, the other picks the card of
      the first: storyteller 3, the finder 3 + 1, the other 0. */
  lemma ScoreExampleSplit(s: PlayerId, x: PlayerId, y: PlayerId)
    requires s != x && s != y && x != y
    ensures var votes := [Some(Vote(x, Some(s), 10)), Some(Vote(y, Some(x), 11))];
      Delta(votes, s, 3, s) == 3 && Delta(votes, s, 3, x) == 4 && Delta(votes, s, 3, y) == 0
  {
    var votes := [Some(Vote(x, Some(s), 10)), Some(Vote(y, Some(x), 11))];
    assert votes[..1] == [votes[0]];
    assert VotesFor(votes, s) == 1;
    assert VotesByFor(votes, x, s) == 1 && VotesByFor(votes, y, s) == 0 && VotesByFor(votes, s, s) == 0;
    assert VotesFor(votes, x) == 1 && VotesFor(votes, y) == 0;
  }

  /** Both guessers find the story card: the storyteller scores 0, each of
      the others 2. */
  lemma ScoreExampleAllRight(s: PlayerId, x: PlayerId, y: PlayerId)
    requires s != x && s != y && x != y
    ensures var votes := [Some(Vote(x, Some(s), 10)), Some(Vote(y, Some(s), 10))];
      Delta(votes, s, 3, s) == 0 && Delta(votes, s, 3, x) == 2 && Delta(votes, s, 3, y) == 2
  {
    var votes := [Some(Vote(x, Some(s), 10)), Some(Vote(y, Some(s), 10))];
    assert votes[..1] == [votes[0]];
    assert VotesFor(votes, s) == 2;
    assert VotesFor(votes, x) == 0 && VotesFor(votes, y) == 0;
  }

  /** Nobody finds the story card and the guessers pick each other's cards:
      the storyteller scores 0, each of the others 2 + 1. */
  lemma ScoreExampleAllWrong(s: PlayerId, x: PlayerId, y: PlayerId)
    requires s != x && s != y && x != y
    ensures var votes := [Some(Vote(x, Some(y), 12)), Some(Vote(y, Some(x), 11))];
      Delta(votes, s, 3, s) == 0 && Delta(votes, s, 3, x) == 3 && Delta(votes, s, 3, y) == 3
  {
    var votes := [Some(Vote(x, Some(y), 12)), Some(Vote(y, Some(x), 11))];
    assert votes[..1] == [votes[0]];
    assert VotesFor(votes, s) == 0;
    assert VotesFor(votes, x) == 1 && VotesFor(votes, y) == 1;
  }
}
