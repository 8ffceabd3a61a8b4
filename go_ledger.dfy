/** The card ledger of a Go room as values: the draw pile dealt from its
    tail, the discard pile recycled into it, and the hands of the players
    (server/game/room/room.go:200-225, 258-287). The Room class in GoRoom
    is proved against these functions. */
module GoLedger {
  import opened GoIds
  import Deck

  type Hands = map<PlayerId, seq<int>>

  /** Number of cards one player receives: the index loop of
      room.go:272-277 stops after n steps or at the bottom of the pile. */
  function Take(n: int, pileSize: nat): (t: nat)
    ensures t <= pileSize
    ensures n <= 0 ==> t == 0
    ensures n > 0 ==> t == if n < pileSize then n else pileSize
  {
    if n <= 0 then 0 else if n < pileSize then n else pileSize
  }

  /** One pass of the dealing loop (room.go:270-286) over the players in
      order: each gets the last Take(n, |pile|) cards of the pile, and the
      pass stops after a player whose whole hand is still empty. */
  function DealPass(hands: Hands, pile: seq<int>, order: seq<PlayerId>, n: int): (r: (Hands, seq<int>))
    requires forall i :: 0 <= i < |order| ==> order[i] in hands
    ensures r.0.Keys == hands.Keys && |r.1| <= |pile|
    decreases |order|
  {
    if order == [] then (hands, pile)
    else
      var k := order[0];
      var start := |pile| - Take(n, |pile|);
      var h := hands[k := hands[k] + pile[start..]];
      if h[k] == [] then (h, pile[..start])
      else DealPass(h, pile[..start], order[1..], n)
  }

  /** Reference deal without the early stop: every player in order is served. */
  function DealAll(hands: Hands, pile: seq<int>, order: seq<PlayerId>, n: int): (r: (Hands, seq<int>))
    requires forall i :: 0 <= i < |order| ==> order[i] in hands
    ensures r.0.Keys == hands.Keys && |r.1| <= |pile|
    decreases |order|
  {
    if order == [] then (hands, pile)
    else
      var k := order[0];
      var start := |pile| - Take(n, |pile|);
      DealAll(hands[k := hands[k] + pile[start..]], pile[..start], order[1..], n)
  }

  /** Once nothing is left to take, dealing changes nothing. */
  lemma {:induction false} DealNothing(hands: Hands, pile: seq<int>, order: seq<PlayerId>, n: int)
    requires forall i :: 0 <= i < |order| ==> order[i] in hands
    requires Take(n, |pile|) == 0
    ensures DealAll(hands, pile, order, n) == (hands, pile)
    decreases |order|
  {
    if order != [] {
      var k := order[0];
      assert pile[|pile|..] == [] && pile[..|pile|] == pile;
      assert hands[k] + [] == hands[k];
      assert hands[k := hands[k]] == hands;
      DealNothing(hands, pile, order[1..], n);
    }
  }

  /** The early return of the dealing loop is never observable: the hand is
      empty after the deal only when that player took no card, and then no
      later player can take one either. */
  lemma {:induction false} EarlyStopHarmless(hands: Hands, pile: seq<int>, order: seq<PlayerId>, n: int)
    requires forall i :: 0 <= i < |order| ==> order[i] in hands
    ensures DealPass(hands, pile, order, n) == DealAll(hands, pile, order, n)
    decreases |order|
  {
    if order != [] {
      var k := order[0];
      var start := |pile| - Take(n, |pile|);
      var h := hands[k := hands[k] + pile[start..]];
      if h[k] == [] {
        assert Take(n, |pile|) == |pile[start..]| == 0;
        DealNothing(h, pile[..start], order[1..], n);
      } else {
        EarlyStopHarmless(h, pile[..start], order[1..], n);
      }
    }
  }

  /** All cards of the players in order, in order. */
  function CardsOf(hands: Hands, order: seq<PlayerId>): seq<int>
    requires forall i :: 0 <= i < |order| ==> order[i] in hands
    decreases |order|
  {
    if order == [] then [] else hands[order[0]] + CardsOf(hands, order[1..])
  }

  lemma {:induction false} CardsOfUpdate(hands: Hands, order: seq<PlayerId>, k: PlayerId, v: seq<int>)
    requires forall i :: 0 <= i < |order| ==> order[i] in hands
    requires k !in order
    ensures CardsOf(hands[k := v], order) == CardsOf(hands, order)
    decreases |order|
  {
    if order != [] {
      CardsOfUpdate(hands, order[1..], k, v);
    }
  }

  /** Dealing takes from the tail: the pile left is a prefix of the pile. */
  lemma {:induction false} DealAllPrefix(hands: Hands, pile: seq<int>, order: seq<PlayerId>, n: int)
    requires forall i :: 0 <= i < |order| ==> order[i] in hands
    ensures var p := DealAll(hands, pile, order, n).1; p == pile[..|p|]
    decreases |order|
  {
    if order != [] {
      var k := order[0];
      var start := |pile| - Take(n, |pile|);
      var h1 := hands[k := hands[k] + pile[start..]];
      DealAllPrefix(h1, pile[..start], order[1..], n);
      var p := DealAll(h1, pile[..start], order[1..], n).1;
      assert pile[..start][..|p|] == pile[..|p|];
    }
  }

  /** Dealing moves cards from the pile to the hands: none is lost or made
      (players outside the pass keep their hands, by DealAllFrame). */
  lemma {:induction false} DealAllConserves(hands: Hands, pile: seq<int>, order: seq<PlayerId>, n: int)
    requires forall i :: 0 <= i < |order| ==> order[i] in hands
    requires Distinct(order)
    ensures var (h, p) := DealAll(hands, pile, order, n);
      multiset(p) + multiset(CardsOf(h, order)) == multiset(pile) + multiset(CardsOf(hands, order))
    decreases |order|
  {
    if order != [] {
      var k := order[0];
      var start := |pile| - Take(n, |pile|);
      var h1 := hands[k := hands[k] + pile[start..]];
      var rest := order[1..];
      assert Distinct(rest);
      assert k !in rest;
      assert forall i :: 0 <= i < |rest| ==> rest[i] in h1;
      DealAllConserves(h1, pile[..start], rest, n);
      var (h, p) := DealAll(h1, pile[..start], rest, n);
      assert DealAll(hands, pile, order, n) == (h, p);
      // the first player's hand is not touched by the rest of the pass
      DealAllFrame(h1, pile[..start], rest, n, k);
      CardsOfUpdate(hands, rest, k, hands[k] + pile[start..]);
      assert pile == pile[..start] + pile[start..];
      calc {
        multiset(p) + multiset(CardsOf(h, order));
        multiset(p) + multiset(h[k]) + multiset(CardsOf(h, rest));
        multiset(pile[..start]) + multiset(CardsOf(h1, rest)) + multiset(h1[k]);
        multiset(pile[..start]) + multiset(CardsOf(hands, rest)) + multiset(hands[k]) + multiset(pile[start..]);
        multiset(pile) + multiset(CardsOf(hands, order));
      }
    }
  }

  /** A player outside the pass keeps their hand. */
  lemma {:induction false} DealAllFrame(hands: Hands, pile: seq<int>, order: seq<PlayerId>, n: int, k: PlayerId)
    requires forall i :: 0 <= i < |order| ==> order[i] in hands
    requires k in hands && k !in order
    ensures DealAll(hands, pile, order, n).0[k] == hands[k]
    decreases |order|
  {
    if order != [] {
      var j := order[0];
      var start := |pile| - Take(n, |pile|);
      DealAllFrame(hands[j := hands[j] + pile[start..]], pile[..start], order[1..], n, k);
    }
  }

  /** With n cards for each of the players available, every player in the
      pass receives exactly n cards from the tail of the pile. */
  lemma {:induction false} DealAllFull(hands: Hands, pile: seq<int>, order: seq<PlayerId>, n: nat)
    requires forall i :: 0 <= i < |order| ==> order[i] in hands
    requires Distinct(order)
    requires |pile| >= n * |order|
    ensures |DealAll(hands, pile, order, n).1| == |pile| - n * |order|
    ensures forall k :: k in order ==>
      var h := DealAll(hands, pile, order, n).0;
      |h[k]| == |hands[k]| + n && h[k][..|hands[k]|] == hands[k]
    decreases |order|
  {
    if order != [] {
      var k := order[0];
      var rest := order[1..];
      assert n * |order| == n + n * |rest|;
      var start := |pile| - n;
      assert Take(n, |pile|) == n;
      var h1 := hands[k := hands[k] + pile[start..]];
      assert Distinct(rest);
      assert forall i :: 0 <= i < |rest| ==> rest[i] in h1;
      DealAllFull(h1, pile[..start], rest, n);
      assert k !in rest;
      DealAllFrame(h1, pile[..start], rest, n, k);
      var h := DealAll(h1, pile[..start], rest, n).0;
      assert DealAll(hands, pile, order, n).0 == h;
      forall j | j in order ensures |h[j]| == |hands[j]| + n && h[j][..|hands[j]|] == hands[j] {
        if j != k {
          assert j in rest;
        }
      }
    }
  }

  /** The recycle step (room.go:259-269): when the draw pile holds fewer
      cards than there are players, the discard pile, shuffled by the
      random choices rnd, is put on top (the tail) of the draw pile and
      emptied. Returns the new draw and discard piles. */
  function Recycle(pile: seq<int>, discard: seq<int>, playerCount: nat, rnd: seq<nat>): (seq<int>, seq<int>)
  {
    if |pile| < playerCount then (pile + Deck.Shuffle(discard, rnd), []) else (pile, discard)
  }

  lemma RecycleSpec(pile: seq<int>, discard: seq<int>, playerCount: nat, rnd: seq<nat>)
    ensures var (p, d) := Recycle(pile, discard, playerCount, rnd);
      && multiset(p) + multiset(d) == multiset(pile) + multiset(discard)
      && p[..|pile|] == pile
      && (|pile| < playerCount ==> d == [] && multiset(p[|pile|..]) == multiset(discard))
      && (|pile| >= playerCount ==> p == pile && d == discard)
  {
    Deck.ShufflePermutes(discard, rnd);
    var (p, d) := Recycle(pile, discard, playerCount, rnd);
    if |pile| < playerCount {
      assert p[|pile|..] == Deck.Shuffle(discard, rnd);
      assert p == pile + p[|pile|..];
    }
  }

  /** sendCardsToEach (room.go:258-287) on values: recycle against the
      number of players, then one dealing pass. Returns hands, draw pile and
      discard pile. */
  function SendCards(hands: Hands, pile: seq<int>, discard: seq<int>, order: seq<PlayerId>, n: int, rnd: seq<nat>): (r: (Hands, seq<int>, seq<int>))
    requires forall i :: 0 <= i < |order| ==> order[i] in hands
    ensures r.0.Keys == hands.Keys
  {
    var (p, d) := Recycle(pile, discard, |hands|, rnd);
    var (h, p2) := DealPass(hands, p, order, n);
    (h, p2, d)
  }

  /** SendCards through its two stages. */
  lemma SendCardsStages(hands: Hands, pile: seq<int>, discard: seq<int>, order: seq<PlayerId>, n: int, rnd: seq<nat>)
    requires forall i :: 0 <= i < |order| ==> order[i] in hands
    ensures var (p, d) := Recycle(pile, discard, |hands|, rnd);
      SendCards(hands, pile, discard, order, n, rnd) == (DealPass(hands, p, order, n).0, DealPass(hands, p, order, n).1, d)
  {
  }

  /** DealPass over the players order[j..], by index. */
  function DealFrom(hands: Hands, pile: seq<int>, order: seq<PlayerId>, j: nat, n: int): (Hands, seq<int>)
    requires j <= |order|
    requires forall i :: 0 <= i < |order| ==> order[i] in hands
    decreases |order| - j
  {
    if j == |order| then (hands, pile)
    else
      var k := order[j];
      var start := |pile| - Take(n, |pile|);
      var h := hands[k := hands[k] + pile[start..]];
      if h[k] == [] then (h, pile[..start])
      else DealFrom(h, pile[..start], order, j + 1, n)
  }

  lemma {:induction false} DealFromIsDealPass(hands: Hands, pile: seq<int>, order: seq<PlayerId>, j: nat, n: int)
    requires j <= |order|
    requires forall i :: 0 <= i < |order| ==> order[i] in hands
    ensures DealFrom(hands, pile, order, j, n) == DealPass(hands, pile, order[j..], n)
    decreases |order| - j
  {
    if j < |order| {
      var k := order[j];
      var start := |pile| - Take(n, |pile|);
      var h := hands[k := hands[k] + pile[start..]];
      assert order[j..][0] == k && order[j..][1..] == order[j + 1..];
      if h[k] != [] {
        DealFromIsDealPass(h, pile[..start], order, j + 1, n);
      }
    }
  }

  predicate OrderOfTwo(o: seq<PlayerId>, a: PlayerId, b: PlayerId)
  {
    o == [a, b] || o == [b, a]
  }

  /** A pass over two players with enough cards: each takes n. */
  lemma SendCardsTwoFull(hands: Hands, pile: seq<int>, o: seq<PlayerId>, a: PlayerId, b: PlayerId, n: nat, rnd: seq<nat>)
    requires a != b && hands.Keys == {a, b} && OrderOfTwo(o, a, b)
    requires |pile| >= 2 * n && |pile| >= 2
    ensures var s := SendCards(hands, pile, [], o, n, rnd);
      && s.0.Keys == {a, b} && |s.1| == |pile| - 2 * n && s.2 == []
      && |s.0[a]| == |hands[a]| + n && |s.0[b]| == |hands[b]| + n
  {
    assert |hands| == 2;
    assert Recycle(pile, [], 2, rnd) == (pile, []);
    EarlyStopHarmless(hands, pile, o, n);
    DealAllFull(hands, pile, o, n);
  }

  /** A pass of n cards over two players when only n + m cards are left,
      m < n: the first player visited takes n, the second the m left. */
  lemma SendCardsTwoShort(hands: Hands, pile: seq<int>, o: seq<PlayerId>, a: PlayerId, b: PlayerId, n: nat, rnd: seq<nat>)
    requires a != b && hands.Keys == {a, b} && OrderOfTwo(o, a, b)
    requires 2 <= n <= |pile| < 2 * n
    ensures var s := SendCards(hands, pile, [], o, n, rnd);
      && s.0.Keys == {a, b} && s.1 == [] && s.2 == []
      && |s.0[o[0]]| == |hands[o[0]]| + n && |s.0[o[1]]| == |hands[o[1]]| + |pile| - n
  {
    assert |hands| == 2;
    assert Recycle(pile, [], 2, rnd) == (pile, []);
    EarlyStopHarmless(hands, pile, o, n);
    var x, y := o[0], o[1];
    var start := |pile| - n;
    var h1 := hands[x := hands[x] + pile[start..]];
    var p1 := pile[..start];
    assert DealAll(hands, pile, o, n) == DealAll(h1, p1, [y], n);
    var h2 := h1[y := h1[y] + p1[0..]];
    assert DealAll(h1, p1, [y], n) == DealAll(h2, p1[..0], [], n);
  }

  /** A pass over two players with both piles empty deals nothing. */
  lemma SendCardsTwoEmpty(hands: Hands, o: seq<PlayerId>, a: PlayerId, b: PlayerId, n: int, rnd: seq<nat>)
    requires a != b && hands.Keys == {a, b} && OrderOfTwo(o, a, b)
    ensures SendCards(hands, [], [], o, n, rnd) == (hands, [], [])
  {
    assert |hands| == 2;
    var e: seq<int> := [];
    assert Deck.Shuffle(e, rnd) == e;
    assert e + Deck.Shuffle(e, rnd) == e;
    assert Recycle(e, e, 2, rnd) == (e, e);
    EarlyStopHarmless(hands, [], o, n);
    DealNothing(hands, [], o, n);
  }

  /** The dealing sequence of TestDealCards (room_test.go:38-70): two
      players, any 11 cards, passes of 2, 1, 3 and 3 cards give hands of 2/2,
      3/3, 6/5 and 6/5, where the 6 goes to whoever the map iteration of the
      third pass visits first, whatever the iteration orders. */
  lemma DealCardsScenario(a: PlayerId, b: PlayerId, pile: seq<int>, o1: seq<PlayerId>, o2: seq<PlayerId>, o3: seq<PlayerId>, o4: seq<PlayerId>,
                          r1: seq<nat>, r2: seq<nat>, r3: seq<nat>, r4: seq<nat>)
    requires a != b && |pile| == 11
    requires OrderOfTwo(o1, a, b) && OrderOfTwo(o2, a, b) && OrderOfTwo(o3, a, b) && OrderOfTwo(o4, a, b)
    ensures
      var s1 := SendCards(map[a := [], b := []], pile, [], o1, 2, r1);
      var s2 := SendCards(s1.0, s1.1, s1.2, o2, 1, r2);
      var s3 := SendCards(s2.0, s2.1, s2.2, o3, 3, r3);
      var s4 := SendCards(s3.0, s3.1, s3.2, o4, 3, r4);
      && |s1.0[a]| == 2 && |s1.0[b]| == 2
      && |s2.0[a]| == 3 && |s2.0[b]| == 3
      && |s3.0[o3[0]]| == 6 && |s3.0[o3[1]]| == 5
      && |s4.0[o3[0]]| == 6 && |s4.0[o3[1]]| == 5
  {
    var h0: Hands := map[a := [], b := []];
    SendCardsTwoFull(h0, pile, o1, a, b, 2, r1);
    var s1 := SendCards(h0, pile, [], o1, 2, r1);
    SendCardsTwoFull(s1.0, s1.1, o2, a, b, 1, r2);
    var s2 := SendCards(s1.0, s1.1, s1.2, o2, 1, r2);
    SendCardsTwoShort(s2.0, s2.1, o3, a, b, 3, r3);
    var s3 := SendCards(s2.0, s2.1, s2.2, o3, 3, r3);
    SendCardsTwoEmpty(s3.0, o4, a, b, 3, r4);
  }

  /** The hand after DiscardCard (room.go:204-221): the first copy of the
      card is overwritten by the last card and the last slot dropped; a card
      not in hand leaves the hand as it is. */
  function SwapRemove(hand: seq<int>, idx: nat): (r: seq<int>)
    requires idx < |hand|
    ensures |r| == |hand| - 1
    ensures multiset(r) == multiset(hand) - multiset{hand[idx]}
  {
    var last := |hand| - 1;
    var swapped := hand[idx := hand[last]];
    assert hand == hand[..idx] + [hand[idx]] + hand[idx + 1..];
    assert idx < last ==> swapped == hand[..idx] + [hand[last]] + hand[idx + 1..last] + [hand[last]];
    assert idx < last ==> hand[idx + 1..] == hand[idx + 1..last] + [hand[last]];
    assert swapped[..last] == if idx < last then hand[..idx] + [hand[last]] + hand[idx + 1..last] else hand[..idx];
    swapped[..last]
  }

  /** Index of the first copy of c, if any (room.go:205-211). */
  function FirstIndex(hand: seq<int>, c: int): (r: int)
    ensures -1 <= r < |hand|
    ensures r == -1 <==> c !in hand
    ensures r >= 0 ==> hand[r] == c && c !in hand[..r]
  {
    if hand == [] then -1
    else if hand[0] == c then 0
    else
      var r := FirstIndex(hand[1..], c);
      assert hand[1..] == hand[1..][..|hand| - 1];
      if r == -1 then -1
      else
        assert hand[..r + 1] == [hand[0]] + hand[1..][..r];
        r + 1
  }

  /** The hand after discarding c. */
  function HandAfterDiscard(hand: seq<int>, c: int): (r: seq<int>)
    ensures c !in hand ==> r == hand
    ensures c in hand ==> multiset(r) == multiset(hand) - multiset{c} && |r| == |hand| - 1
  {
    var idx := FirstIndex(hand, c);
    if idx == -1 then hand else SwapRemove(hand, idx)
  }
}
