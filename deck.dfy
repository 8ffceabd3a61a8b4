/** Card-id sequences shared by both engines: the sequential deck and the
    Fisher-Yates shuffle that Go's rand.Shuffle performs, driven by an
    explicit stream of random choices. */
module Deck {

  /** The ids 0, 1, ..., n-1 in order. */
  function Range(n: nat): (r: seq<int>)
    ensures |r| == n
    ensures forall i :: 0 <= i < n ==> r[i] == i
  {
    if n == 0 then [] else Range(n - 1) + [n - 1]
  }

  /** deck holds each id below n once, and nothing else. */
  ghost predicate EachIdOnce(deck: seq<int>, n: nat)
  {
    |deck| == n && forall x :: multiset(deck)[x] == if 0 <= x < n then 1 else 0
  }

  /** Range(n) holds each id below n once. */
  lemma {:induction false} RangeIds(n: nat)
    ensures EachIdOnce(Range(n), n)
  {
    if n > 0 {
      var r := Range(n - 1);
      RangeIds(n - 1);
      assert Range(n) == r + [n - 1];
      assert multiset(Range(n)) == multiset(r) + multiset{n - 1};
      forall x
        ensures multiset(Range(n))[x] == if 0 <= x < n then 1 else 0
      {
        assert multiset(r)[x] == if 0 <= x < n - 1 then 1 else 0;
      }
    }
  }

  /** rand.Shuffle(n, swap): for i from n-1 down to 1, swap positions i and j
      where j is drawn from [0, i]. The draws come from rnd (taken modulo i+1);
      once rnd runs out, j = i (no swap). */
  function Shuffle<T>(s: seq<T>, rnd: seq<nat>): (r: seq<T>)
    decreases |s|
  {
    if |s| <= 1 then s
    else
      var i := |s| - 1;
      var j := if |rnd| > 0 then rnd[0] % (i + 1) else i;
      var swapped := s[j := s[i]][i := s[j]];
      Shuffle(swapped[..i], if |rnd| > 0 then rnd[1..] else []) + [swapped[i]]
  }

  /** Swapping two positions permutes a sequence. */
  lemma SwapPermutes<T>(s: seq<T>, i: nat, j: nat)
    requires i < |s| && j < |s|
    ensures multiset(s[j := s[i]][i := s[j]]) == multiset(s)
  {
  }

  /** Whatever the random choices, a shuffle is a permutation. */
  lemma {:induction false} ShufflePermutes<T>(s: seq<T>, rnd: seq<nat>)
    ensures |Shuffle(s, rnd)| == |s|
    ensures multiset(Shuffle(s, rnd)) == multiset(s)
    decreases |s|
  {
    if |s| > 1 {
      var i := |s| - 1;
      var j := if |rnd| > 0 then rnd[0] % (i + 1) else i;
      var swapped := s[j := s[i]][i := s[j]];
      var rest := if |rnd| > 0 then rnd[1..] else [];
      ShufflePermutes(swapped[..i], rest);
      assert swapped == swapped[..i] + [swapped[i]];
      SwapPermutes(s, i, j);
    }
  }
}
