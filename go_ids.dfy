/** Player ids of the Go server and the order nextTurn sorts them in
    (server/game/room/room.go:231-238). A uuid.UUID is modelled by its
    canonical text, uuid.UUID.String(), which is injective, so comparing
    UUIDs and comparing their strings agree. */
module GoIds {

  type PlayerId = string

  /** uuid.Nil.String() */
  const Nil: PlayerId := "00000000-0000-0000-0000-000000000000"

  /** Go's `<` on strings: lexicographic on bytes. The canonical UUID text is
      ASCII, so comparing characters compares the bytes. */
  predicate Less(a: string, b: string)
    decreases |a|
  {
    if |a| == 0 then |b| > 0
    else if |b| == 0 then false
    else if a[0] != b[0] then a[0] < b[0]
    else Less(a[1..], b[1..])
  }

  lemma {:induction false} LessIrreflexive(a: string)
    ensures !Less(a, a)
    decreases |a|
  {
    if |a| > 0 {
      LessIrreflexive(a[1..]);
    }
  }

  lemma {:induction false} LessTransitive(a: string, b: string, c: string)
    requires Less(a, b) && Less(b, c)
    ensures Less(a, c)
    decreases |a|
  {
    if |a| > 0 && a[0] == b[0] && b[0] == c[0] {
      LessTransitive(a[1..], b[1..], c[1..]);
    }
  }

  lemma {:induction false} LessTotal(a: string, b: string)
    ensures a == b || Less(a, b) || Less(b, a)
    decreases |a|
  {
    if |a| > 0 && |b| > 0 && a[0] == b[0] {
      LessTotal(a[1..], b[1..]);
      if a[1..] == b[1..] {
        assert a == [a[0]] + a[1..] && b == [b[0]] + b[1..];
      }
    }
  }

  lemma LessAsymmetric(a: string, b: string)
    requires Less(a, b)
    ensures !Less(b, a)
  {
    if Less(b, a) {
      LessTransitive(a, b, a);
      LessIrreflexive(a);
    }
  }

  predicate Distinct<T(==)>(s: seq<T>)
  {
    forall i, j :: 0 <= i < j < |s| ==> s[i] != s[j]
  }

  predicate StrictlySorted(s: seq<PlayerId>)
  {
    forall i, j :: 0 <= i < j < |s| ==> Less(s[i], s[j])
  }

  /** Put x in front of the first element it is Less than. */
  function Insert(x: PlayerId, s: seq<PlayerId>): seq<PlayerId>
  {
    if s == [] then [x]
    else if Less(x, s[0]) then [x] + s
    else [s[0]] + Insert(x, s[1..])
  }

  /** sort.Slice(playerIds, Less): for distinct ids every correct sort
      produces this same sequence, so insertion sort stands for it. */
  function SortIds(s: seq<PlayerId>): seq<PlayerId>
  {
    if s == [] then [] else Insert(s[0], SortIds(s[1..]))
  }

  lemma PrependSorted(a: PlayerId, r: seq<PlayerId>)
    requires StrictlySorted(r)
    requires forall k :: 0 <= k < |r| ==> Less(a, r[k])
    ensures StrictlySorted([a] + r)
  {
    var q := [a] + r;
    forall i, j | 0 <= i < j < |q| ensures Less(q[i], q[j]) {
      if i == 0 {
        assert q[j] == r[j - 1];
      } else {
        assert q[i] == r[i - 1] && q[j] == r[j - 1];
      }
    }
  }

  lemma {:induction false} InsertMultiset(x: PlayerId, s: seq<PlayerId>)
    ensures multiset(Insert(x, s)) == multiset(s) + multiset{x}
  {
    if s != [] && !Less(x, s[0]) {
      InsertMultiset(x, s[1..]);
      assert s == [s[0]] + s[1..];
    }
  }

  /** In a sorted sequence the head is below everything after it. */
  lemma HeadBelowTail(s: seq<PlayerId>)
    requires StrictlySorted(s) && |s| > 0
    ensures forall y :: y in s[1..] ==> Less(s[0], y)
  {
    forall y | y in s[1..]
      ensures Less(s[0], y)
    {
      var m :| 0 <= m < |s| - 1 && s[1..][m] == y;
      assert s[m + 1] == y;
    }
  }

  lemma {:induction false} InsertSorted(x: PlayerId, s: seq<PlayerId>)
    requires StrictlySorted(s) && x !in s
    ensures StrictlySorted(Insert(x, s))
    ensures multiset(Insert(x, s)) == multiset(s) + multiset{x}
  {
    InsertMultiset(x, s);
    if s == [] {
    } else if Less(x, s[0]) {
      forall k | 0 <= k < |s| ensures Less(x, s[k]) {
        if k > 0 {
          LessTransitive(x, s[0], s[k]);
        }
      }
      PrependSorted(x, s);
    } else {
      LessTotal(x, s[0]);
      var t := s[1..];
      assert StrictlySorted(t);
      assert x !in t;
      InsertSorted(x, t);
      InsertMultiset(x, t);
      HeadBelowTail(s);
      var r := Insert(x, t);
      forall k | 0 <= k < |r| ensures Less(s[0], r[k]) {
        assert r[k] in multiset(r);
        if r[k] != x {
          assert r[k] in multiset(t);
        }
      }
      PrependSorted(s[0], r);
    }
  }

  lemma {:induction false} SortIdsSorted(s: seq<PlayerId>)
    requires Distinct(s)
    ensures StrictlySorted(SortIds(s))
    ensures multiset(SortIds(s)) == multiset(s)
  {
    if s != [] {
      var t := s[1..];
      assert Distinct(t);
      SortIdsSorted(t);
      assert s[0] !in t;
      assert s[0] !in multiset(SortIds(t));
      InsertSorted(s[0], SortIds(t));
      assert s == [s[0]] + t;
    }
  }

  /** x is the least id of ids. */
  ghost predicate IsMinimum(x: PlayerId, ids: set<PlayerId>)
  {
    x in ids && forall y :: y in ids ==> y == x || Less(x, y)
  }

  /** x is the least id of ids that is greater than prev. */
  ghost predicate IsSuccessor(x: PlayerId, prev: PlayerId, ids: set<PlayerId>)
  {
    x in ids && Less(prev, x) && forall y :: y in ids && Less(prev, y) ==> y == x || Less(x, y)
  }

  /** The storyteller rotation of nextTurn: after prev comes the next larger
      id, wrapping around to the least id after the largest. */
  ghost predicate IsRotation(next: PlayerId, prev: PlayerId, ids: set<PlayerId>)
  {
    if exists y :: y in ids && Less(prev, y) then IsSuccessor(next, prev, ids)
    else IsMinimum(next, ids)
  }

  lemma SortedFirstIsMinimum(s: seq<PlayerId>)
    requires StrictlySorted(s) && |s| > 0
    ensures IsMinimum(s[0], set x | x in s)
  {
  }

  /** The element after position idx in a sorted sequence, wrapping to the
      front, is the rotation successor of s[idx]. */
  lemma {:induction false} SortedRotation(s: seq<PlayerId>, idx: nat)
    requires StrictlySorted(s) && idx < |s|
    ensures IsRotation(if idx + 1 >= |s| then s[0] else s[idx + 1], s[idx], set x | x in s)
  {
    var ids := set x | x in s;
    if idx + 1 >= |s| {
      forall y | y in ids ensures !Less(s[idx], y) {
        var k :| 0 <= k < |s| && s[k] == y;
        if k < idx {
          LessAsymmetric(s[k], s[idx]);
        } else {
          LessIrreflexive(y);
        }
      }
      SortedFirstIsMinimum(s);
    } else {
      var nx := s[idx + 1];
      forall y | y in ids && Less(s[idx], y) ensures y == nx || Less(nx, y) {
        var k :| 0 <= k < |s| && s[k] == y;
        if k <= idx {
          if k < idx {
            LessAsymmetric(s[k], s[idx]);
          } else {
            LessIrreflexive(y);
          }
        }
      }
    }
  }
}
