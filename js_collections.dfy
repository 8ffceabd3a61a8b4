/** The JavaScript collection operations the TypeScript server relies on:
    a Map that remembers insertion order, and Array's findIndex, indexOf,
    find and splice with their handling of out-of-range arguments. */
module JsCollections {
  import opened Wrappers

  /** A JavaScript Map: its entries, and the order in which their keys were
      first set. */
  datatype JsMap<K, V> = JsMap(keys: seq<K>, vals: map<K, V>)

  /** Exactly the keys with an entry are listed. */
  ghost predicate MapValid<K(!new), V>(m: JsMap<K, V>)
  {
    forall k :: k in m.vals <==> k in m.keys
  }

  /** Each key is listed once. Kept apart from MapValid, which every
      operation needs, because only the iteration-order arguments use it. */
  ghost predicate KeysDistinct<K, V>(m: JsMap<K, V>)
  {
    forall i, j :: 0 <= i < j < |m.keys| ==> m.keys[i] != m.keys[j]
  }

  /** new Map() */
  function EmptyMap<K(!new), V>(): (m: JsMap<K, V>)
    ensures MapValid(m) && KeysDistinct(m) && m.vals == map[] && m.keys == []
  {
    JsMap([], map[])
  }

  /** Map.set: a new key goes to the end of the iteration order, an existing
      key keeps its place. */
  function MapSet<K(==,!new), V>(m: JsMap<K, V>, k: K, v: V): (r: JsMap<K, V>)
    requires MapValid(m)
    ensures MapValid(r)
    ensures r.vals == m.vals[k := v]
    ensures k in m.vals ==> r.keys == m.keys
    ensures k !in m.vals ==> r.keys == m.keys + [k]
  {
    if k in m.vals then JsMap(m.keys, m.vals[k := v]) else JsMap(m.keys + [k], m.vals[k := v])
  }

  /** Map.set never lists a key twice. */
  lemma {:induction false} MapSetDistinct<K(!new), V>(m: JsMap<K, V>, k: K, v: V)
    requires MapValid(m) && KeysDistinct(m)
    ensures KeysDistinct(MapSet(m, k, v))
  {
    if k !in m.vals {
      var keys := m.keys + [k];
      forall i, j | 0 <= i < j < |keys|
        ensures keys[i] != keys[j]
      {
        if j == |m.keys| {
          assert keys[i] == m.keys[i];
        }
      }
    }
  }

  /** Array.prototype.findIndex: the first index whose element satisfies p,
      or -1. */
  function FindIndex<T>(s: seq<T>, p: T -> bool): (r: int)
    ensures -1 <= r < |s|
    ensures r == -1 <==> forall i :: 0 <= i < |s| ==> !p(s[i])
    ensures r != -1 ==> p(s[r]) && forall i :: 0 <= i < r ==> !p(s[i])
  {
    if s == [] then -1
    else if p(s[0]) then 0
    else
      var r := FindIndex(s[1..], p);
      assert forall i :: 0 < i < |s| ==> s[i] == s[1..][i - 1];
      if r == -1 then -1 else r + 1
  }

  /** Array.prototype.find: the first element satisfying p, or undefined. */
  function Find<T>(s: seq<T>, p: T -> bool): (r: Option<T>)
    ensures r.None? <==> forall i :: 0 <= i < |s| ==> !p(s[i])
    ensures r.Some? ==> 0 <= FindIndex(s, p) && r.value == s[FindIndex(s, p)]
  {
    var i := FindIndex(s, p);
    if i == -1 then None else Some(s[i])
  }

  /** Array.prototype.indexOf: the first index holding x, or -1. */
  function IndexOf<T(==)>(s: seq<T>, x: T): (r: int)
    ensures -1 <= r < |s|
    ensures r == -1 <==> x !in s
    ensures r != -1 ==> s[r] == x && x !in s[..r]
  {
    if s == [] then -1
    else if s[0] == x then 0
    else
      var r := IndexOf(s[1..], x);
      assert r != -1 ==> s[..r + 1] == [s[0]] + s[1..][..r];
      if r == -1 then -1 else r + 1
  }

  /** Where splice(start, ...) starts on an array of length len: a negative
      start counts from the end, and both ends are clamped. */
  function SpliceStart(len: nat, start: int): (a: nat)
    ensures a <= len
    ensures 0 <= start <= len ==> a == start
    ensures start < 0 && len + start >= 0 ==> a == len + start
  {
    if start < 0 then (if len + start < 0 then 0 else len + start)
    else if start > len then len
    else start
  }

  /** Array.prototype.splice(start, deleteCount) with no insertions: the
      elements removed, and the array left. */
  function Splice<T>(s: seq<T>, start: int, deleteCount: int): (r: (seq<T>, seq<T>))
    ensures var a := SpliceStart(|s|, start);
      var d := if deleteCount < 0 then 0 else if deleteCount > |s| - a then |s| - a else deleteCount;
      r.0 == s[a..a + d] && r.1 == s[..a] + s[a + d..]
    ensures r.0 + r.1 == s || SpliceStart(|s|, start) > 0
  {
    var a := SpliceStart(|s|, start);
    var d := if deleteCount < 0 then 0 else if deleteCount > |s| - a then |s| - a else deleteCount;
    assert a == 0 ==> s[a..a + d] + s[a + d..] == s;
    (s[a..a + d], s[..a] + s[a + d..])
  }

  /** splice(-1, 1) takes the last element: what splice at the index of a
      missing element does. */
  lemma {:induction false} SpliceMinusOne<T>(s: seq<T>)
    ensures s != [] ==> Splice(s, -1, 1).1 == s[..|s| - 1] && Splice(s, -1, 1).0 == [s[|s| - 1]]
    ensures s == [] ==> Splice(s, -1, 1).1 == []
  {
  }

  /** splice(0, n) takes the first n elements, or all when there are fewer;
      a negative n takes none. */
  lemma {:induction false} SpliceFront<T>(s: seq<T>, n: int)
    ensures var taken := if n < 0 then 0 else if n > |s| then |s| else n;
      Splice(s, 0, n).0 == s[..taken] && Splice(s, 0, n).1 == s[taken..]
  {
  }

  /** The array with the first occurrence of x spliced out, or unchanged
      when x does not occur: findIndex followed by splice(index, 1). */
  function RemoveFirst<T(==)>(s: seq<T>, x: T): (r: seq<T>)
    ensures x !in s ==> r == s
    ensures x in s ==> |r| == |s| - 1
  {
    var index := IndexOf(s, x);
    if index == -1 then s else Splice(s, index, 1).1
  }

  /** What RemoveFirst removes: one x, the first, and nothing else. */
  lemma {:induction false} RemoveFirstSpec<T>(s: seq<T>, x: T)
    requires x in s
    ensures multiset(RemoveFirst(s, x)) == multiset(s) - multiset{x}
    ensures var i := IndexOf(s, x);
      0 <= i < |s| && s[i] == x && x !in s[..i] && RemoveFirst(s, x) == s[..i] + s[i + 1..]
  {
    var index := IndexOf(s, x);
    assert s == s[..index] + [x] + s[index + 1..];
  }
}
