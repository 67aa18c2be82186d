/**
  The list and dictionary operations the service handlers apply to rosters
  (lists of user ids) and to the per-chat maps, stated on values.
 */
module Builtins {
  import opened Wrappers

  /** No id occurs twice in the roster. */
  predicate NoDup(xs: seq<int>)
  {
    forall i, j :: 0 <= i < j < |xs| ==> xs[i] != xs[j]
  }

  /** `d.get(k)`: the value stored under `k`, or `None` when the key is missing. */
  function Get<K, V>(m: map<K, V>, k: K): (r: Option<V>)
    ensures r.Some? <==> k in m
    ensures r.Some? ==> r.value == m[k]
  {
    if k in m then Some(m[k]) else None
  }

  /**
    `if x not in xs: xs.append(x)`: the roster grows at its end only, gains
    exactly `x`, and stays duplicate-free.
   */
  function AddIfAbsent(xs: seq<int>, x: int): (r: seq<int>)
    ensures xs <= r
    ensures forall y :: y in r <==> y in xs || y == x
    ensures |r| == if x in xs then |xs| else |xs| + 1
    ensures NoDup(xs) ==> NoDup(r)
  {
    if x in xs then xs else xs + [x]
  }

  /**
    `xs.index(x)`: the position of the first occurrence of `x`, or `None`
    where Python raises `ValueError`.
   */
  function IndexOf(xs: seq<int>, x: int): (r: Option<nat>)
    ensures r.None? <==> x !in xs
    ensures r.Some? ==> r.value < |xs| && xs[r.value] == x && x !in xs[..r.value]
  {
    if xs == [] then None
    else if xs[0] == x then Some(0)
    else
      match IndexOf(xs[1..], x)
      case None => None
      case Some(i) =>
        assert xs[1..][..i] == xs[1..i + 1];
        assert xs[..i + 1] == [xs[0]] + xs[1..i + 1];
        Some(i + 1)
  }

  /** `xs.pop(i)` with its result discarded: the roster loses exactly one occurrence of `xs[i]`. */
  function RemoveAt(xs: seq<int>, i: nat): (r: seq<int>)
    requires i < |xs|
    ensures |r| == |xs| - 1
    ensures multiset(r) == multiset(xs) - multiset{xs[i]}
    ensures forall k :: 0 <= k < i ==> r[k] == xs[k]
    ensures forall k :: i <= k < |r| ==> r[k] == xs[k + 1]
  {
    assert xs == xs[..i] + [xs[i]] + xs[i + 1..];
    assert multiset(xs) == multiset(xs[..i]) + multiset{xs[i]} + multiset(xs[i + 1..]);
    xs[..i] + xs[i + 1..]
  }

  /** Removing one element from a duplicate-free roster removes that id entirely and keeps the others. */
  lemma RemoveAtNoDup(xs: seq<int>, i: nat)
    requires i < |xs| && NoDup(xs)
    ensures NoDup(RemoveAt(xs, i))
    ensures xs[i] !in RemoveAt(xs, i)
    ensures forall y :: y != xs[i] ==> (y in RemoveAt(xs, i) <==> y in xs)
  {
    var r := RemoveAt(xs, i);
    forall k | 0 <= k < |r| ensures r[k] != xs[i] {
      if k >= i { assert r[k] == xs[k + 1]; }
    }
    forall y | y != xs[i] && y in xs ensures y in r {
      var k :| 0 <= k < |xs| && xs[k] == y;
      if k < i { assert r[k] == y; } else { assert r[k - 1] == y; }
    }
  }

  /**
    Moving the entry under `src` to `dst`: `dst` now holds what `src` held,
    `src` is gone (unless it is `dst`), and every other key is unchanged.
    A missing `src` leaves the map as it is.
   */
  function MoveKey<V>(m: map<int, V>, src: int, dst: int): (r: map<int, V>)
    ensures src !in m ==> r == m
    ensures src in m ==> r.Keys == m.Keys - {src} + {dst} && r[dst] == m[src]
    ensures forall k :: k != src && k != dst ==> (k in r <==> k in m)
    ensures forall k :: k in r && k != dst ==> k in m && r[k] == m[k]
  {
    if src in m then (m - {src})[dst := m[src]] else m
  }

}
