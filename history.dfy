/**
 * The history lists the pages keep: newest entry first, optionally cut to a
 * fixed length (`[entry, ...prev].slice(0, cap)`), and single entries removed
 * with `splice(index, 1)`.
 */
module History {
  import opened JsMath

  /**
   * `[entry, ...h].slice(0, cap)`: the new entry first, then as many of the
   * previous entries, in their order, as still fit under the cap.
   */
  function PrependCapped<T>(entry: T, h: seq<T>, cap: nat): (r: seq<T>)
    requires cap >= 1
    ensures |r| == Min(|h| + 1, cap)
    ensures r[0] == entry
    ensures r[1..] == h[..|r| - 1]
  {
    ([entry] + h)[..Min(|h| + 1, cap)]
  }

  /**
   * `h.splice(i, 1)` on a copy: the entry at `i` is gone and the others keep
   * their order; an index past the end removes nothing.
   */
  function RemoveAt<T>(h: seq<T>, i: nat): (r: seq<T>)
    ensures i < |h| ==> |r| == |h| - 1
    ensures i < |h| ==> forall k :: 0 <= k < i ==> r[k] == h[k]
    ensures i < |h| ==> forall k :: i <= k < |r| ==> r[k] == h[k + 1]
    ensures i >= |h| ==> r == h
  {
    if i < |h| then h[..i] + h[i + 1..] else h
  }

  /** Removing an entry takes out exactly one occurrence of it and nothing else. */
  lemma RemoveAtMultiset<T>(h: seq<T>, i: nat)
    requires i < |h|
    ensures multiset(RemoveAt(h, i)) + multiset{h[i]} == multiset(h)
  {
    assert h == h[..i] + [h[i]] + h[i + 1..];
  }

  /** Once a capped list is full, each new entry pushes out the oldest one. */
  lemma {:induction false} PrependCappedDropsOldest<T>(entry: T, h: seq<T>, cap: nat)
    requires cap >= 1 && |h| == cap
    ensures PrependCapped(entry, h, cap) == [entry] + h[..cap - 1]
  {
    var r := PrependCapped(entry, h, cap);
    assert r == [r[0]] + r[1..];
  }
}
