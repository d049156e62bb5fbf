/** The order both levels of the store are kept in (non-increasing by
    rating), and removal of one entry from a sequence, with the facts that
    connect the two. */
module Ordering {

  /** `s` is non-increasing under `key`: no entry has a higher key than an
      entry before it. The tie order is left open. */
  predicate SortedBy<T>(s: seq<T>, key: T -> real) {
    forall i, j :: 0 <= i < j < |s| ==> key(s[i]) >= key(s[j])
  }

  /** `s` with its entry at position `i` taken out, the later entries moving
      one place to the left. */
  function RemovedAt<T>(s: seq<T>, i: nat): (r: seq<T>)
    requires i < |s|
    ensures |r| == |s| - 1
    ensures forall j :: 0 <= j < i ==> r[j] == s[j]
    ensures forall j :: i <= j < |r| ==> r[j] == s[j + 1]
  {
    s[..i] + s[i + 1..]
  }

  /** Removal loses the removed entry and nothing else. */
  lemma RemovedAtMultiset<T>(s: seq<T>, i: nat)
    requires i < |s|
    ensures multiset(RemovedAt(s, i)) + multiset{s[i]} == multiset(s)
  {
    assert s == s[..i] + [s[i]] + s[i + 1..];
  }

  /** Removing an entry from a sorted sequence leaves it sorted. */
  lemma RemovedAtKeepsSorted<T>(s: seq<T>, key: T -> real, i: nat)
    requires i < |s|
    requires SortedBy(s, key)
    ensures SortedBy(RemovedAt(s, i), key)
  {
  }

  /** Two sorted arrangements of the same entries start with the same
      key. */
  lemma SortedPermutationsSameHead<T>(s: seq<T>, t: seq<T>, key: T -> real)
    requires SortedBy(s, key) && SortedBy(t, key)
    requires multiset(s) == multiset(t) && |s| > 0
    ensures |t| > 0 && key(s[0]) == key(t[0])
  {
    assert s[0] in multiset(t);
    assert t[0] in multiset(s);
  }

  /** Dropping the head of both sides of a multiset equality. */
  lemma DropMatchingEntry<T>(s: seq<T>, t: seq<T>, m: nat)
    requires multiset(s) == multiset(t) && |s| > 0 && m < |t| && t[m] == s[0]
    ensures multiset(s[1..]) == multiset(RemovedAt(t, m))
  {
    assert s == [s[0]] + s[1..];
    RemovedAtMultiset(t, m);
    calc {
      multiset(s[1..]);
      multiset(s) - multiset{s[0]};
      (multiset(RemovedAt(t, m)) + multiset{t[m]}) - multiset{t[m]};
      multiset(RemovedAt(t, m));
    }
  }

  /** Two sorted orderings of the same entries carry the same key at every
      position: sorting fixes the sequence of ratings, and only the order of
      entries with equal ratings is left open. */
  lemma {:induction false} SortedPermutationsAgree<T>(s: seq<T>, t: seq<T>, key: T -> real)
    requires SortedBy(s, key) && SortedBy(t, key)
    requires multiset(s) == multiset(t)
    ensures |s| == |t|
    ensures forall i :: 0 <= i < |s| ==> key(s[i]) == key(t[i])
  {
    assert |s| == |multiset(s)| == |multiset(t)| == |t|;
    if |s| > 0 {
      SortedPermutationsSameHead(s, t, key);
      assert s[0] in multiset(t);
      var m :| 0 <= m < |t| && t[m] == s[0];
      var t' := RemovedAt(t, m);
      DropMatchingEntry(s, t, m);
      RemovedAtKeepsSorted(t, key, m);
      SortedPermutationsAgree(s[1..], t', key);
      forall i | 1 <= i < |s|
        ensures key(s[i]) == key(t[i])
      {
        assert key(s[i]) == key(t'[i - 1]);
        if i - 1 < m {
          assert key(t[0]) >= key(t[i - 1]) >= key(t[i]) >= key(t[m]);
        }
      }
    }
  }

  /** Key-for-key equality of two sequences. */
  predicate SameKeys<T>(s: seq<T>, t: seq<T>, key: T -> real) {
    |s| == |t| && forall i :: 0 <= i < |s| ==> key(s[i]) == key(t[i])
  }

  /** Removing an entry from a sorted sequence and sorting again gives the
      keys the removal alone gave: the re-sort after a deletion only
      re-establishes an order that already holds. */
  lemma ResortAfterRemoval<T>(s: seq<T>, key: T -> real, i: nat, r: seq<T>)
    requires i < |s|
    requires SortedBy(s, key)
    requires SortedBy(r, key)
    requires multiset(r) == multiset(RemovedAt(s, i))
    ensures SameKeys(r, RemovedAt(s, i), key)
  {
    RemovedAtKeepsSorted(s, key, i);
    SortedPermutationsAgree(r, RemovedAt(s, i), key);
  }
}
