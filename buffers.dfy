/** The two in-place algorithms the program runs on its fixed-capacity
    arrays: the left shift that deletes an entry, and the sort (`qsort`)
    that orders the first `n` entries. */
module Buffers {
  import opened Ordering

  /** Deletes entry `i` of the first `n` by copying every later entry one
      place to the left; the last of the `n` slots keeps its old value. */
  method ShiftLeft<T>(a: array<T>, n: nat, i: nat)
    requires i < n <= a.Length
    modifies a
    ensures a[..n - 1] == RemovedAt(old(a[..n]), i)
    ensures a[n - 1..] == old(a[n - 1..])
  {
    var k := i;
    while k < n - 1
      invariant i <= k <= n - 1
      invariant forall j :: 0 <= j < i ==> a[j] == old(a[j])
      invariant forall j :: i <= j < k ==> a[j] == old(a[j + 1])
      invariant forall j :: k <= j < a.Length ==> a[j] == old(a[j])
    {
      a[k] := a[k + 1];
      k := k + 1;
    }
  }

  /** Exchanges two entries among the first `n`. */
  method Swap<T>(a: array<T>, n: nat, i: nat, j: nat)
    requires i < j < n <= a.Length
    modifies a
    ensures a[i] == old(a[j]) && a[j] == old(a[i])
    ensures forall k :: 0 <= k < a.Length && k != i && k != j ==> a[k] == old(a[k])
    ensures multiset(a[..n]) == old(multiset(a[..n]))
  {
    a[i], a[j] := a[j], a[i];
  }

  /** Sorts the first `n` entries into non-increasing order of `key`,
      leaving the rest of the array alone. Only the permutation and the
      order are promised, as with `qsort`: nothing is said about ties. */
  method SortByKey<T>(a: array<T>, n: nat, key: T -> real)
    requires n <= a.Length
    modifies a
    ensures SortedBy(a[..n], key)
    ensures multiset(a[..n]) == old(multiset(a[..n]))
    ensures a[n..] == old(a[n..])
  {
    var i := 0;
    while i < n
      invariant 0 <= i <= n
      invariant forall k, l :: 0 <= k < l < i ==> key(a[k]) >= key(a[l])
      invariant multiset(a[..n]) == old(multiset(a[..n]))
      invariant a[n..] == old(a[n..])
    {
      var j := i;
      while j > 0 && key(a[j - 1]) < key(a[j])
        invariant 0 <= j <= i
        invariant forall k, l :: 0 <= k < l <= i && k != j && l != j ==> key(a[k]) >= key(a[l])
        invariant forall l :: j < l <= i ==> key(a[j]) > key(a[l])
        invariant multiset(a[..n]) == old(multiset(a[..n]))
        invariant a[n..] == old(a[n..])
      {
        Swap(a, n, j - 1, j);
        j := j - 1;
      }
      i := i + 1;
    }
  }
}
