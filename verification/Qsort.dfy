/** The library sort, on the first `n` elements of an array, largest key first; equal keys in any order. */
module Qsort {

  ghost predicate Descending<T>(s: seq<T>, key: T -> int) {
    forall i, j | 0 <= i < j < |s| :: key(s[i]) >= key(s[j])
  }

  method SortDescending<T>(a: array<T>, n: nat, key: T -> int)
    requires n <= a.Length
    modifies a
    ensures Descending(a[..n], key)
    ensures multiset(a[..n]) == multiset(old(a[..n]))
    ensures a[n..] == old(a[n..])
  {
    for i := 0 to n
      invariant Descending(a[..i], key)
      invariant multiset(a[..n]) == multiset(old(a[..n]))
      invariant a[n..] == old(a[n..])
    {
      SinkLast(a, i, n, key);
    }
  }

  lemma SwapKeepsMultiset<T>(s: seq<T>, i: nat)
    requires i + 1 < |s|
    ensures multiset(s[i := s[i + 1]][i + 1 := s[i]]) == multiset(s)
  {
    assert s == s[..i] + [s[i], s[i + 1]] + s[i + 2..];
    assert s[i := s[i + 1]][i + 1 := s[i]] == s[..i] + [s[i + 1], s[i]] + s[i + 2..];
  }

  method SwapWithNext<T>(a: array<T>, i: nat, n: nat)
    requires i + 1 < n <= a.Length
    modifies a
    ensures a[..] == old(a[..])[i := old(a[i + 1])][i + 1 := old(a[i])]
    ensures multiset(a[..n]) == multiset(old(a[..n]))
    ensures a[n..] == old(a[n..])
  {
    ghost var before := a[..n];
    a[i], a[i + 1] := a[i + 1], a[i];
    assert a[..n] == before[i := before[i + 1]][i + 1 := before[i]];
    SwapKeepsMultiset(before, i);
  }

  /** Largest first, as long as the element at j is not compared with those before it. */
  ghost predicate DescendingBut<T>(s: seq<T>, j: int, key: T -> int) {
    forall p, q | 0 <= p < q < |s| && q != j :: key(s[p]) >= key(s[q])
  }

  lemma SwapKeepsOrder<T>(s: seq<T>, j: nat, key: T -> int)
    requires 0 < j < |s| && DescendingBut(s, j, key) && key(s[j - 1]) < key(s[j])
    ensures DescendingBut(s[j - 1 := s[j]][j := s[j - 1]], j - 1, key)
  {
  }

  /** Moves a[i] left to its place among the sorted elements before it. */
  method SinkLast<T>(a: array<T>, i: nat, n: nat, key: T -> int)
    requires i < n <= a.Length && Descending(a[..i], key)
    modifies a
    ensures Descending(a[..i + 1], key)
    ensures multiset(a[..n]) == multiset(old(a[..n]))
    ensures a[n..] == old(a[n..])
  {
    var j := i;
    while j > 0 && key(a[j - 1]) < key(a[j])
      invariant 0 <= j <= i
      invariant DescendingBut(a[..i + 1], j, key)
      invariant multiset(a[..n]) == multiset(old(a[..n]))
      invariant a[n..] == old(a[n..])
    {
      ghost var before := a[..i + 1];
      SwapWithNext(a, j - 1, n);
      assert a[..i + 1] == before[j - 1 := before[j]][j := before[j - 1]];
      SwapKeepsOrder(before, j, key);
      j := j - 1;
    }
    SettledIsDescending(a[..i + 1], j, key);
  }

  lemma SettledIsDescending<T>(s: seq<T>, j: nat, key: T -> int)
    requires j < |s| && DescendingBut(s, j, key)
    requires j == 0 || key(s[j - 1]) >= key(s[j])
    ensures Descending(s, key)
  {
    forall p, q | 0 <= p < q < |s|
      ensures key(s[p]) >= key(s[q])
    {
      if q == j && p < j - 1 {
        assert key(s[p]) >= key(s[j - 1]);
      }
    }
  }
}
