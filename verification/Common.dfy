/** Types shared by the other modules. */
module Common {

  /** A pointer or value that may be absent (NULL in the source). */
  datatype Option<+T> = None | Some(value: T)

  /** Smaller of two integers. */
  function Min(a: int, b: int): int {
    if a < b then a else b
  }

  /** Larger of two integers. */
  function Max(a: int, b: int): int {
    if a > b then a else b
  }

  /** A permutation has a place for every element. */
  lemma PlaceIn<T>(s: seq<T>, t: seq<T>, k: int) returns (l: int)
    requires multiset(s) == multiset(t) && 0 <= k < |s|
    ensures 0 <= l < |t| && t[l] == s[k]
  {
    assert s[k] in multiset(s);
    assert s[k] in t;
    l :| 0 <= l < |t| && t[l] == s[k];
  }

  lemma TwiceIn<T>(s: seq<T>, i: int, j: int)
    requires 0 <= i < j < |s| && s[i] == s[j]
    ensures multiset(s)[s[i]] >= 2
  {
    assert s == s[..i] + [s[i]] + s[i + 1..j] + [s[j]] + s[j + 1..];
  }
}
