/**
 * The array operations the registries use: `indexOf`, removal of the first
 * occurrence with `splice(idx, 1)`.
 */
module Lists {

  /** `s.indexOf(x)`: the position of the first occurrence of `x`, or -1. */
  function FirstIndex<T(==)>(s: seq<T>, x: T): (i: int)
    ensures -1 <= i < |s|
    ensures i == -1 <==> x !in s
    ensures 0 <= i ==> s[i] == x && x !in s[..i]
  {
    if |s| == 0 then -1
    else if s[0] == x then 0
    else
      var j := FirstIndex(s[1..], x);
      assert s[1..][..j + 1] == s[1..j + 2] by { if j >= 0 { assert j + 2 <= |s|; } }
      if j == -1 then -1 else j + 1
  }

  /**
   * `const idx = s.indexOf(x); if (idx !== -1) s.splice(idx, 1)`: the list with
   * its first `x` taken out, or the list itself when `x` is absent.
   */
  function RemoveFirst<T(==)>(s: seq<T>, x: T): (r: seq<T>)
    ensures x !in s ==> r == s
    ensures |r| == if x in s then |s| - 1 else |s|
    ensures multiset(r) == multiset(s) - multiset{x}
  {
    var i := FirstIndex(s, x);
    if i == -1 then s
    else
      assert s == s[..i] + [s[i]] + s[i + 1..];
      s[..i] + s[i + 1..]
  }

  /**
   * Removing a present value deletes exactly one position, the first one that
   * holds it, and keeps the other entries in their order.
   */
  lemma RemovePresent<T>(s: seq<T>, x: T)
    requires x in s
    ensures exists i :: 0 <= i < |s| && s[i] == x && x !in s[..i] && RemoveFirst(s, x) == s[..i] + s[i + 1..]
  {
    var i := FirstIndex(s, x);
  }

  /**
   * Appending `x` and then removing its first occurrence gives back the
   * list, provided `x` was not in it already.
   */
  lemma {:induction false} AppendThenRemove<T>(s: seq<T>, x: T)
    requires x !in s
    ensures FirstIndex(s + [x], x) == |s|
    ensures RemoveFirst(s + [x], x) == s
  {
    assert (s + [x])[..|s|] == s;
  }

  /** Whether or not `x` was present already, the entries come back as a multiset. */
  lemma AppendThenRemoveMultiset<T>(s: seq<T>, x: T)
    ensures multiset(RemoveFirst(s + [x], x)) == multiset(s)
  {
    assert multiset(s + [x]) == multiset(s) + multiset{x};
  }

  /**
   * With `x` already present the order is not restored: appending "a" to
   * ["a", "b"] and removing the first "a" gives ["b", "a"].
   */
  lemma AppendThenRemoveReorders()
    ensures RemoveFirst(["a", "b"] + ["a"], "a") == ["b", "a"] != ["a", "b"]
  {
    assert FirstIndex(["a", "b", "a"], "a") == 0;
  }
}
