/**
 * `sorted(by:)` with a "greater than" comparator on an integer key, as the
 * TAF and SIGMET requests use it to put the latest report first.
 */
module Sorting {

  /** Keys never increase from left to right: no later element sorts before an earlier one. */
  ghost predicate NonIncreasing<T>(s: seq<T>, key: T -> int) {
    forall i, j :: 0 <= i < j < |s| ==> key(s[i]) >= key(s[j])
  }

  /** No element of `s` has a key above `k`. */
  ghost predicate AllAtMost<T>(s: seq<T>, key: T -> int, k: int) {
    forall i :: 0 <= i < |s| ==> key(s[i]) <= k
  }

  lemma ConsNonIncreasing<T>(a: T, s: seq<T>, key: T -> int)
    requires NonIncreasing(s, key) && AllAtMost(s, key, key(a))
    ensures NonIncreasing([a] + s, key)
  {
    var t := [a] + s;
    forall i, j | 0 <= i < j < |t| ensures key(t[i]) >= key(t[j]) {
      if i > 0 {
        assert t[i] == s[i - 1] && t[j] == s[j - 1];
      } else {
        assert t[j] == s[j - 1];
      }
    }
  }

  /** Two sequences with the same elements share every upper bound. */
  lemma AtMostOfPermutation<T>(s: seq<T>, t: seq<T>, key: T -> int, k: int)
    requires multiset(s) == multiset(t) && AllAtMost(t, key, k)
    ensures AllAtMost(s, key, k)
  {
    forall i | 0 <= i < |s| ensures key(s[i]) <= k {
      assert s[i] in multiset(t);
      var j :| 0 <= j < |t| && t[j] == s[i];
    }
  }

  /** Places `x` before the first element whose key is not larger than its own. */
  function Insert<T>(x: T, s: seq<T>, key: T -> int): (r: seq<T>)
    requires NonIncreasing(s, key)
    ensures NonIncreasing(r, key)
    ensures multiset(r) == multiset(s) + multiset{x}
  {
    if s == [] then [x]
    else if key(x) >= key(s[0]) then
      ConsNonIncreasing(x, s, key);
      [x] + s
    else
      assert s == [s[0]] + s[1..];
      var rest := Insert(x, s[1..], key);
      assert AllAtMost(s[1..] + [x], key, key(s[0]));
      AtMostOfPermutation(rest, s[1..] + [x], key, key(s[0]));
      ConsNonIncreasing(s[0], rest, key);
      [s[0]] + rest
  }

  /** The elements of `s`, latest (largest key) first. */
  function SortDesc<T>(s: seq<T>, key: T -> int): (r: seq<T>)
    ensures NonIncreasing(r, key)
    ensures multiset(r) == multiset(s)
  {
    if s == [] then []
    else
      assert s == [s[0]] + s[1..];
      Insert(s[0], SortDesc(s[1..], key), key)
  }
}
