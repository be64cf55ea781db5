/** Sequence helpers: the order-preserving selection that a repository query or
    delete performs, and distinctness of a key along a sequence. */
module Sequences {

  /** The elements of `s` that satisfy `p`. The definition keeps them in the
      order of `s`: the selection of all but the last element, followed by the
      last element when `p` holds for it. */
  function Filter<T>(s: seq<T>, p: T -> bool): (r: seq<T>)
    ensures |r| <= |s|
    ensures forall k :: 0 <= k < |r| ==> p(r[k]) && r[k] in s
    ensures forall k :: 0 <= k < |s| && p(s[k]) ==> s[k] in r
    decreases |s|
  {
    if s == [] then []
    else
      var init, last := s[..|s| - 1], s[|s| - 1];
      assert s == init + [last];
      Filter(init, p) + (if p(last) then [last] else [])
  }

  /** Selecting every element changes nothing. */
  lemma {:induction false} FilterKeepsAll<T>(s: seq<T>, p: T -> bool)
    requires forall k :: 0 <= k < |s| ==> p(s[k])
    ensures Filter(s, p) == s
    decreases |s|
  {
    if s != [] {
      FilterKeepsAll(s[..|s| - 1], p);
      assert s == s[..|s| - 1] + [s[|s| - 1]];
    }
  }

  /** When no element satisfies `p`, the selection is empty. */
  lemma {:induction false} FilterDropsAll<T>(s: seq<T>, p: T -> bool)
    requires forall k :: 0 <= k < |s| ==> !p(s[k])
    ensures Filter(s, p) == []
    decreases |s|
  {
    if s != [] {
      FilterDropsAll(s[..|s| - 1], p);
    }
  }

  /** No two positions of `s` carry the same key. */
  predicate KeysDistinct<T, K(==)>(s: seq<T>, key: T -> K) {
    forall i, j :: 0 <= i < j < |s| ==> key(s[i]) != key(s[j])
  }

  /** Selecting a subsequence keeps keys distinct. */
  lemma {:induction false} FilterKeepsKeysDistinct<T, K>(s: seq<T>, p: T -> bool, key: T -> K)
    requires KeysDistinct(s, key)
    ensures KeysDistinct(Filter(s, p), key)
    decreases |s|
  {
    if s != [] {
      var init, last := s[..|s| - 1], s[|s| - 1];
      assert KeysDistinct(init, key);
      FilterKeepsKeysDistinct(init, p, key);
      var fi := Filter(init, p);
      if p(last) {
        var r := fi + [last];
        assert Filter(s, p) == r;
        forall i, j | 0 <= i < j < |r| ensures key(r[i]) != key(r[j]) {
          if j == |r| - 1 {
            assert r[i] in init;
            var m :| 0 <= m < |init| && init[m] == r[i];
            assert s[m] == r[i] && s[|s| - 1] == last;
          }
        }
      }
    }
  }
}
