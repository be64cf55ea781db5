/** Pages of a query result, as `PageRequest.of(page, size)` selects them: page
    indices count from 0 and a page holds at most `size` consecutive results. */
module Paging {

  function Min(a: int, b: int): int {
    if a <= b then a else b
  }

  /** Whether `PageRequest.of(pageIndex, pageSize)` accepts its arguments; it
      raises `IllegalArgumentException` for a negative index or a size below one. */
  predicate ValidPageRequest(pageIndex: int, pageSize: int) {
    pageIndex >= 0 && pageSize >= 1
  }

  /** The content of page `pageIndex`: the results at offsets
      `pageIndex * pageSize` onwards, at most `pageSize` of them, in order. */
  function PageContent<T>(s: seq<T>, pageIndex: nat, pageSize: nat): (r: seq<T>)
    requires pageSize >= 1
    ensures |r| == if pageIndex * pageSize >= |s| then 0 else Min(pageSize, |s| - pageIndex * pageSize)
    ensures forall k :: 0 <= k < |r| ==> r[k] == s[pageIndex * pageSize + k]
  {
    var start := pageIndex * pageSize;
    if start >= |s| then [] else s[start..Min(start + pageSize, |s|)]
  }

  /** Every result is on exactly one page: result `k` is item `k % pageSize` of
      page `k / pageSize`. */
  lemma ResultOnItsPage<T>(s: seq<T>, pageSize: nat, k: nat)
    requires pageSize >= 1 && k < |s|
    ensures k % pageSize < |PageContent(s, k / pageSize, pageSize)|
    ensures PageContent(s, k / pageSize, pageSize)[k % pageSize] == s[k]
  {
    var q, m := k / pageSize, k % pageSize;
    assert k == q * pageSize + m;
    assert q * pageSize <= k;
  }

  /** A page past the last result is empty. */
  lemma PagePastEndIsEmpty<T>(s: seq<T>, pageIndex: nat, pageSize: nat)
    requires pageSize >= 1 && pageIndex * pageSize >= |s|
    ensures PageContent(s, pageIndex, pageSize) == []
  {
  }
}
