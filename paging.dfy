/** Page arithmetic shared by the queue viewer, the footer and the shard overview:
    lists are shown ten entries per page and the page count is never zero. */
module Paging {

  const PageSize: nat := 10

  /** `Math.ceil(n / 10) || 1`: the number of pages needed for `n` entries,
      with an empty list still shown on one page. */
  function PageCount(n: nat): (r: nat)
    ensures r >= 1
    ensures n == 0 ==> r == 1
    ensures n > 0 ==> (r - 1) * PageSize < n <= r * PageSize
  {
    var pages := (n + PageSize - 1) / PageSize;
    if pages == 0 then 1 else pages
  }

  /** `s.slice(p * size, p * size + size)` for a non-negative page index:
      the JavaScript slice clamps both ends to the length. */
  function PageSlice<T>(s: seq<T>, p: nat, size: nat): (r: seq<T>)
    ensures |r| <= size
    ensures forall k :: 0 <= k < |r| ==> p * size + k < |s| && r[k] == s[p * size + k]
    ensures p * size < |s| ==> |r| == if |s| - p * size < size then |s| - p * size else size
    ensures p * size >= |s| ==> r == []
  {
    var start := if p * size < |s| then p * size else |s|;
    var end := if p * size + size < |s| then p * size + size else |s|;
    s[start..end]
  }

  /** Every page below the page count of a non-empty list starts inside the list,
      so its slice is not empty. */
  lemma ValidPageIsNonEmpty<T>(s: seq<T>, p: nat)
    requires p < PageCount(|s|)
    ensures |s| > 0 ==> p * PageSize < |s| && 0 < |PageSlice(s, p, PageSize)| <= PageSize
  {
    if |s| == 0 { return; }
    assert p <= PageCount(|s|) - 1;
  }

  /** Entry `i` of a list of `n` entries is shown on page `i / 10`, which is a
      valid page, at position `i % 10` of that page's slice. */
  lemma EntryIsOnItsPage<T>(s: seq<T>, i: nat)
    requires i < |s|
    ensures i / PageSize < PageCount(|s|)
    ensures i % PageSize < |PageSlice(s, i / PageSize, PageSize)|
    ensures PageSlice(s, i / PageSize, PageSize)[i % PageSize] == s[i]
  {
    var p := i / PageSize;
    var r := PageCount(|s|);
    assert i == p * PageSize + i % PageSize;
    assert p < r;
    assert p * PageSize <= i < |s|;
  }
}
