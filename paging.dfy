/** Client-side pagination as the list pages do it: `Math.ceil(n / perPage)`
    pages, page `p` is `list.slice((p - 1) * perPage, p * perPage)`, and the
    previous/next buttons step with `Math.max(1, p - 1)` and
    `Math.min(totalPages, p + 1)`. */
module Paging {

  /** A `slice` position: negative positions count from the end, and the result
      is clamped to `[0, n]`. */
  function SlicePosition(i: int, n: nat): (r: nat)
    ensures r <= n
    ensures 0 <= i <= n ==> r == i
    ensures i > n ==> r == n
    ensures i < 0 ==> r == if n + i < 0 then 0 else n + i
  {
    if i < 0 then (if n + i < 0 then 0 else n + i) else if i > n then n else i
  }

  /** `s.slice(start, end)` */
  function Slice<T>(s: seq<T>, start: int, end: int): (r: seq<T>)
    ensures |r| <= |s|
  {
    var from, to := SlicePosition(start, |s|), SlicePosition(end, |s|);
    if from < to then s[from..to] else []
  }

  function Min(a: int, b: int): int {
    if a <= b then a else b
  }

  /** `Math.ceil(n / perPage)`: the fewest pages of `perPage` rows that hold `n` rows. */
  function TotalPages(n: nat, perPage: nat): (t: nat)
    requires perPage > 0
    ensures n <= t * perPage
    ensures t > 0 ==> (t - 1) * perPage < n
  {
    (n + perPage - 1) / perPage
  }

  /** `list.slice((page - 1) * perPage, page * perPage)` */
  function PageOf<T>(list: seq<T>, page: int, perPage: nat): seq<T> {
    Slice(list, (page - 1) * perPage, page * perPage)
  }

  /** From page 1 on, a page holds the rows at positions `(page - 1) * perPage`
      up to `page * perPage`, cut off at the end of the list. */
  lemma PageOfRows<T>(list: seq<T>, page: int, perPage: nat)
    requires page >= 1
    ensures var lo, hi := Min((page - 1) * perPage, |list|), Min(page * perPage, |list|);
      lo <= hi && PageOf(list, page, perPage) == list[lo..hi]
  {
    var a, b := (page - 1) * perPage, page * perPage;
    PageBounds(page, perPage);
    assert SlicePosition(a, |list|) == Min(a, |list|);
    assert SlicePosition(b, |list|) == Min(b, |list|);
  }

  lemma PageBounds(page: int, perPage: nat)
    requires page >= 1
    ensures 0 <= (page - 1) * perPage
    ensures page * perPage == (page - 1) * perPage + perPage
  {
  }

  /** The first `k` pages, one after the other. */
  function FirstPages<T>(list: seq<T>, perPage: nat, k: nat): seq<T> {
    if k == 0 then [] else FirstPages(list, perPage, k - 1) + PageOf(list, k, perPage)
  }

  /** The first `k` pages together are the first `k * perPage` rows. */
  lemma {:induction false} FirstPagesArePrefix<T>(list: seq<T>, perPage: nat, k: nat)
    ensures FirstPages(list, perPage, k) == list[..Min(k * perPage, |list|)]
  {
    if k > 0 {
      FirstPagesArePrefix(list, perPage, k - 1);
      PageOfRows(list, k, perPage);
      PageBounds(k, perPage);
      var a, b := Min((k - 1) * perPage, |list|), Min(k * perPage, |list|);
      assert list[..a] + list[a..b] == list[..b];
    }
  }

  /** Pages 1 to `totalPages`, one after the other, are the whole list: every
      row is on exactly one page and no row is left out. */
  lemma PagesCoverList<T>(list: seq<T>, perPage: nat)
    requires perPage > 0
    ensures FirstPages(list, perPage, TotalPages(|list|, perPage)) == list
  {
    FirstPagesArePrefix(list, perPage, TotalPages(|list|, perPage));
  }

  /** A page past the last one is empty. */
  lemma PageAfterLastIsEmpty<T>(list: seq<T>, page: int, perPage: nat)
    requires perPage > 0 && page > TotalPages(|list|, perPage)
    ensures PageOf(list, page, perPage) == []
  {
    var t := TotalPages(|list|, perPage);
    PageBounds(page, perPage);
    MulMonotone(t, page - 1, perPage);
  }

  lemma MulMonotone(a: nat, b: nat, c: nat)
    requires a <= b
    ensures a * c <= b * c
  {
  }

  /** The "previous" button: `Math.max(1, p - 1)`. */
  function PrevPage(p: int): (r: int)
    ensures r >= 1
    ensures p > 1 ==> r == p - 1
    ensures p <= 1 ==> r == 1
  {
    if p - 1 >= 1 then p - 1 else 1
  }

  /** The "next" button: `Math.min(totalPages, p + 1)`. */
  function NextPage(p: int, totalPages: int): (r: int)
    ensures r <= totalPages
    ensures p < totalPages ==> r == p + 1
    ensures p >= totalPages ==> r == totalPages
  {
    if p + 1 <= totalPages then p + 1 else totalPages
  }

  /** From a page in `[1, totalPages]` both buttons land in `[1, totalPages]` again. */
  lemma StepsStayInRange(p: int, totalPages: int)
    requires 1 <= p <= totalPages
    ensures 1 <= PrevPage(p) <= totalPages
    ensures 1 <= NextPage(p, totalPages) <= totalPages
  {
  }
}
