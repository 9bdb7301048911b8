/**
 * Pagination.java: one page of a query result with its 1-based page number,
 * page size, page count and total element count. Every operation builds a
 * new value.
 */
module Pagination {
  import opened Nullable
  import Streams

  /** `ceil(total / pageSize)` computed exactly, for `Math.ceil((double) total / pageSize)`. */
  function CeilDiv(total: int, pageSize: int): (q: int)
    requires pageSize >= 1
    ensures pageSize * (q - 1) < total <= pageSize * q
  {
    var d := -total / pageSize;
    assert -total == pageSize * d + (-total % pageSize);
    -d
  }

  datatype Pagination<T> = Pagination(
    list: seq<T>,
    page: int,
    pageSize: int,
    pageCount: int,
    total: int,
    error: Option<string>)
  {
    /** `isLast`. */
    predicate IsLast() {
      page >= pageCount
    }

    /** `hasNext`: the negation of `isLast`. */
    predicate HasNext() {
      !IsLast()
    }

    /** `hasPrevious`. */
    predicate HasPrevious() {
      page > 1
    }

    /**
     * `copyWith`: each null argument keeps the old field, and the error is kept.
     * The builder never sets the page count, so it falls back to 0.
     */
    function CopyWith(newList: Option<seq<T>>, newPage: Option<int>, newPageSize: Option<int>, newTotal: Option<int>): (r: Pagination<T>)
      ensures r.list == newList.GetOr(list) && r.page == newPage.GetOr(page)
      ensures r.pageSize == newPageSize.GetOr(pageSize) && r.total == newTotal.GetOr(total)
      ensures r.error == error
      ensures r.pageCount == 0
    {
      Pagination(newList.GetOr(list), newPage.GetOr(page), newPageSize.GetOr(pageSize), 0, newTotal.GetOr(total), error)
    }

    /**
     * `copyWith` as `map` and `filter` suggest it was meant to be: the page
     * count is carried over with the other unchanged fields.
     */
    function CopyWithKeepingPageCount(newList: Option<seq<T>>, newPage: Option<int>, newPageSize: Option<int>, newTotal: Option<int>): (r: Pagination<T>)
      ensures r.list == newList.GetOr(list) && r.page == newPage.GetOr(page)
      ensures r.pageSize == newPageSize.GetOr(pageSize) && r.total == newTotal.GetOr(total)
      ensures r.error == error && r.pageCount == pageCount
    {
      Pagination(newList.GetOr(list), newPage.GetOr(page), newPageSize.GetOr(pageSize), pageCount, newTotal.GetOr(total), error)
    }

    /** `map`: every element transformed in place, every other field copied. */
    function Map<U>(mapper: T -> U): (r: Pagination<U>)
      ensures |r.list| == |list|
      ensures forall k :: 0 <= k < |list| ==> r.list[k] == mapper(list[k])
      ensures r.page == page && r.pageSize == pageSize && r.pageCount == pageCount
      ensures r.total == total && r.error == error
    {
      Pagination(Streams.Map(list, mapper), page, pageSize, pageCount, total, error)
    }

    /** `filter`: the elements satisfying `keep`, in order; page count and total are copied, not recomputed. */
    function Filter(keep: T -> bool): (r: Pagination<T>)
      ensures r.list == Streams.Filter(list, keep)
      ensures |r.list| <= |list|
      ensures forall k :: 0 <= k < |r.list| ==> keep(r.list[k]) && r.list[k] in list
      ensures forall k :: 0 <= k < |list| && keep(list[k]) ==> list[k] in r.list
      ensures r.page == page && r.pageSize == pageSize && r.pageCount == pageCount
      ensures r.total == total && r.error == error
    {
      Pagination(Streams.Filter(list, keep), page, pageSize, pageCount, total, error)
    }
  }

  /** `empty()`. */
  function Empty<T>(): (r: Pagination<T>)
    ensures r.list == [] && r.page == 0 && r.pageSize == 0 && r.pageCount == 0 && r.total == 0 && r.error == None
    ensures r.IsLast() && !r.HasNext() && !r.HasPrevious()
  {
    Pagination([], 0, 0, 0, 0, None)
  }

  /**
   * `of(list, page, pageSize, total)`: the page count is the number of pages of
   * `pageSize` needed for `total` elements; the page number is not checked
   * against it.
   */
  function Of<T>(list: seq<T>, page: int, pageSize: int, total: int): (r: Pagination<T>)
    requires pageSize >= 1
    ensures r.list == list && r.page == page && r.pageSize == pageSize && r.total == total && r.error == None
    ensures pageSize * (r.pageCount - 1) < total <= pageSize * r.pageCount
  {
    Pagination(list, page, pageSize, CeilDiv(total, pageSize), total, None)
  }

  lemma MulSign(a: int, b: int)
    requires a >= 1
    ensures b >= 0 <==> a * b >= 0
    ensures b > 0 <==> a * b > 0
  {
  }

  /** The page count is never negative, and is 0 exactly when there is nothing to show. */
  lemma PageCountZeroIffNoElements<T>(list: seq<T>, page: int, pageSize: int, total: int)
    requires pageSize >= 1 && total >= 0
    ensures Of(list, page, pageSize, total).pageCount >= 0
    ensures Of(list, page, pageSize, total).pageCount == 0 <==> total == 0
  {
    var q := Of(list, page, pageSize, total).pageCount;
    MulSign(pageSize, q);
    MulSign(pageSize, q - 1);
  }

  /** `hasNext` holds exactly when the page number is below the page count. */
  lemma HasNextIffBeforeLastPage<T>(p: Pagination<T>)
    ensures p.HasNext() <==> p.page < p.pageCount
    ensures p.IsLast() != p.HasNext()
  {
  }

  /** The worked examples: an empty result, the last of three pages, and the first of three. */
  lemma PageBoundaryExamples<T>(rows: seq<T>)
    ensures var p := Of<T>([], 1, 20, 0); p.pageCount == 0 && !p.HasNext() && !p.HasPrevious()
    ensures var p := Of(rows, 3, 10, 25); p.pageCount == 3 && !p.HasNext() && p.HasPrevious()
    ensures var p := Of(rows, 1, 10, 25); p.pageCount == 3 && p.HasNext() && !p.HasPrevious()
  {
    var p0 := Of<T>([], 1, 20, 0);
    assert 20 * (p0.pageCount - 1) < 0 <= 20 * p0.pageCount;
    var p3 := Of(rows, 3, 10, 25);
    assert 10 * (p3.pageCount - 1) < 25 <= 10 * p3.pageCount;
  }

  /**
   * The page number is stored as it is, whatever the page count: a page past
   * the count is accepted and reports itself as the last page.
   */
  lemma OfDoesNotCheckPage<T>(list: seq<T>, page: int, pageSize: int, total: int)
    requires pageSize >= 1
    ensures Of(list, page, pageSize, total).page == page
    ensures page >= Of(list, page, pageSize, total).pageCount ==> Of(list, page, pageSize, total).IsLast()
    ensures page >= Of(list, page, pageSize, total).pageCount ==> !Of(list, page, pageSize, total).HasNext()
  {
  }

  /** `map` with the identity changes nothing, and two maps compose into one. */
  lemma MapLaws<T, U, V>(p: Pagination<T>, f: T -> U, g: U -> V)
    ensures p.Map(x => x) == p
    ensures p.Map(f).Map(g) == p.Map(x => g(f(x)))
  {
    Streams.MapCompose(p.list, f, g);
    var id := p.Map(x => x);
    assert id.list == p.list;
  }

  /** Filtering twice with the same predicate is filtering once. */
  lemma FilterIdempotent<T>(p: Pagination<T>, keep: T -> bool)
    ensures p.Filter(keep).Filter(keep) == p.Filter(keep)
  {
    Streams.FilterIdempotent(p.list, keep);
  }

  /**
   * `filter` works element by element, in order: filtering a concatenation
   * filters each part, and a single element is kept or dropped on its own.
   * Together these fix the order and the multiplicity of what is kept.
   */
  lemma FilterSplitsAtAppend<T>(p: Pagination<T>, a: seq<T>, b: seq<T>, keep: T -> bool)
    ensures p.(list := a + b).Filter(keep).list == p.(list := a).Filter(keep).list + p.(list := b).Filter(keep).list
  {
    Streams.FilterAppend(a, b, keep);
  }

  lemma FilterOfOneElement<T>(p: Pagination<T>, x: T, keep: T -> bool)
    ensures p.(list := [x]).Filter(keep).list == if keep(x) then [x] else []
  {
    assert [x][1..] == [];
  }

  /** Filtering with a predicate that keeps everything returns the same page. */
  lemma FilterKeepingAllIsIdentity<T>(p: Pagination<T>, keep: T -> bool)
    requires forall k :: 0 <= k < |p.list| ==> keep(p.list[k])
    ensures p.Filter(keep) == p
  {
    Streams.FilterKeepsAll(p.list, keep);
  }

  /**
   * `filter` keeps stale metadata: filtering out every element leaves the
   * total and page count of the unfiltered page.
   */
  lemma FilterKeepsStaleTotals<T>(p: Pagination<T>, keep: T -> bool)
    requires forall k :: 0 <= k < |p.list| ==> !keep(p.list[k])
    ensures p.Filter(keep).list == []
    ensures p.Filter(keep).total == p.total && p.Filter(keep).pageCount == p.pageCount
  {
    Streams.FilterKeepsNone(p.list, keep);
  }

  /**
   * `copyWith` with every argument null is not the identity: it resets the page
   * count to 0, so a page that had a next page no longer reports one.
   */
  lemma CopyWithDropsPageCount<T>(rows: seq<T>)
    ensures Of(rows, 1, 10, 25).HasNext()
    ensures !Of(rows, 1, 10, 25).CopyWith(None, None, None, None).HasNext()
  {
    var p := Of(rows, 1, 10, 25);
    assert 10 * (p.pageCount - 1) < 25 <= 10 * p.pageCount;
  }

  /**
   * The corrected copy with every argument null is the identity, so a page
   * keeps its last-page and next-page answers; a new list keeps them too.
   */
  lemma CopyWithKeepingPageCountPreservesNavigation<T>(p: Pagination<T>, newList: Option<seq<T>>)
    ensures p.CopyWithKeepingPageCount(None, None, None, None) == p
    ensures p.CopyWithKeepingPageCount(newList, None, None, None).HasNext() == p.HasNext()
    ensures p.CopyWithKeepingPageCount(newList, None, None, None).IsLast() == p.IsLast()
  {
  }
}
