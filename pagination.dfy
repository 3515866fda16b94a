/**
 * The paginator returned by `getPaginated`: an immutable record of the total row count, the page
 * size, the current page and the page's items, with page arithmetic derived from them.
 */
module Pagination {
  import opened Results

  datatype Paginator<T> = Paginator(count: int, limit: int, current: int, items: T)

  /** `getCountInPage` reports the page size, not the number of items on the page. */
  function CountInPage<T>(p: Paginator<T>): (r: int)
    ensures r == p.limit
  {
    p.limit
  }

  function Items<T>(p: Paginator<T>): (r: T)
    ensures r == p.items
  {
    p.items
  }

  function CurrentPage<T>(p: Paginator<T>): (r: int)
    ensures r == p.current
  {
    p.current
  }

  /** The getters hand back exactly what the paginator was built from. */
  lemma GettersReturnStored<T>(count: int, limit: int, current: int, items: T)
    ensures var p := Paginator(count, limit, current, items);
      CountInPage(p) == limit && CurrentPage(p) == current && Items(p) == items && p.count == count
  {
  }

  /**
   * `Math.ceil(count / limit)` in integers: the number of pages of `limit` rows needed for
   * `count` rows (for a negative size, the ceiling of the same quotient).
   */
  function TotalPages<T>(p: Paginator<T>): (t: int)
    requires p.limit != 0
    ensures p.limit > 0 ==> t * p.limit >= p.count && (t - 1) * p.limit < p.count
    ensures p.limit < 0 ==> t * p.limit <= p.count && (t - 1) * p.limit > p.count
  {
    if p.limit > 0 then
      var q := (-p.count) / p.limit;
      assert -p.count == q * p.limit + (-p.count) % p.limit;
      -q
    else
      var q := p.count / (-p.limit);
      assert p.count == q * (-p.limit) + p.count % (-p.limit);
      -q
  }

  /** No smaller number of pages holds all the rows: the total is the least such number. */
  lemma TotalPagesIsLeast<T>(p: Paginator<T>, u: int)
    requires p.limit > 0 && u * p.limit >= p.count
    ensures TotalPages(p) <= u
  {
    var t := TotalPages(p);
    assert (t - 1 - u) * p.limit == (t - 1) * p.limit - u * p.limit < 0;
  }

  /** Pages are numbered from 1. */
  function FirstPage(): (r: int)
    ensures r == 1
  {
    1
  }

  /** The last page is the page count: for a positive size, the page that holds the last row. */
  function LastPage<T>(p: Paginator<T>): (r: int)
    requires p.limit != 0
    ensures r == TotalPages(p)
    ensures p.limit > 0 ==> (r - 1) * p.limit < p.count <= r * p.limit
  {
    TotalPages(p)
  }

  /** The page before the current one, or none on page 1 and below. */
  function PrevPage<T>(p: Paginator<T>): (r: Option<int>)
    ensures r.Some? <==> p.current > 1
    ensures r.Some? ==> r.value + 1 == p.current && r.value >= 1
  {
    if CurrentPage(p) > 1 then Some(CurrentPage(p) - 1) else None
  }

  /** The page after the current one, or none from the last page on. */
  function NextPage<T>(p: Paginator<T>): (r: Option<int>)
    requires p.limit != 0
    ensures r.Some? <==> p.current < TotalPages(p)
    ensures r.Some? ==> r.value == p.current + 1 && r.value <= TotalPages(p)
  {
    if CurrentPage(p) < TotalPages(p) then Some(CurrentPage(p) + 1) else None
  }

  /** With no rows there are no pages; otherwise at least one. */
  lemma TotalPagesSign<T>(p: Paginator<T>)
    requires p.count >= 0 && p.limit > 0
    ensures p.count == 0 ==> TotalPages(p) == 0
    ensures p.count > 0 ==> TotalPages(p) >= 1
  {
    var t := TotalPages(p);
    if p.count == 0 {
      TotalPagesIsLeast(p, 0);
      assert (t - 1) * p.limit < 0;
    } else {
      assert t * p.limit >= p.count > 0;
    }
  }

  /** Moving forward is possible exactly before the last page, and lands inside the range. */
  lemma NextPageBounds<T>(p: Paginator<T>)
    requires p.limit != 0
    ensures NextPage(p).None? <==> CurrentPage(p) >= LastPage(p)
    ensures NextPage(p).Some? ==> NextPage(p).value <= LastPage(p)
    ensures NextPage(p).Some? && CurrentPage(p) >= FirstPage() ==> NextPage(p).value > FirstPage()
  {
  }

  /** Moving back is possible exactly after the first page, and never goes below it. */
  lemma PrevPageBounds<T>(p: Paginator<T>)
    ensures PrevPage(p).None? <==> CurrentPage(p) <= FirstPage()
    ensures PrevPage(p).Some? ==> FirstPage() <= PrevPage(p).value < CurrentPage(p)
  {
  }

  /** Going forward and then back returns to the page one started from, and the other way round. */
  lemma NextPrevInverse<T>(p: Paginator<T>)
    requires p.limit != 0
    ensures NextPage(p).Some? && CurrentPage(p) >= FirstPage() ==>
      PrevPage(p.(current := NextPage(p).value)) == Some(CurrentPage(p))
    ensures PrevPage(p).Some? && CurrentPage(p) <= LastPage(p) ==>
      NextPage(p.(current := PrevPage(p).value)) == Some(CurrentPage(p))
  {
  }

  /** Five rows in pages of two, looking at page two: three pages, the next one is three. */
  lemma FiveRowsPagesOfTwo<T>(items: T)
    ensures var p := Paginator(5, 2, 2, items);
      TotalPages(p) == 3 && LastPage(p) == 3 && NextPage(p) == Some(3) && PrevPage(p) == Some(1)
  {
    var p := Paginator(5, 2, 2, items);
    TotalPagesIsLeast(p, 3);
    assert TotalPages(p) == 3;
  }
}
