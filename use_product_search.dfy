// The search page's filter state (client/src/hooks/use-product-search.ts):
// how the held filters are merged, reset and paged, and the page-count
// predicates derived from them. The query itself (react-query) is opaque;
// the `total` it reports is a parameter.

module ProductSearchHookModel {
  import opened Common
  import opened Schema

  const FirstPage := 1
  const DefaultLimit := 20

  function Or<T>(a: Option<T>, b: Option<T>): Option<T> {
    if a.Some? then a else b
  }

  /** `{ ...prev, ...next }`: every key `next` gives wins, the rest stay. */
  function Overlay(prev: ProductSearch, next: ProductSearch): ProductSearch {
    ProductSearch(
      Or(next.query, prev.query), Or(next.category, prev.category),
      Or(next.minPrice, prev.minPrice), Or(next.maxPrice, prev.maxPrice),
      Or(next.rating, prev.rating), Or(next.brand, prev.brand),
      Or(next.inStock, prev.inStock), Or(next.page, prev.page), Or(next.limit, prev.limit))
  }

  /** The keys other than `page` and `limit`. */
  predicate SameFilters(a: ProductSearch, b: ProductSearch) {
    a.query == b.query && a.category == b.category && a.minPrice == b.minPrice &&
    a.maxPrice == b.maxPrice && a.rating == b.rating && a.brand == b.brand && a.inStock == b.inStock
  }

  /** Every filter key of `r` is `next`'s when `next` gives it, else `prev`'s. */
  predicate Merged(r: ProductSearch, prev: ProductSearch, next: ProductSearch) {
    && r.query == (if next.query.Some? then next.query else prev.query)
    && r.category == (if next.category.Some? then next.category else prev.category)
    && r.minPrice == (if next.minPrice.Some? then next.minPrice else prev.minPrice)
    && r.maxPrice == (if next.maxPrice.Some? then next.maxPrice else prev.maxPrice)
    && r.rating == (if next.rating.Some? then next.rating else prev.rating)
    && r.brand == (if next.brand.Some? then next.brand else prev.brand)
    && r.inStock == (if next.inStock.Some? then next.inStock else prev.inStock)
  }

  /** `{ page: 1, limit: 20, ...initialFilters }`. */
  function Initial(initial: ProductSearch): ProductSearch {
    Overlay(NoFilters.(page := Some(FirstPage), limit := Some(DefaultLimit)), initial)
  }

  /** The initial filters are the given ones, with page 1 and limit 20
      wherever the given ones leave those out. */
  lemma InitialSpec(initial: ProductSearch)
    ensures SameFilters(Initial(initial), initial)
    ensures Initial(initial).page == Some(initial.page.GetOr(FirstPage))
    ensures Initial(initial).limit == Some(initial.limit.GetOr(DefaultLimit))
  {
  }

  /** `updateFilters`: merge, and go back to page 1 unless a page is given. */
  function Updated(prev: ProductSearch, next: ProductSearch): ProductSearch {
    Overlay(prev, next).(page := Some(next.page.GetOr(FirstPage)))
  }

  /** Updating merges every filter key, keeps the old limit unless a new one
      is given, and lands on the given page or else page 1. Updating with
      nothing but a page is setting that page. */
  lemma UpdatedSpec(prev: ProductSearch, next: ProductSearch)
    ensures Merged(Updated(prev, next), prev, next)
    ensures Updated(prev, next).limit == (if next.limit.Some? then next.limit else prev.limit)
    ensures Updated(prev, next).page == Some(if next.page.Some? then next.page.value else FirstPage)
    ensures next.page.Some? ==> Updated(prev, NoFilters.(page := next.page)) == WithPage(prev, next.page.value)
  {
  }

  /** `resetFilters`: only page 1, the current limit and, if kept, the query. */
  function Reset(f: ProductSearch, keepQuery: bool): ProductSearch {
    NoFilters.(query := if keepQuery then f.query else None, page := Some(FirstPage), limit := f.limit)
  }

  lemma ResetSpec(f: ProductSearch, keepQuery: bool)
    ensures var r := Reset(f, keepQuery);
      && r.category.None? && r.minPrice.None? && r.maxPrice.None? && r.rating.None?
      && r.brand.None? && r.inStock.None?
      && r.page == Some(FirstPage) && r.limit == f.limit
      && r.query == (if keepQuery then f.query else None)
    ensures Reset(Reset(f, keepQuery), keepQuery) == Reset(f, keepQuery)
  {
  }

  /** `setPage`. */
  function WithPage(f: ProductSearch, page: int): ProductSearch {
    f.(page := Some(page))
  }

  /** `filters.page || 1`. */
  function CurrentPage(f: ProductSearch): int {
    if f.page.None? || f.page.value == 0 then FirstPage else f.page.value
  }

  /** `nextPage`. */
  function Next(f: ProductSearch): ProductSearch {
    f.(page := Some(CurrentPage(f) + 1))
  }

  /** `prevPage`. */
  function Prev(f: ProductSearch): ProductSearch {
    f.(page := Some(Max(1, CurrentPage(f) - 1)))
  }

  /** Paging changes only the page: forward by one, back by one but never
      below 1; from page 1 or later, back after forward returns to the same
      page; and setting a page touches nothing else. */
  lemma PagingSpec(f: ProductSearch, page: int)
    ensures SameFilters(Next(f), f) && Next(f).limit == f.limit && Next(f).page == Some(CurrentPage(f) + 1)
    ensures SameFilters(Prev(f), f) && Prev(f).limit == f.limit && CurrentPage(Prev(f)) >= 1
    ensures CurrentPage(f) >= 1 ==> Prev(Next(f)) == WithPage(f, CurrentPage(f))
    ensures SameFilters(WithPage(f, page), f) && WithPage(f, page).limit == f.limit && WithPage(f, page).page == Some(page)
  {
  }

  /** `Math.ceil(a / b)`, for b other than 0. */
  function CeilDiv(a: int, b: int): (r: int)
    requires b != 0
  {
    -((-(a as real) / (b as real)).Floor)
  }

  /** For a positive divisor, the quotient rounded up is the fewest pages of
      `b` items that hold `a` items. */
  lemma CeilDivSpec(a: int, b: int)
    requires b > 0
    ensures CeilDiv(a, b) * b >= a
    ensures (CeilDiv(a, b) - 1) * b < a
  {
    var x := -(a as real) / (b as real);
    var q := x.Floor;
    assert x * (b as real) == -(a as real);
    RealMulMonotone(q as real, x, b as real);
    RealMulStrict(x, (q + 1) as real, b as real);
    assert (q * b) as real == (q as real) * (b as real);
    assert ((q + 1) * b) as real == ((q + 1) as real) * (b as real);
  }

  /** `filters.limit || 20`: a missing or zero limit reads as the default. */
  function PageSize(f: ProductSearch): int {
    if f.limit.None? || f.limit.value == 0 then DefaultLimit else f.limit.value
  }

  /** `totalPages`. */
  function TotalPages(f: ProductSearch, total: Option<int>): int {
    var t := if total.None? then 0 else total.value;
    CeilDiv(t, PageSize(f))
  }

  predicate HasNextPage(f: ProductSearch, total: Option<int>) {
    CurrentPage(f) < TotalPages(f, total)
  }

  predicate HasPreviousPage(f: ProductSearch) {
    CurrentPage(f) > 1
  }

  /** With a limit that is not negative (0 reads as the default), there is a
      next page iff some result lies beyond the end of the current page;
      there is a previous page iff going back actually moves. */
  lemma PagePredicatesSpec(f: ProductSearch, total: Option<int>)
    requires f.limit.None? || f.limit.value >= 0
    ensures var l := PageSize(f);
      HasNextPage(f, total) <==> CurrentPage(f) * l < total.GetOr(0)
    ensures HasPreviousPage(f) <==> CurrentPage(Prev(f)) < CurrentPage(f)
  {
    var l := PageSize(f);
    var t := total.GetOr(0);
    var p := CurrentPage(f);
    var n := TotalPages(f, total);
    CeilDivSpec(t, l);
    if p < n {
      MulMonotone(p, n - 1, l);
    } else {
      MulMonotone(n, p, l);
    }
  }

  /** The hook's held `filters`. */
  class ProductSearchHook {
    var filters: ProductSearch

    constructor(initial: ProductSearch)
      ensures filters == Initial(initial)
    {
      filters := Initial(initial);
    }

    method UpdateFilters(next: ProductSearch)
      modifies this
      ensures filters == Updated(old(filters), next)
    {
      filters := Updated(filters, next);
    }

    method ResetFilters(keepQuery: bool)
      modifies this
      ensures filters == Reset(old(filters), keepQuery)
    {
      filters := Reset(filters, keepQuery);
    }

    method SetPage(page: int)
      modifies this
      ensures filters == WithPage(old(filters), page)
    {
      filters := WithPage(filters, page);
    }

    method NextPage()
      modifies this
      ensures filters == Next(old(filters))
    {
      filters := Next(filters);
    }

    method PrevPage()
      modifies this
      ensures filters == Prev(old(filters))
    {
      filters := Prev(filters);
    }
  }
}
