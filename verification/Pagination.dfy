/**
 Offset pagination of pkg/pagination/pagination.go, in 64-bit two's-complement arithmetic.
 */
module Pagination {
  import opened Integers

  const DEFAULT_PAGE := 1
  const DEFAULT_PAGE_SIZE := 20
  const MAX_PAGE_SIZE := 100

  function NormalPage(page: Int64): Int64 {
    if page < 1 then DEFAULT_PAGE else page
  }

  function NormalSize(size: Int64): Int64 {
    if size < 1 then DEFAULT_PAGE_SIZE else if size > MAX_PAGE_SIZE then MAX_PAGE_SIZE else size
  }

  function Offset(page: Int64, size: Int64): Int64 {
    Wrap((page - 1) * size)
  }

  function TotalPages(totalItems: Int64, size: Int64): int
    requires size > 0
  {
    TruncatedDiv(Wrap(totalItems + size - 1), size)
  }

  datatype Page<T> = Page(
    items: seq<T>, totalItems: Int64, totalPages: int, page: Int64, pageSize: Int64, hasNext: bool, hasPrev: bool)

  class Params {
    var page: Int64
    var pageSize: Int64

    constructor (page: Int64, pageSize: Int64)
      ensures this.page == page && this.pageSize == pageSize
    {
      this.page, this.pageSize := page, pageSize;
    }

    method Normalize()
      modifies this
      ensures page == NormalPage(old(page)) && pageSize == NormalSize(old(pageSize))
      ensures page >= 1 && 1 <= pageSize <= MAX_PAGE_SIZE
      ensures old(page) < 1 ==> page == 1
      ensures old(pageSize) < 1 ==> pageSize == 20
      ensures old(pageSize) > 100 ==> pageSize == 100
      ensures old(page) >= 1 && 1 <= old(pageSize) <= MAX_PAGE_SIZE ==> unchanged(this)
    {
      if page < 1 {
        page := DEFAULT_PAGE;
      }
      if pageSize < 1 {
        pageSize := DEFAULT_PAGE_SIZE;
      }
      if pageSize > MAX_PAGE_SIZE {
        pageSize := MAX_PAGE_SIZE;
      }
    }
  }

  /** NewResult normalises its own copy of the parameters. */
  method NewResult<T>(items: seq<T>, totalItems: Int64, page: Int64, pageSize: Int64) returns (r: Page<T>)
    ensures r.items == items && r.totalItems == totalItems
    ensures r.page == NormalPage(page) && r.pageSize == NormalSize(pageSize)
    ensures r.totalPages == TotalPages(totalItems, r.pageSize)
    ensures r.hasNext == (r.page < r.totalPages) && r.hasPrev == (r.page > 1 && r.totalPages > 0)
  {
    var params := new Params(page, pageSize);
    params.Normalize();
    var totalPages := 0;
    if params.pageSize > 0 {
      totalPages := TruncatedDiv(Wrap(totalItems + params.pageSize - 1), params.pageSize);
    }
    var hasNext := params.page < totalPages;
    var hasPrev := params.page > 1 && totalPages > 0;
    r := Page(items, totalItems, totalPages, params.page, params.pageSize, hasNext, hasPrev);
  }

  /** Values out of range become the first page, whose window starts at row 0, and 20 or 100 rows a page. */
  lemma OutOfRangeValues(page: Int64, size: Int64)
    ensures page < 1 ==> NormalPage(page) == 1 && Offset(NormalPage(page), NormalSize(size)) == 0
    ensures page >= 1 ==> NormalPage(page) == page
    ensures NormalSize(size) == if size < 1 then 20 else if size > 100 then 100 else size
  {
    if page < 1 {
      MulMono(0, 0, NormalSize(size));
    }
  }

  // ---- The pages partition the rows ----

  lemma MulMono(a: int, b: int, size: int)
    requires a <= b && size >= 0
    ensures a * size <= b * size
  {
    assert (b - a) * size >= 0;
  }

  lemma Quotient(a: int, b: int, q: int)
    requires b > 0
    ensures q * b <= a < q * b + b <==> a / b == q
  {
    var d := a / b;
    assert d * b <= a < d * b + b;
    if q < d {
      MulMono(q + 1, d, b);
    } else if q > d {
      MulMono(d + 1, q, b);
    }
  }

  lemma CeilingOf(totalItems: int, size: int, pages: int)
    requires totalItems >= 0 && size >= 1 && pages == (totalItems + size - 1) / size
    ensures (pages - 1) * size < totalItems <= pages * size
  {
    Quotient(totalItems + size - 1, size, pages);
    assert (pages - 1) * size == pages * size - size;
  }

  /** The page count is the exact ceiling precisely when the sum in front of the division fits in 64 bits. */
  lemma TotalPagesIsCeiling(totalItems: Int64, size: Int64)
    requires totalItems >= 0 && 1 <= size <= MAX_PAGE_SIZE
    ensures var n := TotalPages(totalItems, size);
            (n - 1) * size < totalItems <= n * size <==> totalItems + size - 1 <= MAX64
  {
    var n := TotalPages(totalItems, size);
    WrapOnce(totalItems + size - 1);
    if totalItems + size - 1 <= MAX64 {
      CeilingOf(totalItems, size, n);
    } else {
      assert n <= 0;
      MulMono(n, 0, size);
    }
  }

  /** No window of an existing page wraps, and each holds at least one row. */
  lemma WindowsAreNonempty(totalItems: Int64, size: Int64, page: Int64)
    requires totalItems >= 0 && 1 <= size <= MAX_PAGE_SIZE && totalItems + size - 1 <= MAX64
    requires 1 <= page <= TotalPages(totalItems, size)
    ensures Offset(page, size) == (page - 1) * size && 0 <= Offset(page, size) < totalItems
  {
    TotalPagesIsCeiling(totalItems, size);
    MulMono(page - 1, TotalPages(totalItems, size) - 1, size);
    MulMono(0, page - 1, size);
  }

  lemma WindowHoldsRow(totalItems: Int64, size: Int64, row: Int64, page: Int64)
    requires 0 <= row < totalItems && 1 <= size <= MAX_PAGE_SIZE && totalItems + size - 1 <= MAX64
    requires 1 <= page <= TotalPages(totalItems, size)
    ensures Offset(page, size) <= row < Offset(page, size) + size <==> page == row / size + 1
  {
    WindowsAreNonempty(totalItems, size, page);
    Quotient(row, size, page - 1);
  }

  lemma RowHasPage(totalItems: int, size: int, row: int, pages: int)
    requires 0 <= row < totalItems <= pages * size && size > 0
    ensures 1 <= row / size + 1 <= pages
  {
    var q := row / size;
    Quotient(row, size, q);
    if q >= pages {
      MulMono(pages, q, size);
    }
  }

  /** Every row lies in the window of exactly one page, and that page is one of 1..TotalPages. */
  lemma PagesPartitionRows(totalItems: Int64, size: Int64, row: Int64)
    requires 0 <= row < totalItems && 1 <= size <= MAX_PAGE_SIZE && totalItems + size - 1 <= MAX64
    ensures 1 <= row / size + 1 <= TotalPages(totalItems, size)
    ensures forall page: Int64 {:trigger Offset(page, size)} :: 1 <= page <= TotalPages(totalItems, size) ==>
              (Offset(page, size) <= row < Offset(page, size) + size <==> page == row / size + 1)
  {
    TotalPagesIsCeiling(totalItems, size);
    var pages := TotalPages(totalItems, size);
    RowHasPage(totalItems, size, row, pages);
    forall page: Int64 | 1 <= page <= pages
      ensures Offset(page, size) <= row < Offset(page, size) + size <==> page == row / size + 1
    {
      WindowHoldsRow(totalItems, size, row, page);
    }
  }

  lemma MoreExactly(totalItems: int, size: int, page: int, pages: int)
    requires (pages - 1) * size < totalItems <= pages * size && size > 0
    ensures page < pages <==> page * size < totalItems
  {
    if page < pages {
      MulMono(page, pages - 1, size);
    } else {
      MulMono(pages, page, size);
    }
  }

  /** HasNext says exactly whether a row lies at or beyond the end of this page's window. */
  lemma HasNextIsExact(totalItems: Int64, size: Int64, page: Int64)
    requires totalItems >= 0 && 1 <= size <= MAX_PAGE_SIZE && totalItems + size - 1 <= MAX64 && page >= 1
    ensures page < TotalPages(totalItems, size) <==> (page - 1) * size + size < totalItems
    ensures TotalPages(totalItems, size) > 0 <==> totalItems > 0
  {
    TotalPagesIsCeiling(totalItems, size);
    var pages := TotalPages(totalItems, size);
    assert (page - 1) * size + size == page * size;
    MoreExactly(totalItems, size, page, pages);
    MoreExactly(totalItems, size, 0, pages);
  }
}
