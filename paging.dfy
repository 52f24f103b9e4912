/** Query-argument bounds, LIMIT/OFFSET arithmetic and the pagination
    envelope `{total, page, page_size, total_pages}` shared by the list
    endpoints. */
module Paging {
  import opened Common

  const DEFAULT_PAGE_SIZE: nat := 100
  const MAX_PAGE_SIZE: nat := 1000

  /** The match lists of one player and of one venue page 50 rows by
      default and at most 200. */
  const MATCHES_PAGE_SIZE: nat := 50
  const MATCHES_MAX_PAGE_SIZE: nat := 200

  /** `Query(default, ge=lo, le=hi)`: an absent argument takes its default
      (which the framework does not check); a given one must lie in bounds. */
  predicate InRange(arg: Option<int>, lo: int, hi: Option<int>) {
    arg.None? || (lo <= arg.value && (hi.None? || arg.value <= hi.value))
  }

  function IntArg(arg: Option<int>, default: int, lo: int, hi: Option<int>, field: string): (r: Result<int, HttpError>)
    ensures r.Ok? <==> InRange(arg, lo, hi)
    ensures r.Err? ==> r.error == Unprocessable(field)
    ensures r.Ok? ==> r.value == (if arg.Some? then arg.value else default)
    ensures r.Ok? && InRange(Some(default), lo, hi) ==> InRange(Some(r.value), lo, hi)
  {
    if InRange(arg, lo, hi) then Ok(if arg.Some? then arg.value else default)
    else Err(Unprocessable(field))
  }

  datatype Paging = Paging(page: nat, size: nat)

  predicate ValidPaging(p: Paging, maxSize: nat) {
    p.page >= 1 && 1 <= p.size <= maxSize
  }

  /** `offset = (page - 1) * page_size` */
  function Offset(p: Paging): nat
    requires p.page >= 1
  {
    (p.page - 1) * p.size
  }

  /** `page: int = Query(1, ge=1)` and `page_size: int = Query(default, ge=1, le=max)`. */
  function CheckPaging(page: Option<int>, size: Option<int>, defaultSize: nat, maxSize: nat): (r: Result<Paging, HttpError>)
    requires 1 <= defaultSize <= maxSize
    ensures r.Ok? <==> InRange(page, 1, None) && InRange(size, 1, Some(maxSize))
    ensures r.Ok? ==> ValidPaging(r.value, maxSize)
    ensures r.Ok? ==> r.value.page == (if page.Some? then page.value else 1)
    ensures r.Ok? ==> r.value.size == (if size.Some? then size.value else defaultSize)
  {
    var pg := IntArg(page, 1, 1, None, "page");
    var sz := IntArg(size, defaultSize, 1, Some(maxSize), "page_size");
    if pg.Err? then Err(pg.error)
    else if sz.Err? then Err(sz.error)
    else Ok(Paging(pg.value, sz.value))
  }

  /** `(total + page_size - 1) // page_size` */
  function TotalPages(total: nat, size: nat): (n: nat)
    requires size >= 1
    ensures n == 0 <==> total == 0
    ensures n <= total
  {
    if total == 0 then 0
    else
      var n := (total + size - 1) / size;
      assert total + size - 1 < (total + 1) * size;
      assert n < total + 1;
      n
  }

  /** TotalPages is the ceiling of total / size: the least page count whose
      pages hold every row. */
  lemma TotalPagesIsCeiling(total: nat, size: nat)
    requires size >= 1
    ensures TotalPages(total, size) * size >= total
    ensures TotalPages(total, size) == 0 || (TotalPages(total, size) - 1) * size < total
  {
    var n := TotalPages(total, size);
    var r := (total + size - 1) % size;
    assert n * size + r == total + size - 1;
    assert 0 <= r < size;
    if n > 0 {
      assert (n - 1) * size == n * size - size;
    }
  }

  datatype PageInfo = PageInfo(total: nat, page: nat, pageSize: nat, totalPages: nat)

  function Pagination(total: nat, p: Paging): (r: PageInfo)
    requires p.size >= 1
    ensures r.total == total && r.page == p.page && r.pageSize == p.size
    ensures r.totalPages * r.pageSize >= total
    ensures r.totalPages == 0 || (r.totalPages - 1) * r.pageSize < total
  {
    TotalPagesIsCeiling(total, p.size);
    PageInfo(total, p.page, p.size, TotalPages(total, p.size))
  }

  function Min(a: nat, b: nat): nat {
    if a <= b then a else b
  }

  /** `LIMIT size OFFSET offset` applied to an ordered result `rows`. */
  function Window<T>(rows: seq<T>, p: Paging): (w: seq<T>)
    requires p.page >= 1
    ensures |w| <= p.size
  {
    rows[Min(Offset(p), |rows|)..Min(Offset(p) + p.size, |rows|)]
  }

  /** Pages 1..n of `rows`, concatenated in order. */
  function PagesUpTo<T>(rows: seq<T>, size: nat, n: nat): seq<T> {
    if n == 0 then [] else PagesUpTo(rows, size, n - 1) + Window(rows, Paging(n, size))
  }

  lemma {:induction false} PagesUpToIsPrefix<T>(rows: seq<T>, size: nat, n: nat)
    ensures PagesUpTo(rows, size, n) == rows[..Min(n * size, |rows|)]
  {
    if n > 0 {
      PagesUpToIsPrefix(rows, size, n - 1);
      assert Offset(Paging(n, size)) == (n - 1) * size;
      assert (n - 1) * size + size == n * size;
      assert Min((n - 1) * size, |rows|) <= Min(n * size, |rows|);
    }
  }

  /** Over a static table, reading pages 1..total_pages in order yields
      every row exactly once: no gap, no duplicate. */
  lemma PagesCoverAll<T>(rows: seq<T>, size: nat)
    requires size >= 1
    ensures PagesUpTo(rows, size, TotalPages(|rows|, size)) == rows
  {
    TotalPagesIsCeiling(|rows|, size);
    PagesUpToIsPrefix(rows, size, TotalPages(|rows|, size));
  }
}
