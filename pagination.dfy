/** `PaginationDto` and the `meta` block of `PaginatedResponseDto`: page and
    limit with their defaults and validation bounds, the row offset of a page,
    and the page count and neighbours reported beside a page of data. */
module Pagination {

  datatype PaginationDto = PaginationDto(page: int, limit: int)

  const DefaultPage := 1
  const DefaultLimit := 10
  const MaxLimit := 100

  /** A DTO with no query values: page 1, limit 10. */
  const DefaultPagination := PaginationDto(DefaultPage, DefaultLimit)

  /** What the validators accept: `@Min(1)` on page, `@Min(1) @Max(100)` on limit. */
  predicate Valid(p: PaginationDto) {
    p.page >= 1 && 1 <= p.limit <= MaxLimit
  }

  /** The `skip` getter: rows before the requested page. */
  function Skip(p: PaginationDto): (skip: int)
    ensures Valid(p) ==> 0 <= skip
    ensures p.page == 1 ==> skip == 0
  {
    (p.page - 1) * p.limit
  }

  /** `Math.ceil(total / limit)`: the number of pages `total` rows fill. */
  function TotalPages(total: nat, limit: int): (pages: nat)
    requires limit >= 1
    ensures total == 0 ==> pages == 0
    ensures total > 0 ==> (pages - 1) * limit < total <= pages * limit
  {
    var q := total / limit;
    if total % limit == 0 then q else q + 1
  }

  datatype Meta = Meta(total: nat, page: int, limit: int, totalPages: nat, hasNextPage: bool, hasPreviousPage: bool)

  datatype PaginatedResponse<T> = PaginatedResponse(data: seq<T>, meta: Meta)

  /** The `PaginatedResponseDto` constructor. */
  function Paginate<T>(data: seq<T>, total: nat, p: PaginationDto): (r: PaginatedResponse<T>)
    requires p.limit >= 1
    ensures r.data == data
    ensures r.meta.total == total && r.meta.page == p.page && r.meta.limit == p.limit
    ensures r.meta.totalPages == TotalPages(total, p.limit)
    ensures r.meta.hasNextPage <==> p.page * p.limit < total
    ensures r.meta.hasPreviousPage <==> p.page > 1
  {
    PaginatedResponse(data, Meta(total, p.page, p.limit, TotalPages(total, p.limit),
      p.page * p.limit < total, p.page > 1))
  }

  lemma MultiplyMonotone(a: int, b: int, limit: int)
    requires a <= b && limit >= 1
    ensures a * limit <= b * limit
  {
    assert b * limit - a * limit == (b - a) * limit;
  }

  /** There is a next page exactly when the page comes before the last one. */
  lemma HasNextPageIffBeforeLastPage<T>(data: seq<T>, total: nat, p: PaginationDto)
    requires p.limit >= 1
    ensures Paginate(data, total, p).meta.hasNextPage <==> p.page < Paginate(data, total, p).meta.totalPages
  {
    var n := TotalPages(total, p.limit);
    if p.page < n {
      MultiplyMonotone(p.page, (n as int) - 1, p.limit);
    } else {
      MultiplyMonotone(n, p.page, p.limit);
    }
  }

  /** A valid page has a previous page exactly when it is not the first, and
      the last page of a non-empty result has no next page. */
  lemma LastPageHasNoNext<T>(data: seq<T>, total: nat, p: PaginationDto)
    requires Valid(p) && total > 0 && p.page == TotalPages(total, p.limit)
    ensures !Paginate(data, total, p).meta.hasNextPage
    ensures Paginate(data, total, p).meta.hasPreviousPage <==> p.page != 1
  {
    HasNextPageIffBeforeLastPage(data, total, p);
  }

  /** A valid page of a non-empty result holds rows exactly when it lies
      within the page count: its offset is below `total` iff page <= totalPages. */
  lemma NonEmptyPageIffWithinCount(total: nat, p: PaginationDto)
    requires Valid(p) && total > 0
    ensures Skip(p) < total <==> p.page <= TotalPages(total, p.limit)
  {
    var n := TotalPages(total, p.limit);
    if p.page <= n {
      MultiplyMonotone(p.page - 1, (n as int) - 1, p.limit);
    } else {
      MultiplyMonotone(n, p.page - 1, p.limit);
    }
  }
}
