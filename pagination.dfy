/** Page and limit parsing with clamping, and the metadata of a paginated response. */
module Pagination {
  import opened Wrappers
  import opened Json

  const DefaultPage := 1
  const DefaultLimit := 10
  const MaxLimit := 100

  datatype PaginationQuery = PaginationQuery(page: int, limit: int, offset: int)

  datatype PaginationResponse = PaginationResponse(data: Json, page: int, limit: int, totalCount: int, totalPages: int)

  /**
   * NewPaginationQuery, with the "page" and "limit" query strings given as strconv.Atoi would
   * parse them (None when Atoi reports an error, which includes a missing parameter).
   */
  function NewPaginationQuery(pageParam: Option<int>, limitParam: Option<int>): (q: PaginationQuery)
    ensures q.page >= 1 && 1 <= q.limit <= MaxLimit
    ensures q.offset == (q.page - 1) * q.limit && q.offset >= 0
    ensures q.page == (if pageParam.Some? && pageParam.value > 0 then pageParam.value else DefaultPage)
    ensures limitParam.Some? && 0 < limitParam.value <= MaxLimit ==> q.limit == limitParam.value
    ensures limitParam.Some? && limitParam.value > MaxLimit ==> q.limit == MaxLimit
    ensures (limitParam.None? || limitParam.value <= 0) ==> q.limit == DefaultLimit
  {
    var page := if pageParam.Some? && pageParam.value > 0 then pageParam.value else DefaultPage;
    var limit0 := if limitParam.Some? && limitParam.value > 0 then limitParam.value else DefaultLimit;
    var limit := if limit0 > MaxLimit then MaxLimit else limit0;
    PaginationQuery(page, limit, (page - 1) * limit)
  }

  function PaginationResponseJson(r: PaginationResponse): Json
  {
    JObj([Field("data", r.data), Field("page", JInt(r.page)), Field("limit", JInt(r.limit)),
          Field("total_count", JInt(r.totalCount)), Field("total_pages", JInt(r.totalPages))])
  }

  /** Parsing the values a query settled on gives the same query back: clamping is idempotent. */
  lemma QueryIdempotent(pageParam: Option<int>, limitParam: Option<int>)
    ensures var q := NewPaginationQuery(pageParam, limitParam);
      NewPaginationQuery(Some(q.page), Some(q.limit)) == q
  {
  }

  /** Go's integer division, which truncates toward zero. */
  function GoDiv(a: int, b: int): (q: int)
    requires b != 0
    ensures 0 <= a && 0 < b ==> q == a / b
  {
    if (a >= 0) == (b > 0) then (if a >= 0 then a / b else (-a) / (-b))
    else -((if a >= 0 then a else -a) / (if b >= 0 then b else -b))
  }

  /** NewPaginationResponse: the query's page and limit and the total are copied; TotalPages is a ceiling division. */
  function NewPaginationResponse(data: Json, query: PaginationQuery, totalCount: int): (r: PaginationResponse)
    ensures r.data == data && r.page == query.page && r.limit == query.limit && r.totalCount == totalCount
    ensures query.limit <= 0 ==> r.totalPages == 0
  {
    var totalPages := if query.limit > 0 then GoDiv(totalCount + query.limit - 1, query.limit) else 0;
    PaginationResponse(data, query.page, query.limit, totalCount, totalPages)
  }

  /**
   * For a positive limit and a non-negative total, TotalPages is the least number of pages
   * of `limit` items that hold all `totalCount` items; in particular it is 0 for no items.
   */
  lemma TotalPagesIsCeiling(data: Json, query: PaginationQuery, totalCount: int)
    requires query.limit > 0 && totalCount >= 0
    ensures var n := NewPaginationResponse(data, query, totalCount).totalPages;
      n >= 0 && n * query.limit >= totalCount && (n == 0 || (n - 1) * query.limit < totalCount)
    ensures totalCount == 0 ==> NewPaginationResponse(data, query, totalCount).totalPages == 0
  {
    var l := query.limit;
    var a := totalCount + l - 1;
    var n := NewPaginationResponse(data, query, totalCount).totalPages;
    assert n == a / l;
    assert a == n * l + a % l && 0 <= a % l < l;
    assert n * l > a - l;
    assert (n - 1) * l == n * l - l;
    if totalCount == 0 {
      assert a < l;
      assert n * l <= a;
    }
  }
}
