/**
 * The shared list-query helpers every resource service inherits: applying pagination to a
 * query builder, and wrapping a page of rows in the `{ items, meta }` response envelope.
 */
module BaseService {
  import opened Wrappers
  import opened QueryBuilder

  /** The `page` and `limit` fields of a list query, as numbers; absent fields are `None`. */
  datatype PageQuery = PageQuery(page: Option<int>, limit: Option<int>)

  /** The signed-in user a request acts for; only the website it belongs to matters here. */
  datatype AuthUser = AuthUser(websiteId: Option<int>)

  /** What the shared `parseBaseListQuery` helper derives from a list query. */
  datatype ListParams = ListParams(limit: int, offset: nat)

  /**
   * `setPagination`: always skips the parsed offset; bounds the row count only for a positive
   * limit, so a limit of 0 leaves any earlier `take` in place. The builder it returns is the one
   * it was given.
   */
  method SetPagination(qb: SelectQueryBuilder, query: PageQuery, parse: PageQuery -> ListParams)
    returns (r: SelectQueryBuilder)
    modifies qb
    ensures r == qb
    ensures qb.skip == Some(parse(query).offset)
    ensures parse(query).limit > 0 ==> qb.take == Some(parse(query).limit)
    ensures parse(query).limit <= 0 ==> qb.take == old(qb.take)
    ensures qb.predicates == old(qb.predicates) && qb.order == old(qb.order)
  {
    var params := parse(query);
    qb.Skip(params.offset);
    if params.limit > 0 {
      qb.Take(params.limit);
    }
    r := qb;
  }

  /**
   * The shared `setFilter`, `setInFilter` and `setAlgoliaSearch` helpers. Their bodies are not
   * part of this model: each records one opaque clause carrying its arguments, whose meaning
   * (including the search index's answer) is left to the `holds` relation at execution.
   */
  method SetFilter(qb: SelectQueryBuilder, value: Value, column: string) returns (r: SelectQueryBuilder)
    modifies qb
    ensures r == qb
    ensures qb.Snapshot() == old(qb.Snapshot()).(predicates := old(qb.predicates) + [Filter(column, value)])
    ensures qb.predicates == old(qb.predicates) + [Filter(column, value)]
    ensures qb.order == old(qb.order) && qb.skip == old(qb.skip) && qb.take == old(qb.take)
  {
    qb.AndWhere(Filter(column, value));
    r := qb;
  }

  method SetInFilter(qb: SelectQueryBuilder, values: Value, column: string) returns (r: SelectQueryBuilder)
    modifies qb
    ensures r == qb
    ensures qb.Snapshot() == old(qb.Snapshot()).(predicates := old(qb.predicates) + [InFilter(column, values)])
  {
    qb.AndWhere(InFilter(column, values));
    r := qb;
  }

  method SetAlgoliaSearch(qb: SelectQueryBuilder, searchValue: Option<string>, searchBy: Option<string>, column: string)
    returns (r: SelectQueryBuilder)
    modifies qb
    ensures r == qb
    ensures qb.Snapshot() == old(qb.Snapshot()).(predicates := old(qb.predicates) + [Search(column, searchValue, searchBy)])
  {
    qb.AndWhere(Search(column, searchValue, searchBy));
    r := qb;
  }

  /** `Math.ceil(total / limit)` as JavaScript computes it: a number, `Infinity` or `NaN`. */
  datatype TotalPages = Pages(n: int) | Infinity | NaN

  datatype Meta = Meta(total: nat, page: int, limit: int, totalPages: TotalPages)

  datatype GetAllResponse<T> = GetAllResponse(items: seq<T>, meta: Meta)

  /** Ceiling division for a positive divisor: the fewest pages of `limit` rows that hold `total` rows. */
  function CeilDiv(total: nat, limit: int): (p: nat)
    requires limit > 0
    ensures p * limit >= total
    ensures p > 0 ==> (p - 1) * limit < total
  {
    if total == 0 then 0 else 1 + CeilDiv(if total <= limit then 0 else total - limit, limit)
  }

  /**
   * The page count for `total` rows at `limit` rows a page. A positive limit gives the ceiling
   * of the quotient; a zero limit divides by zero (`Infinity` for rows, `NaN` for none); a
   * negative limit gives the ceiling of a non-positive quotient.
   */
  function TotalPagesOf(total: nat, limit: int): (p: TotalPages)
    ensures limit > 0 ==> p.Pages? && p.n >= 0 && p.n * limit >= total && (p.n == 0 || (p.n - 1) * limit < total)
    ensures limit == 0 ==> (p == Infinity <==> total > 0) && (p == NaN <==> total == 0)
    ensures limit < 0 ==> p.Pages? && p.n <= 0 && p.n * limit <= total && (p.n - 1) * limit > total
  {
    if limit > 0 then Pages(CeilDiv(total, limit))
    else if limit == 0 then (if total > 0 then Infinity else NaN)
    else Pages(0 - FloorDiv(total, 0 - limit) as int)
  }

  /** `total` divided by a positive `d`, rounded down, with the bounds that make it the floor. */
  function FloorDiv(total: nat, d: int): (q: nat)
    requires d > 0
    ensures q * d <= total < (q + 1) * d
  {
    if total < d then 0 else 1 + FloorDiv(total - d, d)
  }

  /**
   * `generateGetAllResponse`: the items unchanged, the total as given, `page` defaulting to 1
   * and `limit` to 0 when the query lacks them, and the page count computed against that limit.
   */
  function GenerateGetAllResponse<T>(items: seq<T>, totalItems: nat, query: PageQuery): (r: GetAllResponse<T>)
    ensures r.items == items && r.meta.total == totalItems
    ensures query.page.None? ==> r.meta.page == 1
    ensures query.page.Some? ==> r.meta.page == query.page.value
    ensures query.limit.None? ==> r.meta.limit == 0 && !r.meta.totalPages.Pages?
    ensures query.limit.Some? ==> r.meta.limit == query.limit.value
    ensures r.meta.totalPages == TotalPagesOf(totalItems, r.meta.limit)
  {
    var page := query.page.GetOr(1);
    var limit := query.limit.GetOr(0);
    GetAllResponse(items, Meta(totalItems, page, limit, TotalPagesOf(totalItems, limit)))
  }

  /** For a positive limit the page count is the least number of pages that hold every row. */
  lemma {:induction false} TotalPagesIsLeast(total: nat, limit: int, pages: int)
    requires limit > 0 && pages * limit >= total
    ensures TotalPagesOf(total, limit).n <= pages
  {
    var p := TotalPagesOf(total, limit).n;
    if p > pages {
      assert (p - 1) * limit >= pages * limit by {
        MulMonotone(pages, p - 1, limit);
      }
    }
  }

  lemma MulMonotone(a: int, b: int, c: int)
    requires a <= b && c > 0
    ensures a * c <= b * c
  {
  }

  /** For a positive limit there are no pages exactly when there are no rows. */
  lemma {:induction false} TotalPagesZeroIffEmpty(total: nat, limit: int)
    requires limit > 0
    ensures TotalPagesOf(total, limit) == Pages(0) <==> total == 0
  {
    if total > 0 {
      assert TotalPagesOf(total, limit).n * limit >= total;
    }
  }

  /** 25 rows at 10 a page make 3 pages, and page 2 reports itself with that count. */
  lemma ResponseScenario<T>(items: seq<T>)
    ensures GenerateGetAllResponse(items, 25, PageQuery(Some(2), Some(10))).meta
      == Meta(25, 2, 10, Pages(3))
  {
    assert CeilDiv(25, 10) == 3 by {
      assert CeilDiv(5, 10) == 1;
      assert CeilDiv(15, 10) == 2;
    }
  }
}
