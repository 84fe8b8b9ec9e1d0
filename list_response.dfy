/**
 * The response shape the list pages read: the query's axios response,
 * whose body is an API envelope whose `data` is a paginated page with the
 * rows and the total. Any level may be missing while the query loads or
 * after it fails; the pages read it with optional chaining and `??`.
 */
module ListResponse {

  import opened Wrappers

  datatype Page<T> = Page(data: Option<seq<T>>, total: Option<int>)

  datatype Body<T> = Body(data: Option<Page<T>>)

  datatype Response<T> = Response(data: Option<Body<T>>)

  /** Every level down to the page is there. */
  predicate HasPage<T>(q: Option<Response<T>>) {
    q.Some? && q.value.data.Some? && q.value.data.value.data.Some?
  }

  /** `q?.data?.data?.data ?? []`. */
  function Rows<T>(q: Option<Response<T>>): (rows: seq<T>)
    ensures !HasPage(q) ==> rows == []
    ensures |rows| > 0 ==> HasPage(q) && q.value.data.value.data.value.data == Some(rows)
  {
    match q
    case None => []
    case Some(resp) =>
      match resp.data
      case None => []
      case Some(body) =>
        match body.data
        case None => []
        case Some(page) => page.data.GetOr([])
  }

  /** `q?.data?.data?.total ?? 0`. */
  function Total<T>(q: Option<Response<T>>): (n: int)
    ensures !HasPage(q) ==> n == 0
    ensures n != 0 ==> HasPage(q) && q.value.data.value.data.value.total == Some(n)
  {
    if HasPage(q) then q.value.data.value.data.value.total.GetOr(0) else 0
  }

  /**
   * The rows and the total come from the same page: `??` replaces only a
   * missing value, so an empty page keeps its rows empty and its own
   * total, and a page without a total shows 0 beside whatever rows it has.
   */
  lemma RowsAndTotalOfPage<T>(rows: Option<seq<T>>, total: Option<int>)
    ensures var q := Some(Response(Some(Body(Some(Page(rows, total))))));
      Rows(q) == rows.GetOr([]) && Total(q) == total.GetOr(0)
  {
  }
}
