/** `CustomPagination.get_paginated_response`: the page count and the fixed
    success envelope around a page of data. The `next` and `previous` links
    come from the framework's paginator and are parameters here. */
module Pagination {
  import opened Json

  /** The two paginators and their `page_size`. */
  datatype Paginator = CustomPagination | CustomPageNumberPagination {
    function PageSize(): (n: nat)
      ensures n > 0
    {
      match this
      case CustomPagination => 10
      case CustomPageNumberPagination => 14
    }
  }

  /** `math.ceil(count / page_size)` */
  function PageCount(p: Paginator, count: nat): (pages: nat)
    ensures count == 0 ==> pages == 0
    ensures count > 0 ==> (pages - 1) * p.PageSize() < count <= pages * p.PageSize()
  {
    (count + p.PageSize() - 1) / p.PageSize()
  }

  /** The page count is the least number of pages that holds every item. */
  lemma PageCountLeast(p: Paginator, count: nat, pages: nat)
    requires count <= pages * p.PageSize()
    ensures PageCount(p, count) <= pages
  {
  }

  /** Adding a full page of items adds exactly one page. */
  lemma {:induction false} PageCountFullPage(p: Paginator, count: nat)
    ensures PageCount(p, count + p.PageSize()) == PageCount(p, count) + 1
  {
    var s := p.PageSize();
    assert count + s + s - 1 == (count + s - 1) + 1 * s;
  }

  /** The response body: the paginator's count and links, the page count,
      the success status and the page data passed through as it is. */
  function PaginatedResponse(p: Paginator, count: nat, next: Json, previous: Json, data: Json): (r: map<string, Json>)
    ensures r.Keys == {"count", "next", "previous", "page_count", "status", "status_code", "message", "data"}
    ensures r["page_count"] == JNum(PageCount(p, count) as real)
    ensures r["status"] == JBool(true) && r["status_code"] == JNum(200.0) && r["message"] == JStr("Success")
    ensures r["data"] == data && r["count"] == JNum(count as real)
  {
    map["count" := JNum(count as real), "next" := next, "previous" := previous,
        "page_count" := JNum(PageCount(p, count) as real), "status" := JBool(true),
        "status_code" := JNum(200.0), "message" := JStr("Success"), "data" := data]
  }
}
