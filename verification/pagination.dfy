/** Server-side paging as the list pages use it: a fixed page size sent with
    each request and a page count shown by the pagination control. */
module Pagination {

  import opened Wrappers
  import opened Numeric

  /** A list request: page number, page size, and the search text, sent only
      when non-empty (`search || undefined`). */
  datatype ListQuery = ListQuery(page: nat, perPage: nat, search: Option<string>)

  function Query(page: nat, perPage: nat, search: string): (q: ListQuery)
    ensures q.page == page && q.perPage == perPage
    ensures q.search.None? <==> search == ""
    ensures q.search.Some? ==> q.search.value == search
  {
    ListQuery(page, perPage, if search == "" then None else Some(search))
  }

  /** `Math.ceil(total / perPage)`. */
  function PageCount(total: nat, perPage: nat): (r: nat)
    requires perPage > 0
    ensures r * perPage >= total
    ensures r == 0 || (r - 1) * perPage < total
  {
    CeilDiv(total, perPage)
  }

  /** The 1-based page that holds the item at 0-based position `i`. */
  function PageOf(i: nat, perPage: nat): (p: nat)
    requires perPage > 0
    ensures p >= 1
    ensures (p - 1) * perPage <= i < p * perPage
  {
    DivBounds(i, perPage);
    i / perPage + 1
  }

  /** The page count is exactly enough: every item lies on some page within
      the count, and the last counted page holds at least one item. */
  lemma {:induction false} PageCountExact(total: nat, perPage: nat, i: nat)
    requires perPage > 0
    requires i < total
    ensures PageOf(i, perPage) <= PageCount(total, perPage)
    ensures PageCount(total, perPage) >= 1
  {
    var p := PageOf(i, perPage);
    var c := PageCount(total, perPage);
    MulCancelLt(p - 1, c, perPage);
  }

  /** No items, no pages. */
  lemma NoItemsNoPages(perPage: nat)
    requires perPage > 0
    ensures PageCount(0, perPage) == 0
  {
  }
}
