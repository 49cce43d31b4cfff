/** The pager under every list page: the page count, the range of rows shown,
    and the Previous/Next buttons. */
module Pagination {

  /** Rows per page on the invoice, cash, customer and user pages. */
  const PageSize: nat := 10
  /** Cards per page on the orders page. */
  const OrdersPageSize: nat := 9

  /** `Math.ceil(total / limit)`. */
  function TotalPages(total: nat, limit: nat): (t: nat)
    requires limit > 0
    ensures total <= t * limit
    ensures t > 0 ==> (t - 1) * limit < total
    ensures total == 0 <==> t == 0
  {
    var q := (total + limit - 1) / limit;
    var r := (total + limit - 1) % limit;
    assert total + limit - 1 == q * limit + r && 0 <= r < limit;
    assert q * limit == total + limit - 1 - r;
    assert q > 0 ==> (q - 1) * limit == total - 1 - r;
    q
  }

  /** The number of the first row shown. */
  function ShownFrom(page: int, limit: nat): int {
    (page - 1) * limit + 1
  }

  /** The number of the last row shown: `Math.min(page * limit, total)`. */
  function ShownTo(page: int, limit: nat, total: nat): int {
    if page * limit < total then page * limit else total
  }

  /** The pager appears only when there is more than one page. */
  predicate ShowPager(totalPages: nat) {
    totalPages > 1
  }

  function PrevPage(page: int): int {
    if page - 1 > 1 then page - 1 else 1
  }

  function NextPage(page: int, totalPages: nat): int {
    if page + 1 < totalPages then page + 1 else totalPages
  }

  predicate PrevDisabled(page: int) { page == 1 }
  predicate NextDisabled(page: int, totalPages: nat) { page == totalPages }

  predicate InRange(page: int, totalPages: nat) {
    1 <= page <= totalPages
  }

  /** Previous and Next keep a page in range; on the first page Previous stays,
      on the last page Next stays. */
  lemma PagesStayInRange(page: int, totalPages: nat)
    requires InRange(page, totalPages)
    ensures InRange(PrevPage(page), totalPages) && InRange(NextPage(page, totalPages), totalPages)
    ensures PrevPage(page) == (if page == 1 then 1 else page - 1)
    ensures NextPage(page, totalPages) == (if page == totalPages then page else page + 1)
  {
  }

  /** On a page in range the pager shows the rows of that page: a full page
      before the last, the remainder on the last. */
  lemma ShownRange(page: int, limit: nat, total: nat)
    requires limit > 0 && InRange(page, TotalPages(total, limit))
    ensures 1 <= ShownFrom(page, limit) <= ShownTo(page, limit, total) <= total
    ensures page < TotalPages(total, limit) ==> ShownTo(page, limit, total) - ShownFrom(page, limit) + 1 == limit
    ensures page == TotalPages(total, limit) ==> ShownTo(page, limit, total) == total
  {
    var t := TotalPages(total, limit);
    assert (page - 1) * limit <= (t - 1) * limit by {
      MulMonotone(page - 1, t - 1, limit);
    }
    if page < t {
      MulMonotone(page, t - 1, limit);
      assert page * limit == (page - 1) * limit + limit;
    } else {
      assert page * limit >= total;
    }
  }

  lemma MulMonotone(a: int, b: int, k: nat)
    requires a <= b
    ensures a * k <= b * k
  {
  }

  /** A page beyond the last (the list shrank under it) is pulled back to the
      last page by Next, while the pager showing Next is hidden unless there are
      two pages or more. */
  lemma NextPullsBack(page: int, totalPages: nat)
    requires page > totalPages
    ensures NextPage(page, totalPages) == totalPages < page
  {
  }

  /** The page a list page holds. */
  class Pager {
    var page: int
    const limit: nat

    constructor(limit: nat)
      requires limit > 0
      ensures page == 1 && this.limit == limit
    {
      page := 1;
      this.limit := limit;
    }

    method Previous()
      modifies this
      ensures page == PrevPage(old(page))
    {
      page := if page - 1 > 1 then page - 1 else 1;
    }

    method Next(total: nat)
      requires limit > 0
      modifies this
      ensures page == NextPage(old(page), TotalPages(total, limit))
    {
      var totalPages := TotalPages(total, limit);
      page := if page + 1 < totalPages then page + 1 else totalPages;
    }
  }
}
