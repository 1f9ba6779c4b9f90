/**
 * The pagination rules the three list views (customers, transactions, payments) repeat:
 * `pageSize = 10`, the inclusive `.range(from, to)` of a page, `totalPages`, and the
 * clamped Prev/Next steps; plus the shape of the store's reply to a list query.
 */
module Paging {

  import opened Wrappers

  const PageSize: nat := 10

  /** An inclusive row-offset window, as `.range(from, to)` takes it. */
  datatype Window = Window(from: int, to: int)

  predicate InWindow(i: int, w: Window) {
    w.from <= i <= w.to
  }

  /** `.range((page - 1) * pageSize, page * pageSize - 1)`. */
  function PageWindow(page: int): (w: Window)
    ensures w.to - w.from + 1 == PageSize
  {
    Window((page - 1) * PageSize, page * PageSize - 1)
  }

  /** The page on which row offset `i` is shown. */
  function PageOf(i: nat): (p: int)
    ensures p >= 1
  {
    i / PageSize + 1
  }

  /** Every row offset lies on exactly one page: pages neither overlap nor leave gaps. */
  lemma WindowsPartitionRows(i: nat, page: int)
    ensures InWindow(i, PageWindow(page)) <==> page == PageOf(i)
  {
    var q := i / PageSize;
    assert q * 10 <= i < q * 10 + 10;
    if page <= q {
      assert page * 10 <= q * 10;
    }
    if page >= q + 2 {
      assert (page - 1) * 10 >= (q + 1) * 10;
    }
  }

  /** Consecutive pages adjoin: the next page starts right after this one ends. */
  lemma ConsecutiveWindowsAdjoin(page: int)
    ensures PageWindow(page + 1).from == PageWindow(page).to + 1
  {
  }

  /** `Math.ceil(total / pageSize)` for a non-negative row count. */
  function CeilPages(total: nat): nat {
    if total % PageSize == 0 then total / PageSize else total / PageSize + 1
  }

  /** `Math.max(1, Math.ceil(total / pageSize))`: the fewest pages, at least one, that hold `total` rows. */
  function TotalPages(total: nat): (n: int)
    ensures n >= 1
    ensures total <= n * PageSize
    ensures n == 1 || (n - 1) * PageSize < total
  {
    var c := CeilPages(total);
    if c >= 1 then c else 1
  }

  /** Every row of the result set lies on a page from 1 to `totalPages`, and the last page is not empty. */
  lemma PagesCoverRows(total: nat, i: nat)
    requires i < total
    ensures 1 <= PageOf(i) <= TotalPages(total)
    ensures InWindow(total - 1, PageWindow(TotalPages(total)))
  {
    WindowsPartitionRows(i, PageOf(i));
    WindowsPartitionRows(total - 1, TotalPages(total));
  }

  /** Prev's handler: `Math.max(1, p - 1)`. */
  function PrevPage(p: int): (q: int)
    ensures q >= 1
    ensures p >= 1 ==> q <= p
    ensures q == p <==> p == 1
    ensures p >= 2 ==> q == p - 1
  {
    if p - 1 > 1 then p - 1 else 1
  }

  /** Next's handler: `Math.min(totalPages, p + 1)`, which comes back down when `p` is past the end. */
  function NextPage(p: int, totalPages: int): (q: int)
    ensures q <= totalPages
    ensures p < totalPages ==> q == p + 1
    ensures p >= totalPages ==> q == totalPages
  {
    if p + 1 < totalPages then p + 1 else totalPages
  }

  /** From any page in range, either click keeps the page in `[1, totalPages]`. */
  lemma StepsStayInRange(p: int, totalPages: int)
    requires 1 <= p <= totalPages
    ensures 1 <= PrevPage(p) <= totalPages
    ensures 1 <= NextPage(p, totalPages) <= totalPages
  {
  }

  /** The `{ data, error, count }` a list query resolves to. */
  datatype FetchReply<T> = FetchReply(data: Option<seq<T>>, error: Option<string>, count: Option<nat>)

  /** The store reports a count on a successful reply exactly when the select asked for one. */
  predicate CountAsAsked<T>(asked: bool, reply: FetchReply<T>) {
    reply.error.None? ==> (reply.count.Some? <==> asked)
  }

  /** `count || 0`. */
  function CountOrZero<T>(reply: FetchReply<T>): (n: nat)
    ensures reply.count.None? ==> n == 0
    ensures reply.count.Some? ==> n == reply.count.value
  {
    reply.count.GetOr(0)
  }

  /** A reply without a count makes a single page. */
  lemma NoCountSinglePage<T>(reply: FetchReply<T>)
    requires reply.count.None?
    ensures TotalPages(CountOrZero(reply)) == 1
  {
  }
}
