/** The Previous/Next pager shared by the home and history pages. */
module Pagination {
  import opened Builtins

  /** The Previous handler, `Math.max(1, p - 1)`. */
  function PreviousPage(p: int): (r: int)
    ensures r >= 1
    ensures p > 1 ==> r == p - 1
    ensures p <= 1 ==> r == 1
  {
    Max(1, p - 1)
  }

  /** The Next handler, `p + 1`. */
  function NextPage(p: int): (r: int)
    ensures r > p
  {
    p + 1
  }

  /** Previous is disabled on page 1 and while loading. */
  predicate PreviousDisabled(page: int, loading: bool)
  {
    page == 1 || loading
  }

  /** Next is disabled when fewer than `limit` items came back, and while
      loading. */
  predicate NextDisabled(count: int, limit: int, loading: bool)
  {
    count < limit || loading
  }

  /** Starting from a page of at least 1, any sequence of Previous and Next
      presses (`true` for Next) stays at page 1 or above. */
  function Press(p: int, presses: seq<bool>): int
    decreases |presses|
  {
    if presses == [] then p
    else Press(if presses[0] then NextPage(p) else PreviousPage(p), presses[1..])
  }

  lemma {:induction false} PagesStayPositive(p: int, presses: seq<bool>)
    requires p >= 1
    ensures Press(p, presses) >= 1
    decreases |presses|
  {
    if presses != [] {
      PagesStayPositive(if presses[0] then NextPage(p) else PreviousPage(p), presses[1..]);
    }
  }

  /** When Next is enabled, a full page came back, nothing is loading, and
      pressing it goes forward exactly one page. */
  lemma NextWhenEnabled(p: int, count: int, limit: int, loading: bool)
    requires !NextDisabled(count, limit, loading)
    ensures count >= limit && !loading && NextPage(p) == p + 1
  {
  }

  /** When Previous is enabled, it goes back exactly one page. */
  lemma PreviousWhenEnabled(p: int, loading: bool)
    requires p >= 1 && !PreviousDisabled(p, loading)
    ensures PreviousPage(p) == p - 1 && PreviousPage(p) >= 1
  {
  }
}
