/** The history page: the signed-in user's bookings, eight per page. */
module HistoryPage {
  import opened Wrappers
  import opened Builtins
  import opened Api
  import opened Pagination
  import BookingContext

  const Limit: int := 8

  /** Without a token the page shows the sign-in panel instead. */
  predicate Locked(token: Option<string>)
  {
    !IsTruthyText(token)
  }

  /** The status badge, `status || "pending"`: a missing or empty status
      shows as pending. */
  function StatusLabel(b: BookingRecord): (r: string)
    ensures IsTruthyText(b.status) ==> r == b.status.value
    ensures !IsTruthyText(b.status) ==> r == "pending"
    ensures r != ""
  {
    if IsTruthyText(b.status) then b.status.value else "pending"
  }

  /** `res.bookings || []`: a response without the list means none. */
  function BookingsOrEmpty(listed: Option<seq<BookingRecord>>): (r: seq<BookingRecord>)
    ensures listed.Some? ==> r == listed.value
    ensures listed.None? ==> r == []
  {
    listed.GetOr([])
  }

  /** A listing call: the token and the query. */
  datatype ListCall = ListCall(token: string, query: Query)

  /** Every listing query asks for the fixed page size and names the page. */
  lemma QueryOfPage(page: int)
    requires page >= 1
    ensures var q := BookingsQuery(Some(Limit), Some(page), None);
            QueryKeys(q) == ["limit", "page"] && q == [("limit", QNumber(8)), ("page", QNumber(page))]
  {
    var q := BookingsQuery(Some(Limit), Some(page), None);
    assert |QueryKeys(q)| == 2;
  }

  class Page {
    const ctx: BookingContext.Provider
    var bookings: seq<BookingRecord>
    var loading: bool
    var error: Option<string>
    var page: int
    var calls: seq<ListCall>

    constructor (ctx: BookingContext.Provider)
      ensures this.ctx == ctx && bookings == [] && !loading && error == None && page == 1 && calls == []
    {
      this.ctx := ctx;
      bookings := [];
      loading := false;
      error := None;
      page := 1;
      calls := [];
    }

    /** The load effect: nothing without a token; otherwise list the current
        page. A failure keeps the previous list. */
    method Load(outcome: Result<Option<seq<BookingRecord>>>)
      modifies this
      ensures page == old(page)
      ensures Locked(ctx.auth.token) ==>
                calls == old(calls) && bookings == old(bookings) && error == old(error) && loading == old(loading)
      ensures !Locked(ctx.auth.token) ==>
                !loading
                && calls == old(calls) + [ListCall(ctx.auth.token.value, BookingsQuery(Some(Limit), Some(old(page)), None))]
                && (outcome.Ok? ==> bookings == BookingsOrEmpty(outcome.value) && error == old(error))
                && (outcome.Err? ==> bookings == old(bookings) && error == Some(outcome.message))
    {
      if !IsTruthyText(ctx.auth.token) {
        return;
      }
      loading := true;
      calls := calls + [ListCall(ctx.auth.token.value, BookingsQuery(Some(Limit), Some(page), None))];
      match outcome {
        case Ok(listed) => bookings := BookingsOrEmpty(listed);
        case Err(m) => error := Some(m);
      }
      loading := false;
    }

    /** The Previous button, pressable only when `!PreviousDisabled`. */
    method Previous()
      requires !PreviousDisabled(page, loading)
      modifies this
      ensures page == PreviousPage(old(page))
      ensures bookings == old(bookings) && calls == old(calls) && error == old(error)
    {
      page := PreviousPage(page);
    }

    /** The Next button, pressable only when `!NextIsDisabled()`. */
    method Next()
      requires !NextIsDisabled()
      modifies this
      ensures page == NextPage(old(page)) && page == old(page) + 1
      ensures bookings == old(bookings) && calls == old(calls) && error == old(error)
    {
      page := NextPage(page);
    }

    /** Next is disabled when fewer than eight bookings came back. */
    predicate NextIsDisabled()
      reads this
    {
      NextDisabled(|bookings|, Limit, loading)
    }
  }
}
