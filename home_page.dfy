/** The home page: the time-window filter with its validity check, the page
    size and pager, and booking straight from a listed ticket. */
module HomePage {
  import opened Wrappers
  import opened Builtins
  import opened Api
  import opened BookingFlow
  import opened Pagination
  import BookPage
  import BookingContext

  const InvalidWindow: string := "Enter a valid start and end time (start must be before end)."
  const DefaultLimit: int := 9

  /** `inputsValid`: both inputs are valid dates and start is before end. */
  predicate InputsValid(start: Option<int>, end: Option<int>)
  {
    DateLess(start, end)
  }

  /** The page-size select, `Number(value) || 9`: `None` stands for NaN. */
  function LimitFrom(selected: Option<int>): (r: int)
    ensures r != 0
    ensures IsTruthyNumber(selected) ==> r == selected.value
    ensures !IsTruthyNumber(selected) ==> r == DefaultLimit
  {
    if IsTruthyNumber(selected) then selected.value else DefaultLimit
  }

  /** Booking from the home page selects the ticket with quantity 1, so the
      total is the ticket's price (missing price: 0), and the kind defaults
      to `regular_ticket`. */
  lemma SelectAtQuantityOne(s: BookingState, show: Timing, ticket: Ticket)
    ensures var next := UpdateSelection(s, BookPage.SelectionFor(show, ticket, 1));
            next.quantity == 1 && next.total == ticket.price.GetOr(0)
            && next.price == Some(ticket.price.GetOr(0))
            && next.ticketType == Some(ticket.ticketKind.GetOr("regular_ticket"))
            && next.showTicketId == Some(ticket.showTicketId) && next.showId == Some(show.showId)
  {
  }

  class Page {
    const ctx: BookingContext.Provider
    /** `new Date(s)` as an instant, or `None` for an invalid date. */
    const toInstant: string -> Option<int>
    var timings: seq<Timing>
    var page: int
    var limit: int
    var startInput: string
    var endInput: string
    var loading: bool
    var error: Option<string>
    var navigatedTo: Option<string>
    /** The timing queries sent. */
    var requests: seq<Query>

    /** The initial inputs are today's start and a week later; computing
        them is date arithmetic and comes in as parameters. */
    constructor (ctx: BookingContext.Provider, toInstant: string -> Option<int>, startInput: string, endInput: string)
      ensures this.ctx == ctx && this.toInstant == toInstant
      ensures this.startInput == startInput && this.endInput == endInput
      ensures timings == [] && page == 1 && limit == DefaultLimit && loading && error == None
      ensures navigatedTo == None && requests == []
    {
      this.ctx := ctx;
      this.toInstant := toInstant;
      timings := [];
      page := 1;
      limit := DefaultLimit;
      this.startInput := startInput;
      this.endInput := endInput;
      loading := true;
      error := None;
      navigatedTo := None;
      requests := [];
    }

    /** The load effect: an invalid window empties the list and shows the
        error without any request; otherwise the current window, page size
        and page are fetched. */
    method Load(outcome: Result<seq<Timing>>)
      modifies this
      ensures !loading && page == old(page) && limit == old(limit)
      ensures startInput == old(startInput) && endInput == old(endInput) && navigatedTo == old(navigatedTo)
      ensures var start := toInstant(old(startInput));
              var end := toInstant(old(endInput));
              (!InputsValid(start, end) ==>
                 error == Some(InvalidWindow) && timings == [] && requests == old(requests))
              && (InputsValid(start, end) ==>
                 requests == old(requests) + [TimingsQuery(start.value, end.value, Some(old(limit)), Some(old(page)), None)]
                 && (outcome.Ok? ==> timings == outcome.value && error == None)
                 && (outcome.Err? ==> timings == old(timings) && error == Some(outcome.message)))
      ensures var start := toInstant(old(startInput));
              var end := toInstant(old(endInput));
              requests == old(requests) <==> start.None? || end.None? || start.value >= end.value
    {
      loading := true;
      var start := toInstant(startInput);
      var end := toInstant(endInput);
      if !InputsValid(start, end) {
        error := Some(InvalidWindow);
        timings := [];
        loading := false;
        return;
      }
      error := None;
      requests := requests + [TimingsQuery(start.value, end.value, Some(limit), Some(page), None)];
      match outcome {
        case Ok(results) => timings := results;
        case Err(m) => error := Some(m);
      }
      loading := false;
    }

    /** The start row emitting a value: new window, back to page 1. */
    method SetStart(v: string)
      modifies this
      ensures startInput == v && page == 1
      ensures endInput == old(endInput) && limit == old(limit) && timings == old(timings)
      ensures error == old(error) && requests == old(requests) && loading == old(loading)
    {
      startInput := v;
      page := 1;
    }

    /** The end row emitting a value: new window, back to page 1. */
    method SetEnd(v: string)
      modifies this
      ensures endInput == v && page == 1
      ensures startInput == old(startInput) && limit == old(limit) && timings == old(timings)
      ensures error == old(error) && requests == old(requests) && loading == old(loading)
    {
      endInput := v;
      page := 1;
    }

    /** The page-size select: new size (9 when unusable), back to page 1. */
    method SetLimit(selected: Option<int>)
      modifies this
      ensures limit == LimitFrom(selected) && page == 1
      ensures startInput == old(startInput) && endInput == old(endInput) && timings == old(timings)
      ensures error == old(error) && requests == old(requests) && loading == old(loading)
    {
      limit := LimitFrom(selected);
      page := 1;
    }

    /** The Previous button, pressable only when `!PreviousDisabled`. */
    method Previous()
      requires !PreviousDisabled(page, loading)
      modifies this
      ensures page == PreviousPage(old(page))
      ensures limit == old(limit) && startInput == old(startInput) && endInput == old(endInput)
      ensures timings == old(timings) && error == old(error) && requests == old(requests)
    {
      page := PreviousPage(page);
    }

    /** The Next button, pressable only when a full page came back and
        nothing is loading. */
    method Next()
      requires !NextDisabled(|timings|, limit, loading)
      modifies this
      ensures page == NextPage(old(page)) && page == old(page) + 1
      ensures limit == old(limit) && startInput == old(startInput) && endInput == old(endInput)
      ensures timings == old(timings) && error == old(error) && requests == old(requests)
    {
      page := NextPage(page);
    }

    /** `onSelect(show, ticket)`: select at quantity 1 and go to booking. */
    method OnSelect(show: Timing, ticket: Ticket)
      requires ctx.Valid()
      modifies this, ctx`state
      ensures ctx.Valid()
      ensures ctx.state == UpdateSelection(old(ctx.state), BookPage.SelectionFor(show, ticket, 1))
      ensures navigatedTo == Some("/book")
      ensures page == old(page) && timings == old(timings) && requests == old(requests)
    {
      ctx.UpdateSelection(BookPage.SelectionFor(show, ticket, 1));
      navigatedTo := Some("/book");
    }
  }
}
