/** The booking page: loading the week's timings with auto-selection of the
    first open ticket, choosing a ticket, the quantity stepper and the step
    to the summary. */
module BookPage {
  import opened Wrappers
  import opened Builtins
  import opened Api
  import opened BookingFlow
  import BookingContext

  /** A ticket that is not sold out. */
  predicate IsOpen(t: Ticket)
  {
    !t.soldOut
  }

  /** `s.tickets.some((t) => !t.soldOut)`. */
  predicate HasOpenTicket(s: Timing)
  {
    exists t :: t in s.tickets && IsOpen(t)
  }

  /** The patch `applySelection(show, ticket, qty)` passes to
      `updateSelection`: slot, ticket, kind (default `regular_ticket`),
      price (missing is 0) and the given quantity. */
  function SelectionFor(show: Timing, ticket: Ticket, qty: int): SelectionPatch
  {
    SelectionPatch(
      ticketType := Some(ticket.ticketKind.GetOr("regular_ticket")),
      showTicketId := Some(ticket.showTicketId),
      showId := Some(show.showId),
      startTime := Some(show.startTime),
      endTime := Some(show.endTime),
      price := Some(ticket.price.GetOr(0)),
      quantity := Some(qty),
      total := None)
  }

  /** Selecting a ticket records its slot, kind and price with the given
      quantity, derives the total, and leaves contact details, payment
      method and receipts alone. */
  lemma SelectionRecorded(s: BookingState, show: Timing, ticket: Ticket, qty: int)
    ensures var next := UpdateSelection(s, SelectionFor(show, ticket, qty));
            next.showId == Some(show.showId) && next.showTicketId == Some(ticket.showTicketId)
            && next.startTime == Some(show.startTime) && next.endTime == Some(show.endTime)
            && next.ticketType == Some(ticket.ticketKind.GetOr("regular_ticket"))
            && next.price == Some(ticket.price.GetOr(0)) && next.quantity == qty
            && next.total == ticket.price.GetOr(0) * qty
            && SameFlowFields(s, next)
  {
  }

  /** The auto-selection of the load effect: when no ticket is selected yet,
      the first open ticket of the first timing that has one is selected
      with the current quantity. */
  function AutoSelect(s: BookingState, results: seq<Timing>): BookingState
  {
    var first := Find(results, HasOpenTicket);
    if first.Some? && !IsTruthyNumber(s.showTicketId) then
      match Find(first.value.tickets, IsOpen)
      case Some(t) => UpdateSelection(s, SelectionFor(first.value, t, s.quantity))
      case None => s
    else s
  }

  /** A selection that already exists, or a week without any open ticket,
      leaves the state unchanged. */
  lemma AutoSelectKeeps(s: BookingState, results: seq<Timing>)
    requires IsTruthyNumber(s.showTicketId) || forall i :: 0 <= i < |results| ==> !HasOpenTicket(results[i])
    ensures AutoSelect(s, results) == s
  {
  }

  /** `Find` returns the first match. */
  lemma FindFirst<T>(s: seq<T>, p: T -> bool, i: nat)
    requires i < |s| && p(s[i]) && forall k :: 0 <= k < i ==> !p(s[k])
    ensures Find(s, p) == Some(s[i])
  {
    var r := FindIndex(s, p);
    assert r.Some?;
    assert r.value == i;
  }

  /** Otherwise the auto-selection picks timing `i`, the first with an open
      ticket, and ticket `j`, its first open one, keeping the quantity. */
  lemma AutoSelectPicksFirstOpen(s: BookingState, results: seq<Timing>, i: nat, j: nat)
    requires !IsTruthyNumber(s.showTicketId)
    requires i < |results| && HasOpenTicket(results[i])
    requires forall k :: 0 <= k < i ==> !HasOpenTicket(results[k])
    requires j < |results[i].tickets| && IsOpen(results[i].tickets[j])
    requires forall k :: 0 <= k < j ==> !IsOpen(results[i].tickets[k])
    ensures AutoSelect(s, results) == UpdateSelection(s, SelectionFor(results[i], results[i].tickets[j], s.quantity))
    ensures AutoSelect(s, results).quantity == s.quantity
  {
    FindFirst(results, HasOpenTicket, i);
    FindFirst(results[i].tickets, IsOpen, j);
  }

  /** `currentTicket`: the ticket with the selected id inside the first
      timing with the selected show id. */
  function CurrentTicket(timings: seq<Timing>, showId: Option<int>, showTicketId: Option<int>): (r: Option<Ticket>)
    ensures r.Some? ==> showTicketId == Some(r.value.showTicketId)
    ensures r.Some? ==> exists sh :: sh in timings && showId == Some(sh.showId) && r.value in sh.tickets
    ensures showId.None? || showTicketId.None? ==> r.None?
  {
    var show := Find(timings, (s: Timing) => showId.Some? && s.showId == showId.value);
    match show
    case None => None
    case Some(sh) => Find(sh.tickets, (t: Ticket) => showTicketId.Some? && t.showTicketId == showTicketId.value)
  }

  /** Timing `i` is the first one with show id `id`. */
  predicate FirstShowAt(timings: seq<Timing>, id: int, i: int)
  {
    0 <= i < |timings| && timings[i].showId == id
    && forall k :: 0 <= k < i ==> timings[k].showId != id
  }

  /** The current ticket is the first ticket with the selected id inside the
      first timing with the selected show id, even when a later timing with
      that show id also holds it. */
  lemma CurrentTicketPicksFirst(timings: seq<Timing>, id: int, ticketId: int, i: nat, j: nat)
    requires FirstShowAt(timings, id, i)
    requires j < |timings[i].tickets| && timings[i].tickets[j].showTicketId == ticketId
    requires forall k :: 0 <= k < j ==> timings[i].tickets[k].showTicketId != ticketId
    ensures CurrentTicket(timings, Some(id), Some(ticketId)) == Some(timings[i].tickets[j])
  {
  }

  /** No current ticket when no timing has the selected show id, or when the
      first timing that has it holds no ticket with the selected id. */
  lemma CurrentTicketMissing(timings: seq<Timing>, id: int, ticketId: int)
    ensures (forall i :: 0 <= i < |timings| ==> timings[i].showId != id) ==>
              CurrentTicket(timings, Some(id), Some(ticketId)).None?
    ensures forall i ::
              (FirstShowAt(timings, id, i)
               && forall j :: 0 <= j < |timings[i].tickets| ==> timings[i].tickets[j].showTicketId != ticketId) ==>
              CurrentTicket(timings, Some(id), Some(ticketId)).None?
  {
  }

  /** `handleQuantity(delta)` before `setQuantity`: one step up or down, not
      below 1, capped by the selected ticket's remaining count when there is
      one. */
  function Stepped(quantity: int, delta: int, remaining: Option<int>): int
  {
    var next := Max(1, quantity + delta);
    Min(next, remaining.GetOr(next))
  }

  /** What the stepper stores: at least 1; never more than a remaining
      count of at least 1; `max(1, quantity + delta)` when no ticket matches. */
  lemma StepperBounds(s: BookingState, delta: int, remaining: Option<int>)
    ensures var q := SetQuantity(s, Stepped(s.quantity, delta, remaining)).quantity;
            q >= 1
            && (remaining.Some? && remaining.value >= 1 ==> q <= remaining.value)
            && (remaining.None? ==> q == Max(1, s.quantity + delta))
  {
  }

  /** The increase button: disabled when the selected ticket has no more
      remaining than the current quantity. */
  predicate IncreaseDisabled(ticket: Option<Ticket>, quantity: int)
  {
    ticket.Some? && ticket.value.remainingTickets <= quantity
  }

  /** Whenever the increase button is enabled, pressing it adds exactly one. */
  lemma IncreaseWhenEnabled(s: BookingState, ticket: Option<Ticket>)
    requires s.quantity >= 1 && !IncreaseDisabled(ticket, s.quantity)
    ensures var remaining := if ticket.Some? then Some(ticket.value.remainingTickets) else None;
            SetQuantity(s, Stepped(s.quantity, 1, remaining)).quantity == s.quantity + 1
  {
  }

  /** Continue: disabled with no selected ticket or no price. */
  predicate ContinueDisabled(s: BookingState)
  {
    !IsTruthyNumber(s.showTicketId) || !IsTruthyNumber(s.price)
  }

  const PickSlotFirst: string := "Pick a safari slot first."

  class Page {
    const ctx: BookingContext.Provider
    var timings: seq<Timing>
    var error: Option<string>
    var loading: bool
    /** Where the router was sent, if anywhere. */
    var navigatedTo: Option<string>
    /** The timing queries sent. */
    var requests: seq<Query>

    constructor (ctx: BookingContext.Provider)
      ensures this.ctx == ctx
      ensures timings == [] && error == None && loading && navigatedTo == None && requests == []
    {
      this.ctx := ctx;
      timings := [];
      error := None;
      loading := true;
      navigatedTo := None;
      requests := [];
    }

    /** The load effect: fetch 30 timings between `start` and `end` (today
        and a week later), show them, and auto-select; a failure shows its
        message. */
    method Load(start: int, end: int, outcome: Result<seq<Timing>>)
      requires ctx.Valid()
      modifies this, ctx`state
      ensures ctx.Valid() && !loading && navigatedTo == old(navigatedTo)
      ensures requests == old(requests) + [TimingsQuery(start, end, Some(30), None, None)]
      ensures outcome.Ok? ==> timings == outcome.value && error == old(error)
                              && ctx.state == AutoSelect(old(ctx.state), outcome.value)
      ensures outcome.Err? ==> timings == old(timings) && error == Some(outcome.message)
                               && ctx.state == old(ctx.state)
    {
      loading := true;
      requests := requests + [TimingsQuery(start, end, Some(30), None, None)];
      match outcome {
        case Ok(results) =>
          timings := results;
          var first := Find(results, HasOpenTicket);
          if first.Some? && !IsTruthyNumber(ctx.state.showTicketId) {
            var ticket := Find(first.value.tickets, IsOpen);
            if ticket.Some? {
              ApplySelection(first.value, ticket.value, ctx.state.quantity);
            }
          }
        case Err(message) =>
          error := Some(message);
      }
      loading := false;
    }

    /** `applySelection(show, ticket, qty)`. */
    method ApplySelection(show: Timing, ticket: Ticket, qty: int)
      requires ctx.Valid()
      modifies ctx`state
      ensures ctx.Valid() && ctx.state == UpdateSelection(old(ctx.state), SelectionFor(show, ticket, qty))
    {
      ctx.UpdateSelection(SelectionFor(show, ticket, qty));
    }

    /** A ticket button, disabled for a sold-out ticket: select it with the
        current quantity. */
    method SelectTicket(show: Timing, ticket: Ticket)
      requires ctx.Valid() && IsOpen(ticket)
      modifies ctx`state
      ensures ctx.Valid()
      ensures ctx.state == UpdateSelection(old(ctx.state), SelectionFor(show, ticket, old(ctx.state.quantity)))
    {
      ApplySelection(show, ticket, ctx.state.quantity);
    }

    /** `handleQuantity(delta)`. */
    method HandleQuantity(delta: int)
      requires ctx.Valid()
      modifies ctx`state
      ensures ctx.Valid()
      ensures var t := CurrentTicket(timings, old(ctx.state.showId), old(ctx.state.showTicketId));
              var remaining := if t.Some? then Some(t.value.remainingTickets) else None;
              ctx.state == SetQuantity(old(ctx.state), Stepped(old(ctx.state.quantity), delta, remaining))
      ensures ctx.state.quantity >= 1
    {
      var t := CurrentTicket(timings, ctx.state.showId, ctx.state.showTicketId);
      var remaining := if t.Some? then Some(t.value.remainingTickets) else None;
      ctx.SetQuantity(Stepped(ctx.state.quantity, delta, remaining));
    }

    /** `proceed()`: to the summary, or an error when nothing is selected. */
    method Proceed()
      modifies this
      ensures timings == old(timings) && loading == old(loading) && requests == old(requests)
      ensures !IsTruthyNumber(ctx.state.showTicketId) ==>
                error == Some(PickSlotFirst) && navigatedTo == old(navigatedTo)
      ensures IsTruthyNumber(ctx.state.showTicketId) ==>
                navigatedTo == Some("/summary") && error == old(error)
      ensures !ContinueDisabled(ctx.state) ==> navigatedTo == Some("/summary") && error == old(error)
    {
      if !IsTruthyNumber(ctx.state.showTicketId) {
        error := Some(PickSlotFirst);
        return;
      }
      navigatedTo := Some("/summary");
    }
  }
}
