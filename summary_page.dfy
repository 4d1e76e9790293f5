/** The summary page: seeding the contact details from the session, the
    ordered form validation, and creating the booking. */
module SummaryPage {
  import opened Wrappers
  import opened Builtins
  import opened BookingFlow
  import BookingContext

  const SelectSlotMessage: string := "Select a slot on the booking page."
  const NameRequiredMessage: string := "Name is required."
  const InvalidEmailMessage: string := "Enter a valid email."
  const InvalidPhoneMessage: string := "Enter a valid phone."
  const LoginRequiredMessage: string := "Login is required to create a booking."
  const CreatedMessage: string := "Booking created. Proceed to payment."
  const ReservingLabel: string := "Reserving your seats\U{2026}"

  /** The five checks of `validate`, each on its own. */
  predicate SlotChosen(showTicketId: Option<int>) { IsTruthyNumber(showTicketId) }
  ghost predicate NameGiven(d: UserDetails) { !AllSpace(d.name) }
  predicate EmailPlausible(d: UserDetails) { Includes(d.email, '@') }
  /** An empty phone passes; a non-empty one needs at least ten characters. */
  predicate PhonePlausible(d: UserDetails) { d.phone == "" || |d.phone| >= 10 }
  predicate LoggedIn(token: Option<string>) { IsTruthyText(token) }

  /** `validate()`: the message of the first failing check, in the order
      slot, name, email, phone, token; `None` when every check passes. */
  function Validate(showTicketId: Option<int>, d: UserDetails, token: Option<string>): (r: Option<string>)
    ensures r.None? <==> SlotChosen(showTicketId) && NameGiven(d) && EmailPlausible(d)
                         && PhonePlausible(d) && LoggedIn(token)
    ensures r == Some(SelectSlotMessage) <==> !SlotChosen(showTicketId)
    ensures r == Some(NameRequiredMessage) <==> SlotChosen(showTicketId) && !NameGiven(d)
    ensures r == Some(InvalidEmailMessage) <==>
              SlotChosen(showTicketId) && NameGiven(d) && !EmailPlausible(d)
    ensures r == Some(InvalidPhoneMessage) <==>
              SlotChosen(showTicketId) && NameGiven(d) && EmailPlausible(d) && !PhonePlausible(d)
    ensures r == Some(LoginRequiredMessage) <==>
              SlotChosen(showTicketId) && NameGiven(d) && EmailPlausible(d) && PhonePlausible(d)
              && !LoggedIn(token)
  {
    TrimEmptyIff(d.name);
    if !IsTruthyNumber(showTicketId) then Some(SelectSlotMessage)
    else if Trim(d.name) == "" then Some(NameRequiredMessage)
    else if !Includes(d.email, '@') then Some(InvalidEmailMessage)
    else if d.phone != "" && |d.phone| < 10 then Some(InvalidPhoneMessage)
    else if !IsTruthyText(token) then Some(LoginRequiredMessage)
    else None
  }

  /** An empty phone never makes the form invalid. */
  lemma EmptyPhonePasses(showTicketId: Option<int>, d: UserDetails, token: Option<string>)
    requires d.phone == ""
    ensures Validate(showTicketId, d, token) != Some(InvalidPhoneMessage)
  {
  }

  /** The seeding effect: the session user's name and email are copied into
      the details only where the detail is still empty. */
  function SeedPatch(d: UserDetails, user: Option<User>): DetailsPatch
  {
    DetailsPatch(
      name := if user.Some? && user.value.name != "" && d.name == "" then Some(user.value.name) else None,
      email := if user.Some? && user.value.email != "" && d.email == "" then Some(user.value.email) else None,
      phone := None)
  }

  /** Seeding never overwrites a non-empty detail, fills an empty one from
      the session when the session has it, leaves the phone alone, and a
      second run changes nothing. */
  lemma SeedingFillsOnlyEmpty(s: BookingState, user: Option<User>)
    ensures var next := SetUserDetails(s, SeedPatch(s.userDetails, user));
            (s.userDetails.name != "" ==> next.userDetails.name == s.userDetails.name)
            && (s.userDetails.email != "" ==> next.userDetails.email == s.userDetails.email)
            && (s.userDetails.name == "" && user.Some? ==> next.userDetails.name == user.value.name)
            && (s.userDetails.email == "" && user.Some? ==> next.userDetails.email == user.value.email)
            && next.userDetails.phone == s.userDetails.phone
            && next == s.(userDetails := next.userDetails)
            && SetUserDetails(next, SeedPatch(next.userDetails, user)) == next
  {
  }

  /** What `createBooking` returns. */
  datatype Created = Created(bookingId: int, status: Option<string>)

  /** A `POST /bookings` call: token, `id` (the selected ticket) and quantity. */
  datatype BookingCall = BookingCall(token: string, id: int, quantity: int)

  /** The state the submit handler leaves behind once it has sent the call:
      the receipt only after a success, the loading label cleared either way. */
  function AfterCreate(s: BookingState, outcome: Result<Created>): (next: BookingState)
    ensures next.loadingLabel.None?
    ensures outcome.Ok? ==> next.bookingId == Some(outcome.value.bookingId)
    ensures outcome.Ok? ==> next.bookingStatus == (if outcome.value.status.Some? then outcome.value.status else s.bookingStatus)
    ensures next.paymentMethod == s.paymentMethod && next.paymentId == s.paymentId && next.paymentStatus == s.paymentStatus
    ensures outcome.Err? ==> next.bookingId == s.bookingId && next.bookingStatus == s.bookingStatus
    ensures SameSelection(s, next) && next.userDetails == s.userDetails
  {
    match outcome
    case Ok(c) => SetLoadingLabel(SetBookingReceipt(s, c.bookingId, c.status), None)
    case Err(_) => SetLoadingLabel(s, None)
  }

  class Page {
    const ctx: BookingContext.Provider
    var error: Option<string>
    var message: Option<string>
    var navigatedTo: Option<string>
    /** The booking calls sent. */
    var calls: seq<BookingCall>

    constructor (ctx: BookingContext.Provider)
      ensures this.ctx == ctx && error == None && message == None && navigatedTo == None && calls == []
    {
      this.ctx := ctx;
      error := None;
      message := None;
      navigatedTo := None;
      calls := [];
    }

    /** The seeding effect. */
    method Seed()
      requires ctx.Valid()
      modifies ctx`state
      ensures ctx.Valid()
      ensures ctx.state == SetUserDetails(old(ctx.state), SeedPatch(old(ctx.state.userDetails), ctx.auth.user))
    {
      var d := ctx.state.userDetails;
      var user := ctx.auth.user;
      if user.Some? && user.value.name != "" && d.name == "" {
        ctx.SetUserDetails(DetailsPatch(Some(user.value.name), None, None));
      }
      if user.Some? && user.value.email != "" && d.email == "" {
        ctx.SetUserDetails(DetailsPatch(None, Some(user.value.email), None));
      }
    }

    /** `handleSubmit`: validate, then create the booking with the selected
        ticket and quantity; on success record the receipt and go on to
        payment. */
    method HandleSubmit(outcome: Result<Created>)
      requires ctx.Valid()
      modifies this, ctx`state
      ensures ctx.Valid()
      ensures var v := Validate(old(ctx.state.showTicketId), old(ctx.state.userDetails), ctx.auth.token);
              v.Some? ==> error == v && message == None && calls == old(calls)
                          && ctx.state == old(ctx.state) && navigatedTo == old(navigatedTo)
      ensures Validate(old(ctx.state.showTicketId), old(ctx.state.userDetails), ctx.auth.token).None? ==>
                calls == old(calls) + [BookingCall(ctx.auth.token.value, old(ctx.state.showTicketId.value), old(ctx.state.quantity))]
                && ctx.state == AfterCreate(old(ctx.state), outcome)
                && (outcome.Ok? ==> error == None && message == Some(CreatedMessage) && navigatedTo == Some("/payment"))
                && (outcome.Err? ==> error == Some(outcome.message) && message == None && navigatedTo == old(navigatedTo))
    {
      error := None;
      message := None;
      var v := Validate(ctx.state.showTicketId, ctx.state.userDetails, ctx.auth.token);
      if v.Some? {
        error := v;
        return;
      }
      ctx.SetLoadingLabel(Some(ReservingLabel));
      calls := calls + [BookingCall(ctx.auth.token.value, ctx.state.showTicketId.value, ctx.state.quantity)];
      match outcome {
        case Ok(c) =>
          ctx.SetBookingReceipt(c.bookingId, c.status);
          message := Some(CreatedMessage);
          navigatedTo := Some("/payment");
        case Err(m) =>
          error := Some(m);
      }
      ctx.SetLoadingLabel(None);
    }
  }
}
