/** The admin page: the role gate, the three panels (user management, show
    creation, booking lookup), their validators, and the status line each
    panel shows. */
module AdminPage {
  import opened Wrappers
  import opened Builtins
  import opened Api
  import BookingContext

  /** The panels are shown only to an admin or owner session. */
  predicate IsAdmin(role: Option<string>)
  {
    role == Some("admin") || role == Some("owner")
  }

  /** Loading flag, error and message of one panel. */
  datatype Panel = Panel(error: Option<string>, message: Option<string>, loading: bool)

  const DefaultPanel: Panel := Panel(None, None, false)

  /** What `PanelStatus` renders. */
  datatype StatusLine = Working | ErrorLine(text: string) | MessageLine(text: string) | Blank

  /** Loading wins over an error, an error over a message; an empty error or
      message counts as absent. */
  function PanelStatus(p: Panel): (r: StatusLine)
    ensures r == Working <==> p.loading
    ensures r.ErrorLine? <==> !p.loading && IsTruthyText(p.error)
    ensures r.MessageLine? <==> !p.loading && !IsTruthyText(p.error) && IsTruthyText(p.message)
    ensures r.ErrorLine? ==> r.text == p.error.value
    ensures r.MessageLine? ==> r.text == p.message.value
  {
    if p.loading then Working
    else if IsTruthyText(p.error) then ErrorLine(p.error.value)
    else if IsTruthyText(p.message) then MessageLine(p.message.value)
    else Blank
  }

  /** The panel a submit leaves: the validation error when there is one,
      else the call's error, else the success message. */
  function Settled<T>(check: Option<string>, outcome: Result<T>, success: string): (p: Panel)
    ensures !p.loading && (p.error.Some? <==> !p.message.Some?)
    ensures check.Some? ==> p.error == check
    ensures check.None? && outcome.Err? ==> p.error == Some(outcome.message)
    ensures check.None? && outcome.Ok? ==> p.message == Some(success)
  {
    if check.Some? then DefaultPanel.(error := check)
    else match outcome
      case Err(m) => DefaultPanel.(error := Some(m))
      case Ok(_) => DefaultPanel.(message := Some(success))
  }

  /** A settled panel with a non-empty text shows exactly that text. */
  lemma SettledShows<T>(check: Option<string>, outcome: Result<T>, success: string)
    requires success != ""
    requires check.Some? ==> check.value != ""
    requires check.None? && outcome.Err? ==> outcome.message != ""
    ensures var p := Settled(check, outcome, success);
            PanelStatus(p) == (if p.error.Some? then ErrorLine(p.error.value) else MessageLine(success))
  {
  }

  // ----- user management -----

  const CreateUserInvalid: string := "Valid email and password (>=5 chars) required."
  const UpdateUserInvalid: string := "Valid email required."
  const UserCreated: string := "User created."
  const UserUpdated: string := "User updated."

  datatype Mode = CreateMode | UpdateMode

  datatype CreateForm = CreateForm(email: string, password: string, role: string)
  datatype UpdateForm = UpdateForm(email: string, role: string, isEnabled: bool)

  /** The validator of `submitCreate`. */
  function CreateCheck(f: CreateForm): (r: Option<string>)
    ensures r.None? <==> Includes(f.email, '@') && |f.password| >= 5
    ensures r.Some? ==> r.value == CreateUserInvalid
  {
    if !Includes(f.email, '@') || |f.password| < 5 then Some(CreateUserInvalid) else None
  }

  /** The validator of `submitUpdate`. */
  function UpdateCheck(f: UpdateForm): (r: Option<string>)
    ensures r.None? <==> Includes(f.email, '@')
    ensures r.Some? ==> r.value == UpdateUserInvalid
  {
    if !Includes(f.email, '@') then Some(UpdateUserInvalid) else None
  }

  /** The admin calls, each with the session token (the pages pass it even
      when missing). */
  datatype AdminCall =
    | CreateUser(token: Option<string>, form: CreateForm)
    | UpdateUser(token: Option<string>, update: UpdateForm)
    | CreateShow(token: Option<string>, show: ShowForm)
    | BookingsByEmail(token: Option<string>, email: string)

  class UserManagement {
    const ctx: BookingContext.Provider
    var createForm: CreateForm
    var updateForm: UpdateForm
    var panel: Panel
    var mode: Mode
    var calls: seq<AdminCall>

    /** Mounted only behind the role gate of `Render`. */
    constructor (ctx: BookingContext.Provider)
      requires IsAdmin(ctx.auth.role)
      ensures this.ctx == ctx && mode == CreateMode && panel == DefaultPanel && calls == []
      ensures createForm == CreateForm("", "", "regular_user")
      ensures updateForm == UpdateForm("", "regular_user", true)
    {
      this.ctx := ctx;
      createForm := CreateForm("", "", "regular_user");
      updateForm := UpdateForm("", "regular_user", true);
      panel := DefaultPanel;
      mode := CreateMode;
      calls := [];
    }

    /** The Create and Update tabs: switch mode and reset the panel. */
    method SelectMode(m: Mode)
      modifies this
      ensures mode == m && panel == DefaultPanel
      ensures createForm == old(createForm) && updateForm == old(updateForm) && calls == old(calls)
    {
      mode := m;
      panel := DefaultPanel;
    }

    /** `submitCreate`. */
    method SubmitCreate(outcome: Result<()>)
      modifies this
      ensures panel == Settled(CreateCheck(old(createForm)), outcome, UserCreated)
      ensures calls == old(calls) + (if CreateCheck(old(createForm)).None? then [CreateUser(ctx.auth.token, old(createForm))] else [])
      ensures createForm == old(createForm) && updateForm == old(updateForm) && mode == old(mode)
    {
      panel := DefaultPanel;
      var check := CreateCheck(createForm);
      if check.Some? {
        panel := DefaultPanel.(error := check);
        return;
      }
      panel := DefaultPanel.(loading := true);
      calls := calls + [CreateUser(ctx.auth.token, createForm)];
      match outcome {
        case Ok(_) => panel := DefaultPanel.(message := Some(UserCreated));
        case Err(m) => panel := DefaultPanel.(error := Some(m));
      }
    }

    /** `submitUpdate`. */
    method SubmitUpdate(outcome: Result<()>)
      modifies this
      ensures panel == Settled(UpdateCheck(old(updateForm)), outcome, UserUpdated)
      ensures calls == old(calls) + (if UpdateCheck(old(updateForm)).None? then [UpdateUser(ctx.auth.token, old(updateForm))] else [])
      ensures createForm == old(createForm) && updateForm == old(updateForm) && mode == old(mode)
    {
      panel := DefaultPanel;
      var check := UpdateCheck(updateForm);
      if check.Some? {
        panel := DefaultPanel.(error := check);
        return;
      }
      panel := DefaultPanel.(loading := true);
      calls := calls + [UpdateUser(ctx.auth.token, updateForm)];
      match outcome {
        case Ok(_) => panel := DefaultPanel.(message := Some(UserUpdated));
        case Err(m) => panel := DefaultPanel.(error := Some(m));
      }
    }
  }

  // ----- show creation -----

  const ShowFieldsRequired: string := "Name, start time, and end time are required."
  const StartBeforeEnd: string := "Start must be before end."
  const ShowCreated: string := "Show created."

  datatype TicketInput = TicketInput(ticketId: int, remainingTickets: int)
  datatype TicketField = TicketIdField | RemainingField
  datatype ShowForm = ShowForm(name: string, startTime: string, endTime: string, tickets: seq<TicketInput>)

  const DefaultShowForm: ShowForm := ShowForm("", "", "", [TicketInput(1, 20), TicketInput(2, 10)])

  /** `{ ...t, [key]: value }`. */
  function WithField(t: TicketInput, key: TicketField, value: int): TicketInput
  {
    match key
    case TicketIdField => t.(ticketId := value)
    case RemainingField => t.(remainingTickets := value)
  }

  /** `updateTicket(i, key, value)` on the ticket rows: only field `key` of
      row `i` changes; every other row and field stays. */
  function UpdatedTickets(ts: seq<TicketInput>, i: nat, key: TicketField, value: int): (r: seq<TicketInput>)
    requires i < |ts|
    ensures |r| == |ts|
    ensures forall j :: 0 <= j < |ts| && j != i ==> r[j] == ts[j]
    ensures key == TicketIdField ==> r[i].ticketId == value && r[i].remainingTickets == ts[i].remainingTickets
    ensures key == RemainingField ==> r[i].remainingTickets == value && r[i].ticketId == ts[i].ticketId
  {
    ts[i := WithField(ts[i], key, value)]
  }

  /** The validator of the show form: a non-blank name and both times are
      required; the start must not be at or after the end. An unparsable
      time compares as NaN and passes the ordering check. */
  function ShowCheck(f: ShowForm, toInstant: string -> Option<int>): (r: Option<string>)
    ensures r == Some(ShowFieldsRequired) <==> AllSpace(f.name) || f.startTime == "" || f.endTime == ""
    ensures r == Some(StartBeforeEnd) <==>
              !AllSpace(f.name) && f.startTime != "" && f.endTime != ""
              && DateAtLeast(toInstant(f.startTime), toInstant(f.endTime))
    ensures r.None? <==> !AllSpace(f.name) && f.startTime != "" && f.endTime != ""
                         && !DateAtLeast(toInstant(f.startTime), toInstant(f.endTime))
  {
    TrimEmptyIff(f.name);
    if Trim(f.name) == "" || f.startTime == "" || f.endTime == "" then Some(ShowFieldsRequired)
    else if DateAtLeast(toInstant(f.startTime), toInstant(f.endTime)) then Some(StartBeforeEnd)
    else None
  }

  /** On valid times, a show passes the ordering check exactly when its
      start is before its end. */
  lemma ShowOrderOnValidTimes(f: ShowForm, toInstant: string -> Option<int>)
    requires !AllSpace(f.name) && f.startTime != "" && f.endTime != ""
    requires toInstant(f.startTime).Some? && toInstant(f.endTime).Some?
    ensures ShowCheck(f, toInstant).None? <==> toInstant(f.startTime).value < toInstant(f.endTime).value
  {
  }

  class ShowCreator {
    const ctx: BookingContext.Provider
    /** `new Date(s)` as an instant, or `None` for an invalid date. */
    const toInstant: string -> Option<int>
    var form: ShowForm
    var panel: Panel
    var calls: seq<AdminCall>

    /** Mounted only behind the role gate of `Render`. */
    constructor (ctx: BookingContext.Provider, toInstant: string -> Option<int>)
      requires IsAdmin(ctx.auth.role)
      ensures this.ctx == ctx && this.toInstant == toInstant
      ensures form == DefaultShowForm && panel == DefaultPanel && calls == []
    {
      this.ctx := ctx;
      this.toInstant := toInstant;
      form := DefaultShowForm;
      panel := DefaultPanel;
      calls := [];
    }

    /** `updateTicket(index, key, value)`, fired by a row's input. */
    method UpdateTicket(index: nat, key: TicketField, value: int)
      requires index < |form.tickets|
      modifies this
      ensures form == old(form).(tickets := UpdatedTickets(old(form.tickets), index, key, value))
      ensures panel == old(panel) && calls == old(calls)
    {
      form := form.(tickets := UpdatedTickets(form.tickets, index, key, value));
    }

    /** The start or end row emitting a new value. */
    method SetTimes(startTime: string, endTime: string)
      modifies this
      ensures form == old(form).(startTime := startTime, endTime := endTime)
      ensures panel == old(panel) && calls == old(calls)
    {
      form := form.(startTime := startTime, endTime := endTime);
    }

    /** `submit`. */
    method Submit(outcome: Result<()>)
      modifies this
      ensures panel == Settled(ShowCheck(old(form), toInstant), outcome, ShowCreated)
      ensures calls == old(calls) + (if ShowCheck(old(form), toInstant).None? then [CreateShow(ctx.auth.token, old(form))] else [])
      ensures form == old(form)
    {
      panel := DefaultPanel;
      var check := ShowCheck(form, toInstant);
      if check.Some? {
        panel := DefaultPanel.(error := check);
        return;
      }
      panel := DefaultPanel.(loading := true);
      calls := calls + [CreateShow(ctx.auth.token, form)];
      match outcome {
        case Ok(_) => panel := DefaultPanel.(message := Some(ShowCreated));
        case Err(m) => panel := DefaultPanel.(error := Some(m));
      }
    }
  }

  // ----- booking lookup -----

  const LookupInvalid: string := "Enter a valid email."
  const FetchedSuffix: string := " bookings fetched."

  /** The validator of `lookup`. */
  function LookupCheck(email: string): (r: Option<string>)
    ensures r.None? <==> Includes(email, '@')
    ensures r.Some? ==> r.value == LookupInvalid
  {
    if !Includes(email, '@') then Some(LookupInvalid) else None
  }

  /** The success message of a lookup that returned `n` bookings. */
  function FetchedMessage(n: nat): string
  {
    NatToString(n) + FetchedSuffix
  }

  /** The message starts with the decimal digits of the count, which read
      back as the count, followed by the fixed suffix. */
  lemma FetchedMessageReportsCount(n: nat)
    ensures var digits := NatToString(n);
            var m := FetchedMessage(n);
            |digits| < |m| && m[..|digits|] == digits && IsDigits(digits)
            && DecimalValue(m[..|digits|]) == n && m[|digits|..] == FetchedSuffix
  {
    NatToStringRoundTrip(n);
    var digits := NatToString(n);
    assert FetchedMessage(n)[..|digits|] == digits;
  }

  /** One rendered lookup row; `created` is absent when the booking has no
      creation time (the row shows a dash) and holds the raw time otherwise. */
  datatype Row = Row(id: int, status: string, qty: int, showTicketId: int, created: Option<string>)

  function RowOf(b: BookingRecord): Row
  {
    Row(b.id, b.status.GetOr("pending"), b.quantity, b.showTicketId,
        if IsTruthyText(b.createdAt) then b.createdAt else None)
  }

  /** The `rows` mapping: one row per booking, in order, with the status
      "pending" when the booking has none. */
  function Rows(bookings: seq<BookingRecord>): (rows: seq<Row>)
    ensures |rows| == |bookings|
    ensures forall i :: 0 <= i < |bookings| ==>
              rows[i].id == bookings[i].id && rows[i].qty == bookings[i].quantity
              && rows[i].showTicketId == bookings[i].showTicketId
              && rows[i].status == (if bookings[i].status.Some? then bookings[i].status.value else "pending")
  {
    seq(|bookings|, i requires 0 <= i < |bookings| => RowOf(bookings[i]))
  }

  class BookingLookup {
    const ctx: BookingContext.Provider
    var email: string
    var panel: Panel
    var bookings: seq<BookingRecord>
    var calls: seq<AdminCall>

    /** Mounted only behind the role gate of `Render`. */
    constructor (ctx: BookingContext.Provider)
      requires IsAdmin(ctx.auth.role)
      ensures this.ctx == ctx && email == "" && panel == DefaultPanel && bookings == [] && calls == []
    {
      this.ctx := ctx;
      email := "";
      panel := DefaultPanel;
      bookings := [];
      calls := [];
    }

    /** `lookup`: validate the email, fetch that user's bookings, and report
        how many came back; a failure keeps the previous list. */
    method Lookup(outcome: Result<seq<BookingRecord>>)
      modifies this
      ensures var check := LookupCheck(old(email));
              panel == Settled(check, outcome, if outcome.Ok? then FetchedMessage(|outcome.value|) else "")
              && calls == old(calls) + (if check.None? then [BookingsByEmail(ctx.auth.token, old(email))] else [])
              && bookings == (if check.None? && outcome.Ok? then outcome.value else old(bookings))
      ensures email == old(email)
    {
      panel := DefaultPanel;
      var check := LookupCheck(email);
      if check.Some? {
        panel := DefaultPanel.(error := check);
        return;
      }
      panel := DefaultPanel.(loading := true);
      calls := calls + [BookingsByEmail(ctx.auth.token, email)];
      match outcome {
        case Ok(found) =>
          bookings := found;
          panel := DefaultPanel.(message := Some(FetchedMessage(|found|)));
        case Err(m) =>
          panel := DefaultPanel.(error := Some(m));
      }
    }
  }

  // ----- the page -----

  /** What the page renders: the access notice, or the three panels. */
  datatype AdminView =
    | AccessRequired
    | Panels(users: UserManagement, shows: ShowCreator, lookup: BookingLookup)

  /** `AdminPage`: the panels are mounted exactly for an admin or owner
      session, each fresh and bound to the provider; any other session, with
      or without a role, sees only the access notice. */
  method Render(ctx: BookingContext.Provider, toInstant: string -> Option<int>) returns (v: AdminView)
    ensures v.Panels? <==> ctx.auth.role == Some("admin") || ctx.auth.role == Some("owner")
    ensures v.Panels? ==> fresh(v.users) && fresh(v.shows) && fresh(v.lookup)
                          && v.users.ctx == ctx && v.shows.ctx == ctx && v.lookup.ctx == ctx
                          && v.users.calls == [] && v.shows.calls == [] && v.lookup.calls == []
  {
    if !IsAdmin(ctx.auth.role) {
      return AccessRequired;
    }
    var users := new UserManagement(ctx);
    var shows := new ShowCreator(ctx, toInstant);
    var lookup := new BookingLookup(ctx);
    v := Panels(users, shows, lookup);
  }
}
