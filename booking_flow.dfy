/** The booking-flow state of the provider and its `prev -> next` updaters:
    every setter of the context hands React a pure function of the previous
    state, modelled here one function per setter. The session and its
    mirror in storage are also here as pure functions. */
module BookingFlow {
  import opened Wrappers
  import opened Builtins

  datatype PaymentMethod = Upi | Netbanking | Card

  datatype UserDetails = UserDetails(name: string, email: string, phone: string)

  datatype User = User(name: string, email: string)

  /** The session: token, user and role, each possibly absent. */
  datatype Session = Session(token: Option<string>, user: Option<User>, role: Option<string>)

  const EmptySession: Session := Session(None, None, None)

  /** `auth.token` is truthy. */
  predicate HasToken(a: Session)
  {
    IsTruthyText(a.token)
  }

  /** The selection, derived total, contact details, payment method,
      receipts and loading label. `null` and `undefined` are both `None`. */
  datatype BookingState = BookingState(
    ticketType: Option<string>,
    showTicketId: Option<int>,
    showId: Option<int>,
    startTime: Option<string>,
    endTime: Option<string>,
    price: Option<int>,
    quantity: int,
    total: int,
    paymentMethod: Option<PaymentMethod>,
    userDetails: UserDetails,
    bookingId: Option<int>,
    bookingStatus: Option<string>,
    paymentId: Option<int>,
    paymentStatus: Option<string>,
    loadingLabel: Option<string>)

  /** `defaultState`. */
  function DefaultState(): (s: BookingState)
    ensures s.quantity == 1 && s.total == 0 && s.userDetails == UserDetails("", "", "")
    ensures s.ticketType.None? && s.showTicketId.None? && s.showId.None?
    ensures s.startTime.None? && s.endTime.None? && s.price.None?
    ensures s.paymentMethod.None? && s.bookingId.None? && s.bookingStatus.None?
    ensures s.paymentId.None? && s.paymentStatus.None? && s.loadingLabel.None?
  {
    BookingState(None, None, None, None, None, None, 1, 0, None, UserDetails("", "", ""),
                 None, None, None, None, None)
  }

  /** `prev.price ?? 0`. */
  function PriceOrZero(s: BookingState): int
  {
    s.price.GetOr(0)
  }

  /** The derived-total invariant. */
  predicate TotalConsistent(s: BookingState)
  {
    s.total == PriceOrZero(s) * s.quantity
  }

  /** The selection fields (slot, ticket, price, quantity, total) agree. */
  predicate SameSelection(a: BookingState, b: BookingState)
  {
    a.ticketType == b.ticketType && a.showTicketId == b.showTicketId && a.showId == b.showId
    && a.startTime == b.startTime && a.endTime == b.endTime && a.price == b.price
    && a.quantity == b.quantity && a.total == b.total
  }

  /** The fields outside the selection agree. */
  predicate SameFlowFields(a: BookingState, b: BookingState)
  {
    a.paymentMethod == b.paymentMethod && a.userDetails == b.userDetails
    && a.bookingId == b.bookingId && a.bookingStatus == b.bookingStatus
    && a.paymentId == b.paymentId && a.paymentStatus == b.paymentStatus
    && a.loadingLabel == b.loadingLabel
  }

  /** Spreading one optional field of a patch over the previous value. */
  function Override<T>(patch: Option<T>, prev: Option<T>): (r: Option<T>)
    ensures r == (if patch.Some? then patch else prev)
  {
    if patch.Some? then patch else prev
  }

  /** The part of `Partial<BookingState>` the pages pass to `updateSelection`;
      `None` is a key the patch does not carry. */
  datatype SelectionPatch = SelectionPatch(
    ticketType: Option<string>,
    showTicketId: Option<int>,
    showId: Option<int>,
    startTime: Option<string>,
    endTime: Option<string>,
    price: Option<int>,
    quantity: Option<int>,
    total: Option<int>)

  /** `updateSelection(payload)`: merges the patch, then recomputes the total
      from the effective price (patch, else previous, else 0) and quantity
      (patch, else previous); a total in the patch is overwritten. */
  function UpdateSelection(prev: BookingState, p: SelectionPatch): (next: BookingState)
    ensures TotalConsistent(next)
    ensures next.total == p.price.GetOr(PriceOrZero(prev)) * p.quantity.GetOr(prev.quantity)
    ensures next.price == Override(p.price, prev.price)
    ensures next.quantity == p.quantity.GetOr(prev.quantity)
    ensures next.ticketType == Override(p.ticketType, prev.ticketType)
    ensures next.showTicketId == Override(p.showTicketId, prev.showTicketId)
    ensures next.showId == Override(p.showId, prev.showId)
    ensures next.startTime == Override(p.startTime, prev.startTime)
    ensures next.endTime == Override(p.endTime, prev.endTime)
    ensures SameFlowFields(prev, next)
  {
    var merged := prev.(
      ticketType := Override(p.ticketType, prev.ticketType),
      showTicketId := Override(p.showTicketId, prev.showTicketId),
      showId := Override(p.showId, prev.showId),
      startTime := Override(p.startTime, prev.startTime),
      endTime := Override(p.endTime, prev.endTime),
      price := Override(p.price, prev.price),
      quantity := p.quantity.GetOr(prev.quantity),
      total := p.total.GetOr(prev.total));
    var price := p.price.GetOr(prev.price.GetOr(0));
    var qty := p.quantity.GetOr(prev.quantity);
    merged.(total := price * qty)
  }

  /** `setQuantity(n)`: stores `n`, or 1 when `n < 1`, and recomputes the total. */
  function SetQuantity(prev: BookingState, n: int): (next: BookingState)
    ensures next.quantity >= 1 && next.quantity >= n
    ensures n >= 1 ==> next.quantity == n
    ensures TotalConsistent(next)
    ensures next == prev.(quantity := next.quantity, total := next.total)
  {
    var safeQty := if n < 1 then 1 else n;
    prev.(quantity := safeQty, total := PriceOrZero(prev) * safeQty)
  }

  /** `setPaymentMethod(m)`. */
  function SetPaymentMethod(prev: BookingState, m: PaymentMethod): (next: BookingState)
    ensures next.paymentMethod == Some(m)
    ensures SameSelection(prev, next) && next == prev.(paymentMethod := Some(m))
  {
    prev.(paymentMethod := Some(m))
  }

  /** The fields a `Partial<UserDetails>` carries. */
  datatype DetailsPatch = DetailsPatch(name: Option<string>, email: Option<string>, phone: Option<string>)

  /** `setUserDetails(d)`: overwrites only the supplied detail fields. */
  function SetUserDetails(prev: BookingState, d: DetailsPatch): (next: BookingState)
    ensures next.userDetails.name == d.name.GetOr(prev.userDetails.name)
    ensures next.userDetails.email == d.email.GetOr(prev.userDetails.email)
    ensures next.userDetails.phone == d.phone.GetOr(prev.userDetails.phone)
    ensures next == prev.(userDetails := next.userDetails)
  {
    var u := prev.userDetails;
    prev.(userDetails := UserDetails(d.name.GetOr(u.name), d.email.GetOr(u.email), d.phone.GetOr(u.phone)))
  }

  /** `setBookingReceipt({ bookingId, status })`: the id is always written,
      the status only when supplied. */
  function SetBookingReceipt(prev: BookingState, bookingId: int, status: Option<string>): (next: BookingState)
    ensures next.bookingId == Some(bookingId)
    ensures next.bookingStatus == (if status.Some? then status else prev.bookingStatus)
    ensures next == prev.(bookingId := next.bookingId, bookingStatus := next.bookingStatus)
  {
    prev.(bookingId := Some(bookingId), bookingStatus := Override(status, prev.bookingStatus))
  }

  /** `setPaymentReceipt({ paymentId, status, bookingStatus })`: the payment
      id is always written, both statuses only when supplied. */
  function SetPaymentReceipt(prev: BookingState, paymentId: int, status: Option<string>,
                             bookingStatus: Option<string>): (next: BookingState)
    ensures next.paymentId == Some(paymentId)
    ensures next.paymentStatus == (if status.Some? then status else prev.paymentStatus)
    ensures next.bookingStatus == (if bookingStatus.Some? then bookingStatus else prev.bookingStatus)
    ensures next == prev.(paymentId := next.paymentId, paymentStatus := next.paymentStatus,
                          bookingStatus := next.bookingStatus)
  {
    prev.(paymentId := Some(paymentId),
          paymentStatus := Override(status, prev.paymentStatus),
          bookingStatus := Override(bookingStatus, prev.bookingStatus))
  }

  /** `setLoadingLabel(label)`; `null` clears it. */
  function SetLoadingLabel(prev: BookingState, text: Option<string>): (next: BookingState)
    ensures next.loadingLabel == text
    ensures SameSelection(prev, next) && next == prev.(loadingLabel := text)
  {
    prev.(loadingLabel := text)
  }

  /** `resetBookingFlow()`: back to `defaultState`, keeping the contact
      details and the payment method. */
  function ResetBookingFlow(prev: BookingState): (next: BookingState)
    ensures next.quantity == 1 && next.total == 0
    ensures next.userDetails == prev.userDetails && next.paymentMethod == prev.paymentMethod
    ensures next.ticketType.None? && next.showTicketId.None? && next.showId.None?
    ensures next.startTime.None? && next.endTime.None? && next.price.None?
    ensures next.bookingId.None? && next.bookingStatus.None? && next.paymentId.None?
    ensures next.paymentStatus.None? && next.loadingLabel.None?
  {
    DefaultState().(userDetails := prev.userDetails, paymentMethod := prev.paymentMethod)
  }

  /** Resetting twice is resetting once. */
  lemma ResetIdempotent(s: BookingState)
    ensures ResetBookingFlow(ResetBookingFlow(s)) == ResetBookingFlow(s)
  {
  }

  // ------------------------------------------------- the setters as a reducer

  /** One call of a state setter of the context. */
  datatype Action =
    | UpdateSelectionCall(patch: SelectionPatch)
    | SetQuantityCall(n: int)
    | SetPaymentMethodCall(m: PaymentMethod)
    | SetUserDetailsCall(details: DetailsPatch)
    | SetBookingReceiptCall(bookingId: int, status: Option<string>)
    | SetPaymentReceiptCall(paymentId: int, paymentStatus: Option<string>, bookingStatus: Option<string>)
    | SetLoadingLabelCall(text: Option<string>)
    | ResetBookingFlowCall

  /** The updater a setter call hands to `setState`, applied to `s`. */
  function Apply(s: BookingState, a: Action): BookingState
  {
    match a
    case UpdateSelectionCall(p) => UpdateSelection(s, p)
    case SetQuantityCall(n) => SetQuantity(s, n)
    case SetPaymentMethodCall(m) => SetPaymentMethod(s, m)
    case SetUserDetailsCall(d) => SetUserDetails(s, d)
    case SetBookingReceiptCall(id, st) => SetBookingReceipt(s, id, st)
    case SetPaymentReceiptCall(id, st, bst) => SetPaymentReceipt(s, id, st, bst)
    case SetLoadingLabelCall(l) => SetLoadingLabel(s, l)
    case ResetBookingFlowCall => ResetBookingFlow(s)
  }

  /** The state after a sequence of setter calls, in order. */
  function ApplyAll(s: BookingState, actions: seq<Action>): BookingState
    decreases |actions|
  {
    if actions == [] then s else ApplyAll(Apply(s, actions[0]), actions[1..])
  }

  /** The setter call cannot lower the quantity below 1: a selection patch
      that carries a quantity carries one of at least 1. */
  predicate KeepsQuantityPositive(a: Action)
  {
    a.UpdateSelectionCall? ==> a.patch.quantity.GetOr(1) >= 1
  }

  /** `total = price * quantity` holds after every sequence of setter calls,
      starting from the default state or any state where it holds. */
  lemma {:induction false} TotalInvariant(s: BookingState, actions: seq<Action>)
    requires TotalConsistent(s)
    ensures TotalConsistent(ApplyAll(s, actions))
    decreases |actions|
  {
    if actions != [] {
      TotalInvariant(Apply(s, actions[0]), actions[1..]);
    }
  }

  /** The quantity stays at least 1 through any sequence of setter calls
      whose selection patches carry quantities of at least 1. */
  lemma {:induction false} QuantityInvariant(s: BookingState, actions: seq<Action>)
    requires s.quantity >= 1
    requires forall i :: 0 <= i < |actions| ==> KeepsQuantityPositive(actions[i])
    ensures ApplyAll(s, actions).quantity >= 1
    decreases |actions|
  {
    if actions != [] {
      QuantityInvariant(Apply(s, actions[0]), actions[1..]);
    }
  }

  /** Only `setUserDetails` changes the contact details: a sequence of
      other setter calls leaves them as they were. */
  lemma {:induction false} DetailsOnlyBySetter(s: BookingState, actions: seq<Action>)
    requires forall i :: 0 <= i < |actions| ==> !actions[i].SetUserDetailsCall?
    ensures ApplyAll(s, actions).userDetails == s.userDetails
    decreases |actions|
  {
    if actions != [] {
      DetailsOnlyBySetter(Apply(s, actions[0]), actions[1..]);
    }
  }

  /** `updateSelection({ price: 500, quantity: 1 })` then `setQuantity(3)`
      gives a total of 1500. */
  lemma PriceThenQuantityScenario(s: BookingState)
    ensures var p := SelectionPatch(None, None, None, None, None, Some(500), Some(1), None);
            SetQuantity(UpdateSelection(s, p), 3).total == 1500
  {
  }

  // ------------------------------------------------------ session storage

  /** The storage key of the serialized session. */
  const StorageKey: string := "park-auth"

  /** The storage mirrors the session: the entry is present exactly when
      the session has a token, and then holds the serialized session. */
  predicate Persisted(storage: map<string, string>, auth: Session, stringify: Session -> string)
  {
    (StorageKey in storage <==> HasToken(auth))
    && (StorageKey in storage ==> storage[StorageKey] == stringify(auth))
  }

  /** The persistence effect: writes the entry when the session has a token,
      removes it otherwise, and touches no other key. */
  function Persist(storage: map<string, string>, auth: Session, stringify: Session -> string): (r: map<string, string>)
    ensures Persisted(r, auth, stringify)
    ensures forall k :: k != StorageKey ==> (k in r <==> k in storage)
    ensures forall k :: k != StorageKey && k in r ==> r[k] == storage[k]
  {
    if HasToken(auth) then storage[StorageKey := stringify(auth)] else storage - {StorageKey}
  }

  datatype Hydrated = Hydrated(session: Session, storage: map<string, string>)

  /** The `useState` initializer of the session: a missing or empty entry
      gives the empty session; an entry that does not parse is removed and
      gives the empty session; otherwise the parsed session. */
  function Hydrate(storage: map<string, string>, parse: string -> Option<Session>): (h: Hydrated)
    ensures StorageKey !in storage || storage[StorageKey] == "" ==> h == Hydrated(EmptySession, storage)
    ensures StorageKey in storage && storage[StorageKey] != "" && parse(storage[StorageKey]).None? ==>
              h == Hydrated(EmptySession, storage - {StorageKey})
    ensures StorageKey in storage && storage[StorageKey] != "" && parse(storage[StorageKey]).Some? ==>
              h == Hydrated(parse(storage[StorageKey]).value, storage)
  {
    if StorageKey !in storage || storage[StorageKey] == "" then Hydrated(EmptySession, storage)
    else match parse(storage[StorageKey])
      case None => Hydrated(EmptySession, storage - {StorageKey})
      case Some(a) => Hydrated(a, storage)
  }

  /** Start-up as a whole: hydration followed by the first run of the
      persistence effect. */
  function Startup(storage: map<string, string>, parse: string -> Option<Session>,
                   stringify: Session -> string): (h: Hydrated)
    ensures Persisted(h.storage, h.session, stringify)
    ensures h.session != EmptySession ==>
              StorageKey in storage && parse(storage[StorageKey]) == Some(h.session)
  {
    var hy := Hydrate(storage, parse);
    Hydrated(hy.session, Persist(hy.storage, hy.session, stringify))
  }

  /** A corrupted entry yields the empty session and is gone afterwards, so
      a second start-up sees no entry and changes nothing. */
  lemma CorruptEntryStartup(storage: map<string, string>, parse: string -> Option<Session>,
                            stringify: Session -> string)
    requires StorageKey in storage && storage[StorageKey] != "" && parse(storage[StorageKey]).None?
    ensures Startup(storage, parse, stringify).session == EmptySession
    ensures StorageKey !in Startup(storage, parse, stringify).storage
    ensures Startup(Startup(storage, parse, stringify).storage, parse, stringify)
            == Startup(storage, parse, stringify)
  {
  }

  /** When parsing inverts serialization (and a serialized session is never
      the empty string), a reload right after start-up leaves the storage as
      it is and restores the session if it has a token; a session without a
      token was never written, so the reload starts with the empty session. */
  lemma StartupStable(storage: map<string, string>, parse: string -> Option<Session>,
                      stringify: Session -> string)
    requires forall a :: parse(stringify(a)) == Some(a) && stringify(a) != ""
    ensures var first := Startup(storage, parse, stringify);
            var second := Startup(first.storage, parse, stringify);
            second.storage == first.storage
            && second.session == (if HasToken(first.session) then first.session else EmptySession)
  {
    var first := Startup(storage, parse, stringify);
    if HasToken(first.session) {
      assert first.storage[StorageKey] == stringify(first.session);
      assert parse(stringify(first.session)) == Some(first.session);
    }
  }
}
