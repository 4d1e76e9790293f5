/** The booking provider: the object that holds the flow state and the
    session, mirrors the session into storage, and clears it when the
    unauthorized channel fires. */
module BookingContext {
  import opened Wrappers
  import opened BookingFlow
  import AuthEvents

  class Provider {
    /** The `state` held by `useState<BookingState>`. */
    var state: BookingState
    /** The `auth` session held by `useState<AuthState>`. */
    var auth: Session
    /** Durable client storage, key to string. */
    var storage: map<string, string>
    /** `JSON.parse` of a stored session; `None` where it throws. */
    const parse: string -> Option<Session>
    /** `JSON.stringify` of a session. */
    const stringify: Session -> string
    /** The identity of the handler the provider registers on the channel. */
    const handler: AuthEvents.HandlerId

    /** The total is derived from price and quantity, and storage mirrors the session. */
    ghost predicate Valid()
      reads this
    {
      TotalConsistent(state) && Persisted(storage, auth, stringify)
    }

    /** Mounting the provider: default state, the session hydrated from
        storage, then the first run of the persistence effect. */
    constructor (stored: map<string, string>, parse: string -> Option<Session>,
                 stringify: Session -> string, handler: AuthEvents.HandlerId)
      ensures Valid()
      ensures state == DefaultState()
      ensures auth == Hydrate(stored, parse).session
      ensures storage == Persist(Hydrate(stored, parse).storage, auth, stringify)
      ensures this.parse == parse && this.stringify == stringify && this.handler == handler
    {
      this.parse := parse;
      this.stringify := stringify;
      this.handler := handler;
      state := DefaultState();
      var h := Hydrate(stored, parse);
      auth := h.session;
      storage := Persist(h.storage, h.session, stringify);
    }

    /** `setAuth(next)`, followed by the persistence effect. */
    method SetAuth(next: Session)
      requires Valid()
      modifies this
      ensures Valid()
      ensures auth == next && state == old(state)
      ensures storage == Persist(old(storage), next, stringify)
    {
      auth := next;
      storage := Persist(storage, auth, stringify);
    }

    /** `clearAuth()`, and likewise the registered unauthorized handler:
        the empty session, and no stored entry. */
    method ClearAuth()
      requires Valid()
      modifies this
      ensures Valid()
      ensures auth == EmptySession && state == old(state)
      ensures StorageKey !in storage && storage == old(storage) - {StorageKey}
    {
      auth := EmptySession;
      storage := Persist(storage, auth, stringify);
    }

    /** The mount effect that subscribes the session-clearing handler. */
    method Subscribe(reg: AuthEvents.Registry) returns (u: AuthEvents.Unsubscribe)
      modifies reg
      ensures reg.handlers == old(reg.handlers) + {handler}
      ensures reg.invocations == old(reg.invocations)
      ensures u.handler == handler
    {
      u := reg.Register(handler);
    }

    method UpdateSelection(p: SelectionPatch)
      requires Valid()
      modifies this`state
      ensures Valid() && state == BookingFlow.UpdateSelection(old(state), p)
    {
      state := BookingFlow.UpdateSelection(state, p);
    }

    method SetQuantity(n: int)
      requires Valid()
      modifies this`state
      ensures Valid() && state == BookingFlow.SetQuantity(old(state), n)
    {
      state := BookingFlow.SetQuantity(state, n);
    }

    method SetPaymentMethod(m: PaymentMethod)
      requires Valid()
      modifies this`state
      ensures Valid() && state == BookingFlow.SetPaymentMethod(old(state), m)
    {
      state := BookingFlow.SetPaymentMethod(state, m);
    }

    method SetUserDetails(d: DetailsPatch)
      requires Valid()
      modifies this`state
      ensures Valid() && state == BookingFlow.SetUserDetails(old(state), d)
    {
      state := BookingFlow.SetUserDetails(state, d);
    }

    method SetBookingReceipt(bookingId: int, status: Option<string>)
      requires Valid()
      modifies this`state
      ensures Valid() && state == BookingFlow.SetBookingReceipt(old(state), bookingId, status)
    {
      state := BookingFlow.SetBookingReceipt(state, bookingId, status);
    }

    method SetPaymentReceipt(paymentId: int, status: Option<string>, bookingStatus: Option<string>)
      requires Valid()
      modifies this`state
      ensures Valid() && state == BookingFlow.SetPaymentReceipt(old(state), paymentId, status, bookingStatus)
    {
      state := BookingFlow.SetPaymentReceipt(state, paymentId, status, bookingStatus);
    }

    method SetLoadingLabel(text: Option<string>)
      requires Valid()
      modifies this`state
      ensures Valid() && state == BookingFlow.SetLoadingLabel(old(state), text)
    {
      state := BookingFlow.SetLoadingLabel(state, text);
    }

    method ResetBookingFlow()
      requires Valid()
      modifies this`state
      ensures Valid() && state == BookingFlow.ResetBookingFlow(old(state))
    {
      state := BookingFlow.ResetBookingFlow(state);
    }
  }

  /** `notifyUnauthorized()` reaching the provider: every registered handler
      runs once, and if the provider's own handler is among them, the
      session is emptied and its stored entry removed. */
  method NotifyUnauthorized(reg: AuthEvents.Registry, p: Provider)
    requires p.Valid()
    modifies reg, p
    ensures p.Valid()
    ensures reg.handlers == old(reg.handlers)
    ensures reg.invocations == old(reg.invocations) + multiset(old(reg.handlers))
    ensures p.state == old(p.state)
    ensures p.handler in old(reg.handlers) ==> p.auth == EmptySession && p.storage == old(p.storage) - {StorageKey}
    ensures p.handler !in old(reg.handlers) ==> p.auth == old(p.auth) && p.storage == old(p.storage)
  {
    reg.Notify();
    if p.handler in reg.handlers {
      p.ClearAuth();
    }
  }
}
