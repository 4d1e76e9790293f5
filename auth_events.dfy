/** The process-wide channel that announces "a call came back unauthorized":
    a set of handlers that can be registered, removed and notified. Handlers
    are identified by identity, so they are modelled as ids, and the registry
    records how many times each one has been invoked. */
module AuthEvents {
  import opened Wrappers

  /** The identity of a handler function. */
  type HandlerId = nat

  /** What `registerUnauthorizedHandler` returns: a function that removes the
      handler it registered. */
  datatype Unsubscribe = Unsubscribe(handler: HandlerId)

  class Registry {
    /** The `unauthorizedHandlers` set. */
    var handlers: set<HandlerId>
    /** Every invocation of every handler so far, with multiplicity. */
    var invocations: multiset<HandlerId>

    constructor ()
      ensures handlers == {} && invocations == multiset{}
    {
      handlers := {};
      invocations := multiset{};
    }

    /** `registerUnauthorizedHandler(h)`: adds `h` (a set holds it at most
        once) and returns the function that removes it again. */
    method Register(h: HandlerId) returns (u: Unsubscribe)
      modifies this
      ensures handlers == old(handlers) + {h}
      ensures invocations == old(invocations)
      ensures u.handler == h
    {
      handlers := handlers + {h};
      u := Unsubscribe(h);
    }

    /** Calling the function `Register` returned: removes exactly that
        handler; once it is gone, calling it again changes nothing. */
    method Run(u: Unsubscribe)
      modifies this
      ensures handlers == old(handlers) - {u.handler}
      ensures u.handler !in old(handlers) ==> handlers == old(handlers)
      ensures invocations == old(invocations)
    {
      handlers := handlers - {u.handler};
    }

    /** `clearUnauthorizedHandler(h)` removes only `h`;
        `clearUnauthorizedHandler()` empties the set. */
    method Clear(h: Option<HandlerId>)
      modifies this
      ensures h.Some? ==> handlers == old(handlers) - {h.value}
      ensures h.None? ==> handlers == {}
      ensures invocations == old(invocations)
    {
      if h.Some? {
        handlers := handlers - {h.value};
      } else {
        handlers := {};
      }
    }

    /** `notifyUnauthorized()`: the `forEach` over the set invokes every
        registered handler once, in an unspecified order, and no other. */
    method Notify()
      modifies this
      ensures handlers == old(handlers)
      ensures invocations == old(invocations) + multiset(handlers)
      ensures forall h :: invocations[h] == old(invocations)[h] + (if h in handlers then 1 else 0)
    {
      var pending := handlers;
      while pending != {}
        invariant pending <= handlers && handlers == old(handlers)
        invariant invocations == old(invocations) + multiset(handlers - pending)
        decreases pending
      {
        var h :| h in pending;
        invocations := invocations + multiset{h};
        assert handlers - (pending - {h}) == (handlers - pending) + {h};
        pending := pending - {h};
      }
    }
  }
}
