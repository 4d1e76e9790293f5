/** The payment page: the table of payment methods, the no-booking guard and
    the two-phase initiate/verify payment. */
module PaymentPage {
  import opened Wrappers
  import opened Builtins
  import opened BookingFlow
  import BookingContext

  /** One entry of the `methods` table. */
  datatype MethodOption = MethodOption(key: PaymentMethod, text: string, hint: string)

  const Methods: seq<MethodOption> := [
    MethodOption(Upi, "UPI", "Instant UPI apps"),
    MethodOption(Netbanking, "Netbanking", "Secure redirect"),
    MethodOption(Card, "Debit Card", "Visa / Mastercard")
  ]

  /** The wire name of a payment method. */
  function MethodKey(m: PaymentMethod): string
  {
    match m
    case Upi => "upi"
    case Netbanking => "netbanking"
    case Card => "card"
  }

  /** The page offers every payment method exactly once, under the keys
      `upi`, `netbanking` and `card`, and distinct methods have distinct keys. */
  lemma MethodsTable(m: PaymentMethod, n: PaymentMethod)
    ensures |Methods| == 3
    ensures exists i :: 0 <= i < |Methods| && Methods[i].key == m
    ensures forall i, j :: 0 <= i < j < |Methods| ==> Methods[i].key != Methods[j].key
    ensures [MethodKey(Methods[0].key), MethodKey(Methods[1].key), MethodKey(Methods[2].key)]
            == ["upi", "netbanking", "card"]
    ensures MethodKey(m) == MethodKey(n) ==> m == n
  {
    assert Methods[0].key == Upi && Methods[1].key == Netbanking && Methods[2].key == Card;
  }

  /** Without a booking id the page shows only a notice and a link back to
      the summary; the pay handler exists only otherwise. */
  predicate HasBooking(s: BookingState)
  {
    IsTruthyNumber(s.bookingId)
  }

  const SelectMethodMessage: string := "Select a payment method."
  const LoginRequiredMessage: string := "Login required before payment."
  const ProcessingLabel: string := "Processing payment\U{2026} Please do not refresh."
  const PaidStatus: string := "paid"

  /** The guard of `handlePay`: the method is checked before the token. */
  function PayGuard(choice: Option<PaymentMethod>, token: Option<string>): (r: Option<string>)
    ensures r.None? <==> choice.Some? && IsTruthyText(token)
    ensures choice.None? ==> r == Some(SelectMethodMessage)
    ensures choice.Some? && !IsTruthyText(token) ==> r == Some(LoginRequiredMessage)
  {
    if choice.None? then Some(SelectMethodMessage)
    else if !IsTruthyText(token) then Some(LoginRequiredMessage)
    else None
  }

  /** What `initiatePayment` returns. */
  datatype Initiated = Initiated(paymentId: int, status: Option<string>)

  /** The payment calls: initiate for a booking, verify for a payment. */
  datatype PaymentCall = Initiate(token: string, bookingId: int) | Verify(token: string, paymentId: int)

  /** The state `handlePay` leaves once the guard passed: the initiate
      receipt keeps the booking status, the verify receipt marks it paid,
      and the loading label is cleared on every exit. */
  function AfterPay(s: BookingState, init: Result<Initiated>, verify: Result<Option<string>>): BookingState
  {
    match init
    case Err(_) => SetLoadingLabel(s, None)
    case Ok(i) =>
      var first := SetPaymentReceipt(s, i.paymentId, i.status, s.bookingStatus);
      match verify
      case Err(_) => SetLoadingLabel(first, None)
      case Ok(vs) => SetLoadingLabel(SetPaymentReceipt(first, i.paymentId, vs, Some(PaidStatus)), None)
  }

  /** The two phases of a payment: after a successful initiate the payment id
      is the initiate id and the booking status is unchanged until a
      successful verify marks it paid; a failed verify leaves the initiate
      receipt; a failed initiate writes no receipt. The selection, total and
      details are untouched throughout. */
  lemma TwoPhaseReceipts(s: BookingState, init: Result<Initiated>, verify: Result<Option<string>>)
    ensures var next := AfterPay(s, init, verify);
            next.loadingLabel.None? && SameSelection(s, next) && next.userDetails == s.userDetails
            && (init.Err? ==> next == s.(loadingLabel := None))
            && (init.Ok? ==> next.paymentId == Some(init.value.paymentId))
            && (init.Ok? && verify.Err? ==>
                  next.bookingStatus == s.bookingStatus
                  && next.paymentStatus == (if init.value.status.Some? then init.value.status else s.paymentStatus))
            && (init.Ok? && verify.Ok? ==>
                  next.bookingStatus == Some(PaidStatus)
                  && next.paymentStatus == (if verify.value.Some? then verify.value
                                            else if init.value.status.Some? then init.value.status
                                            else s.paymentStatus))
            && next.paymentMethod == s.paymentMethod && next.bookingId == s.bookingId
  {
  }

  /** The booking is marked paid by a payment only when both calls succeed. */
  lemma PaidOnlyIfBothSucceed(s: BookingState, init: Result<Initiated>, verify: Result<Option<string>>)
    requires s.bookingStatus != Some(PaidStatus)
    ensures AfterPay(s, init, verify).bookingStatus == Some(PaidStatus) <==> init.Ok? && verify.Ok?
  {
  }

  class Page {
    const ctx: BookingContext.Provider
    var error: Option<string>
    var navigatedTo: Option<string>
    var calls: seq<PaymentCall>

    constructor (ctx: BookingContext.Provider)
      ensures this.ctx == ctx && error == None && navigatedTo == None && calls == []
    {
      this.ctx := ctx;
      error := None;
      navigatedTo := None;
      calls := [];
    }

    /** A method option: choose it. */
    method Choose(m: PaymentMethod)
      requires ctx.Valid()
      modifies ctx`state
      ensures ctx.Valid() && ctx.state == SetPaymentMethod(old(ctx.state), m)
    {
      ctx.SetPaymentMethod(m);
    }

    /** `handlePay`: guard, then initiate, record, verify, record, and go to
        the history; any failure shows its message. */
    method HandlePay(init: Result<Initiated>, verify: Result<Option<string>>)
      requires ctx.Valid() && HasBooking(ctx.state)
      modifies this, ctx`state
      ensures ctx.Valid()
      ensures var g := PayGuard(old(ctx.state.paymentMethod), ctx.auth.token);
              g.Some? ==> error == g && calls == old(calls) && ctx.state == old(ctx.state)
                          && navigatedTo == old(navigatedTo)
      ensures PayGuard(old(ctx.state.paymentMethod), ctx.auth.token).None? ==>
                var token := ctx.auth.token.value;
                ctx.state == AfterPay(old(ctx.state), init, verify)
                && calls == old(calls) + [Initiate(token, old(ctx.state.bookingId.value))]
                             + (if init.Ok? then [Verify(token, init.value.paymentId)] else [])
                && (init.Ok? && verify.Ok? ==> error == None && navigatedTo == Some("/history"))
                && (init.Err? ==> error == Some(init.message) && navigatedTo == old(navigatedTo))
                && (init.Ok? && verify.Err? ==> error == Some(verify.message) && navigatedTo == old(navigatedTo))
    {
      error := None;
      var g := PayGuard(ctx.state.paymentMethod, ctx.auth.token);
      if g.Some? {
        error := g;
        return;
      }
      var token := ctx.auth.token.value;
      var bookingStatus := ctx.state.bookingStatus;
      ctx.SetLoadingLabel(Some(ProcessingLabel));
      calls := calls + [Initiate(token, ctx.state.bookingId.value)];
      match init {
        case Err(m) =>
          error := Some(m);
        case Ok(i) =>
          ctx.SetPaymentReceipt(i.paymentId, i.status, bookingStatus);
          calls := calls + [Verify(token, i.paymentId)];
          match verify {
            case Err(m) =>
              error := Some(m);
            case Ok(vs) =>
              ctx.SetPaymentReceipt(i.paymentId, vs, Some(PaidStatus));
              navigatedTo := Some("/history");
          }
      }
      ctx.SetLoadingLabel(None);
    }
  }
}
