/** The request wrapper and the query builders of the API client. The HTTP
    exchange itself is abstracted to the status code and the parsed body. */
module Api {
  import opened Wrappers
  import opened Builtins
  import AuthEvents

  /** A parsed JSON value. */
  datatype Json =
    | JNull
    | JBool(b: bool)
    | JNumber(n: int)
    | JString(s: string)
    | JArray(items: seq<Json>)
    | JObject(fields: map<string, Json>)

  /** A ticket offering of a safari timing, as the server sends it. */
  datatype Ticket = Ticket(showTicketId: int, ticketId: int, ticketKind: Option<string>,
                           price: Option<int>, remainingTickets: int, soldOut: bool)

  /** A safari timing with its ticket offerings. */
  datatype Timing = Timing(showId: int, startTime: string, endTime: string, tickets: seq<Ticket>)

  /** A booking as listed by the history and admin endpoints. */
  datatype BookingRecord = BookingRecord(id: int, showTicketId: int, quantity: int,
                                         status: Option<string>, createdAt: Option<string>)

  // --------------------------------------------------------------- headers

  const ContentType: string := "Content-Type"
  const Authorization: string := "Authorization"
  const JsonMediaType: string := "application/json"

  /** The headers `request` sends: JSON content type, a bearer credential
      (section 2.1 of RFC 6750) when the token is non-empty, and then the
      caller's own headers, which override both. */
  function Headers(token: Option<string>, extra: map<string, string>): (h: map<string, string>)
    ensures h.Keys == {ContentType} + extra.Keys + (if IsTruthyText(token) then {Authorization} else {})
    ensures forall k :: k in extra ==> h[k] == extra[k]
    ensures ContentType !in extra ==> h[ContentType] == JsonMediaType
    ensures Authorization !in extra ==>
              (Authorization in h <==> IsTruthyText(token)) &&
              (IsTruthyText(token) ==> h[Authorization] == "Bearer " + token.value)
  {
    map[ContentType := JsonMediaType]
    + (if IsTruthyText(token) then map[Authorization := "Bearer " + token.value] else map[])
    + extra
  }

  // -------------------------------------------------------- classification

  /** `res.ok`. */
  predicate IsSuccess(status: int)
  {
    200 <= status <= 299
  }

  /** `isAuthRequest`: the call carried a token, or it targets something
      other than the public login and registration endpoints. */
  predicate IsAuthRequest(path: string, token: Option<string>)
  {
    IsTruthyText(token) || (!StartsWith(path, "/login") && !StartsWith(path, "/register"))
  }

  /** Whether a response makes `request` call `notifyUnauthorized`. */
  predicate SignalsUnauthorized(path: string, token: Option<string>, status: int)
  {
    !IsSuccess(status) && (status == 401 || status == 403) && IsAuthRequest(path, token)
  }

  /** The message of an `Error` the client throws: the text itself, or a
      non-string JSON value that `new Error(...)` coerces with `String`. */
  datatype ErrorMessage = Text(text: string) | Coerced(value: Json)

  /** What `request` resolves or rejects with. A rejection from an HTTP
      failure carries the status code; the malformed-body error has none. */
  datatype Response = Resolved(body: Json) | Rejected(message: ErrorMessage, status: Option<int>)

  const MalformedMessage: string := "Malformed response from API."

  /** The parsed body; a body that does not parse counts as `{}`. */
  function BodyOrEmpty(parsed: Option<Json>): Json
  {
    parsed.GetOr(JObject(map[]))
  }

  /** `typeof data === "object" && data !== null`: objects and arrays. */
  predicate IsObjectLike(data: Json)
  {
    data.JObject? || data.JArray?
  }

  /** `payload?.[key]` followed by `??`: the field of an object body, unless
      it is missing or `null`. Arrays and scalars have neither field. */
  function Field(data: Json, key: string): (r: Option<Json>)
    ensures r.Some? <==> data.JObject? && key in data.fields && data.fields[key] != JNull
    ensures r.Some? ==> r.value == data.fields[key]
  {
    if data.JObject? && key in data.fields && data.fields[key] != JNull
    then Some(data.fields[key]) else None
  }

  function AsMessage(v: Json): ErrorMessage
  {
    if v.JString? then Text(v.s) else Coerced(v)
  }

  /** The failure message: the body's `message`, else its `error`, else a
      generic text naming the path. */
  function FailureMessage(path: string, data: Json): (m: ErrorMessage)
    ensures Field(data, "message").Some? ==> m == AsMessage(Field(data, "message").value)
    ensures Field(data, "message").None? && Field(data, "error").Some? ==>
              m == AsMessage(Field(data, "error").value)
    ensures Field(data, "message").None? && Field(data, "error").None? ==>
              m == Text("Request to " + path + " failed")
  {
    match Field(data, "message")
    case Some(v) => AsMessage(v)
    case None =>
      match Field(data, "error")
      case Some(v) => AsMessage(v)
      case None => Text("Request to " + path + " failed")
  }

  /** The outcome of `request` for a response with this status and parsed body. */
  function Classify(path: string, status: int, parsed: Option<Json>): (r: Response)
    ensures !IsSuccess(status) ==>
              r == Rejected(FailureMessage(path, BodyOrEmpty(parsed)), Some(status))
    ensures IsSuccess(status) ==> (r.Resolved? <==> IsObjectLike(BodyOrEmpty(parsed)))
    ensures r.Resolved? ==> IsSuccess(status) && r.body == BodyOrEmpty(parsed)
    ensures IsSuccess(status) && !IsObjectLike(BodyOrEmpty(parsed)) ==>
              r == Rejected(Text(MalformedMessage), None)
  {
    var data := BodyOrEmpty(parsed);
    if !IsSuccess(status) then Rejected(FailureMessage(path, data), Some(status))
    else if !IsObjectLike(data) then Rejected(Text(MalformedMessage), None)
    else Resolved(data)
  }

  /** `request(path, { token, headers })`: sends `Headers(token, extra)`, and
      given the response's status and parsed body, signals the unauthorized
      channel when `SignalsUnauthorized` holds and returns `Classify`. */
  method Request(reg: AuthEvents.Registry, path: string, token: Option<string>,
                 extra: map<string, string>, status: int, parsed: Option<Json>)
    returns (sent: map<string, string>, r: Response)
    modifies reg
    ensures sent == Headers(token, extra)
    ensures r == Classify(path, status, parsed)
    ensures reg.handlers == old(reg.handlers)
    ensures reg.invocations == old(reg.invocations) +
              (if SignalsUnauthorized(path, token, status) then multiset(old(reg.handlers)) else multiset{})
  {
    sent := Headers(token, extra);
    var data := BodyOrEmpty(parsed);
    if !IsSuccess(status) {
      if (status == 401 || status == 403) && IsAuthRequest(path, token) {
        reg.Notify();
      }
      r := Rejected(FailureMessage(path, data), Some(status));
      return;
    }
    if !IsObjectLike(data) {
      r := Rejected(Text(MalformedMessage), None);
      return;
    }
    r := Resolved(data);
  }

  /** A rejected login or registration without a token is the "never logged
      in" case: it never signals, whatever the status. */
  lemma PublicAuthFailureIsSilent(path: string, status: int)
    requires StartsWith(path, "/login") || StartsWith(path, "/register")
    ensures !SignalsUnauthorized(path, None, status)
  {
  }

  /** A successful response never signals the unauthorized channel. */
  lemma SuccessNeverSignals(path: string, token: Option<string>, status: int)
    requires IsSuccess(status)
    ensures !SignalsUnauthorized(path, token, status)
  {
  }

  /** The body-less failure: an unparsable error body gives the generic message. */
  lemma UnparsableBodyFallback(path: string, status: int)
    requires !IsSuccess(status)
    ensures Classify(path, status, None) == Rejected(Text("Request to " + path + " failed"), Some(status))
  {
  }

  /** A bearer-authenticated call answered 403 with `{"message":"expired"}`
      fails with "expired" and signals the channel. */
  lemma ExpiredSessionScenario(token: string)
    requires token != ""
    ensures var body := JObject(map["message" := JString("expired")]);
            Classify("/bookings", 403, Some(body)) == Rejected(Text("expired"), Some(403))
            && SignalsUnauthorized("/bookings", Some(token), 403)
  {
  }

  // --------------------------------------------------------------- queries

  /** A query-string value: a number, or a date sent as its ISO form. */
  datatype QueryValue = QNumber(n: int) | QInstant(t: int)

  /** The entries of a `URLSearchParams`, in order. */
  type Query = seq<(string, QueryValue)>

  function QueryKeys(q: Query): (keys: seq<string>)
    ensures |keys| == |q| && forall i :: 0 <= i < |q| ==> keys[i] == q[i].0
  {
    seq(|q|, i requires 0 <= i < |q| => q[i].0)
  }

  /** `...(v ? { key: String(v) } : {})`: present only for a truthy number. */
  function OptionalEntry(key: string, v: Option<int>): (q: Query)
    ensures IsTruthyNumber(v) ==> q == [(key, QNumber(v.value))]
    ensures !IsTruthyNumber(v) ==> q == []
  {
    if IsTruthyNumber(v) then [(key, QNumber(v.value))] else []
  }

  /** The query of `fetchTimings`. */
  function TimingsQuery(start: int, end: int, limit: Option<int>, page: Option<int>, offset: Option<int>): (q: Query)
    ensures QueryKeys(q) == ["startTime", "endTime", "limit"]
                            + (if IsTruthyNumber(page) then ["page"] else [])
                            + (if IsTruthyNumber(offset) then ["offset"] else [])
    ensures q[0] == ("startTime", QInstant(start)) && q[1] == ("endTime", QInstant(end))
    ensures q[2] == ("limit", QNumber(limit.GetOr(12)))
    ensures IsTruthyNumber(page) ==> q[3] == ("page", QNumber(page.value))
    ensures IsTruthyNumber(offset) ==> q[|q| - 1] == ("offset", QNumber(offset.value))
  {
    [("startTime", QInstant(start)), ("endTime", QInstant(end)), ("limit", QNumber(limit.GetOr(12)))]
    + OptionalEntry("page", page) + OptionalEntry("offset", offset)
  }

  /** The query of `listBookings`. */
  function BookingsQuery(limit: Option<int>, page: Option<int>, offset: Option<int>): (q: Query)
    ensures QueryKeys(q) == ["limit"]
                            + (if IsTruthyNumber(page) then ["page"] else [])
                            + (if IsTruthyNumber(offset) then ["offset"] else [])
    ensures q[0] == ("limit", QNumber(limit.GetOr(10)))
    ensures IsTruthyNumber(page) ==> q[1] == ("page", QNumber(page.value))
    ensures IsTruthyNumber(offset) ==> q[|q| - 1] == ("offset", QNumber(offset.value))
  {
    [("limit", QNumber(limit.GetOr(10)))] + OptionalEntry("page", page) + OptionalEntry("offset", offset)
  }
}
