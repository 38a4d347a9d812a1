/**
  The booking form's controller: a four-state machine (`idle`, `sending`,
  `success`, `error`), a `startedAt` stamp taken on the first submit, and the
  rule that turns the server's reply into the next state. `fetch` and JSON
  decoding are outside: a submit hands back the payload it would post, and
  the reply comes back in as a value.
 */
module BookingForm {
  import opened Wrappers
  import opened Text
  import BookingRoute

  datatype FormState = Idle | Sending | Success(message: string) | Error(message: string)

  /** The payload posted to `/api/booking`. */
  datatype Payload = Payload(
    name: string, email: string, message: string, company: string,
    startedAt: int, submittedAt: int)

  /** The decoded reply body when it is a truthy JSON value: whether `ok === true`,
      and the string `message` and `error` fields when present. */
  datatype ReplyBody = ReplyBody(okIsTrue: bool, message: Option<string>, error: Option<string>)

  /** How the request ended: `fetch` threw, or a response arrived with `res.ok`
      and a body that is `None` when unparseable or falsy. */
  datatype Reply = NetworkFailure | HttpReply(statusOk: bool, body: Option<ReplyBody>)

  const UnexpectedResponse := "Server returned an unexpected response."
  const DefaultSuccess := "Message sent. I\U{2019}ll get back to you soon."
  const NetworkError := "Network error. Please try again in a moment."

  /** The names of the form's inputs, the honeypot included. */
  const FieldNames: set<string> := {"name", "email", "message", "company"}

  /** `String(v ?? "").trim()`: a missing entry reads as the empty string. */
  function SafeTrim(v: Option<string>): (r: string)
    ensures IsTrimmed(r)
    ensures v.None? ==> r == ""
    ensures v.Some? ==> |r| <= |v.value|
    ensures v.Some? && IsTrimmed(v.value) ==> r == v.value
  {
    match v
    case None => ""
    case Some(s) =>
      TrimOfTrimmedIfTrimmed(s);
      Trim(s)
  }

  lemma TrimOfTrimmedIfTrimmed(s: string)
    ensures IsTrimmed(s) ==> Trim(s) == s
  {
    if IsTrimmed(s) { TrimOfTrimmed(s); }
  }

  /** `fd.get(name)`: the entry's text, or null when the form has no such entry. */
  function Get(fields: map<string, string>, name: string): Option<string> {
    if name in fields then Some(fields[name]) else None
  }

  /** A non-empty text, the only kind `x || fallback` keeps. */
  predicate Truthy(v: Option<string>) { v.Some? && v.value != "" }

  /** The state after the request settles: `success` exactly for a 2xx reply whose body
      says `ok: true`, `error` otherwise; the message is the server's when it sent a
      non-empty one, else a fixed default. */
  function NextState(reply: Reply): (s: FormState)
    ensures s.Success? || s.Error?
    ensures s.message != ""
    ensures s.Success? <==> reply.HttpReply? && reply.statusOk && reply.body.Some? && reply.body.value.okIsTrue
    ensures reply.NetworkFailure? ==> s == Error(NetworkError)
    ensures s.Success? && Truthy(reply.body.value.message) ==> s.message == reply.body.value.message.value
    ensures s.Success? && !Truthy(reply.body.value.message) ==> s.message == DefaultSuccess
    ensures s.Error? && reply.HttpReply? && reply.body.Some? && Truthy(reply.body.value.error) ==>
              s.message == reply.body.value.error.value
    ensures s.Error? && reply.HttpReply? && !(reply.body.Some? && Truthy(reply.body.value.error)) ==>
              s.message == UnexpectedResponse
  {
    match reply
    case NetworkFailure => Error(NetworkError)
    case HttpReply(statusOk, body) =>
      var errorMessage := if body.Some? then body.value.error else None;
      if !statusOk || body.None? || !body.value.okIsTrue then
        Error(if Truthy(errorMessage) then errorMessage.value else UnexpectedResponse)
      else
        Success(if Truthy(body.value.message) then body.value.message.value else DefaultSuccess)
  }

  /** The component's state: what it shows, the `startedAt` ref, and the inputs' current text. */
  class Form {
    var state: FormState
    var startedAt: int
    var fields: map<string, string>

    constructor ()
      ensures state == Idle && startedAt == 0
      ensures fields == map k | k in FieldNames :: ""
    {
      state := Idle;
      startedAt := 0;
      fields := map k | k in FieldNames :: "";
    }

    /** The submit button is disabled exactly while a request is in flight. */
    function SubmitDisabled(): (disabled: bool)
      reads this
      ensures disabled <==> state == Sending
    {
      state.Sending?
    }

    /** The user types `value` into input `name`, one of the form's four inputs. */
    method Edit(name: string, value: string)
      requires name in FieldNames
      modifies this
      ensures fields == old(fields)[name := value]
      ensures name in old(fields) ==> fields.Keys == old(fields).Keys
      ensures state == old(state) && startedAt == old(startedAt)
    {
      fields := fields[name := value];
    }

    /** The first half of `onSubmit`: ignored while sending; otherwise stamps
        `startedAt` if it is still 0, builds the trimmed payload, and enters
        `sending` before the request goes out. */
    method Submit(now: int) returns (request: Option<Payload>)
      modifies this
      ensures old(SubmitDisabled()) ==> request.None? && state == old(state)
      ensures SubmitDisabled()
      ensures old(SubmitDisabled()) || old(startedAt) != 0 ==> startedAt == old(startedAt)
      ensures old(state) != Sending && old(startedAt) == 0 ==> startedAt == now
      ensures old(state) != Sending ==> state == Sending
      ensures old(state) != Sending ==>
                request == Some(Payload(
                  SafeTrim(Get(fields, "name")), SafeTrim(Get(fields, "email")),
                  SafeTrim(Get(fields, "message")), SafeTrim(Get(fields, "company")),
                  startedAt, now))
      ensures fields == old(fields)
    {
      if state == Sending {
        return None;
      }
      if startedAt == 0 {
        startedAt := now;
      }
      var payload := Payload(
        SafeTrim(Get(fields, "name")), SafeTrim(Get(fields, "email")),
        SafeTrim(Get(fields, "message")), SafeTrim(Get(fields, "company")),
        startedAt, now);
      state := Sending;
      request := Some(payload);
    }

    /** The second half of `onSubmit`: the reply decides the state, and only a success
        resets the inputs; `startedAt` is kept. */
    method Receive(reply: Reply)
      modifies this
      ensures state == NextState(reply)
      ensures state.Success? ==> fields == map k | k in old(fields) :: ""
      ensures state.Error? ==> fields == old(fields)
      ensures startedAt == old(startedAt)
    {
      state := NextState(reply);
      if state.Success? {
        fields := map k | k in fields :: "";
      }
    }
  }

  // ---------------------------------------------------------------------------
  // Client and server together
  // ---------------------------------------------------------------------------

  /** The button's guard: while one request is in flight, a second submit sends nothing. */
  method SubmitOnceInFlight(f: Form, first: int, second: int) returns (r1: Option<Payload>, r2: Option<Payload>)
    requires !f.SubmitDisabled()
    modifies f
    ensures r1.Some? && r2.None?
    ensures f.state == Sending
  {
    r1 := f.Submit(first);
    r2 := f.Submit(second);
  }

  /** The JSON object the payload becomes on the wire. */
  function ToBody(p: Payload): map<string, BookingRoute.Json> {
    map[ "name" := BookingRoute.JString(p.name), "email" := BookingRoute.JString(p.email),
         "message" := BookingRoute.JString(p.message), "company" := BookingRoute.JString(p.company),
         "startedAt" := BookingRoute.JInt(p.startedAt), "submittedAt" := BookingRoute.JInt(p.submittedAt) ]
  }

  /** A payload the form built (its strings already trimmed) passes the server's schema
      exactly when the lengths are in bounds and the e-mail is well-formed, and then the
      server sees the very same strings; `submittedAt` is ignored. */
  lemma FormPayloadMeetsSchema(p: Payload, isEmail: string -> bool)
    requires IsTrimmed(p.name) && IsTrimmed(p.email) && IsTrimmed(p.message) && IsTrimmed(p.company)
    ensures var sub := BookingRoute.Submission(p.name, p.email, p.message, p.company, p.startedAt);
            BookingRoute.ParseBooking(Some(ToBody(p)), isEmail)
              == (if BookingRoute.Conforms(sub, isEmail) then Some(sub) else None)
  {
    ToBodyFields(p);
    ParseTrimmedFields(ToBody(p), p, isEmail);
  }

  /** The body carries each payload field under its own key. */
  lemma ToBodyFields(p: Payload)
    ensures var m := ToBody(p);
            && "name" in m && m["name"] == BookingRoute.JString(p.name)
            && "email" in m && m["email"] == BookingRoute.JString(p.email)
            && "message" in m && m["message"] == BookingRoute.JString(p.message)
            && "company" in m && m["company"] == BookingRoute.JString(p.company)
            && "startedAt" in m && m["startedAt"] == BookingRoute.JInt(p.startedAt)
  {
  }

  /** An object holding already-trimmed strings parses to exactly those strings. */
  lemma ParseTrimmedFields(m: map<string, BookingRoute.Json>, p: Payload, isEmail: string -> bool)
    requires IsTrimmed(p.name) && IsTrimmed(p.email) && IsTrimmed(p.message) && IsTrimmed(p.company)
    requires "name" in m && m["name"] == BookingRoute.JString(p.name)
    requires "email" in m && m["email"] == BookingRoute.JString(p.email)
    requires "message" in m && m["message"] == BookingRoute.JString(p.message)
    requires "company" in m && m["company"] == BookingRoute.JString(p.company)
    requires "startedAt" in m && m["startedAt"] == BookingRoute.JInt(p.startedAt)
    ensures var sub := BookingRoute.Submission(p.name, p.email, p.message, p.company, p.startedAt);
            BookingRoute.ParseBooking(Some(m), isEmail)
              == (if BookingRoute.Conforms(sub, isEmail) then Some(sub) else None)
  {
    TrimOfTrimmed(p.name);
    TrimOfTrimmed(p.email);
    TrimOfTrimmed(p.message);
    TrimOfTrimmed(p.company);
    assert BookingRoute.TrimmedString(m, "name") == Some(p.name);
    assert BookingRoute.TrimmedString(m, "email") == Some(p.email);
    assert BookingRoute.TrimmedString(m, "message") == Some(p.message);
    assert BookingRoute.Company(m) == Some(p.company);
  }

  /** What the browser gets back from a server response: `res.ok` for a 2xx status, and
      the envelope's fields. */
  function ReplyOf(resp: BookingRoute.Response): Reply {
    HttpReply(200 <= resp.status < 300,
              Some(match resp.envelope
                   case Ok(m) => ReplyBody(true, Some(m), None)
                   case Err(e) => ReplyBody(false, None, Some(e))))
  }

  /** Whatever the endpoint answers, the form shows it faithfully: a confirmation
      becomes `success` with the server's text, a refusal `error` with the server's text. */
  lemma FormMirrorsEndpoint(body: BookingRoute.Body, headers: map<string, string>, now: int,
                            env: BookingRoute.Env, isEmail: string -> bool,
                            rate: BookingRoute.RateVerdict, send: BookingRoute.SendVerdict,
                            isoTime: string)
    ensures var resp := BookingRoute.Post(body, headers, now, env, isEmail, rate, send, isoTime).response;
            NextState(ReplyOf(resp)) == (match resp.envelope
                                         case Ok(m) => Success(m)
                                         case Err(e) => Error(e))
  {
    var resp := BookingRoute.Post(body, headers, now, env, isEmail, rate, send, isoTime).response;
    match resp.envelope
    case Ok(m) =>
      assert m != "" by { assert |m| > 0; }
    case Err(e) =>
      assert e != "" by { assert |e| > 0; }
  }

  /** A payload stamped less than 1800 ms before the server reads its clock never reaches the
      rate limiter or the mail provider: it is refused by the schema or answered "Thanks!". */
  lemma FastPayloadSendsNothing(p: Payload, serverNow: int, headers: map<string, string>,
                                env: BookingRoute.Env, isEmail: string -> bool,
                                rate: BookingRoute.RateVerdict, send: BookingRoute.SendVerdict,
                                isoTime: string)
    requires IsTrimmed(p.name) && IsTrimmed(p.email) && IsTrimmed(p.message) && IsTrimmed(p.company)
    requires serverNow - p.startedAt < BookingRoute.MinElapsedMs
    ensures var o := BookingRoute.Post(Some(ToBody(p)), headers, serverNow, env, isEmail, rate, send, isoTime);
            && o.sent.None? && o.rateQuery.None?
            && (o.response.status == 400
                || o.response == BookingRoute.Response(200, BookingRoute.Ok(BookingRoute.Thanks)))
  {
    FormPayloadMeetsSchema(p, isEmail);
    var parsed := BookingRoute.ParseBooking(Some(ToBody(p)), isEmail);
    if parsed.Some? {
      assert parsed.value.startedAt == p.startedAt;
      assert BookingRoute.IsHoneypot(parsed.value) || BookingRoute.TooFast(parsed.value, serverNow);
    }
  }

  /** A fresh form, filled in and submitted once at `clickedAt`: the payload is stamped with
      that very moment. */
  method FillAndSubmit(name: string, email: string, message: string, clickedAt: int)
    returns (f: Form, p: Payload)
    ensures fresh(f) && f.state == Sending
    ensures p.startedAt == clickedAt && p.submittedAt == clickedAt
    ensures IsTrimmed(p.name) && IsTrimmed(p.email) && IsTrimmed(p.message) && IsTrimmed(p.company)
  {
    f := new Form();
    f.Edit("name", name);
    f.Edit("email", email);
    f.Edit("message", message);
    var request := f.Submit(clickedAt);
    p := request.value;
  }

  /** A fresh form's first submit stamps `startedAt` with the very click that sends it, so the
      server measures the request's latency plus the offset between its clock and the browser's.
      `serverMinusClick` is the server's clock at receipt minus the browser's at the click: when
      it is below 1800 ms (as it is when the clocks agree, and whenever the browser's clock runs
      ahead) the visitor is shown "Thanks!" (or the schema error) and no e-mail is sent,
      whatever the limiter, configuration or provider would have done. */
  method FirstSubmitIsDropped(name: string, email: string, message: string, clickedAt: int,
                              serverMinusClick: int, headers: map<string, string>, env: BookingRoute.Env,
                              isEmail: string -> bool, rate: BookingRoute.RateVerdict,
                              send: BookingRoute.SendVerdict, isoTime: string)
    returns (outcome: BookingRoute.Outcome, shown: FormState)
    requires serverMinusClick < BookingRoute.MinElapsedMs
    ensures outcome.sent.None? && outcome.rateQuery.None?
    ensures outcome.response.status == 400
            || outcome.response == BookingRoute.Response(200, BookingRoute.Ok(BookingRoute.Thanks))
    ensures outcome.response.status != 400 ==> shown == Success(BookingRoute.Thanks)
  {
    var f, p := FillAndSubmit(name, email, message, clickedAt);
    var serverNow := clickedAt + serverMinusClick;
    outcome := BookingRoute.Post(Some(ToBody(p)), headers, serverNow, env, isEmail, rate, send, isoTime);
    FastPayloadSendsNothing(p, serverNow, headers, env, isEmail, rate, send, isoTime);
    ThanksShownAsSuccess();
    f.Receive(ReplyOf(outcome.response));
    shown := f.state;
  }

  /** The fake success reads in the browser as a real one. */
  lemma ThanksShownAsSuccess()
    ensures NextState(ReplyOf(BookingRoute.Response(200, BookingRoute.Ok(BookingRoute.Thanks))))
            == Success(BookingRoute.Thanks)
  {
  }
}
