/**
  The `POST /api/booking` handler: a linear decision procedure that maps every
  request to exactly one `(status, envelope)` response. The clock, the
  environment, the rate limiter and the mail provider enter as parameters, so
  the handler is a total function; the outcome also records which of the two
  external calls were made and with what.
 */
module BookingRoute {
  import opened Wrappers
  import opened Text

  /** A JSON value as the booking schema tells them apart. */
  datatype Json =
    | JString(s: string)
    | JInt(i: int)     // a JSON number with an integral value
    | JFraction        // any other JSON number
    | JOther           // true, false, null, an object or an array

  /** The parsed request body: `None` when the text is not JSON or not a JSON object. */
  type Body = Option<map<string, Json>>

  /** What `BookingSchema.safeParse` hands on: all strings trimmed, `company` defaulted. */
  datatype Submission = Submission(
    name: string, email: string, message: string, company: string, startedAt: int)

  /** `process.env` as far as the handler reads it. */
  datatype Env = Env(resendApiKey: Option<string>, toEmail: Option<string>, fromEmail: Option<string>)

  /** How the rate-limit step ends: `ratelimit.limit(key)` allows or denies; `SetupThrew` is an
      exception from `Redis.fromEnv()` or `new Ratelimit(...)`, before any query is made;
      `LimitThrew` is an exception from the `limit` call itself. */
  datatype RateVerdict = Allowed | Denied | SetupThrew | LimitThrew

  /** How `resend.emails.send` settles: its promise resolves (whatever it resolves to)
      or it throws. */
  datatype SendVerdict = Resolved | SendThrew

  /** One call to the sliding-window rate limiter. */
  datatype RateQuery = RateQuery(prefix: string, key: string, limit: nat, window: string)

  /** The argument of the one `resend.emails.send` call. */
  datatype Email = Email(from: string, to: string, replyTo: string, subject: string, text: string)

  /** The JSON body of every response: `{ok: true, message}` or `{ok: false, error}`. */
  datatype Envelope = Ok(message: string) | Err(error: string)

  datatype Response = Response(status: int, envelope: Envelope)

  /** The response, the rate-limit call made (if any) and the email handed to the provider (if any). */
  datatype Outcome = Outcome(response: Response, rateQuery: Option<RateQuery>, sent: Option<Email>)

  const NameMin: nat := 2
  const NameMax: nat := 80
  const EmailMax: nat := 200
  const MessageMin: nat := 10
  const MessageMax: nat := 4000
  const CompanyMax: nat := 200
  /** Submissions faster than this many milliseconds after `startedAt` look automated. */
  const MinElapsedMs: int := 1800

  const InvalidPayload := "Invalid payload."
  const Thanks := "Thanks!"
  const TooManyRequests := "Too many requests. Try again in a minute."
  const NotConfigured := "Server is not configured for email sending."
  const Unexpected := "Unexpected server error."
  const MessageSent := "Message sent. Thanks \U{2014} I\U{2019}ll reply soon."
  const SubjectPrefix := "New booking inquiry \U{2014} "
  const DefaultIp := "0.0.0.0"

  /** The rate limiter's configuration: 5 requests per minute under prefix `rl:booking`. */
  const RateLimitPrefix := "rl:booking"
  const RateLimitMax: nat := 5
  const RateLimitWindow := "1 m"

  // ---------------------------------------------------------------------------
  // BookingSchema
  // ---------------------------------------------------------------------------

  /** The schema's constraints on an already trimmed submission. */
  predicate Conforms(sub: Submission, isEmail: string -> bool) {
    && NameMin <= |sub.name| <= NameMax
    && isEmail(sub.email) && |sub.email| <= EmailMax
    && MessageMin <= |sub.message| <= MessageMax
    && |sub.company| <= CompanyMax
  }

  /** `z.string().trim()` on one key: the trimmed text when the key holds a string. */
  function TrimmedString(fields: map<string, Json>, key: string): (r: Option<string>)
    ensures r.Some? <==> key in fields && fields[key].JString?
    ensures r.Some? ==> IsTrimmed(r.value) && |r.value| <= |fields[key].s|
  {
    if key in fields && fields[key].JString? then Some(Trim(fields[key].s)) else None
  }

  /** `company` with `.optional().default("")`: an absent key reads as `""`. */
  function Company(fields: map<string, Json>): (r: Option<string>)
    ensures "company" !in fields ==> r == Some("")
    ensures r.Some? ==> IsTrimmed(r.value)
  {
    if "company" !in fields then Some("") else TrimmedString(fields, "company")
  }

  /** `BookingSchema.safeParse(body)`: `isEmail` stands for zod's e-mail format check. */
  function ParseBooking(body: Body, isEmail: string -> bool): (r: Option<Submission>)
    ensures body.None? ==> r.None?
    ensures r.Some? ==> Conforms(r.value, isEmail)
    ensures r.Some? ==> IsTrimmed(r.value.name) && IsTrimmed(r.value.email)
                        && IsTrimmed(r.value.message) && IsTrimmed(r.value.company)
  {
    if body.None? then None
    else
      var m := body.value;
      var name := TrimmedString(m, "name");
      var email := TrimmedString(m, "email");
      var message := TrimmedString(m, "message");
      var company := Company(m);
      if name.None? || email.None? || message.None? || company.None? then None
      else if "startedAt" !in m || !m["startedAt"].JInt? then None
      else
        var sub := Submission(name.value, email.value, message.value, company.value, m["startedAt"].i);
        if Conforms(sub, isEmail) then Some(sub) else None
  }

  /** The JSON object `m` carries `sub`: each string field trims to the
      submission's, an absent `company` stands for `""`, and `startedAt` is integral. */
  predicate Describes(m: map<string, Json>, sub: Submission) {
    && "name" in m && m["name"].JString? && Trim(m["name"].s) == sub.name
    && "email" in m && m["email"].JString? && Trim(m["email"].s) == sub.email
    && "message" in m && m["message"].JString? && Trim(m["message"].s) == sub.message
    && ("company" in m ==> m["company"].JString? && Trim(m["company"].s) == sub.company)
    && ("company" !in m ==> sub.company == "")
    && "startedAt" in m && m["startedAt"] == JInt(sub.startedAt)
  }

  /** The schema accepts an object exactly when it describes a conforming submission,
      and that submission is what it yields. */
  lemma ParseBookingSpec(m: map<string, Json>, sub: Submission, isEmail: string -> bool)
    ensures ParseBooking(Some(m), isEmail) == Some(sub) <==> Describes(m, sub) && Conforms(sub, isEmail)
  {
  }

  // ---------------------------------------------------------------------------
  // getIp
  // ---------------------------------------------------------------------------

  /** The client address: the first entry of a non-empty `x-forwarded-for`,
      else a non-empty `x-real-ip`, else `0.0.0.0`, trimmed in every case.
      Header names are the lower-case keys of `headers`. */
  function GetIp(headers: map<string, string>): (ip: string)
    ensures IsTrimmed(ip)
    ensures "x-forwarded-for" in headers && headers["x-forwarded-for"] != "" ==>
              ',' !in ip && |ip| <= |headers["x-forwarded-for"]|
    ensures "x-forwarded-for" in headers && headers["x-forwarded-for"] != "" ==>
              ip == Trim(BeforeFirst(headers["x-forwarded-for"], ','))
    ensures (("x-forwarded-for" !in headers || headers["x-forwarded-for"] == "") &&
             "x-real-ip" in headers && headers["x-real-ip"] != "") ==> ip == Trim(headers["x-real-ip"])
    ensures (("x-forwarded-for" !in headers || headers["x-forwarded-for"] == "") &&
             ("x-real-ip" !in headers || headers["x-real-ip"] == "")) ==> ip == DefaultIp
  {
    if "x-forwarded-for" in headers && headers["x-forwarded-for"] != "" then
      Trim(BeforeFirst(headers["x-forwarded-for"], ','))
    else if "x-real-ip" in headers && headers["x-real-ip"] != "" then
      Trim(headers["x-real-ip"])
    else
      TrimOfTrimmed(DefaultIp);
      Trim(DefaultIp)
  }

  /** The forwarded-for answer is a piece of the header: the trimmed text before its first comma,
      which lies inside the header. */
  lemma GetIpForwardedIsFirstEntry(headers: map<string, string>)
    requires "x-forwarded-for" in headers && headers["x-forwarded-for"] != ""
    ensures var xf := headers["x-forwarded-for"];
            var first := Split(xf, ',')[0];
            && GetIp(headers) == Trim(first)
            && Lead(first) + |GetIp(headers)| <= |xf|
            && GetIp(headers) == xf[Lead(first)..Lead(first) + |GetIp(headers)|]
  {
    var xf := headers["x-forwarded-for"];
    SplitFirstIsBeforeFirst(xf, ',');
    var first := BeforeFirst(xf, ',');
    var ip := Trim(first);
    assert GetIp(headers) == ip;
    assert Lead(first) + |ip| <= |first| && ip == first[Lead(first)..Lead(first) + |ip|];
    InfixOfPrefix(first, xf, Lead(first), Lead(first) + |ip|);
  }

  // ---------------------------------------------------------------------------
  // The email
  // ---------------------------------------------------------------------------

  /** The text lines of the notification, in order: header, name, email, message, IP, time. */
  function EmailLines(sub: Submission, ip: string, isoTime: string): (lines: seq<string>)
    ensures |lines| == 10
  {
    [ "New booking/inquiry message", "",
      "Name: " + sub.name, "Email: " + sub.email, "",
      "Message:", sub.message, "",
      "IP: " + ip, "Time: " + isoTime ]
  }

  /** The one message sent: reply-to is the submitter, the subject names them,
      the text is the lines joined by newlines. */
  function ComposeEmail(sub: Submission, ip: string, isoTime: string, from: string, to: string): (e: Email)
    ensures e.from == from && e.to == to && e.replyTo == sub.email
    ensures |e.subject| == |SubjectPrefix| + |sub.name|
    ensures e.subject[..|SubjectPrefix|] == SubjectPrefix && e.subject[|SubjectPrefix|..] == sub.name
  {
    Email(from, to, sub.email, SubjectPrefix + sub.name, Join(EmailLines(sub, ip, isoTime), "\n"))
  }

  /** When no field holds a newline, the email text splits back into exactly its ten lines. */
  lemma EmailTextLines(sub: Submission, ip: string, isoTime: string, from: string, to: string)
    requires '\n' !in sub.name && '\n' !in sub.email && '\n' !in sub.message
    requires '\n' !in ip && '\n' !in isoTime
    ensures Split(ComposeEmail(sub, ip, isoTime, from, to).text, '\n') == EmailLines(sub, ip, isoTime)
  {
    var lines := EmailLines(sub, ip, isoTime);
    forall k | 0 <= k < |lines| ensures '\n' !in lines[k] {
      if k == 2 { NoCharInConcat("Name: ", sub.name, '\n'); }
      if k == 3 { NoCharInConcat("Email: ", sub.email, '\n'); }
      if k == 8 { NoCharInConcat("IP: ", ip, '\n'); }
      if k == 9 { NoCharInConcat("Time: ", isoTime, '\n'); }
    }
    SplitJoin(lines, '\n');
  }

  // ---------------------------------------------------------------------------
  // POST
  // ---------------------------------------------------------------------------

  /** A non-empty (trimmed) `company` is the honeypot. */
  predicate IsHoneypot(sub: Submission) { |sub.company| > 0 }

  /** Submitted sooner than `MinElapsedMs` after the client's `startedAt`. */
  predicate TooFast(sub: Submission, now: int) { now - sub.startedAt < MinElapsedMs }

  /** `!apiKey || !to || !from`: absent and empty values are both missing. */
  predicate Configured(env: Env) {
    && env.resendApiKey.Some? && env.resendApiKey.value != ""
    && env.toEmail.Some? && env.toEmail.value != ""
    && env.fromEmail.Some? && env.fromEmail.value != ""
  }

  function RateQueryFor(headers: map<string, string>): RateQuery {
    RateQuery(RateLimitPrefix, "ip:" + GetIp(headers), RateLimitMax, RateLimitWindow)
  }

  /** Every request passes the steps in order (schema, honeypot, elapsed time,
      rate limit, configuration, send) and the first one that stops it decides
      the response; an exception from an external call becomes a 500. */
  function Post(body: Body, headers: map<string, string>, now: int, env: Env,
                isEmail: string -> bool, rate: RateVerdict, send: SendVerdict,
                isoTime: string): (r: Outcome)
    ensures r.response.status in {200, 400, 429, 500}
    ensures r.response.envelope.Ok? <==> r.response.status == 200
    ensures r.response.status == 400 <==> ParseBooking(body, isEmail).None?
    ensures r.response.envelope.Ok? ==> r.response.envelope.message in {Thanks, MessageSent}
    ensures r.response.envelope.Err? ==>
              r.response.envelope.error in {InvalidPayload, TooManyRequests, NotConfigured, Unexpected}
    ensures r.sent.Some? ==> r.rateQuery == Some(RateQueryFor(headers)) && rate.Allowed? && Configured(env)
    ensures r.rateQuery.Some? ==> r.rateQuery == Some(RateQueryFor(headers))
  {
    var parsed := ParseBooking(body, isEmail);
    if parsed.None? then
      Outcome(Response(400, Err(InvalidPayload)), None, None)
    else
      var sub := parsed.value;
      if IsHoneypot(sub) then
        Outcome(Response(200, Ok(Thanks)), None, None)
      else if TooFast(sub, now) then
        Outcome(Response(200, Ok(Thanks)), None, None)
      else
        var query := RateQueryFor(headers);
        match rate
        case SetupThrew =>
          Outcome(Response(500, Err(Unexpected)), None, None)
        case LimitThrew =>
          Outcome(Response(500, Err(Unexpected)), Some(query), None)
        case Denied =>
          Outcome(Response(429, Err(TooManyRequests)), Some(query), None)
        case Allowed =>
          if !Configured(env) then
            Outcome(Response(500, Err(NotConfigured)), Some(query), None)
          else
            var email := ComposeEmail(sub, GetIp(headers), isoTime,
                                      env.fromEmail.value, env.toEmail.value);
            match send
            case SendThrew =>
              Outcome(Response(500, Err(Unexpected)), Some(query), Some(email))
            case Resolved =>
              Outcome(Response(200, Ok(MessageSent)), Some(query), Some(email))
  }

  /** A body that is not JSON, not an object or fails the schema gets 400 and
      nothing else happens: no rate-limit call, no email. */
  lemma PostRejectsInvalidPayload(body: Body, headers: map<string, string>, now: int, env: Env,
                                  isEmail: string -> bool, rate: RateVerdict, send: SendVerdict,
                                  isoTime: string)
    requires ParseBooking(body, isEmail).None?
    ensures Post(body, headers, now, env, isEmail, rate, send, isoTime)
            == Outcome(Response(400, Err(InvalidPayload)), None, None)
  {
  }

  /** A filled-in honeypot is answered like a success, before any rate-limit call or send,
      whatever the clock, the limiter, the configuration or the provider would do. */
  lemma PostHoneypotLooksLikeSuccess(body: Body, headers: map<string, string>, now: int, env: Env,
                                     isEmail: string -> bool, rate: RateVerdict, send: SendVerdict,
                                     isoTime: string)
    requires ParseBooking(body, isEmail).Some? && IsHoneypot(ParseBooking(body, isEmail).value)
    ensures Post(body, headers, now, env, isEmail, rate, send, isoTime)
            == Outcome(Response(200, Ok(Thanks)), None, None)
  {
  }

  /** `company` may be absent; whitespace alone does not trip the honeypot, because the
      schema trims it first. */
  lemma HoneypotIsTrimmedCompany(m: map<string, Json>, isEmail: string -> bool)
    requires ParseBooking(Some(m), isEmail).Some?
    ensures "company" !in m ==> !IsHoneypot(ParseBooking(Some(m), isEmail).value)
    ensures "company" in m ==>
              (IsHoneypot(ParseBooking(Some(m), isEmail).value) <==>
               exists i :: 0 <= i < |m["company"].s| && !IsJsWhitespace(m["company"].s[i]))
  {
    if "company" in m {
      TrimEmptyIffAllWhitespace(m["company"].s);
    }
  }

  /** A submission less than 1800 ms after `startedAt` is answered like a success, with no
      rate-limit call and no send. From exactly 1800 ms on the answer is never that fake
      success, and the limiter is asked about `ip:<address>` unless building it threw. */
  lemma PostElapsedFloor(body: Body, headers: map<string, string>, now: int, env: Env,
                         isEmail: string -> bool, rate: RateVerdict, send: SendVerdict,
                         isoTime: string, sub: Submission)
    requires ParseBooking(body, isEmail) == Some(sub) && !IsHoneypot(sub)
    ensures now - sub.startedAt < 1800 ==>
              Post(body, headers, now, env, isEmail, rate, send, isoTime)
              == Outcome(Response(200, Ok(Thanks)), None, None)
    ensures now - sub.startedAt >= 1800 ==>
              Post(body, headers, now, env, isEmail, rate, send, isoTime).response
              != Response(200, Ok(Thanks))
    ensures now - sub.startedAt >= 1800 && !rate.SetupThrew? ==>
              Post(body, headers, now, env, isEmail, rate, send, isoTime).rateQuery
              == Some(RateQuery("rl:booking", "ip:" + GetIp(headers), 5, "1 m"))
    ensures rate.SetupThrew? ==> Post(body, headers, now, env, isEmail, rate, send, isoTime).rateQuery.None?
  {
    var r := Post(body, headers, now, env, isEmail, rate, send, isoTime);
    if now - sub.startedAt >= 1800 {
      assert !TooFast(sub, now);
      var query := RateQueryFor(headers);
      match rate
      case SetupThrew =>
        assert r == Outcome(Response(500, Err(Unexpected)), None, None);
      case LimitThrew =>
        assert r == Outcome(Response(500, Err(Unexpected)), Some(query), None);
      case Denied =>
        assert r == Outcome(Response(429, Err(TooManyRequests)), Some(query), None);
      case Allowed =>
        assert r.rateQuery == Some(query);
        assert r.response.status == 500 || r.response.envelope == Ok(MessageSent);
      assert query == RateQuery("rl:booking", "ip:" + GetIp(headers), 5, "1 m");
    }
  }

  /** An exception on the rate-limit step gives 500 "Unexpected server error." and no e-mail;
      a query is on record only when the `limit` call itself threw. */
  lemma PostLimiterFailure(body: Body, headers: map<string, string>, now: int, env: Env,
                           isEmail: string -> bool, rate: RateVerdict, send: SendVerdict,
                           isoTime: string)
    requires ParseBooking(body, isEmail).Some?
    requires !IsHoneypot(ParseBooking(body, isEmail).value)
    requires !TooFast(ParseBooking(body, isEmail).value, now)
    requires rate.SetupThrew? || rate.LimitThrew?
    ensures Post(body, headers, now, env, isEmail, rate, send, isoTime)
            == Outcome(Response(500, Err(Unexpected)),
                       if rate.LimitThrew? then Some(RateQueryFor(headers)) else None, None)
  {
  }

  /** A rate-limit denial for `ip:<client address>` gives 429 and no email. */
  lemma PostRateLimited(body: Body, headers: map<string, string>, now: int, env: Env,
                        isEmail: string -> bool, send: SendVerdict, isoTime: string)
    requires ParseBooking(body, isEmail).Some?
    requires !IsHoneypot(ParseBooking(body, isEmail).value)
    requires !TooFast(ParseBooking(body, isEmail).value, now)
    ensures Post(body, headers, now, env, isEmail, Denied, send, isoTime)
            == Outcome(Response(429, Err(TooManyRequests)), Some(RateQueryFor(headers)), None)
  {
  }

  /** Past the rate limit, a missing or empty API key, recipient or sender gives 500 and no email. */
  lemma PostNotConfigured(body: Body, headers: map<string, string>, now: int, env: Env,
                          isEmail: string -> bool, send: SendVerdict, isoTime: string)
    requires ParseBooking(body, isEmail).Some?
    requires !IsHoneypot(ParseBooking(body, isEmail).value)
    requires !TooFast(ParseBooking(body, isEmail).value, now)
    requires env.resendApiKey in {None, Some("")} || env.toEmail in {None, Some("")}
             || env.fromEmail in {None, Some("")}
    ensures Post(body, headers, now, env, isEmail, Allowed, send, isoTime)
            == Outcome(Response(500, Err(NotConfigured)), Some(RateQueryFor(headers)), None)
  {
  }

  /** An email is handed to the provider exactly when every gate passes, and then it is
      the composed one: from and to from the environment, reply-to the submitter. The
      response is the confirmation unless the send throws. */
  lemma PostSendsExactlyWhenAllowed(body: Body, headers: map<string, string>, now: int, env: Env,
                                    isEmail: string -> bool, rate: RateVerdict, send: SendVerdict,
                                    isoTime: string)
    ensures var r := Post(body, headers, now, env, isEmail, rate, send, isoTime);
            var p := ParseBooking(body, isEmail);
            r.sent.Some? <==> (p.Some? && !IsHoneypot(p.value) && !TooFast(p.value, now)
                               && rate.Allowed? && Configured(env))
    ensures var r := Post(body, headers, now, env, isEmail, rate, send, isoTime);
            var p := ParseBooking(body, isEmail);
            r.sent.Some? ==>
              && r.sent.value == ComposeEmail(p.value, GetIp(headers), isoTime,
                                              env.fromEmail.value, env.toEmail.value)
              && r.sent.value.replyTo == p.value.email
              && r.response == (if send.Resolved? then Response(200, Ok(MessageSent))
                                else Response(500, Err(Unexpected)))
  {
  }

  /** The two bot heuristics answer alike, so a client cannot tell which one fired, and
      both answers are indistinguishable from a real success's status and `ok` flag. */
  lemma BotAnswersAreUniform(body1: Body, body2: Body, headers: map<string, string>, now: int,
                             env: Env, isEmail: string -> bool, rate: RateVerdict,
                             send: SendVerdict, isoTime: string)
    requires ParseBooking(body1, isEmail).Some? && IsHoneypot(ParseBooking(body1, isEmail).value)
    requires ParseBooking(body2, isEmail).Some? && !IsHoneypot(ParseBooking(body2, isEmail).value)
    requires TooFast(ParseBooking(body2, isEmail).value, now)
    ensures Post(body1, headers, now, env, isEmail, rate, send, isoTime)
            == Post(body2, headers, now, env, isEmail, rate, send, isoTime)
    ensures Post(body1, headers, now, env, isEmail, rate, send, isoTime).response.status == 200
  {
  }
}
