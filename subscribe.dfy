/**
  The `POST /api/subscribe` handler (src/app/api/subscribe/route.ts, `POST`).

  In order: rate-limit the client key; read the JSON body; require a non-empty string
  email; require it to match the email pattern; forward it to Kit with `source`
  defaulted to "unknown"; answer 200. Anything thrown after the rate-limit check (an
  unreadable body, any failure of the forwarder) becomes the generic 500. The body and
  the forwarder's two HTTP exchanges are inputs.
*/
module Subscribe {
  import opened Wrappers
  import RateLimit
  import EmailFormat
  import Kit

  /** A JSON value as far as the email check looks at it. Objects and arrays are `Compound`. */
  datatype Json = Undefined | Null | Bool(b: bool) | Number(n: int) | Text(s: string) | Compound

  /** The outcome of `await request.json()` and destructuring `{ email, source, utm }`:
      `Unparseable` when it throws (text that is not JSON, or the literal `null`). */
  datatype Body =
    | Unparseable
    | Parsed(email: Json, source: Option<string>, utm: Option<seq<(string, string)>>)

  datatype Request = Request(forwardedFor: Option<string>, body: Body)

  datatype Payload = Succeeded | Error(message: string)

  datatype Response = Response(status: int, payload: Payload)

  const TooManyRequests: Response := Response(429, Error("Too many requests. Try again in a minute."))
  const EmailRequired: Response := Response(400, Error("Email is required"))
  const InvalidEmail: Response := Response(400, Error("Please enter a valid email address"))
  const ServerError: Response := Response(500, Error("Something went wrong. Please try again."))
  const Subscribed: Response := Response(200, Succeeded)

  /** The rate-limit key: the x-forwarded-for header, or "unknown" when it is absent. */
  function ClientKey(forwardedFor: Option<string>): (key: string)
    ensures forwardedFor.None? ==> key == "unknown"
    ensures forwardedFor.Some? ==> key == forwardedFor.value
  {
    match forwardedFor
    case None => "unknown"
    case Some(header) => header
  }

  /** The email passes `!email || typeof email !== "string"`: a non-empty string. */
  predicate HasEmail(email: Json)
    // only a string can pass, and every string the format check accepts passes
    ensures HasEmail(email) ==> email.Text?
    ensures email.Text? && EmailFormat.IsValidEmail(email.s) ==> HasEmail(email)
  {
    email.Text? && email.s != ""
  }

  /** `source || "unknown"`. */
  function DefaultSource(source: Option<string>): (s: string)
    ensures s != ""
    ensures source.Some? && source.value != "" ==> s == source.value
    ensures source.None? || source.value == "" ==> s == "unknown"
  {
    match source
    case Some(given) => if given != "" then given else "unknown"
    case None => "unknown"
  }

  /** After the rate-limit check: reject with a response, or forward these parameters. */
  datatype Decision = Reject(response: Response) | Forward(params: Kit.SubscribeParams)

  /** The checks on the body, in the source's order. */
  function Validate(body: Body): (d: Decision)
    // exactly the parsed bodies whose email is a string the pattern accepts are forwarded
    ensures d.Forward? <==> body.Parsed? && body.email.Text? && EmailFormat.IsValidEmail(body.email.s)
    ensures body.Unparseable? ==> d == Reject(ServerError)
    ensures body.Parsed? && !HasEmail(body.email) ==> d == Reject(EmailRequired)
    ensures body.Parsed? && HasEmail(body.email) && !EmailFormat.IsValidEmail(body.email.s) ==>
              d == Reject(InvalidEmail)
    ensures d.Forward? ==> d.params == Kit.SubscribeParams(body.email.s, DefaultSource(body.source), body.utm)
  {
    match body
    case Unparseable => Reject(ServerError)
    case Parsed(email, source, utm) =>
      if !HasEmail(email) then Reject(EmailRequired)
      else if !EmailFormat.IsValidEmail(email.s) then Reject(InvalidEmail)
      else Forward(Kit.SubscribeParams(email.s, DefaultSource(source), utm))
  }

  /** The response to a request whose rate-limit verdict is `limited`, given the
      forwarder's environment and how its two exchanges end. */
  function Respond(limited: bool, body: Body, env: Kit.Env, created: Kit.Exchange, enrolled: Kit.Exchange): (r: Response)
    // a limited request is answered 429 whatever it carries
    ensures limited ==> r == TooManyRequests
    ensures r.status == 429 <==> limited
    // 400 exactly for a readable body whose email is missing, not a string, or malformed
    ensures r.status == 400 <==>
              !limited && body.Parsed? && !(body.email.Text? && EmailFormat.IsValidEmail(body.email.s))
    // 200 exactly when the email was forwarded and the forwarder returned
    ensures r == Subscribed <==>
              && !limited && Validate(body).Forward?
              && Kit.SubscribeToKit(env, Validate(body).params, created, enrolled).result.Success?
    ensures r in {TooManyRequests, EmailRequired, InvalidEmail, ServerError, Subscribed}
  {
    if limited then TooManyRequests
    else
      match Validate(body)
      case Reject(response) => response
      case Forward(params) =>
        match Kit.SubscribeToKit(env, params, created, enrolled).result
        case Success(_) => Subscribed
        case Failure(_) => ServerError
  }

  /** Every failure of the forwarder (configuration, network, unreadable or non-2xx reply,
      from either request) is answered with the generic 500. */
  lemma ForwarderFailureIsServerError(body: Body, env: Kit.Env, created: Kit.Exchange, enrolled: Kit.Exchange)
    requires Validate(body).Forward?
    requires !Kit.Configured(env) || !Kit.Succeeds(created) || !Kit.Succeeds(enrolled)
    ensures Respond(false, body, env, created, enrolled) == ServerError
  {
  }

  /** "not-an-email" is answered 400 with the invalid-address message. */
  lemma NotAnEmailResponse(source: Option<string>, utm: Option<seq<(string, string)>>,
                           env: Kit.Env, created: Kit.Exchange, enrolled: Kit.Exchange)
    ensures Respond(false, Parsed(Text("not-an-email"), source, utm), env, created, enrolled) == InvalidEmail
  {
    EmailFormat.NotAnEmailRejected();
  }

  /** "a@b.c" without a source passes validation and is forwarded with source "unknown". */
  lemma DefaultSourceForwarded()
    ensures Validate(Parsed(Text("a@b.c"), None, None)) == Forward(Kit.SubscribeParams("a@b.c", "unknown", None))
  {
    EmailFormat.ShortestEmailAccepted();
  }

  /** Within one window, the sixth and later requests from a client are answered 429,
      whatever they carry. */
  lemma SixthRequestInWindowRejected(table: RateLimit.Table, forwardedFor: Option<string>, times: seq<int>,
                                      i: nat, body: Body, env: Kit.Env, created: Kit.Exchange, enrolled: Kit.Exchange)
    requires |times| > 0 && RateLimit.StartsWindow(table, ClientKey(forwardedFor), times[0])
    requires forall j | 0 < j < |times| :: times[j] <= times[0] + RateLimit.Window
    requires RateLimit.Limit <= i < |times|
    ensures Respond(RateLimit.Replay(table, ClientKey(forwardedFor), times)[i], body, env, created, enrolled)
            == TooManyRequests
  {
    RateLimit.FirstFivePerWindow(table, ClientKey(forwardedFor), times);
  }

  /** The whole handler: the limiter is consulted (and updated) first, then the body is judged. */
  method Post(limiter: RateLimit.Limiter, request: Request, now: int,
              env: Kit.Env, created: Kit.Exchange, enrolled: Kit.Exchange) returns (response: Response)
    requires limiter.Valid()
    modifies limiter
    ensures limiter.Valid()
    ensures var v := RateLimit.Step(old(limiter.table), ClientKey(request.forwardedFor), now);
            limiter.table == v.table && response == Respond(v.limited, request.body, env, created, enrolled)
  {
    var ip := ClientKey(request.forwardedFor);
    var limited := limiter.IsRateLimited(ip, now);
    response := Respond(limited, request.body, env, created, enrolled);
  }
}
