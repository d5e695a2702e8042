/** The serverless HTTP endpoint (src/api/verification.js) that mints a verification
    link with the provider's admin interface and mails it with Resend. The handler
    writes headers, status and body to the response object step by step; `Decide`
    says, as a pure function, which reply and which foreign calls each request gets. */
module VerificationApi {
  import opened Wrappers
  import opened Text
  import opened JsValues
  import opened Services

  /** `process.env`; an absent and an empty variable behave alike everywhere below. */
  type Env = map<string, string>

  /** `process.env[key] || fallback`. */
  function EnvOr(env: Env, key: string, fallback: string): (v: string)
    ensures key in env && env[key] != "" ==> v == env[key]
    ensures key !in env || env[key] == "" ==> v == fallback
  {
    if key in env && env[key] != "" then env[key] else fallback
  }

  const DefaultOrigin := "http://localhost:5173"
  const DefaultContinueUrl := "http://localhost:5173/login"
  const DefaultFrom := "Keeps <onboarding@mail.resend.dev>"
  const Subject := "Verify your email for Keeps"
  const MethodNotAllowed := "Method Not Allowed"
  const EmailRequired := "Email is required"
  const SendFailed := "Failed to send verification email"
  const MissingServiceAccount := "Missing FIREBASE_SERVICE_ACCOUNT env var"
  const CredentialsRejected := "service account could not be parsed or was rejected"

  /** The parts of the incoming request the handler reads. */
  datatype Request = Request(verb: string, body: JsValue)

  /** What the response carries: nothing (`end()`), text (`send`), or one of the JSON bodies. */
  datatype Payload = NoBody | Plain(text: string) | OkJson | ErrorJson(message: string)

  /** The response object of the serverless platform. */
  class Response {
    var headers: map<string, string>
    var status: int
    var payload: Payload
    var sent: bool

    constructor ()
      ensures headers == map[] && status == 200 && payload == NoBody && !sent
    {
      headers, status, payload, sent := map[], 200, NoBody, false;
    }

    /** `res.setHeader(name, value)`. */
    method SetHeader(name: string, value: string)
      modifies this
      ensures headers == old(headers)[name := value]
      ensures status == old(status) && payload == old(payload) && sent == old(sent)
    {
      headers := headers[name := value];
    }

    /** `res.status(code)`. */
    method Status(code: int)
      modifies this
      ensures status == code
      ensures headers == old(headers) && payload == old(payload) && sent == old(sent)
    {
      status := code;
    }

    /** `res.end()`, `res.send(text)` and `res.json(body)`: the body, and the response is sent. */
    method Finish(p: Payload)
      modifies this
      ensures payload == p && sent
      ensures headers == old(headers) && status == old(status)
    {
      payload, sent := p, true;
    }
  }

  /** The three CORS headers every request gets. */
  function CorsHeaders(env: Env): map<string, string> {
    map[
      "Access-Control-Allow-Origin" := EnvOr(env, "CORS_ALLOW_ORIGIN", DefaultOrigin),
      "Access-Control-Allow-Methods" := "POST, OPTIONS",
      "Access-Control-Allow-Headers" := "Content-Type"
    ]
  }

  /** `allowCors(req, res)`: sets the CORS headers and answers a pre-flight request itself. */
  method AllowCors(req: Request, res: Response, env: Env) returns (handled: bool)
    modifies res
    ensures res.headers == old(res.headers) + CorsHeaders(env)
    ensures handled <==> req.verb == "OPTIONS"
    ensures handled ==> res.status == 200 && res.payload == NoBody && res.sent
    ensures !handled ==> res.status == old(res.status) && res.payload == old(res.payload) && res.sent == old(res.sent)
  {
    res.SetHeader("Access-Control-Allow-Origin", EnvOr(env, "CORS_ALLOW_ORIGIN", DefaultOrigin));
    res.SetHeader("Access-Control-Allow-Methods", "POST, OPTIONS");
    res.SetHeader("Access-Control-Allow-Headers", "Content-Type");
    if req.verb == "OPTIONS" {
      res.Status(200);
      res.Finish(NoBody);
      return true;
    }
    return false;
  }

  /** The admin SDK's global registry of initialised apps. */
  class Admin {
    var apps: nat

    constructor ()
      ensures apps == 0
    {
      apps := 0;
    }
  }

  /** `initAdmin()`. `credentialsOk` says whether parsing the service account and
      initialising the app with it succeed. */
  method InitAdmin(admin: Admin, env: Env, credentialsOk: bool) returns (r: Outcome<string>)
    modifies admin
    ensures old(admin.apps) > 0 ==> r == Pass && admin.apps == old(admin.apps)
    ensures old(admin.apps) == 0 && EnvOr(env, "FIREBASE_SERVICE_ACCOUNT", "") == "" ==>
      r == Fail(MissingServiceAccount) && admin.apps == 0
    ensures old(admin.apps) == 0 && EnvOr(env, "FIREBASE_SERVICE_ACCOUNT", "") != "" ==>
      if credentialsOk then r == Pass && admin.apps == 1 else r.Fail? && admin.apps == 0
  {
    if admin.apps > 0 {
      return Pass;
    }
    if EnvOr(env, "FIREBASE_SERVICE_ACCOUNT", "") == "" {
      return Fail(MissingServiceAccount);
    }
    if !credentialsOk {
      return Fail(CredentialsRejected);
    }
    admin.apps := 1;
    return Pass;
  }

  /** The "robust body parse": a truthy non-string body is used as it is; a missing or
      string body is parsed as JSON by `parse` (`None` when `JSON.parse` throws), a falsy
      one as `"{}"`, and a body that does not parse becomes `{}`. */
  function ParseBody(body: JsValue, parse: string -> Option<JsValue>): (r: JsValue)
    ensures Truthy(body) && !body.Str? ==> r == body
    ensures !Truthy(body) ==> r == Obj(map[])
    ensures Truthy(body) && body.Str? && parse(body.s).None? ==> r == Obj(map[])
    ensures Truthy(body) && body.Str? && parse(body.s).Some? ==> r == parse(body.s).value
  {
    if Truthy(body) && !body.Str? then body
    else if !Truthy(body) then Obj(map[]) // JSON.parse("{}")
    else if parse(body.s).Some? then parse(body.s).value
    else Obj(map[])
  }

  /** `String(body.email || "").trim().toLowerCase()`, or `None` when reading `.email`
      throws because the parsed body is `null`. */
  function RequestEmail(body: JsValue): Option<string> {
    match GetMember(body, "email")
    case None => None
    case Some(field) => Some(Norm(StringOrEmpty(field)))
  }

  /** An object body with a string `email` yields that email normalised; an object
      body without one yields the empty email; only a `null` or `undefined` body throws. */
  lemma RequestEmailCases(body: JsValue, s: string)
    ensures body == Obj(map["email" := Str(s)]) ==> RequestEmail(body) == Some(Norm(s))
    ensures body.Obj? && "email" !in body.fields ==> RequestEmail(body) == Some("")
    ensures RequestEmail(body).None? <==> body == Null || body == Undefined
  {
    NormEmptyIffBlank("");
    if body == Obj(map["email" := Str(s)]) {
      assert GetMember(body, "email") == Some(Str(s));
      assert StringOrEmpty(Str(s)) == s;
    }
  }

  // The fixed pieces of the endpoint's email, markup only.
  const HtmlHead := "<div><h2>Verify your email</h2><p>Click the button below to verify your email and continue:</p><p>"
  const HrefOpen := "<a href=\""
  const HrefClose := "\">Verify Email</a>"
  const HtmlMiddle := "</p><p>If the button doesn't work, copy & paste this link:</p>"
  const CodeOpen := "<code>"
  const CodeClose := "</code></div>"

  /** The endpoint's email body. */
  function EndpointHtml(link: string): string {
    HtmlHead + HrefOpen + link + HrefClose + HtmlMiddle + CodeOpen + link + CodeClose
  }

  /** The endpoint's email carries the link twice: as the button target, then as text. */
  lemma EndpointHtmlEmbedsLink(link: string)
    ensures var h := EndpointHtml(link);
      exists p, q :: p + |link| <= q
        && Encloses(h, p, HrefOpen, link, HrefClose)
        && Encloses(h, q, CodeOpen, link, CodeClose)
  {
    var h := EndpointHtml(link);
    assert h == HtmlHead + HrefOpen + link + HrefClose + HtmlMiddle + CodeOpen + link + CodeClose;
    EnclosedTwice(HtmlHead, HrefOpen, link, HrefClose, HtmlMiddle, CodeOpen, CodeClose);
  }

  /** The outcomes of the foreign steps: credential parsing and app initialisation, link
      minting (the link, or `None` when it rejects), and the email send. */
  datatype Outcomes = Outcomes(credentialsOk: bool, minted: Option<string>, delivered: bool)

  /** What one request produces: the status and body of the response, the link request
      and email the handler issued, and whether an admin app exists afterwards. */
  datatype Reply = Reply(status: int, payload: Payload, link: Option<LinkRequest>,
                         message: Option<Message>, adminReady: bool)

  /** What a POST with the normalised `email` gets, from the email check on. */
  function Deliver(email: string, env: Env, adminReady: bool, out: Outcomes): Reply {
    if email == "" then Reply(400, ErrorJson(EmailRequired), None, None, adminReady)
    else if !adminReady && (EnvOr(env, "FIREBASE_SERVICE_ACCOUNT", "") == "" || !out.credentialsOk)
    then Reply(500, ErrorJson(SendFailed), None, None, false)
    else
      var request := LinkRequest(email, EnvOr(env, "CONTINUE_URL", DefaultContinueUrl));
      if out.minted.None? || EnvOr(env, "RESEND_API_KEY", "") == ""
      then Reply(500, ErrorJson(SendFailed), Some(request), None, true)
      else
        var m := Message(EnvOr(env, "RESEND_FROM", DefaultFrom), email, Subject, EndpointHtml(out.minted.value));
        if out.delivered then Reply(200, OkJson, Some(request), Some(m), true)
        else Reply(500, ErrorJson(SendFailed), Some(request), Some(m), true)
  }

  /** The handler as a decision procedure. */
  function Decide(req: Request, env: Env, parse: string -> Option<JsValue>,
                  adminReady: bool, out: Outcomes): Reply
  {
    if req.verb == "OPTIONS" then Reply(200, NoBody, None, None, adminReady)
    else if req.verb != "POST" then Reply(405, Plain(MethodNotAllowed), None, None, adminReady)
    else match RequestEmail(ParseBody(req.body, parse))
      case None => Reply(500, ErrorJson(SendFailed), None, None, adminReady)
      case Some(email) => Deliver(email, env, adminReady, out)
  }

  function AsSeq<T>(o: Option<T>): seq<T> {
    if o.Some? then [o.value] else []
  }

  /** The `catch` of the handler: a 500 with the fixed message. */
  method RespondFailed(res: Response)
    modifies res
    ensures res.status == 500 && res.payload == ErrorJson(SendFailed) && res.sent
    ensures res.headers == old(res.headers)
  {
    res.Status(500);
    res.Finish(ErrorJson(SendFailed));
  }

  /** The exported request handler. The platform hands it a fresh response. */
  method Handle(req: Request, res: Response, admin: Admin, world: World, env: Env,
                parse: string -> Option<JsValue>, out: Outcomes)
    requires res.status == 200 && !res.sent
    modifies res, admin, world
    ensures var d := Decide(req, env, parse, old(admin.apps) > 0, out);
      && res.headers == old(res.headers) + CorsHeaders(env)
      && res.status == d.status && res.payload == d.payload && res.sent
      && world.linkRequests == old(world.linkRequests) + AsSeq(d.link)
      && world.outbox == old(world.outbox) + AsSeq(d.message)
      && (admin.apps > 0 <==> d.adminReady)
      && (old(admin.apps) > 0 ==> admin.apps == old(admin.apps))
  {
    ghost var ready := admin.apps > 0;
    var handled := AllowCors(req, res, env);
    if handled {
      return;
    }
    if req.verb != "POST" {
      res.Status(405);
      res.Finish(Plain(MethodNotAllowed));
      return;
    }
    var parsed := RequestEmail(ParseBody(req.body, parse));
    if parsed.None? {
      RespondFailed(res);
      return;
    }
    var email := parsed.value;
    assert Decide(req, env, parse, ready, out) == Deliver(email, env, ready, out);
    if email == "" {
      res.Status(400);
      res.Finish(ErrorJson(EmailRequired));
      return;
    }
    var init := InitAdmin(admin, env, out.credentialsOk);
    if init.Fail? {
      RespondFailed(res);
      return;
    }
    var continueUrl := EnvOr(env, "CONTINUE_URL", DefaultContinueUrl);
    var link := world.GenerateLink(email, continueUrl, out.minted);
    if link.None? {
      RespondFailed(res);
      return;
    }
    var resendKey := EnvOr(env, "RESEND_API_KEY", "");
    if resendKey == "" {
      RespondFailed(res);
      return;
    }
    var from := EnvOr(env, "RESEND_FROM", DefaultFrom);
    var ok := world.SendEmail(Message(from, email, Subject, EndpointHtml(link.value)), out.delivered);
    if !ok {
      RespondFailed(res);
      return;
    }
    res.Finish(OkJson);
  }

  /** A pre-flight request gets 200 with no body, and nothing else happens. */
  lemma OptionsIsAnsweredAlone(req: Request, env: Env, parse: string -> Option<JsValue>,
                               ready: bool, out: Outcomes)
    requires req.verb == "OPTIONS"
    ensures Decide(req, env, parse, ready, out) == Reply(200, NoBody, None, None, ready)
  {
  }

  /** Every method but POST and OPTIONS gets 405, and nothing else happens. */
  lemma OtherMethodsRejected(req: Request, env: Env, parse: string -> Option<JsValue>,
                             ready: bool, out: Outcomes)
    requires req.verb != "POST" && req.verb != "OPTIONS"
    ensures Decide(req, env, parse, ready, out) == Reply(405, Plain(MethodNotAllowed), None, None, ready)
  {
  }

  /** A POST whose email normalises to empty gets 400, and neither the admin app, the
      link minting nor the sender is touched. */
  lemma EmptyEmailRejected(req: Request, env: Env, parse: string -> Option<JsValue>,
                           ready: bool, out: Outcomes)
    requires req.verb == "POST" && RequestEmail(ParseBody(req.body, parse)) == Some("")
    ensures Decide(req, env, parse, ready, out) == Reply(400, ErrorJson(EmailRequired), None, None, ready)
  {
  }

  /** A POST with no body, or with an object body lacking `email`, gets 400 and
      touches nothing. */
  lemma MissingEmailRejected(req: Request, env: Env, parse: string -> Option<JsValue>,
                             ready: bool, out: Outcomes)
    requires req.verb == "POST"
    requires !Truthy(req.body) || (req.body.Obj? && "email" !in req.body.fields)
    ensures Decide(req, env, parse, ready, out) == Reply(400, ErrorJson(EmailRequired), None, None, ready)
  {
    var b := ParseBody(req.body, parse);
    RequestEmailCases(b, "");
    assert RequestEmail(b) == Some("");
  }

  /** A string body that parses to `null` makes reading `.email` throw, so the `catch`
      answers 500 instead of the 400 for a missing email. */
  lemma NullJsonBodyFails(s: string, env: Env, parse: string -> Option<JsValue>, ready: bool, out: Outcomes)
    requires s != "" && parse(s) == Some(Null)
    ensures Decide(Request("POST", Str(s)), env, parse, ready, out)
            == Reply(500, ErrorJson(SendFailed), None, None, ready)
  {
    assert ParseBody(Str(s), parse) == Null;
  }

  /** Reading `.email` from the parsed body throws exactly for a non-empty string body
      that parses to `null` or `undefined`; every other body yields an email, so with
      `EmptyEmailRejected` these are the only POSTs without an email that do not get
      400. */
  lemma ThrowingBodies(body: JsValue, parse: string -> Option<JsValue>)
    ensures RequestEmail(ParseBody(body, parse)).None? <==>
      body.Str? && body.s != "" && (parse(body.s) == Some(Null) || parse(body.s) == Some(Undefined))
  {
    RequestEmailCases(ParseBody(body, parse), "");
  }

  /** From the email check on, the reply is one of four fixed responses; a link is
      requested only for a non-empty email, and an email goes only to that address, with
      the fixed subject; `{ok: true}` means the send call for it resolved. */
  lemma DeliverReplies(email: string, env: Env, ready: bool, out: Outcomes)
    ensures var d := Deliver(email, env, ready, out);
      && ((d.status == 200 && d.payload == OkJson)
          || (d.status == 400 && d.payload == ErrorJson(EmailRequired))
          || (d.status == 500 && d.payload == ErrorJson(SendFailed)))
      && (d.payload == OkJson <==> d.message.Some? && out.delivered)
      && (d.link.Some? ==> email != "" && d.link.value.email == email)
      && (d.message.Some? ==> d.link.Some? && d.message.value.to == email && d.message.value.subject == Subject)
  {
  }

  /** No link is minted and no email sent unless the request is a POST with a non-empty
      email; an email goes only to the address a link was minted for, with the fixed
      subject. */
  lemma CallsNeedValidEmail(req: Request, env: Env, parse: string -> Option<JsValue>,
                            ready: bool, out: Outcomes)
    ensures var d := Decide(req, env, parse, ready, out);
      && (d.link.Some? ==> req.verb == "POST" && RequestEmail(ParseBody(req.body, parse)) == Some(d.link.value.email)
                           && d.link.value.email != "")
      && (d.message.Some? ==> d.link.Some? && d.message.value.to == d.link.value.email
                              && d.message.value.subject == Subject)
  {
    var e := RequestEmail(ParseBody(req.body, parse));
    if req.verb == "POST" && e.Some? {
      DeliverReplies(e.value, env, ready, out);
    }
  }

  /** The reply is one of five fixed responses, so no internal error text reaches the
      caller; 500 always carries the fixed message, and `{ok: true}` means an email was
      handed to the sender and the send call resolved. */
  lemma RepliesAreFixed(req: Request, env: Env, parse: string -> Option<JsValue>,
                        ready: bool, out: Outcomes)
    ensures var d := Decide(req, env, parse, ready, out);
      && ((d.status == 200 && d.payload == NoBody) || (d.status == 200 && d.payload == OkJson)
          || (d.status == 405 && d.payload == Plain(MethodNotAllowed))
          || (d.status == 400 && d.payload == ErrorJson(EmailRequired))
          || (d.status == 500 && d.payload == ErrorJson(SendFailed)))
      && (d.payload == OkJson <==> d.message.Some? && out.delivered)
  {
    var e := RequestEmail(ParseBody(req.body, parse));
    if req.verb == "POST" && e.Some? {
      DeliverReplies(e.value, env, ready, out);
    }
  }

  /** The link is minted before the Resend key is looked up: with the key unset, a
      valid request still mints a link and then fails with 500 without sending. */
  lemma MintPrecedesKeyCheck(req: Request, env: Env, parse: string -> Option<JsValue>,
                             ready: bool, out: Outcomes, email: string)
    requires req.verb == "POST" && RequestEmail(ParseBody(req.body, parse)) == Some(email) && email != ""
    requires ready || (EnvOr(env, "FIREBASE_SERVICE_ACCOUNT", "") != "" && out.credentialsOk)
    requires "RESEND_API_KEY" !in env
    ensures var d := Decide(req, env, parse, ready, out);
      d.status == 500 && d.link.Some? && d.link.value.email == email && d.message.None?
  {
    assert Decide(req, env, parse, ready, out) == Deliver(email, env, ready, out);
  }

  /** With `CORS_ALLOW_ORIGIN` unset, the allowed origin is the fixed default. */
  lemma CorsOriginDefault(env: Env)
    requires "CORS_ALLOW_ORIGIN" !in env
    ensures CorsHeaders(env)["Access-Control-Allow-Origin"] == DefaultOrigin
  {
  }

  /** With the variables unset, the continue URL and the sender take their fixed defaults. */
  lemma DefaultsWhenUnset(req: Request, env: Env, parse: string -> Option<JsValue>,
                          ready: bool, out: Outcomes)
    requires "CONTINUE_URL" !in env && "RESEND_FROM" !in env
    ensures var d := Decide(req, env, parse, ready, out);
      && (d.link.Some? ==> d.link.value.continueUrl == DefaultContinueUrl)
      && (d.message.Some? ==> d.message.value.from == DefaultFrom)
  {
    var e := RequestEmail(ParseBody(req.body, parse));
    if req.verb == "POST" && e.Some? {
      assert Decide(req, env, parse, ready, out) == Deliver(e.value, env, ready, out);
      DeliverDefaults(e.value, env, ready, out);
    }
  }

  lemma DeliverDefaults(email: string, env: Env, ready: bool, out: Outcomes)
    requires "CONTINUE_URL" !in env && "RESEND_FROM" !in env
    ensures var d := Deliver(email, env, ready, out);
      && (d.link.Some? ==> d.link.value.continueUrl == DefaultContinueUrl)
      && (d.message.Some? ==> d.message.value.from == DefaultFrom)
  {
  }
}
