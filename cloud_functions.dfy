/** The Cloud Functions deployment (functions/index.js): the Resend client guard, the
    verification email template, the hook that mails a link when an account is created,
    and the callable that mails one on demand. */
module CloudFunctions {
  import opened Wrappers
  import opened Text
  import opened JsValues
  import opened Services

  /** Where the verification link returns to. */
  const ContinueUrl := "http://localhost:5173/login"
  const AppName := "Keeps"
  const Sender := "Keeps <onboarding@mail.resend.dev>"
  const Subject := "Verify your email for " + AppName
  const MissingKeyText := "Missing Resend API key. Set with `firebase functions:config:set resend.key=YOUR_KEY`"

  /** A Resend client bound to an API key. */
  datatype ResendClient = ResendClient(key: string)

  /** `getResend()`: `key` is the configured `resend.key`, with `""` standing for a
      missing or empty setting. */
  function GetResend(key: string): (r: Result<ResendClient, string>)
    ensures r.Failure? <==> key == ""
    ensures r.Success? ==> r.value.key == key
    ensures r.Failure? ==> r.error == MissingKeyText
  {
    if key == "" then Failure(MissingKeyText) else Success(ResendClient(key))
  }

  /** The greeting line of the template. */
  function Greeting(displayName: string): string {
    if displayName != "" then "Hi " + displayName + "," else "Hi,"
  }

  /** The greeting is bare exactly when there is no display name, and different
      display names give different greetings. */
  lemma GreetingNamesUser(a: string, b: string)
    ensures Greeting(a) == "Hi," <==> a == ""
    ensures Greeting(a) == Greeting(b) ==> a == b
  {
    if Greeting(a) == Greeting(b) && a != "" && b != "" {
      assert a == Greeting(a)[3..|Greeting(a)| - 1];
      assert b == Greeting(b)[3..|Greeting(b)| - 1];
    }
  }

  // The fixed pieces of the template, markup only.
  const GreetOpen := "<div><h2>Verify your email</h2><p>"
  const GreetClose := " thanks for signing up to <b>" + AppName + "</b>.</p><p>Click the button below to verify your email and continue:</p><p>"
  const HrefOpen := "<a href=\""
  const HrefClose := "\">Verify Email</a>"
  const Middle := "</p><p>If the button doesn't work, copy & paste this link:</p>"
  const CodeOpen := "<code>"
  const CodeClose := "</code></div>"

  /** `verifyHtml(link, displayName)`. */
  function VerifyHtml(link: string, displayName: string): string {
    GreetOpen + Greeting(displayName) + GreetClose
      + HrefOpen + link + HrefClose + Middle + CodeOpen + link + CodeClose
  }

  /** The email opens with the greeting and carries the link twice: first as the
      target of the button, then as plain text. */
  lemma VerifyHtmlEmbedsLink(link: string, displayName: string)
    ensures var h := VerifyHtml(link, displayName);
      && h[..|GreetOpen| + |Greeting(displayName)|] == GreetOpen + Greeting(displayName)
      && exists p, q :: p + |link| <= q
           && Encloses(h, p, HrefOpen, link, HrefClose)
           && Encloses(h, q, CodeOpen, link, CodeClose)
  {
    EnclosedTwice(GreetOpen + Greeting(displayName) + GreetClose, HrefOpen, link, HrefClose,
                  Middle, CodeOpen, CodeClose);
  }

  /** The Auth user record the creation hook receives; `None` is a missing field. */
  datatype UserRecord = UserRecord(email: Option<string>, displayName: Option<string>)

  /** `user.email`, with a missing field read as the empty string. */
  function EmailOf(user: UserRecord): string {
    if user.email.Some? then user.email.value else ""
  }

  /** `user.displayName || ""`. */
  function DisplayNameOf(user: UserRecord): string {
    if user.displayName.Some? then user.displayName.value else ""
  }

  /** `sendVerifyEmailOnCreate`: fired when an account is created. `resendKey` is the
      configured key, `minted` and `delivered` the outcomes of the two foreign calls.
      It has no result and never throws: every failure is logged and dropped. */
  method SendVerifyEmailOnCreate(world: World, resendKey: string, user: UserRecord,
                                 minted: Option<string>, delivered: bool)
    modifies world
    ensures EmailOf(user) == "" ==>
      world.linkRequests == old(world.linkRequests) && world.outbox == old(world.outbox)
    ensures EmailOf(user) != "" ==>
      world.linkRequests == old(world.linkRequests) + [LinkRequest(EmailOf(user), ContinueUrl)]
    ensures EmailOf(user) != "" ==>
      world.outbox == old(world.outbox) +
        if minted.Some? && resendKey != ""
        then [Message(Sender, EmailOf(user), Subject, VerifyHtml(minted.value, DisplayNameOf(user)))]
        else []
  {
    var email := EmailOf(user);
    if email == "" {
      return;
    }
    var link := world.GenerateLink(email, ContinueUrl, minted);
    if link.None? {
      return;
    }
    var client := GetResend(resendKey);
    if client.Failure? {
      return;
    }
    var _ := world.SendEmail(Message(Sender, email, Subject, VerifyHtml(link.value, DisplayNameOf(user))), delivered);
  }

  /** The error a callable function rejects with. */
  datatype HttpsError = HttpsError(code: string, message: string)

  /** The `{ ok: true }` reply. */
  datatype Ack = Ack

  const InvalidArgument := HttpsError("invalid-argument", "Email is required.")
  const Internal := HttpsError("internal", "Failed to send verification email.")

  /** `String((data && data.email) || "").trim().toLowerCase()`. */
  function CallableEmail(data: JsValue): string {
    Norm(StringOrEmpty(if Truthy(data) then Member(data, "email") else data))
  }

  /** A string `email` field is normalised; a falsy `data` or a missing field gives the
      empty email. */
  lemma CallableEmailCases(data: JsValue, s: string)
    ensures data == Obj(map["email" := Str(s)]) ==> CallableEmail(data) == Norm(s)
    ensures !Truthy(data) ==> CallableEmail(data) == ""
    ensures data.Obj? && "email" !in data.fields ==> CallableEmail(data) == ""
  {
    NormEmptyIffBlank("");
    if data == Obj(map["email" := Str(s)]) {
      assert Member(data, "email") == Str(s);
      assert StringOrEmpty(Str(s)) == s;
    }
  }

  /** The `resendVerification` callable. `resendKey`, `minted` and `delivered` are as
      for the hook. */
  method ResendVerification(world: World, resendKey: string, data: JsValue,
                            minted: Option<string>, delivered: bool)
    returns (r: Result<Ack, HttpsError>)
    modifies world
    ensures CallableEmail(data) == "" ==>
      r == Failure(InvalidArgument)
      && world.linkRequests == old(world.linkRequests) && world.outbox == old(world.outbox)
    ensures CallableEmail(data) != "" ==>
      world.linkRequests == old(world.linkRequests) + [LinkRequest(CallableEmail(data), ContinueUrl)]
    ensures CallableEmail(data) != "" && (minted.None? || resendKey == "") ==>
      r == Failure(Internal) && world.outbox == old(world.outbox)
    ensures CallableEmail(data) != "" && minted.Some? && resendKey != "" ==>
      && world.outbox == old(world.outbox) + [Message(Sender, CallableEmail(data), Subject, VerifyHtml(minted.value, ""))]
      && r == if delivered then Success(Ack) else Failure(Internal)
    ensures r.Failure? ==> r.error == InvalidArgument || r.error == Internal
  {
    var email := CallableEmail(data);
    if email == "" {
      return Failure(InvalidArgument);
    }
    var link := world.GenerateLink(email, ContinueUrl, minted);
    if link.None? {
      return Failure(Internal);
    }
    var client := GetResend(resendKey);
    if client.Failure? {
      return Failure(Internal);
    }
    var ok := world.SendEmail(Message(Sender, email, Subject, VerifyHtml(link.value, "")), delivered);
    if !ok {
      return Failure(Internal);
    }
    return Success(Ack);
  }
}
