# Verification-gated email sign-in, modelled in Dafny

This project models the email/password sign-in flow of the Keeps scrapbook app. The
flow is gated on email verification and has three parts:

- **The sign-in page's controller** (`src/components/AuthPage.jsx`). It has five
  handlers: sign-up, log-in, "Resend verification", "I verified—continue" and
  "Forgot password?". The handlers drive an identity provider and update the page
  state: `busy`, `error`, `notice`, `verifyScreen` and the navigation to
  `/dashboard`.
- **Two Cloud Functions** (`functions/index.js`). One is a hook that mails a
  verification link when an account is created. The other is a callable that mails one
  on demand. Both use a Resend client guard and an HTML template.
- **A serverless HTTP endpoint** (`src/api/verification.js`). It handles CORS,
  initialises the admin SDK once, parses the body robustly, and mints and mails a link.

The model is sequential. Each `await` is one atomic step. Any outcome of a foreign call
that the code cannot see is a parameter of the operation:

- a provider error code `fault: Option<Code>`;
- the minted link `minted: Option<string>` (`None` when minting rejects);
- whether the call `resend.emails.send` resolved (`delivered`); the code never reads
  the value it resolves with;
- whether the service-account credentials work (`credentialsOk`);
- `JSON.parse` as a function `parse: string -> Option<JsValue>`.

Files:

- `wrappers.dfy`: `Option`, `Result` and `Outcome`.
- `text.dfy`: JavaScript `trim` and `toLowerCase`, and the email normalisation
  `(email || "").trim().toLowerCase()` shared by all three parts.
- `jsvalues.dfy`: the JavaScript values that reach the servers, with truthiness,
  `a || b`, property access and `String(v)`.
- `services.dfy`: the two foreign services the servers call (link minting and email
  sending). Every request made is recorded in a log.
- `auth_page.dfy`: the provider (`IdentityProvider`, a class over a map from email to
  `Account(password, verified)` plus the session) and the page controller
  (`AuthController`). Each source handler is a method of the controller that updates
  the page and the provider step by step. Each method is proved to end in exactly the
  state that a pure step function gives, from the state before: `Signup`, `Login`,
  `Resend`, `Recheck` or `Forgot`, over the values `Page`, `Provider` and `Config`. The
  flow's guarantees are lemmas about those functions.
- `cloud_functions.dfy`: `getResend`, `verifyHtml`, the creation hook and the callable.
- `verification_api.dfy`: `initAdmin`, `allowCors` and the handler. The handler is
  proved against `Decide`, a pure function that gives the reply and the foreign calls
  of each request.
- `scenarios.dfy`: end-to-end runs of the page, for any typed address whose normal
  form is non-empty:
  - sign-up, a blocked log-in, the link, and a re-check that reaches the dashboard;
  - a re-check before the link is opened;
  - the same account reached under another spelling of its address;
  - a log-in without an account;
  - two resends;
  - the development shortcut in a development build and in a production build.

Invariants of the page, kept by every handler:

- No account stays signed in unverified unless the development shortcut is on, that
  is, `VITE_ALLOW_UNVERIFIED_LOGIN === "true"` in a development build (`Gated`, and
  the controller's `Valid`).
  This holds because the model's `signOut` cannot fail
  (`AuthPage.IdentityProvider.SignOut`). In the source, a `signOut` that rejects after
  a successful `createUserWithEmailAndPassword` (AuthPage.jsx:76) lands in the `catch`.
  The page would then show the sign-up fallback error and leave the new, unverified
  account signed in.
- `busy` is released on every exit (`ReleasesBusy`). The log `busyTrace` of every
  `setBusy` value shows that validation failures never set `busy`.
- The page never changes an existing account, so it never writes or clears a
  `verified` flag (`KeepsGate`).
- `emailNorm` is derived from the typed email when the page renders. The model keeps
  it as a field, recomputed whenever the email is typed (`Rendered`). No handler edits
  the form (`KeepsForm`).

Notes on what the code does:

- **Busy guard.** Only sign-up, log-in and resend are guarded by `busy`, through their
  disabled buttons (AuthPage.jsx:200, 240). Re-check and forgot-password have no guard
  (AuthPage.jsx:212, 244-245).
- **Re-check.** On a verified account, re-check navigates to `/dashboard` and then
  still signs out (AuthPage.jsx:251, 255).
- **Forgot-password.** It clears the error, keeps the previous notice, and sets the
  sent notice only on success (AuthPage.jsx:213-218).
- **Log-in validation.** Log-in checks only that the normalised email is non-empty
  (AuthPage.jsx:97); the six-character check is on sign-up alone (AuthPage.jsx:61).
- **Endpoint, missing email.** A POST without an email gets 400 (verification.js:40).
  The exception is a non-empty string body that parses to `null`, such as `"null"` or
  `" null\n"`: reading `.email` then throws, and the reply is 500
  (verification.js:34-39; `VerificationApi.NullJsonBodyFails`).
  `VerificationApi.ThrowingBodies` shows that only a non-empty string body that parses
  to `null` or `undefined` makes that read throw; `JSON.parse` never yields `undefined`.
- **Creation hook.** The hook exits silently when the user has no email
  (functions/index.js:52); it reports no error.
- **Verification emails.** The client asks the provider for its own verification email
  on sign-up and on resend. The Cloud Functions send separate emails through Resend.
  The model keeps the two apart.

## Model

| member | source | states |
|---|---|---|
| Text.TrimStartSpec | src/components/AuthPage.jsx:35 | the leading part of `trim`: a suffix of the input that does not start with white space, and everything dropped is white space |
| Text.TrimEndSpec | src/components/AuthPage.jsx:35 | the trailing part of `trim`: a prefix that does not end with white space, and everything dropped is white space |
| Text.TrimSpec | src/components/AuthPage.jsx:35 | `trim` yields the slice of the input outside which there is only white space and which neither starts nor ends with white space |
| Text.TrimmedSliceUnique | src/components/AuthPage.jsx:35 | that slice is unique, so `TrimSpec` determines the result of `trim` |
| Text.ToLowerSpec | src/components/AuthPage.jsx:35 | `toLowerCase` keeps the length and lower-cases each code point |
| Text.NormIdempotent | src/components/AuthPage.jsx:35 | normalising an email twice gives the same as normalising it once |
| Text.NormEmptyIffBlank | src/components/AuthPage.jsx:60 | the normalised email is empty exactly when the typed email is empty or all white space |
| Text.NormShape | src/components/AuthPage.jsx:35 | a normalised email has no capital A-Z and no white space at either end |
| Text.NormFixesNormal | src/components/AuthPage.jsx:35 | normalisation leaves an email unchanged exactly when it already has that shape |
| JsValues.GetMember | src/api/verification.js:39 | `body.email` throws exactly on `null` and `undefined`, and otherwise finds an object's own field |
| JsValues.NatToDecimal | functions/index.js:78 | `String(n)` yields a non-empty string of digits with no leading zero |
| JsValues.DecimalRoundTrip | functions/index.js:78 | reading that decimal numeral back gives the number |
| JsValues.StringOrEmptyCases | functions/index.js:78 | `String(v or "")` keeps a string field, gives "" for a falsy one, and gives a truthy value's `String` rendering |
| Services.World.GenerateLink | functions/index.js:54-57 | minting a link records the request for the email and continue URL, and yields the provider's answer |
| Services.World.SendEmail | functions/index.js:60-66 | handing an email to Resend records it and yields whether the send call resolved |
| CloudFunctions.GetResend | functions/index.js:20-27 | `getResend` throws, with the fixed message, exactly when the key is missing; otherwise it yields a client bound to the key |
| CloudFunctions.GreetingNamesUser | functions/index.js:31 | the greeting is the bare `Hi,` exactly when there is no display name, and different names give different greetings |
| CloudFunctions.VerifyHtmlEmbedsLink | functions/index.js:30-44 | the email opens with the greeting and holds the link twice: as the button's `href`, then as `<code>` text |
| CloudFunctions.SendVerifyEmailOnCreate | functions/index.js:47-72 | without an email nothing is minted or sent; otherwise a link is minted for the email and `CONTINUE_URL`, and the fixed sender and subject mail it only when minting succeeded and the key is set; every failure is dropped |
| CloudFunctions.CallableEmailCases | functions/index.js:78 | the callable's email is the normalised `data.email`, and it is empty for falsy `data` or a missing field |
| CloudFunctions.ResendVerification | functions/index.js:75-102 | an empty email fails with `invalid-argument` before any mint or send; otherwise a link is minted; a failed mint, a missing key or a send call that rejects fails with the fixed `internal` error; `{ ok: true }` comes exactly when the send call resolved |
| VerificationApi.EnvOr | src/api/verification.js:17 | an environment lookup with a fallback gives the variable when it is set and non-empty, otherwise the fallback |
| VerificationApi.AllowCors | src/api/verification.js:16-26 | the three CORS headers are always set; the request counts as handled exactly when it is OPTIONS, and then it gets 200 with an empty body |
| VerificationApi.InitAdmin | src/api/verification.js:8-14 | once an app exists, nothing happens; otherwise it fails when `FIREBASE_SERVICE_ACCOUNT` is missing, or else creates exactly one app when the credentials work |
| VerificationApi.ParseBody | src/api/verification.js:34-37 | a truthy non-string body is used as it is; a falsy body becomes `{}`; a string body is parsed, and one that does not parse becomes `{}` |
| VerificationApi.RequestEmailCases | src/api/verification.js:39 | a string `email` field is normalised; an object without the field gives ""; only a `null` or `undefined` body throws |
| VerificationApi.EndpointHtmlEmbedsLink | src/api/verification.js:59-67 | the endpoint's email holds the link twice: as the button's `href`, then as `<code>` text |
| VerificationApi.RespondFailed | src/api/verification.js:71-74 | the `catch` answers 500 with the fixed message and leaves the headers alone |
| VerificationApi.Handle | src/api/verification.js:28-75 | the response status, body and headers, the links minted, the emails sent and the admin state are exactly those `Decide` gives for the request |
| VerificationApi.OptionsIsAnsweredAlone | src/api/verification.js:21-30 | a pre-flight request gets 200 with no body, and nothing is minted, sent or initialised |
| VerificationApi.OtherMethodsRejected | src/api/verification.js:31 | every method but POST and OPTIONS gets 405 `Method Not Allowed`, and nothing else happens |
| VerificationApi.EmptyEmailRejected | src/api/verification.js:39-40 | a POST whose email normalises to "" gets 400 `Email is required`, and neither admin init, minting nor sending runs |
| VerificationApi.MissingEmailRejected | src/api/verification.js:34-40 | a POST with no body, or with an object body lacking `email`, gets that same 400 and touches nothing |
| VerificationApi.NullJsonBodyFails | src/api/verification.js:34-40 | every non-empty string body that parses to `null` gets 500 instead of 400, with nothing minted or sent |
| VerificationApi.ThrowingBodies | src/api/verification.js:34-39 | reading `.email` from the parsed body throws exactly when the body is a non-empty string that parses to `null` or `undefined` |
| VerificationApi.DeliverReplies | src/api/verification.js:39-75 | from the email check on, the reply is 200 `{ok:true}`, 400 or 500 with fixed texts; `{ok:true}` means the send call for an email resolved; links and emails go only to the request's non-empty email, with the fixed subject |
| VerificationApi.CallsNeedValidEmail | src/api/verification.js:39-55 | no link is minted and no email sent unless the request is a POST with a non-empty normalised email, and an email goes only to the address its link was minted for |
| VerificationApi.RepliesAreFixed | src/api/verification.js:28-75 | every reply is one of five fixed status and body pairs, so no internal error text reaches the caller, and `{ok:true}` means an email was handed over and the send call resolved |
| VerificationApi.MintPrecedesKeyCheck | src/api/verification.js:44-51 | with `RESEND_API_KEY` unset, a valid request still mints a link, then fails with 500 and sends nothing |
| VerificationApi.CorsOriginDefault | src/api/verification.js:17 | with `CORS_ALLOW_ORIGIN` unset, the allowed origin is `http://localhost:5173` |
| VerificationApi.DefaultsWhenUnset | src/api/verification.js:44-54 | with the variables unset, links return to `http://localhost:5173/login` and emails come from the fixed Keeps sender |
| AuthPage.SignInNeedsAccount | src/components/AuthPage.jsx:101 | a sign-in succeeds exactly for an existing account with the matching password and no provider failure, and it reports that account's `verified` flag |
| AuthPage.IdentityProvider.CreateUser | src/components/AuthPage.jsx:65 | `createUserWithEmailAndPassword` rejects with a provider fault, `email-already-in-use` or `weak-password`, changing nothing; otherwise it adds the account unverified and signs it in |
| AuthPage.IdentityProvider.SignIn | src/components/AuthPage.jsx:101 | `signInWithEmailAndPassword` yields the account's flag or the error code, and signs in exactly on success |
| AuthPage.IdentityProvider.SendEmailVerification | src/components/AuthPage.jsx:68 | a verification email to the address is recorded exactly when the call succeeds |
| AuthPage.IdentityProvider.SignOut | src/components/AuthPage.jsx:76 | `signOut` clears the session and changes nothing else |
| AuthPage.IdentityProvider.SendPasswordResetEmail | src/components/AuthPage.jsx:215 | the call rejects with the given code and changes nothing, or resolves for any address; once it resolves, a reset email is recorded exactly when the account exists |
| AuthPage.IdentityProvider.ApplyVerificationLink | src/components/AuthPage.jsx:250 | opening the link sets the account's `emailVerified`; nothing ever clears it |
| AuthPage.SignupMessageTable | src/components/AuthPage.jsx:79-86 | every sign-up error is non-empty, and it is the fallback exactly when the code is not one of the four mapped ones |
| AuthPage.LoginMessageTable | src/components/AuthPage.jsx:119-128 | every log-in error is non-empty, and it is the fallback exactly when the code is not one of the five mapped ones |
| AuthPage.ResendMessages | src/components/AuthPage.jsx:152-156 | the resend handler has its own message for `user-not-found` and for `wrong-password`, and one generic message for every other code |
| AuthPage.ResetMessages | src/components/AuthPage.jsx:216-218 | forgot-password has its own message for `user-not-found` and one generic message for every other code |
| AuthPage.Verify | src/components/AuthPage.jsx:250 | opening a link keeps the set of accounts, sets that account's flag, and changes no other account |
| AuthPage.SignupValidation | src/components/AuthPage.jsx:55-61 | without a provider handle, with an empty normalised email or with a password under six characters, sign-up sets the matching error (none without a handle), makes no provider call and never sets `busy` |
| AuthPage.SignupSignsOut | src/components/AuthPage.jsx:62-77 | a created account is added unverified under the normalised email and signed out, the page lands on the verify screen, and a verification email to that address is recorded exactly when the send succeeds, with the sent notice or the could-not-send error |
| AuthPage.SignupRejected | src/components/AuthPage.jsx:78-86 | a rejected creation sets the error the code maps to and changes neither the provider nor the screen |
| AuthPage.LoginGate | src/components/AuthPage.jsx:92-117 | log-in navigates exactly when the sign-in succeeds and the account is verified or the development shortcut is on, and then the account exists and stays signed in; no account changes and no email is sent |
| AuthPage.LoginOutcomes | src/components/AuthPage.jsx:104-128 | an unverified account without the shortcut is signed out onto the verify screen with the not-verified error; with the shortcut it stays signed in with the development notice; a failed sign-in sets the mapped error and changes nothing else |
| AuthPage.ResendKeepsAccounts | src/components/AuthPage.jsx:134-156 | resend never changes an account or the screen; it records one verification email to the normalised email exactly when the sign-in and the send succeed; a successful sign-in is always signed out again; a failed one sets its message and changes nothing else |
| AuthPage.RecheckNavigatesIffVerified | src/components/AuthPage.jsx:245-258 | re-check navigates to `/dashboard` exactly when the sign-in reports the account verified; every successful sign-in is signed out again; otherwise it says still not verified or could not check |
| AuthPage.ForgotOutcomes | src/components/AuthPage.jsx:212-218 | forgot-password shows the sent notice exactly when the address is non-empty, a handle exists and the reset call resolves, whether or not the account exists; a reset email to the normalised email is recorded exactly when, in addition, the account exists; otherwise it shows the mapped error and keeps the previous notice; it never sets `busy`, navigates, or changes an account or the session |
| AuthPage.SignupReleasesBusy | src/components/AuthPage.jsx:62-89 | sign-up ends with `busy` released, having set it once or not at all, and leaves the form alone |
| AuthPage.LoginReleasesBusy | src/components/AuthPage.jsx:99-131 | log-in ends with `busy` released, having set it once or not at all, and leaves the form alone |
| AuthPage.ResendReleasesBusy | src/components/AuthPage.jsx:140-159 | resend ends with `busy` released, having set it once or not at all, and leaves the form alone |
| AuthPage.RecheckReleasesBusy | src/components/AuthPage.jsx:244-261 | re-check has no busy guard: from any state it sets `busy` once and releases it once, and it leaves the form alone |
| AuthPage.ForgotReleasesBusy | src/components/AuthPage.jsx:209-220 | forgot-password has no busy guard: from any state it leaves `busy`, its log and the form as they were |
| AuthPage.SignupKeepsGate | src/components/AuthPage.jsx:62-77 | sign-up keeps every existing account and leaves nobody signed in unverified |
| AuthPage.LoginKeepsGate | src/components/AuthPage.jsx:99-117 | log-in keeps every account and leaves an account signed in only when it is verified or the shortcut is on |
| AuthPage.ResendKeepsGate | src/components/AuthPage.jsx:140-151 | resend keeps every account and leaves nobody signed in unverified |
| AuthPage.RecheckKeepsGate | src/components/AuthPage.jsx:247-255 | re-check keeps every account and leaves nobody signed in unverified |
| AuthPage.ForgotKeepsGate | src/components/AuthPage.jsx:212-218 | forgot-password keeps every account and the session |
| AuthPage.VerifyKeepsGate | src/components/AuthPage.jsx:250 | opening a link keeps the gate, and every flag that was set stays set |
| AuthPage.AuthController.constructor | src/components/AuthPage.jsx:20-25 | the page starts idle, with empty fields and messages, off the verify screen, and rendered; the provider may already hold a restored session, provided it is gated |
| AuthPage.AuthController.TypeEmail | src/components/AuthPage.jsx:35 | typing sets the email and, as the next render does, its `emailNorm`, and nothing else |
| AuthPage.AuthController.TypePassword | src/components/AuthPage.jsx:22 | typing sets the password and nothing else |
| AuthPage.AuthController.LeaveVerifyScreen | src/components/AuthPage.jsx:243 | "Back" leaves the verify screen and nothing else |
| AuthPage.AuthController.HandleSignup | src/components/AuthPage.jsx:55-90 | the page and the provider end exactly as `Signup` gives from the state before, and the gate still holds |
| AuthPage.AuthController.HandleLogin | src/components/AuthPage.jsx:92-132 | the page and the provider end exactly as `Login` gives from the state before, and the gate still holds |
| AuthPage.AuthController.ResendVerification | src/components/AuthPage.jsx:134-160 | the page and the provider end exactly as `Resend` gives from the state before, and the gate still holds |
| AuthPage.AuthController.RecheckVerification | src/components/AuthPage.jsx:245-262 | the page and the provider end exactly as `Recheck` gives from the state before, and the gate still holds |
| AuthPage.AuthController.ForgotPassword | src/components/AuthPage.jsx:212-220 | the page and the provider end exactly as `Forgot` gives from the state before, and the gate still holds |
| Scenarios.SignUpVerifyRecheck | src/components/AuthPage.jsx:55-132 | sign-up creates the account unverified under the normalised address and ends signed out on the verify screen with one verification email sent; after "Back", a log-in before the link is blocked with the not-verified error and returns to the verify screen; after the link, a re-check from there reaches `/dashboard` and signs out |
| Scenarios.RecheckBeforeVerifying | src/components/AuthPage.jsx:245-262 | a re-check from the verify screen before the link is opened says still not verified, goes nowhere, and ends signed out on that screen |
| Scenarios.OtherSpellingFindsAccount | src/components/AuthPage.jsx:35 | an account created under one spelling of an address is found by a log-in under any spelling with the same normal form |
| Scenarios.LogInWithoutAccount | src/components/AuthPage.jsx:118-128 | logging in to an address without an account shows "No account found for that email. Create an account first." and goes nowhere |
| Scenarios.ResendTwice | src/components/AuthPage.jsx:134-160 | two resends from the verify screen for an unverified account send two verification emails and leave it unverified and signed out |
| Scenarios.ResetForUnknownAddress | src/components/AuthPage.jsx:212-218 | a reset for an address with no account shows the sent notice and sends nothing when the call resolves, and shows the no-account message when it rejects with `user-not-found` |
| Scenarios.DevBypassOnlyInDevelopment | src/components/AuthPage.jsx:104-110 | with the flag set, an unverified account reaches the dashboard and stays signed in in a development build only; a production build still blocks it |

## Left out

- Google sign-in (`handleGoogle`), `EmailLoginDialog.jsx`, `firebase.js`, `App.jsx` and
  `Landing.jsx` are not part of this model: they are popup OAuth, another sign-in
  wrapper, configuration, routing and static markup, with no verification gate.
- Markup, CSS, `console.*` logging and the `alert("Auth not configured")` dialog are
  left out. Without a provider handle, sign-up, log-in and resend just return after
  clearing the messages.
- Asynchrony and React re-rendering are left out. Each `await` is one atomic step;
  disabled buttons become the precondition `!busy`.
- The provider's internals are left out: credential checking, link cryptography, link
  expiry and single use, how the address and continue URL of client-side verification
  emails are chosen, and Resend delivery. The provider is a map from email to password
  and flag, and every call may also fail with an arbitrary code.
- AuthPage.IdentityProvider.SendPasswordResetEmail: whether an unknown address
  rejects with `user-not-found` or resolves without a mail depends on the Firebase
  project's email-enumeration protection. The model does not fix that setting: the
  rejection is one of the codes the caller may supply, and a resolved call sends a mail
  only to an existing account.
- Services.World.SendEmail: `delivered` says only that `resend.emails.send` resolved.
  The code never reads the `{ data, error }` value it resolves with
  (functions/index.js:60, 90; src/api/verification.js:55). So a message Resend refuses
  still gets `{ ok: true }`, and the model does not tell the two apart.
- AuthPage.IdentityProvider.SignOut: the model cannot fail. In the source, a
  rejected `signOut` would land in the handler's `catch`.
- Text.ToLowerSpec: lower-cases only ASCII A-Z, not the full Unicode case mapping of
  `toLowerCase`.
- AuthPage.SignupValidation: the six-character check counts code points,
  while JavaScript's `length` counts UTF-16 code units.
- JsValues.ToStr: numbers are integers only; fractional and exponent forms of
  `String(n)` are not modelled.
- JsValues.GetMember: finds only an object's own fields, with no prototype chain.
  Likewise, a code such as `constructor` is not found in the message maps, though
  JavaScript would find it on `Object.prototype`.
- CloudFunctions.VerifyHtml and VerificationApi.EndpointHtml: keep the greeting, the
  fixed sentences and the places of the link, but drop the inline `style` attributes
  and the template's whitespace.
- VerificationApi.InitAdmin: one `credentialsOk` outcome stands for both `JSON.parse`
  of the service account and `admin.credential.cert`. The app created is counted, not
  built.
- The Cloud Functions' module-level `admin.initializeApp()`, region selection and the
  reading of `functions.config()` are left out. The configured key is a parameter.
- The "Back to login" and mode-switch links are left out: they are pure navigation.
