/** The sign-in page's email/password controller (src/components/AuthPage.jsx) and the
    identity provider it drives. The provider owns the accounts, their `verified` flags
    and the current session; the controller owns the page state (`busy`, `error`,
    `notice`, `verifyScreen`, the typed email and password) and the navigations it
    makes. Every provider call is one atomic step whose failure, when the provider may
    fail for its own reasons, is passed in as an error code.

    Each handler is a method of `AuthController` that updates the page and the provider
    step by step, and is proved to end in the state a pure step function (`Signup`,
    `Login`, `Resend`, `Recheck`, `Forgot`) gives; the flow's guarantees are lemmas
    about those functions. */
module AuthPage {
  import opened Wrappers
  import opened Text

  /** A provider error code such as "auth/user-not-found"; "" for an error without one. */
  type Code = string

  /** An email/password account as the provider stores it. */
  datatype Account = Account(password: string, verified: bool)

  const EmailInUse: Code := "auth/email-already-in-use"
  const WeakPassword: Code := "auth/weak-password"
  const UserNotFound: Code := "auth/user-not-found"
  const WrongPassword: Code := "auth/wrong-password"

  /** Why `createUserWithEmailAndPassword` rejects, if it does: `fault` is a failure the
      provider reports for reasons of its own (a malformed address, a disabled sign-in
      method, the network). */
  function CreateFailure(accounts: map<string, Account>, email: string, password: string,
                         fault: Option<Code>): Option<Code>
  {
    if fault.Some? then fault
    else if email in accounts then Some(EmailInUse)
    else if |password| < 6 then Some(WeakPassword)
    else None
  }

  /** What `signInWithEmailAndPassword` yields: the account's `emailVerified`, or the
      error code it rejects with. */
  function SignInResult(accounts: map<string, Account>, email: string, password: string,
                        fault: Option<Code>): Result<bool, Code>
  {
    if fault.Some? then Failure(fault.value)
    else if email !in accounts then Failure(UserNotFound)
    else if accounts[email].password != password then Failure(WrongPassword)
    else Success(accounts[email].verified)
  }

  /** The reset emails after a `sendPasswordResetEmail` for `email` resolves: a mail goes
      out only to an existing account, while the call resolves for any address (with
      email-enumeration protection on, an unknown address is not reported). */
  function ResetSends(accounts: map<string, Account>, mails: seq<string>, email: string): seq<string> {
    if email in accounts then mails + [email] else mails
  }

  /** A sign-in only succeeds for an existing account with its own password, and then
      reports that account's flag. */
  lemma SignInNeedsAccount(accounts: map<string, Account>, email: string, password: string,
                           fault: Option<Code>)
    ensures SignInResult(accounts, email, password, fault).Success? <==>
      fault.None? && email in accounts && accounts[email].password == password
    ensures SignInResult(accounts, email, password, fault).Success? ==>
      SignInResult(accounts, email, password, fault).value == accounts[email].verified
  {
  }

  /** The accounts after the verification link for `email` is opened. */
  function Verify(accounts: map<string, Account>, email: string): (r: map<string, Account>)
    ensures r.Keys == accounts.Keys
    ensures email in accounts ==> r[email] == Account(accounts[email].password, true)
    ensures forall e :: e in accounts && e != email ==> r[e] == accounts[e]
  {
    if email in accounts then accounts[email := Account(accounts[email].password, true)] else accounts
  }

  /** What the provider holds: the accounts, the signed-in account's email
      (`auth.currentUser`), and every address a verification or a password-reset email
      was sent to, in order. */
  datatype Provider = Provider(accounts: map<string, Account>, session: Option<string>,
                               verificationMails: seq<string>, resetMails: seq<string>)

  /** The provider as the page sees it. */
  class IdentityProvider {
    var accounts: map<string, Account>
    var session: Option<string>
    var verificationMails: seq<string>
    var resetMails: seq<string>

    function State(): Provider
      reads this
    {
      Provider(accounts, session, verificationMails, resetMails)
    }

    constructor (existing: map<string, Account>)
      ensures State() == Provider(existing, None, [], [])
    {
      accounts, session, verificationMails, resetMails := existing, None, [], [];
    }

    /** `createUserWithEmailAndPassword`: on success the new, unverified account is
        signed in. */
    method CreateUser(email: string, password: string, fault: Option<Code>) returns (r: Outcome<Code>)
      modifies this
      ensures var f := CreateFailure(old(accounts), email, password, fault);
        && (f.Some? ==> r == Fail(f.value) && State() == old(State()))
        && (f.None? ==> r == Pass && State() == old(State()).(accounts := old(accounts)[email := Account(password, false)],
                                                              session := Some(email)))
    {
      var f := CreateFailure(accounts, email, password, fault);
      if f.Some? {
        return Fail(f.value);
      }
      accounts := accounts[email := Account(password, false)];
      session := Some(email);
      return Pass;
    }

    /** `signInWithEmailAndPassword`: on success the account is signed in. */
    method SignIn(email: string, password: string, fault: Option<Code>) returns (r: Result<bool, Code>)
      modifies this
      ensures r == SignInResult(old(accounts), email, password, fault)
      ensures State() == if r.Success? then old(State()).(session := Some(email)) else old(State())
    {
      r := SignInResult(accounts, email, password, fault);
      if r.Success? {
        session := Some(email);
      }
    }

    /** `sendEmailVerification(user)` for the signed-in user `email`. */
    method SendEmailVerification(email: string, fault: Option<Code>) returns (r: Outcome<Code>)
      modifies this
      ensures r == if fault.Some? then Fail(fault.value) else Pass
      ensures State() == if r.Pass? then old(State()).(verificationMails := old(verificationMails) + [email])
                         else old(State())
    {
      if fault.Some? {
        return Fail(fault.value);
      }
      verificationMails := verificationMails + [email];
      return Pass;
    }

    /** `signOut`. */
    method SignOut()
      modifies this
      ensures State() == old(State()).(session := None)
    {
      session := None;
    }

    /** `sendPasswordResetEmail`. `fault` is the code it rejects with, if it does; that
        outcome does not depend on the accounts (`user-not-found` is one `fault` the
        provider may give). When it resolves, a mail is recorded only for an existing
        account. */
    method SendPasswordResetEmail(email: string, fault: Option<Code>) returns (r: Outcome<Code>)
      modifies this
      ensures fault.Some? ==> r == Fail(fault.value) && State() == old(State())
      ensures fault.None? ==>
        r == Pass && State() == old(State()).(resetMails := ResetSends(old(accounts), old(resetMails), email))
    {
      if fault.Some? {
        return Fail(fault.value);
      }
      resetMails := ResetSends(accounts, resetMails, email);
      return Pass;
    }

    /** The user opens a verification link outside the page: the provider sets the
        account's flag. */
    method ApplyVerificationLink(email: string)
      modifies this
      ensures State() == old(State()).(accounts := Verify(old(accounts), email))
    {
      accounts := Verify(accounts, email);
    }
  }

  // The page's fixed messages.
  const EnterEmail := "Please enter your email."
  const ShortPassword := "Password must be at least 6 characters."
  const VerificationSent := "We sent a verification email. Please verify your email, then log in."
  const VerificationNotSent := "Could not send verification email. Check your Authorized domains and Project support email in Firebase Console."
  const DevBypassNotice := "[DEV] Email not verified, but bypass is enabled. Disable VITE_ALLOW_UNVERIFIED_LOGIN for prod."
  const NotVerified := "Your email isn’t verified. Click ‘Resend verification’. Then check your inbox/spam and use ‘I verified—continue’."
  const ResendEnterEmail := "Enter your email above, then click Resend."
  const Resent := "Verification email re-sent. Check your inbox (and spam)."
  const ResendNotSent := "Could not resend verification email. Check your Authorized domains and Project support email."
  const NoAccount := "No account found for that email. Create an account first."
  const ResendWrongPassword := "Password incorrect. Enter the same password you used when signing up."
  const ResendFailed := "Could not resend verification email. Try again later."
  const StillNotVerified := "Still not verified. Check your inbox or click Resend."
  const RecheckFailed := "Could not check verification. Try again."
  const ResetEnterEmail := "Enter your email above, then click Forgot password."
  const ResetSent := "Password reset email sent. Check your inbox."
  const ResetNoAccount := "No account found for that email."
  const ResetFailed := "Could not send reset email. Try again later."

  const Dashboard := "/dashboard"

  const SignupMessages: map<Code, string> := map[
    EmailInUse := "That email is already registered. Try logging in.",
    "auth/invalid-email" := "That email looks invalid.",
    WeakPassword := "Password must be at least 6 characters.",
    "auth/operation-not-allowed" := "Email/Password is disabled for this project. Enable it in Firebase → Authentication → Sign-in method."
  ]
  const SignupFallback := "Sign up failed. Try a different email or password."

  const LoginMessages: map<Code, string> := map[
    UserNotFound := "No account found for that email. Create an account first.",
    WrongPassword := "Incorrect password. Try again.",
    "auth/invalid-email" := "That email looks invalid.",
    "auth/too-many-requests" := "Too many attempts. Please wait and try again.",
    "auth/invalid-credential" := "This email may be registered with a different sign-in method (e.g., Google). Try that method."
  ]
  const LoginFallback := "Login failed. Check email/password."

  /** The sign-up error for a provider code: `map[code] || fallback`. */
  function SignupMessage(code: Code): string {
    if code in SignupMessages then SignupMessages[code] else SignupFallback
  }

  /** The log-in error for a provider code: `map[code] || fallback`. */
  function LoginMessage(code: Code): string {
    if code in LoginMessages then LoginMessages[code] else LoginFallback
  }

  /** The resend error when the transient sign-in fails. */
  function ResendSignInMessage(code: Code): string {
    if code == UserNotFound then NoAccount
    else if code == WrongPassword then ResendWrongPassword
    else ResendFailed
  }

  /** The forgot-password error for a provider code. */
  function ResetMessage(code: Code): string {
    if code == UserNotFound then ResetNoAccount else ResetFailed
  }

  /** Every sign-up error shown is non-empty, and it is the fallback exactly when the
      code is not one of the table's four, so known and unknown codes are told apart. */
  lemma SignupMessageTable(code: Code)
    ensures SignupMessage(code) != ""
    ensures SignupMessage(code) == SignupFallback <==>
      code !in {EmailInUse, "auth/invalid-email", WeakPassword, "auth/operation-not-allowed"}
    ensures code == WeakPassword ==> SignupMessage(code) == ShortPassword
  {
    if code in SignupMessages {
      assert SignupMessages[code] != SignupFallback;
    }
  }

  /** Every log-in error shown is non-empty, and it is the fallback exactly when the
      code is not one of the table's five. */
  lemma LoginMessageTable(code: Code)
    ensures LoginMessage(code) != ""
    ensures LoginMessage(code) == LoginFallback <==>
      code !in {UserNotFound, WrongPassword, "auth/invalid-email", "auth/too-many-requests", "auth/invalid-credential"}
    ensures code == UserNotFound ==> LoginMessage(code) == NoAccount
  {
    if code in LoginMessages {
      assert LoginMessages[code] != LoginFallback;
    }
  }

  /** The resend handler singles out `user-not-found` and `wrong-password` and gives one
      generic message for every other code. */
  lemma ResendMessages(code: Code)
    ensures ResendSignInMessage(code) == NoAccount <==> code == UserNotFound
    ensures ResendSignInMessage(code) == ResendWrongPassword <==> code == WrongPassword
    ensures ResendSignInMessage(code) in {NoAccount, ResendWrongPassword, ResendFailed}
  {
  }

  /** The forgot-password handler singles out `user-not-found` and gives one generic
      message for every other code. */
  lemma ResetMessages(code: Code)
    ensures ResetMessage(code) == ResetNoAccount <==> code == UserNotFound
    ensures ResetMessage(code) in {ResetNoAccount, ResetFailed}
  {
  }

  /** The build the page runs in: whether the provider handle `auth` exists, the setting
      `VITE_ALLOW_UNVERIFIED_LOGIN`, and whether it is a development build. */
  datatype Config = Config(configured: bool, allowUnverified: string, dev: bool)

  /** The development shortcut that lets an unverified account through. */
  predicate DevBypass(c: Config) {
    c.allowUnverified == "true" && c.dev
  }

  /** The page's state: the typed email, the `emailNorm` derived from it when the page
      rendered, the typed password, `busy`, the two messages, whether the verify screen
      shows, every `nav(...)` made, and every value passed to `setBusy`. */
  datatype Page = Page(email: string, emailNorm: string, password: string, busy: bool, error: string,
                       notice: string, verifyScreen: bool, navigations: seq<string>, busyTrace: seq<bool>)

  /** The page has rendered since the email last changed, so `emailNorm` is the typed
      email normalised. */
  predicate Rendered(pg: Page) {
    pg.emailNorm == Norm(pg.email)
  }

  /** The page after a handler that set `busy` in its `try` and released it in its
      `finally`. */
  function Released(pg: Page): Page {
    pg.(busy := false, busyTrace := pg.busyTrace + [true, false])
  }

  /** `handleSignup`: validate, create the account, request the verification email,
      sign out. */
  function Signup(c: Config, pg: Page, pr: Provider, createFault: Option<Code>, sendFault: Option<Code>): (Page, Provider) {
    var pg := pg.(error := "", notice := "");
    var e := pg.emailNorm;
    if !c.configured then (pg, pr)
    else if e == "" then (pg.(error := EnterEmail), pr)
    else if |pg.password| < 6 then (pg.(error := ShortPassword), pr)
    else
      var f := CreateFailure(pr.accounts, e, pg.password, createFault);
      if f.Some? then (Released(pg).(error := SignupMessage(f.value)), pr)
      else
        var sent := sendFault.None?;
        (Released(pg).(verifyScreen := true,
                       notice := if sent then VerificationSent else "",
                       error := if sent then "" else VerificationNotSent),
         pr.(accounts := pr.accounts[e := Account(pg.password, false)], session := None,
             verificationMails := if sent then pr.verificationMails + [e] else pr.verificationMails))
  }

  /** `handleLogin`: validate, sign in, and let the account through only if it is
      verified or the development shortcut is on. */
  function Login(c: Config, pg: Page, pr: Provider, signInFault: Option<Code>): (Page, Provider) {
    var pg := pg.(error := "", notice := "");
    var e := pg.emailNorm;
    if !c.configured then (pg, pr)
    else if e == "" then (pg.(error := EnterEmail), pr)
    else
      var r := SignInResult(pr.accounts, e, pg.password, signInFault);
      if r.Failure? then (Released(pg).(error := LoginMessage(r.error)), pr)
      else if r.value then (Released(pg).(navigations := pg.navigations + [Dashboard]), pr.(session := Some(e)))
      else if DevBypass(c) then
        (Released(pg).(notice := DevBypassNotice, navigations := pg.navigations + [Dashboard]), pr.(session := Some(e)))
      else (Released(pg).(verifyScreen := true, error := NotVerified), pr.(session := None))
  }

  /** `resendVerification`: sign in transiently, request another verification email,
      sign out. */
  function Resend(c: Config, pg: Page, pr: Provider, signInFault: Option<Code>, sendFault: Option<Code>): (Page, Provider) {
    var pg := pg.(error := "", notice := "");
    var e := pg.emailNorm;
    if !c.configured then (pg, pr)
    else if e == "" then (pg.(error := ResendEnterEmail), pr)
    else
      var r := SignInResult(pr.accounts, e, pg.password, signInFault);
      if r.Failure? then (Released(pg).(error := ResendSignInMessage(r.error)), pr)
      else
        var sent := sendFault.None?;
        (Released(pg).(notice := if sent then Resent else "", error := if sent then "" else ResendNotSent),
         pr.(session := None, verificationMails := if sent then pr.verificationMails + [e] else pr.verificationMails))
  }

  /** The "I verified—continue" button: sign in again, go to the dashboard if the
      account is now verified, and sign out either way. Without a provider handle the
      sign-in throws, as a failure without a code. */
  function Recheck(c: Config, pg: Page, pr: Provider, signInFault: Option<Code>): (Page, Provider) {
    var pg := Released(pg.(error := "", notice := ""));
    var e := pg.emailNorm;
    var r := if c.configured then SignInResult(pr.accounts, e, pg.password, signInFault) else Failure("");
    if r.Failure? then (pg.(error := RecheckFailed), pr)
    else if r.value then (pg.(navigations := pg.navigations + [Dashboard]), pr.(session := None))
    else (pg.(error := StillNotVerified), pr.(session := None))
  }

  /** The "Forgot password?" button: it clears the error but keeps the notice. Without a
      provider handle the call throws, as a failure without a code. */
  function Forgot(c: Config, pg: Page, pr: Provider, resetFault: Option<Code>): (Page, Provider) {
    var pg := pg.(error := "");
    var e := pg.emailNorm;
    if e == "" then (pg.(error := ResetEnterEmail), pr)
    else
      var f := if c.configured then resetFault else Some("");
      if f.None? then (pg.(notice := ResetSent), pr.(resetMails := ResetSends(pr.accounts, pr.resetMails, e)))
      else (pg.(error := ResetMessage(f.value)), pr)
  }

  /** The session gate: a signed-in account exists, and it is verified unless the
      development shortcut is on. */
  predicate Gated(c: Config, pr: Provider) {
    pr.session.Some? ==> pr.session.value in pr.accounts && (pr.accounts[pr.session.value].verified || DevBypass(c))
  }

  /** `pr'` keeps every account of `pr` exactly as it was (so no `verified` flag is
      cleared) and the gate still holds. */
  predicate KeepsGate(c: Config, pr: Provider, pr': Provider) {
    && Gated(c, pr')
    && forall e :: e in pr.accounts ==> e in pr'.accounts && pr'.accounts[e] == pr.accounts[e]
  }

  /** The typed email, its `emailNorm` and the password are left as they were, so a
      rendered page stays rendered. */
  predicate KeepsForm(pg: Page, pg': Page) {
    pg'.email == pg.email && pg'.emailNorm == pg.emailNorm && pg'.password == pg.password
  }

  /** `busy` ends released: it was never set, or set once and released once. */
  predicate ReleasesBusy(pg: Page, pg': Page) {
    !pg'.busy && (pg'.busyTrace == pg.busyTrace || pg'.busyTrace == pg.busyTrace + [true, false])
  }

  /** Validation failures of sign-up set their error and leave the provider untouched,
      and `busy` is never set on that path. */
  lemma SignupValidation(c: Config, pg: Page, pr: Provider, createFault: Option<Code>, sendFault: Option<Code>)
    requires !c.configured || pg.emailNorm == "" || |pg.password| < 6
    ensures var (pg', pr') := Signup(c, pg, pr, createFault, sendFault);
      && pr' == pr && pg'.busy == pg.busy && pg'.busyTrace == pg.busyTrace
      && pg'.error == (if !c.configured then "" else if pg.emailNorm == "" then EnterEmail else ShortPassword)
      && pg'.notice == "" && pg'.navigations == pg.navigations && pg'.verifyScreen == pg.verifyScreen
  {
  }

  /** A created account ends signed out and on the verify screen whether or not the
      verification email went out; the verification email goes to the new account. */
  lemma SignupSignsOut(c: Config, pg: Page, pr: Provider, createFault: Option<Code>, sendFault: Option<Code>)
    requires c.configured && pg.emailNorm != "" && |pg.password| >= 6
    requires CreateFailure(pr.accounts, pg.emailNorm, pg.password, createFault).None?
    ensures var (pg', pr') := Signup(c, pg, pr, createFault, sendFault);
      && pr'.session == None && pg'.verifyScreen && pg'.navigations == pg.navigations
      && pg.emailNorm !in pr.accounts
      && pr'.accounts == pr.accounts[pg.emailNorm := Account(pg.password, false)]
      && (sendFault.None? <==> pr'.verificationMails == pr.verificationMails + [pg.emailNorm])
      && (sendFault.Some? ==> pr'.verificationMails == pr.verificationMails)
      && (sendFault.None? ==> pg'.notice == VerificationSent && pg'.error == "")
      && (sendFault.Some? ==> pg'.notice == "" && pg'.error == VerificationNotSent)
  {
  }

  /** A rejected account creation shows the mapped error and changes nothing else. */
  lemma SignupRejected(c: Config, pg: Page, pr: Provider, createFault: Option<Code>, sendFault: Option<Code>)
    requires c.configured && pg.emailNorm != "" && |pg.password| >= 6
    requires CreateFailure(pr.accounts, pg.emailNorm, pg.password, createFault).Some?
    ensures var (pg', pr') := Signup(c, pg, pr, createFault, sendFault);
      && pr' == pr && pg'.notice == "" && pg'.verifyScreen == pg.verifyScreen
      && pg'.navigations == pg.navigations
      && pg'.error == SignupMessage(CreateFailure(pr.accounts, pg.emailNorm, pg.password, createFault).value)
  {
  }

  /** Log-in reaches the dashboard exactly when the credentials are right and the account
      is verified or the development shortcut is on; it never changes an account or
      sends an email. */
  lemma LoginGate(c: Config, pg: Page, pr: Provider, signInFault: Option<Code>)
    ensures var (pg', pr') := Login(c, pg, pr, signInFault);
      var r := SignInResult(pr.accounts, pg.emailNorm, pg.password, signInFault);
      && (pg'.navigations != pg.navigations <==>
            c.configured && pg.emailNorm != "" && r.Success? && (r.value || DevBypass(c)))
      && (pg'.navigations != pg.navigations ==>
            pg'.navigations == pg.navigations + [Dashboard] && pr'.session == Some(pg.emailNorm)
            && pg.emailNorm in pr.accounts && (pr.accounts[pg.emailNorm].verified || DevBypass(c)))
      && pr'.accounts == pr.accounts && pr'.verificationMails == pr.verificationMails
      && pr'.resetMails == pr.resetMails
  {
  }

  /** An unverified account without the shortcut is signed out onto the verify screen
      with the not-verified error; with it, it stays signed in with the development
      notice; a failed sign-in shows the mapped error and changes nothing else. */
  lemma LoginOutcomes(c: Config, pg: Page, pr: Provider, signInFault: Option<Code>)
    requires c.configured && pg.emailNorm != ""
    ensures var (pg', pr') := Login(c, pg, pr, signInFault);
      var r := SignInResult(pr.accounts, pg.emailNorm, pg.password, signInFault);
      && (r == Success(false) && !DevBypass(c) ==>
            pr'.session == None && pg'.verifyScreen && pg'.error == NotVerified && pg'.notice == "")
      && (r == Success(false) && DevBypass(c) ==>
            pr'.session == Some(pg.emailNorm) && pg'.notice == DevBypassNotice && pg'.error == "")
      && (r.Failure? ==> pr' == pr && pg'.error == LoginMessage(r.error) && pg'.verifyScreen == pg.verifyScreen)
  {
  }

  /** Resend never changes an account, always ends signed out once the transient sign-in
      succeeded, and sends at most one verification email, to the typed address. */
  lemma ResendKeepsAccounts(c: Config, pg: Page, pr: Provider, signInFault: Option<Code>, sendFault: Option<Code>)
    ensures var (pg', pr') := Resend(c, pg, pr, signInFault, sendFault);
      var r := SignInResult(pr.accounts, pg.emailNorm, pg.password, signInFault);
      && pr'.accounts == pr.accounts && pr'.resetMails == pr.resetMails
      && pg'.navigations == pg.navigations && pg'.verifyScreen == pg.verifyScreen
      && (pr'.verificationMails == pr.verificationMails + [pg.emailNorm] <==>
            c.configured && pg.emailNorm != "" && r.Success? && sendFault.None?)
      && (pr'.verificationMails != pr.verificationMails + [pg.emailNorm] ==>
            pr'.verificationMails == pr.verificationMails)
      && (c.configured && pg.emailNorm != "" && r.Success? ==> pr'.session == None)
      && (c.configured && pg.emailNorm != "" && r.Failure? ==>
            pr' == pr && pg'.error == ResendSignInMessage(r.error))
  {
  }

  /** Re-check reaches the dashboard exactly when the sign-in reports the account
      verified, and signs out after every sign-in that succeeded. */
  lemma RecheckNavigatesIffVerified(c: Config, pg: Page, pr: Provider, signInFault: Option<Code>)
    ensures var (pg', pr') := Recheck(c, pg, pr, signInFault);
      var r := SignInResult(pr.accounts, pg.emailNorm, pg.password, signInFault);
      && (pg'.navigations != pg.navigations <==> c.configured && r == Success(true))
      && (pg'.navigations != pg.navigations ==> pg'.navigations == pg.navigations + [Dashboard])
      && (c.configured && r.Success? ==> pr'.session == None)
      && (c.configured && r == Success(false) ==> pg'.error == StillNotVerified)
      && (!c.configured || r.Failure? ==> pr' == pr && pg'.error == RecheckFailed)
      && pr'.accounts == pr.accounts && pr'.verificationMails == pr.verificationMails
  {
  }

  /** Forgot-password shows the sent notice exactly when the address is non-empty, the
      handle exists and the reset call resolves, whether or not the account exists; a
      mail goes out only to an existing account; a failure shows its message and keeps
      the previous notice. */
  lemma ForgotOutcomes(c: Config, pg: Page, pr: Provider, resetFault: Option<Code>)
    ensures var (pg', pr') := Forgot(c, pg, pr, resetFault);
      var e := pg.emailNorm;
      var resolved := e != "" && c.configured && resetFault.None?;
      && pr'.accounts == pr.accounts && pr'.session == pr.session
      && pr'.verificationMails == pr.verificationMails
      && pg'.busy == pg.busy && pg'.busyTrace == pg.busyTrace && pg'.navigations == pg.navigations
      && (e == "" ==> pr' == pr && pg'.error == ResetEnterEmail && pg'.notice == pg.notice)
      && (resolved ==> pg'.notice == ResetSent && pg'.error == "")
      && (!resolved ==> pr' == pr && pg'.notice == pg.notice && pg'.error != "")
      && (e != "" && !resolved ==>
            pg'.error == ResetMessage(if c.configured then resetFault.value else ""))
      && (pr'.resetMails != pr.resetMails <==> resolved && e in pr.accounts)
      && (pr'.resetMails != pr.resetMails ==> pr'.resetMails == pr.resetMails + [e])
  {
  }

  /** The sign-up handler leaves `busy` released (it never set it, or set it once and
      released it once) and leaves the typed form alone. */
  lemma SignupReleasesBusy(c: Config, pg: Page, pr: Provider, f1: Option<Code>, f2: Option<Code>)
    requires !pg.busy
    ensures ReleasesBusy(pg, Signup(c, pg, pr, f1, f2).0)
    ensures KeepsForm(pg, Signup(c, pg, pr, f1, f2).0)
  {
  }

  /** The sign-up handler keeps the session gate and every existing account as it was,
      so it never clears a `verified` flag. */
  lemma SignupKeepsGate(c: Config, pg: Page, pr: Provider, f1: Option<Code>, f2: Option<Code>)
    requires Gated(c, pr)
    ensures KeepsGate(c, pr, Signup(c, pg, pr, f1, f2).1)
  {
  }

  /** The log-in handler leaves `busy` released (it never set it, or set it once and
      released it once) and leaves the typed form alone. */
  lemma LoginReleasesBusy(c: Config, pg: Page, pr: Provider, f1: Option<Code>)
    requires !pg.busy
    ensures ReleasesBusy(pg, Login(c, pg, pr, f1).0)
    ensures KeepsForm(pg, Login(c, pg, pr, f1).0)
  {
  }

  /** The log-in handler keeps the session gate and every existing account as it was,
      so it never clears a `verified` flag. */
  lemma LoginKeepsGate(c: Config, pg: Page, pr: Provider, f1: Option<Code>)
    requires Gated(c, pr)
    ensures KeepsGate(c, pr, Login(c, pg, pr, f1).1)
  {
  }

  /** The resend handler leaves `busy` released (it never set it, or set it once and
      released it once) and leaves the typed form alone. */
  lemma ResendReleasesBusy(c: Config, pg: Page, pr: Provider, f1: Option<Code>, f2: Option<Code>)
    requires !pg.busy
    ensures ReleasesBusy(pg, Resend(c, pg, pr, f1, f2).0)
    ensures KeepsForm(pg, Resend(c, pg, pr, f1, f2).0)
  {
  }

  /** The resend handler keeps the session gate and every existing account as it was,
      so it never clears a `verified` flag. */
  lemma ResendKeepsGate(c: Config, pg: Page, pr: Provider, f1: Option<Code>, f2: Option<Code>)
    requires Gated(c, pr)
    ensures KeepsGate(c, pr, Resend(c, pg, pr, f1, f2).1)
  {
  }

  /** The re-check handler has no busy guard: from any state it sets `busy` once and
      releases it once, and leaves the typed form alone. */
  lemma RecheckReleasesBusy(c: Config, pg: Page, pr: Provider, f1: Option<Code>)
    ensures Recheck(c, pg, pr, f1).0.busyTrace == pg.busyTrace + [true, false]
    ensures ReleasesBusy(pg, Recheck(c, pg, pr, f1).0)
    ensures KeepsForm(pg, Recheck(c, pg, pr, f1).0)
  {
  }

  /** The re-check handler keeps the session gate and every existing account as it was,
      so it never clears a `verified` flag. */
  lemma RecheckKeepsGate(c: Config, pg: Page, pr: Provider, f1: Option<Code>)
    requires Gated(c, pr)
    ensures KeepsGate(c, pr, Recheck(c, pg, pr, f1).1)
  {
  }

  /** The forgot-password handler has no busy guard and never touches `busy`: from any
      state it leaves `busy`, its log and the typed form as they were. */
  lemma ForgotReleasesBusy(c: Config, pg: Page, pr: Provider, f1: Option<Code>)
    ensures Forgot(c, pg, pr, f1).0.busy == pg.busy
    ensures Forgot(c, pg, pr, f1).0.busyTrace == pg.busyTrace
    ensures KeepsForm(pg, Forgot(c, pg, pr, f1).0)
  {
  }

  /** The forgot-password handler keeps the session gate and every existing account as it was,
      so it never clears a `verified` flag. */
  lemma ForgotKeepsGate(c: Config, pg: Page, pr: Provider, f1: Option<Code>)
    requires Gated(c, pr)
    ensures KeepsGate(c, pr, Forgot(c, pg, pr, f1).1)
  {
  }

  /** Opening a verification link keeps the gate and only ever sets a flag. */
  lemma VerifyKeepsGate(c: Config, pr: Provider, email: string)
    requires Gated(c, pr)
    ensures Gated(c, pr.(accounts := Verify(pr.accounts, email)))
    ensures forall e :: e in pr.accounts && pr.accounts[e].verified ==> Verify(pr.accounts, email)[e].verified
  {
  }

  /** The controller of the sign-in page. */
  class AuthController {
    const idp: IdentityProvider
    /** Whether the provider handle `auth` exists. */
    const configured: bool
    /** The build setting `VITE_ALLOW_UNVERIFIED_LOGIN`. */
    const allowUnverified: string
    /** Whether the build is a development build (`import.meta.env.DEV`). */
    const dev: bool

    var email: string
    /** `emailNorm`, derived from `email` at each render. */
    var emailNorm: string
    var password: string
    var busy: bool
    var error: string
    var notice: string
    var verifyScreen: bool
    /** Every `nav(...)` the handlers made, in order. */
    var navigations: seq<string>
    /** Every value passed to `setBusy`, in order. */
    ghost var busyTrace: seq<bool>

    function Cfg(): Config {
      Config(configured, allowUnverified, dev)
    }

    ghost function View(): Page
      reads this
    {
      Page(email, emailNorm, password, busy, error, notice, verifyScreen, navigations, busyTrace)
    }


    /** No account stays signed in unverified, unless the development shortcut is on. */
    ghost predicate Valid()
      reads idp
    {
      Gated(Cfg(), idp.State())
    }

    constructor (idp: IdentityProvider, configured: bool, allowUnverified: string, dev: bool)
      requires Gated(Config(configured, allowUnverified, dev), idp.State())
      ensures Valid()
      ensures this.idp == idp && Cfg() == Config(configured, allowUnverified, dev)
      ensures View() == Page("", "", "", false, "", "", false, [], []) && Rendered(View())
    {
      this.idp := idp;
      this.configured := configured;
      this.allowUnverified := allowUnverified;
      this.dev := dev;
      email, emailNorm, password, busy, error, notice := "", "", "", false, "", "";
      verifyScreen, navigations, busyTrace := false, [], [];
    }

    /** The email field's `onChange`, and the render that follows it. */
    method TypeEmail(s: string)
      modifies this
      ensures View() == old(View()).(email := s, emailNorm := Norm(s))
      ensures Rendered(View())
    {
      email := s;
      emailNorm := Norm(s);
    }

    /** The password field's `onChange`. */
    method TypePassword(s: string)
      modifies this
      ensures View() == old(View()).(password := s)
    {
      password := s;
    }

    /** The verify screen's "Back" button. */
    method LeaveVerifyScreen()
      modifies this
      ensures View() == old(View()).(verifyScreen := false)
    {
      verifyScreen := false;
    }

    method SetBusy(b: bool)
      modifies this
      ensures View() == old(View()).(busy := b, busyTrace := old(busyTrace) + [b])
    {
      busy := b;
      busyTrace := busyTrace + [b];
    }

    /** The `finally { setBusy(false) }` after a `try` that began with `setBusy(true)`. */
    method Release(ghost start: seq<bool>)
      requires busyTrace == start + [true]
      modifies this
      ensures View() == old(View()).(busy := false, busyTrace := start + [true, false])
    {
      SetBusy(false);
      assert busyTrace == start + [true] + [false];
    }

    /** `handleSignup`, the submit of the sign-up form (disabled while busy).
        `createFault` and `sendFault` are the provider's own failures of the two calls. */
    method HandleSignup(createFault: Option<Code>, sendFault: Option<Code>)
      requires Valid() && !busy
      modifies this, idp
      ensures Valid()
      ensures (View(), idp.State()) == Signup(Cfg(), old(View()), old(idp.State()), createFault, sendFault)
    {
      SignupKeepsGate(Cfg(), View(), idp.State(), createFault, sendFault);
      error := "";
      notice := "";
      if !configured {
        return;
      }
      var e := emailNorm;
      if e == "" {
        error := EnterEmail;
        return;
      }
      if |password| < 6 {
        error := ShortPassword;
        return;
      }
      SetBusy(true);
      var created := idp.CreateUser(e, password, createFault);
      if created.Pass? {
        var sent := idp.SendEmailVerification(e, sendFault);
        if sent.Pass? {
          verifyScreen := true;
          notice := VerificationSent;
        } else {
          verifyScreen := true;
          error := VerificationNotSent;
        }
        idp.SignOut();
      } else {
        error := SignupMessage(created.error);
      }
      Release(old(busyTrace));
    }

    /** `handleLogin`, the submit of the log-in form (disabled while busy). `signInFault`
        is the provider's own failure of the sign-in. */
    method HandleLogin(signInFault: Option<Code>)
      requires Valid() && !busy
      modifies this, idp
      ensures Valid()
      ensures (View(), idp.State()) == Login(Cfg(), old(View()), old(idp.State()), signInFault)
    {
      LoginKeepsGate(Cfg(), View(), idp.State(), signInFault);
      error := "";
      notice := "";
      if !configured {
        return;
      }
      var e := emailNorm;
      if e == "" {
        error := EnterEmail;
        return;
      }
      SetBusy(true);
      var r := idp.SignIn(e, password, signInFault);
      if r.Failure? {
        error := LoginMessage(r.error);
      } else if r.value {
        navigations := navigations + [Dashboard];
      } else if allowUnverified == "true" && dev {
        notice := DevBypassNotice;
        navigations := navigations + [Dashboard];
      } else {
        verifyScreen := true;
        error := NotVerified;
        idp.SignOut();
      }
      Release(old(busyTrace));
    }

    /** `resendVerification`, the "Resend verification" button (disabled while busy):
        sign in transiently, ask for another verification email, sign out. */
    method ResendVerification(signInFault: Option<Code>, sendFault: Option<Code>)
      requires Valid() && !busy
      modifies this, idp
      ensures Valid()
      ensures (View(), idp.State()) == Resend(Cfg(), old(View()), old(idp.State()), signInFault, sendFault)
    {
      ResendKeepsGate(Cfg(), View(), idp.State(), signInFault, sendFault);
      error := "";
      notice := "";
      if !configured {
        return;
      }
      var e := emailNorm;
      if e == "" {
        error := ResendEnterEmail;
        return;
      }
      SetBusy(true);
      var r := idp.SignIn(e, password, signInFault);
      if r.Success? {
        var sent := idp.SendEmailVerification(e, sendFault);
        if sent.Pass? {
          notice := Resent;
        } else {
          error := ResendNotSent;
        }
        idp.SignOut();
      } else {
        error := ResendSignInMessage(r.error);
      }
      Release(old(busyTrace));
    }

    /** The "I verified—continue" button (no busy guard). */
    method RecheckVerification(signInFault: Option<Code>)
      requires Valid()
      modifies this, idp
      ensures Valid()
      ensures (View(), idp.State()) == Recheck(Cfg(), old(View()), old(idp.State()), signInFault)
    {
      RecheckKeepsGate(Cfg(), View(), idp.State(), signInFault);
      error := "";
      notice := "";
      SetBusy(true);
      var e := emailNorm;
      var r: Result<bool, Code>;
      if configured {
        r := idp.SignIn(e, password, signInFault);
      } else {
        r := Failure("");
      }
      if r.Success? {
        if r.value {
          navigations := navigations + [Dashboard];
        } else {
          error := StillNotVerified;
        }
        idp.SignOut();
      } else {
        error := RecheckFailed;
      }
      Release(old(busyTrace));
    }

    /** The "Forgot password?" button (no busy guard). */
    method ForgotPassword(resetFault: Option<Code>)
      requires Valid()
      modifies this, idp
      ensures Valid()
      ensures (View(), idp.State()) == Forgot(Cfg(), old(View()), old(idp.State()), resetFault)
    {
      ForgotKeepsGate(Cfg(), View(), idp.State(), resetFault);
      error := "";
      var e := emailNorm;
      if e == "" {
        error := ResetEnterEmail;
        return;
      }
      var r: Outcome<Code>;
      if configured {
        r := idp.SendPasswordResetEmail(e, resetFault);
      } else {
        r := Fail("");
      }
      if r.Pass? {
        notice := ResetSent;
      } else {
        error := ResetMessage(r.error);
      }
    }
  }
}
