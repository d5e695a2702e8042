/** End-to-end runs of the sign-in page against a provider that starts in a known
    state: sign-up, a blocked log-in, verification and re-check; the same account
    reached under another spelling of its address; a log-in to a missing account; two
    resends; the development shortcut on and off; and a reset request for an address
    with no account. Each run reports what the user
    and the provider can observe after each step. */
module Scenarios {
  import opened Wrappers
  import opened Text
  import opened AuthPage

  /** What can be observed of one account and the page after a step. */
  datatype Snapshot = Snapshot(
    signedIn: bool,
    verified: Option<bool>,
    verifyScreen: bool,
    error: string,
    notice: string,
    navigations: seq<string>,
    verificationMails: seq<string>)

  function Observe(pg: Page, pr: Provider, email: string): Snapshot {
    Snapshot(
      pr.session.Some?,
      if email in pr.accounts then Some(pr.accounts[email].verified) else None,
      pg.verifyScreen, pg.error, pg.notice, pg.navigations, pr.verificationMails)
  }

  /** A fresh page with the form filled in and rendered. */
  function Filled(typed: string, password: string): Page {
    Page(typed, Norm(typed), password, false, "", "", false, [], [])
  }

  /** A provider holding `existing`, with nobody signed in and no email sent. */
  function Start(existing: map<string, Account>): Provider {
    Provider(existing, None, [], [])
  }

  /** A production build with the provider configured. */
  const Production := Config(true, "", false)

  /** Sign-up of a new address with an acceptable password, then "Back" to the form and
      a log-in before the link is opened, then the link, then a re-check from the verify
      screen the log-in shows. The account is created under the normalised address and
      unverified, one verification email goes out and the page is signed out on the
      verify screen; the log-in is blocked, signs out again and returns to the verify
      screen; after the link the re-check reaches the dashboard and signs out. */
  lemma SignUpVerifyRecheck(typed: string, password: string)
    requires Norm(typed) != "" && |password| >= 6
    ensures var e := Norm(typed);
      var (p1, r1) := Signup(Production, Filled(typed, password), Start(map[]), None, None);
      var (p2, r2) := Login(Production, p1.(verifyScreen := false), r1, None);
      var r3 := r2.(accounts := Verify(r2.accounts, e));
      var (p4, r4) := Recheck(Production, p2, r3, None);
      && r1.accounts == map[e := Account(password, false)]
      && Observe(p1, r1, e) == Snapshot(false, Some(false), true, "", VerificationSent, [], [e])
      && Observe(p2, r2, e) == Snapshot(false, Some(false), true, NotVerified, "", [], [e])
      && Observe(p4, r4, e) == Snapshot(false, Some(true), true, "", "", [Dashboard], [e])
  {
  }

  /** A re-check from the verify screen before the link is opened says "still not
      verified", goes nowhere and stays on the verify screen. */
  lemma RecheckBeforeVerifying(typed: string, password: string)
    requires Norm(typed) != ""
    ensures var e := Norm(typed);
      var (p, r) := Recheck(Production, Filled(typed, password).(verifyScreen := true), Start(map[e := Account(password, false)]), None);
      Observe(p, r, e) == Snapshot(false, Some(false), true, StillNotVerified, "", [], [])
  {
  }

  /** An account created under one spelling of an address is found under any other
      spelling with the same normal form, such as different capitals or surrounding
      spaces: the log-in reaches the account rather than "no account found". */
  lemma OtherSpellingFindsAccount(typed: string, retyped: string, password: string)
    requires Norm(typed) != "" && |password| >= 6 && Norm(retyped) == Norm(typed)
    ensures var (p1, r1) := Signup(Production, Filled(typed, password), Start(map[]), None, None);
      var (p2, r2) := Login(Production, Filled(retyped, password), r1, None);
      p2.error == NotVerified && r2.session == None && r2.accounts == r1.accounts
  {
  }

  /** A log-in for an address with no account shows the "no account found" message and
      goes nowhere. */
  lemma LogInWithoutAccount(typed: string, password: string)
    requires Norm(typed) != ""
    ensures var (p, r) := Login(Production, Filled(typed, password), Start(map[]), None);
      && p.error == "No account found for that email. Create an account first."
      && Observe(p, r, Norm(typed)) == Snapshot(false, None, false, p.error, "", [], [])
  {
  }

  /** Two resends from the verify screen for the same unverified account send two
      verification emails and leave the account unverified and signed out. */
  lemma ResendTwice(typed: string, password: string)
    requires Norm(typed) != ""
    ensures var e := Norm(typed);
      var (p1, r1) := Resend(Production, Filled(typed, password).(verifyScreen := true), Start(map[e := Account(password, false)]), None, None);
      var (p2, r2) := Resend(Production, p1, r1, None, None);
      && Observe(p1, r1, e) == Snapshot(false, Some(false), true, "", Resent, [], [e])
      && Observe(p2, r2, e) == Snapshot(false, Some(false), true, "", Resent, [], [e, e])
  {
  }

  /** With the flag set, an unverified account reaches the dashboard in a development
      build only, and stays signed in there; a production build with the same flag
      still blocks it. */
  lemma DevBypassOnlyInDevelopment(typed: string, password: string)
    requires Norm(typed) != ""
    ensures var e := Norm(typed);
      var start := Start(map[e := Account(password, false)]);
      var (pd, rd) := Login(Config(true, "true", true), Filled(typed, password), start, None);
      var (pp, rp) := Login(Config(true, "true", false), Filled(typed, password), start, None);
      && Observe(pd, rd, e) == Snapshot(true, Some(false), false, "", DevBypassNotice, [Dashboard], [])
      && Observe(pp, rp, e) == Snapshot(false, Some(false), true, NotVerified, "", [], [])
  {
  }

  /** A reset request for an address with no account, when the provider resolves it
      (email-enumeration protection), shows the sent notice but sends no mail; when the
      provider instead rejects with `user-not-found`, the page says there is no account. */
  lemma ResetForUnknownAddress(typed: string, password: string)
    requires Norm(typed) != ""
    ensures var (p1, r1) := Forgot(Production, Filled(typed, password), Start(map[]), None);
      var (p2, r2) := Forgot(Production, Filled(typed, password), Start(map[]), Some(UserNotFound));
      && p1.notice == ResetSent && p1.error == "" && r1 == Start(map[])
      && p2.notice == "" && p2.error == ResetNoAccount && r2 == Start(map[])
  {
  }
}
