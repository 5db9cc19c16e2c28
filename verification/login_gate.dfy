/**
  The login gate `Admin_Controller` and `User_Controller` run from their
  constructors (`verifyLogin`; the two classes carry the same body). It is meant to
  send anonymous visitors to the login page and to log out a session whose
  ion_auth user disagrees with the session's email or has no id. As written, both
  branches of its first test redirect, so the integrity checks are never reached.
 */
module LoginGate {
  import opened Wrappers
  import opened Php
  import opened Request
  import opened Controller

  /** What the session store holds for the gate: `userdata('email')`, NULL when unset. */
  datatype Session = Session(email: Option<string>)

  /** `row_array()['email']`: NULL when there is no user row. */
  function RowEmail(user: Option<UserRow>): (r: Option<string>)
    ensures r.Some? <==> user.Some?
    ensures user.Some? ==> r.value == user.value.email
  {
    match user
    case Some(u) => Some(u.email)
    case None => None
  }

  /** `empty(row()->id)`: true when there is no user row or its id is empty. */
  predicate IdEmpty(user: Option<UserRow>) {
    user.None? || IsEmptyString(user.value.id)
  }

  /** A session passes the integrity checks: emails loosely equal and a non-empty id. */
  predicate SessionIntact(auth: IonAuth, session: Session) {
    LooseEqualOpt(RowEmail(auth.user), session.email) && !IdEmpty(auth.user)
  }

  /**
    The two integrity checks: on an email mismatch, and then on a missing id, the
    user is logged out and sent to the current module's root.
   */
  function IntegrityChecks(auth: IonAuth, session: Session, moduleName: string): (r: Run<()>)
    ensures r.Returned() <==> SessionIntact(auth, session)
    ensures r.Returned() ==> r.effects == []
    ensures !r.Returned() ==> r.effects == [Logout] && r.RedirectedTo(moduleName)
  {
    var emailCheck :=
      if !LooseEqualOpt(RowEmail(auth.user), session.email) then Run([Logout], Exited(Redirect(moduleName)))
      else Run([], Done(()));
    var idCheck :=
      if IdEmpty(auth.user) then Run([Logout], Exited(Redirect(moduleName)))
      else Run([], Done(()));
    Then(emailCheck, idCheck)
  }

  /**
    `verifyLogin` as written: an anonymous visitor goes to the redirect url or,
    when that is loosely NULL, the site's login url; a logged-in user is redirected
    to the redirect url as given (NULL being the site root), and the integrity
    checks after the `if` never run.
   */
  function VerifyLoginAsWritten(cfg: SiteConfig, auth: IonAuth, session: Session, moduleName: string,
                                redirectUrl: Option<string>): (r: Run<()>)
    ensures !r.Returned()
    ensures r.effects == []
    ensures !auth.loggedIn ==> r.RedirectedTo(LoginTarget(redirectUrl, cfg.loginUrl))
    ensures auth.loggedIn ==> r.RedirectedTo(Interpolate(redirectUrl))
  {
    var first :=
      if !auth.loggedIn then Run([], Exited(Redirect(LoginTarget(redirectUrl, cfg.loginUrl))))
      else Run([], Exited(Redirect(Interpolate(redirectUrl))));
    Then(first, IntegrityChecks(auth, session, moduleName))
  }

  /** Nothing the integrity checks do can happen: no session is ever logged out by the gate. */
  lemma IntegrityChecksUnreachable(cfg: SiteConfig, auth: IonAuth, session: Session, moduleName: string,
                                   redirectUrl: Option<string>)
    ensures !LoggedOut(VerifyLoginAsWritten(cfg, auth, session, moduleName, redirectUrl).effects)
  {
  }

  /**
    The gate as evidently intended: anonymous visitors are redirected as before,
    and a logged-in user passes exactly when the session is intact; otherwise the
    user is logged out and sent to the module root.
   */
  function VerifyLoginIntended(cfg: SiteConfig, auth: IonAuth, session: Session, moduleName: string,
                               redirectUrl: Option<string>): (r: Run<()>)
    ensures r.Returned() <==> auth.loggedIn && SessionIntact(auth, session)
    ensures !auth.loggedIn ==> r == Run([], Exited(Redirect(LoginTarget(redirectUrl, cfg.loginUrl))))
    ensures auth.loggedIn && !SessionIntact(auth, session) ==> r == Run([Logout], Exited(Redirect(moduleName)))
    ensures r.Returned() ==> r.effects == []
  {
    var first :=
      if !auth.loggedIn then Run([], Exited(Redirect(LoginTarget(redirectUrl, cfg.loginUrl))))
      else Run([], Done(()));
    Then(first, IntegrityChecks(auth, session, moduleName))
  }

  /** For anonymous visitors the gate as written already does what was intended. */
  lemma AnonymousVisitorsAgree(cfg: SiteConfig, auth: IonAuth, session: Session, moduleName: string,
                               redirectUrl: Option<string>)
    requires !auth.loggedIn
    ensures VerifyLoginAsWritten(cfg, auth, session, moduleName, redirectUrl)
         == VerifyLoginIntended(cfg, auth, session, moduleName, redirectUrl)
  {
  }

  /**
    A logged-in user with an intact session is let through by the intended gate but
    redirected to the site root by the gate as written.
   */
  lemma LoggedInUserBounced()
    ensures var cfg := SiteConfig("Site", "Title", None, None, None, None, None, None, None, None, SiteLoginUrl, None);
      var auth := IonAuth(true, true, Some(UserRow("1", "a@b.c")), []);
      var session := Session(Some("a@b.c"));
      && VerifyLoginIntended(cfg, auth, session, "admin", None).Returned()
      && VerifyLoginAsWritten(cfg, auth, session, "admin", None).RedirectedTo("")
  {
    assert !IsEmptyString("1");
    assert LooseEqual("a@b.c", "a@b.c");
  }

  /**
    The controller constructor as written: the context is set up and the gate runs
    with no redirect url. No request ever reaches an action: a logged-in user is
    sent to the site root and an anonymous one to the login url.
   */
  function ConstructAsWritten(route: Route, cfg: SiteConfig, auth: IonAuth, session: Session,
                              multilingual: bool, homeLabel: string): (r: Run<Context>)
    ensures !r.Returned() && r.effects == []
    ensures auth.loggedIn ==> r.RedirectedTo("")
    ensures !auth.loggedIn ==> r.RedirectedTo(cfg.loginUrl)
  {
    var ctx := Setup(route, cfg, auth, multilingual, homeLabel);
    Then(VerifyLoginAsWritten(ctx.siteConfig, auth, session, route.moduleName, None), Run([], Done(ctx)))
  }

  /**
    The constructor with the intended gate: the request reaches the action, with the
    set-up context, exactly when a user is logged in and the session is intact.
   */
  function Construct(route: Route, cfg: SiteConfig, auth: IonAuth, session: Session,
                     multilingual: bool, homeLabel: string): (r: Run<Context>)
    ensures r.Returned() <==> auth.loggedIn && SessionIntact(auth, session)
    ensures r.Returned() ==> r.outcome.value == Setup(route, cfg, auth, multilingual, homeLabel) && r.effects == []
    ensures !auth.loggedIn ==> r.RedirectedTo(cfg.loginUrl)
    ensures auth.loggedIn && !SessionIntact(auth, session) ==> r.RedirectedTo(route.moduleName) && r.effects == [Logout]
  {
    var ctx := Setup(route, cfg, auth, multilingual, homeLabel);
    Then(VerifyLoginIntended(ctx.siteConfig, auth, session, route.moduleName, None), Run([], Done(ctx)))
  }
}
