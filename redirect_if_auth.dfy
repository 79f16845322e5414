/** The `useRedirectIfAuth` hook (hooks/useRedirectIfAuth.ts), used by the
    public login and registration pages: a visitor who already has a session
    is sent on, to the dashboard or to the confirmation page. The hook keeps
    no state, so it is modelled as the single navigation it may make. */
module RedirectIfAuth {
  import opened Web
  import opened Identity
  import RequireAuth

  const DashboardPath := "/dashboard"

  /** The session's own user has a confirmed email. */
  predicate SessionConfirmed(s: Session) {
    s.user.Some? && Confirmed(s.user.value)
  }

  /** The `router.replace` target `checkUser` picks, if any. */
  function Target(session: SessionLookup): (target: Option<string>)
    ensures target.None? <==> !session.HasSession?
    ensures target.Some? ==> target.value in {DashboardPath, RequireAuth.ConfirmEmailPath}
    ensures target == Some(DashboardPath) <==> session.HasSession? && SessionConfirmed(session.session)
  {
    match session
    case SessionThrew(_) => None   // only logged
    case NoSession => None
    case HasSession(s) =>
      if SessionConfirmed(s) then Some(DashboardPath) else Some(RequireAuth.ConfirmEmailPath)
  }

  /** As a navigation: a session leads to exactly one `replace`, no session
      (or a failed lookup) to none. */
  function Navigations(session: SessionLookup): (navs: seq<Navigation>)
    ensures |navs| <= 1
    ensures navs == [] <==> !session.HasSession?
    ensures navs != [] ==> navs[0].Replace?
  {
    match Target(session)
    case None => []
    case Some(p) => [Replace(p)]
  }

  /** When `getUser` reports the session's own user, the two guards agree:
      an unconfirmed user is sent to the confirmation page by both, and a
      confirmed one is admitted by the private guard exactly when the public
      one sends it to the dashboard, so no state is shown both pages. */
  lemma GuardsAgree(s: Session)
    requires s.user.Some?
    ensures var requireAuth := RequireAuth.Decide(HasSession(s), HasUser(s.user.value));
      && (!Confirmed(s.user.value) ==>
            requireAuth == RequireAuth.Redirect(RequireAuth.ConfirmEmailPath)
            && Target(HasSession(s)) == Some(RequireAuth.ConfirmEmailPath))
      && (requireAuth == RequireAuth.Allow <==> Target(HasSession(s)) == Some(DashboardPath))
  {
  }

  /** Without a session neither guard lets the visitor see a private page,
      and the public one stays put. */
  lemma NoSessionStaysPublic(session: SessionLookup, user: UserLookup)
    requires !session.HasSession?
    ensures Target(session).None?
    ensures RequireAuth.Decide(session, user) == RequireAuth.Redirect(RequireAuth.LoginPath)
  {
  }

  /** The corner case: a session whose `getUser` returns no user is admitted
      by the private guard, while the public guard, which looks only at the
      session's own user, does not send it to the dashboard when that user is
      unconfirmed. */
  lemma NullUserCornerCase(s: Session)
    requires s.user.Some? && !Confirmed(s.user.value)
    ensures RequireAuth.Decide(HasSession(s), NoUser) == RequireAuth.Allow
    ensures Target(HasSession(s)) == Some(RequireAuth.ConfirmEmailPath)
  {
  }
}
