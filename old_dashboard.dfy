/** The earlier dashboard page (app/dashboard/old/page.tsx): its own session
    effect, sign-out and loading gate. Unlike `useRequireAuth` it does not
    look at email confirmation. */
module OldDashboard {
  import opened Web
  import opened Identity
  import RequireAuth

  const LoginPath := "/auth/login"

  /** The session lookups after which the page leaves its placeholder. */
  predicate Admits(session: SessionLookup) {
    session.HasSession?
  }

  class Page {
    var user: Option<User>
    var loading: bool
    ghost var calls: seq<IdentityCall>
    ghost var navigations: seq<Navigation>

    constructor()
      ensures user.None? && loading && calls == [] && navigations == []
    {
      user := None;
      loading := true;
      calls := [];
      navigations := [];
    }

    /** Only the placeholder renders while `loading`. */
    predicate ShowsPlaceholder()
      reads this
    {
      loading
    }

    /** The `getSession` effect. A rejected lookup is not caught: the effect
        stops and nothing changes. */
    method GetSession(session: SessionLookup)
      modifies this
      ensures calls == old(calls) + [IdentityCall.GetSession]
      ensures Admits(session) ==>
        user == session.session.user && !loading && navigations == old(navigations)
      ensures session.NoSession? ==>
        navigations == old(navigations) + [Push(LoginPath)] && user == old(user) && loading == old(loading)
      ensures session.SessionThrew? ==>
        navigations == old(navigations) && user == old(user) && loading == old(loading)
    {
      calls := calls + [IdentityCall.GetSession];
      match session {
        case SessionThrew(_) =>
        case NoSession =>
          navigations := navigations + [Push(LoginPath)];
        case HasSession(s) =>
          user := s.user;
          loading := false;
      }
    }

    /** `handleLogout`: sign-out is awaited before the navigation, so a
        rejected sign-out navigates nowhere. */
    method HandleLogout(signOutRejected: bool)
      modifies this
      ensures calls == old(calls) + [SignOut]
      ensures navigations == old(navigations) + (if signOutRejected then [] else [Push(LoginPath)])
      ensures user == old(user) && loading == old(loading)
    {
      calls := calls + [SignOut];
      if !signOutRejected {
        navigations := navigations + [Push(LoginPath)];
      }
    }
  }

  /** The page admits a session whose user is unconfirmed, which
      `useRequireAuth` would send to the confirmation page. */
  lemma AdmitsUnconfirmed(s: Session)
    requires s.user.Some? && !Confirmed(s.user.value)
    ensures Admits(HasSession(s))
    ensures RequireAuth.Decide(HasSession(s), HasUser(s.user.value)) == RequireAuth.Redirect(RequireAuth.ConfirmEmailPath)
  {
  }

  /** Every session `useRequireAuth` allows is admitted here as well. */
  lemma RequireAuthAllowedIsAdmitted(session: SessionLookup, user: UserLookup)
    requires RequireAuth.Decide(session, user) == RequireAuth.Allow
    ensures Admits(session)
  {
  }
}
