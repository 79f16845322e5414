/** The `useRequireAuth` hook (hooks/useRequireAuth.ts): a page guard that
    sends visitors without a session to the login page and users whose email
    is unconfirmed to the confirmation page, and otherwise clears its
    `loading` flag. */
module RequireAuth {
  import opened Web
  import opened Identity

  const LoginPath := "/auth/login"
  const ConfirmEmailPath := "/auth/confirm-email"

  datatype Verdict = Allow | Redirect(path: string)

  /** A user `getUser` returned whose email is not confirmed. */
  predicate UnconfirmedUser(user: UserLookup) {
    user.HasUser? && !Confirmed(user.user)
  }

  /** The decision `checkUser` reaches from the two lookups it makes (the
      second is made only when the first found a session). */
  function Decide(session: SessionLookup, user: UserLookup): (v: Verdict)
    ensures v == Allow <==> session.HasSession? && !user.UserThrew? && !UnconfirmedUser(user)
    ensures v == Redirect(ConfirmEmailPath) <==> session.HasSession? && UnconfirmedUser(user)
    ensures v == Redirect(LoginPath) <==> !session.HasSession? || user.UserThrew?
    ensures v.Redirect? ==> v.path in {LoginPath, ConfirmEmailPath}
  {
    match session
    case SessionThrew(_) => Redirect(LoginPath)
    case NoSession => Redirect(LoginPath)
    case HasSession(_) =>
      match user
      case UserThrew(_) => Redirect(LoginPath)
      case NoUser => Allow
      case HasUser(u) => if !Confirmed(u) then Redirect(ConfirmEmailPath) else Allow
  }

  /** The decision does not depend on the `getUser` outcome when there is no
      session, because the hook never asks. */
  lemma NoSessionIgnoresUser(session: SessionLookup, u1: UserLookup, u2: UserLookup)
    requires !session.HasSession?
    ensures Decide(session, u1) == Decide(session, u2) == Redirect(LoginPath)
  {
  }

  /** The hook's state: the `loading` cell, and (as ghost traces) the router
      calls and identity-service calls it has made. */
  class Guard {
    var loading: bool
    ghost var navigations: seq<Navigation>
    ghost var calls: seq<IdentityCall>

    constructor()
      ensures loading && navigations == [] && calls == []
    {
      loading := true;
      navigations := [];
      calls := [];
    }

    /** One run of `checkUser`, given the outcomes of `getSession` and
        `getUser`. */
    method CheckUser(session: SessionLookup, user: UserLookup)
      modifies this
      ensures calls == old(calls) + [GetSession] + (if session.HasSession? then [GetUser] else [])
      ensures Decide(session, user) == Allow ==> navigations == old(navigations) && !loading
      ensures Decide(session, user).Redirect? ==>
        navigations == old(navigations) + [Replace(Decide(session, user).path)] && loading == old(loading)
    {
      calls := calls + [GetSession];
      if !session.HasSession? {
        // a rejected `getSession` lands in the catch, which picks the same page
        navigations := navigations + [Replace(LoginPath)];
        return;
      }
      calls := calls + [GetUser];
      if user.UserThrew? {
        navigations := navigations + [Replace(LoginPath)];
        return;
      }
      if user.HasUser? && !Confirmed(user.user) {
        navigations := navigations + [Replace(ConfirmEmailPath)];
        return;
      }
      loading := false;
    }
  }
}
