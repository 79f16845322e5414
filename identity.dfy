/** The values the identity service (Supabase auth) hands to the pages. The
    service itself is not modelled: each call's outcome is an input. */
module Identity {
  import opened Web

  /** A Supabase user; only the fields the pages read. */
  datatype User = User(id: string, email: Option<string>, emailConfirmedAt: Option<string>)

  /** `user.email_confirmed_at` is truthy. */
  predicate Confirmed(u: User) {
    Truthy(u.emailConfirmedAt)
  }

  datatype Session = Session(accessToken: string, user: Option<User>)

  /** Outcome of `supabase.auth.getSession()`: the promise rejected, or it
      resolved with `session` null or present. */
  datatype SessionLookup = SessionThrew(message: string) | NoSession | HasSession(session: Session)

  /** Outcome of `supabase.auth.getUser()`. */
  datatype UserLookup = UserThrew(message: string) | NoUser | HasUser(user: User)

  /** Calls the pages make on the identity service, in the order made. */
  datatype IdentityCall =
    | GetSession
    | GetUser
    | SignInWithPassword(email: string, password: string)
    | ResetPasswordForEmail(email: string)
    | SignUp(email: string, password: string, username: string, name: string, surname: string)
    | SignOut
}
