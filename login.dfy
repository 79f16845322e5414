/** The login page (app/auth/login/page.tsx): password sign-in and the
    password-reset request. */
module LoginPage {
  import opened Web
  import opened Identity
  import Text

  const DashboardPath := "/dashboard"
  const NoUserMessage := "No user found"
  const UnexpectedMessage := "An unexpected error occurred"
  const ResetPromptMessage := "Please enter your email address to reset your password."
  const ResetSentMessage := "Password reset email sent! Check your inbox."

  /** Outcome of `signInWithPassword`: the promise rejected, it resolved with
      an `error`, or it resolved with `data.user` null or present. */
  datatype SignInOutcome = SignInThrew(message: string) | SignInError(message: string) | SignedIn(user: Option<User>)

  /** Outcome of `resetPasswordForEmail`. */
  datatype ResetOutcome = ResetThrew(message: string) | ResetError(message: string) | ResetSent

  /** The Log In button is enabled. */
  predicate LoginEnabled(loading: bool, email: string, password: string) {
    !loading && email != "" && password != ""
  }

  class Page {
    var email: string
    var password: string
    var errorMsg: string
    var loading: bool
    ghost var calls: seq<IdentityCall>
    ghost var navigations: seq<Navigation>

    constructor()
      ensures email == "" && password == "" && errorMsg == "" && !loading
      ensures calls == [] && navigations == []
    {
      email := "";
      password := "";
      errorMsg := "";
      loading := false;
      calls := [];
      navigations := [];
    }

    predicate ButtonEnabled()
      reads this
    {
      LoginEnabled(loading, email, password)
    }

    method SetEmail(value: string)
      modifies this
      ensures email == value
      ensures password == old(password) && errorMsg == old(errorMsg) && loading == old(loading)
      ensures calls == old(calls) && navigations == old(navigations)
    {
      email := value;
    }

    method SetPassword(value: string)
      modifies this
      ensures password == value
      ensures email == old(email) && errorMsg == old(errorMsg) && loading == old(loading)
      ensures calls == old(calls) && navigations == old(navigations)
    {
      password := value;
    }

    /** `handleLogin`, given the outcome of the credential exchange. */
    method HandleLogin(outcome: SignInOutcome)
      modifies this
      ensures email == old(email) && password == old(password)
      ensures calls == old(calls) + [SignInWithPassword(Text.Trim(old(email)), old(password))]
      ensures outcome.SignInError? ==>
        errorMsg == outcome.message && !loading && navigations == old(navigations)
      ensures outcome == SignedIn(None) ==>
        errorMsg == NoUserMessage && !loading && navigations == old(navigations)
      ensures outcome.SignedIn? && outcome.user.Some? ==>
        errorMsg == "" && loading && navigations == old(navigations) + [Push(DashboardPath)]
      ensures outcome.SignInThrew? ==>
        errorMsg == ErrorText(outcome.message, UnexpectedMessage) && !loading && navigations == old(navigations)
    {
      errorMsg := "";
      loading := true;
      var sentEmail := Text.Trim(email);
      calls := calls + [SignInWithPassword(sentEmail, password)];
      Settle(outcome);
    }

    /** The branches of `handleLogin` after the exchange has answered. */
    method Settle(outcome: SignInOutcome)
      requires errorMsg == "" && loading
      modifies this`errorMsg, this`loading, this`navigations
      ensures outcome.SignInError? ==>
        errorMsg == outcome.message && !loading && navigations == old(navigations)
      ensures outcome == SignedIn(None) ==>
        errorMsg == NoUserMessage && !loading && navigations == old(navigations)
      ensures outcome.SignedIn? && outcome.user.Some? ==>
        errorMsg == "" && loading && navigations == old(navigations) + [Push(DashboardPath)]
      ensures outcome.SignInThrew? ==>
        errorMsg == ErrorText(outcome.message, UnexpectedMessage) && !loading && navigations == old(navigations)
    {
      match outcome {
        case SignInThrew(m) =>
          errorMsg := ErrorText(m, UnexpectedMessage);
          loading := false;
        case SignInError(m) =>
          errorMsg := m;
          loading := false;
        case SignedIn(u) =>
          if u.None? {
            errorMsg := NoUserMessage;
            loading := false;
            return;
          }
          navigations := navigations + [Push(DashboardPath)];
      }
    }

    /** `handleForgotPassword`, given the outcome of the reset request (not
        consulted when the email field is empty). */
    method HandleForgotPassword(outcome: ResetOutcome)
      modifies this
      ensures email == old(email) && password == old(password) && navigations == old(navigations)
      ensures old(email) == "" ==>
        errorMsg == ResetPromptMessage && loading == old(loading) && calls == old(calls)
      ensures old(email) != "" ==>
        && calls == old(calls) + [ResetPasswordForEmail(old(email))]
        && !loading
        && errorMsg == (if outcome.ResetSent? then ResetSentMessage else outcome.message)
    {
      if email == "" {
        errorMsg := ResetPromptMessage;
        return;
      }
      loading := true;
      calls := calls + [ResetPasswordForEmail(email)];
      match outcome {
        case ResetSent => errorMsg := ResetSentMessage;
        case ResetError(m) => errorMsg := m;
        case ResetThrew(m) => errorMsg := m;
      }
      loading := false;
    }
  }

  /** The button checks the raw field while the exchange uses the trimmed
      one: an all-whitespace email enables the button yet is sent empty. */
  lemma WhitespaceEmailEnablesButton(email: string, password: string)
    requires email != "" && Text.AllWhitespace(email) && password != ""
    ensures LoginEnabled(false, email, password)
    ensures Text.Trim(email) == ""
  {
    Text.TrimEmptyIff(email);
  }

  /** The email sent is the field with surrounding whitespace removed, and
      nothing else is changed. */
  lemma SentEmailIsTrimmedField(email: string) returns (i: nat)
    ensures i + |Text.Trim(email)| <= |email| && Text.Trim(email) == email[i..i + |Text.Trim(email)|]
    ensures Text.AllWhitespace(email[..i]) && Text.AllWhitespace(email[i + |Text.Trim(email)|..])
  {
    i := Text.TrimSpec(email);
  }
}
