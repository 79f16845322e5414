/** The registration page (app/auth/register/page.tsx): a two-phase protocol,
    sign-up with the identity service and then a profile sync with the
    backend. A failed sign-up is fatal; a sync answered with an error status
    is only logged. */
module RegisterPage {
  import opened Web
  import opened Identity
  import Text

  const SyncPath := "/api/auth/register-sync"
  const ConfirmEmailPath := "/auth/confirm-email"
  const SignUpFallback := "Failed to sign up"
  const NoUserMessage := "User creation failed"

  /** Outcome of `signUp`: the promise rejected, it resolved with an error,
      or with `data.user` null or present. */
  datatype SignUpOutcome = SignUpThrew(message: string) | SignUpError(message: string) | SignedUp(user: Option<User>)

  /** The JSON object posted to the sync endpoint, as its keys and string
      values; an `undefined` email is left out by `JSON.stringify`. */
  function SyncBody(user: User, name: string, surname: string): (body: map<string, string>)
    ensures body.Keys == {"id", "name", "surname"} + (if user.email.Some? then {"email"} else {})
    ensures "username" !in body
    ensures body["id"] == user.id && body["name"] == name && body["surname"] == surname
    ensures user.email.Some? ==> body["email"] == user.email.value
  {
    map["id" := user.id, "name" := name, "surname" := surname]
      + (if user.email.Some? then map["email" := user.email.value] else map[])
  }

  datatype SyncRequest = SyncRequest(path: string, body: map<string, string>)

  /** The Register button is enabled. */
  predicate RegisterEnabled(loading: bool, email: string, password: string, name: string, surname: string, username: string) {
    !loading && email != "" && password != "" && name != "" && surname != "" && username != ""
  }

  /** Unlike the login form, nothing here trims: fields holding only white
      space enable the button, and `HandleRegister` passes them to `signUp`
      exactly as held. */
  lemma WhitespaceFieldsEnableRegister(email: string, password: string, name: string, surname: string, username: string)
    requires email != "" && name != "" && surname != "" && username != "" && password != ""
    requires Text.AllWhitespace(email) && Text.AllWhitespace(name) && Text.AllWhitespace(surname) && Text.AllWhitespace(username)
    ensures RegisterEnabled(false, email, password, name, surname, username)
    ensures Text.Trim(email) == "" && Text.Trim(name) == "" && Text.Trim(surname) == "" && Text.Trim(username) == ""
  {
    Text.TrimEmptyIff(email);
    Text.TrimEmptyIff(name);
    Text.TrimEmptyIff(surname);
    Text.TrimEmptyIff(username);
  }

  class Page {
    var email: string
    var password: string
    var username: string
    var name: string
    var surname: string
    var loading: bool
    var errorMsg: Option<string>
    ghost var calls: seq<IdentityCall>
    ghost var requests: seq<SyncRequest>
    ghost var navigations: seq<Navigation>

    constructor()
      ensures email == "" && password == "" && username == "" && name == "" && surname == ""
      ensures !loading && errorMsg.None?
      ensures calls == [] && requests == [] && navigations == []
    {
      email := "";
      password := "";
      username := "";
      name := "";
      surname := "";
      loading := false;
      errorMsg := None;
      calls := [];
      requests := [];
      navigations := [];
    }

    predicate ButtonEnabled()
      reads this
    {
      RegisterEnabled(loading, email, password, name, surname, username)
    }

    /** The form's five `onChange` handlers, applied together. */
    method Fill(newEmail: string, newPassword: string, newUsername: string, newName: string, newSurname: string)
      modifies this
      ensures email == newEmail && password == newPassword && username == newUsername
      ensures name == newName && surname == newSurname
      ensures loading == old(loading) && errorMsg == old(errorMsg)
      ensures calls == old(calls) && requests == old(requests) && navigations == old(navigations)
    {
      email := newEmail;
      password := newPassword;
      username := newUsername;
      name := newName;
      surname := newSurname;
    }

    /** `handleRegister`, given the sign-up outcome and, when it is reached,
        the outcome of the sync request (`Threw` when the fetch rejects or
        when the error body of a non-ok answer cannot be read as JSON). */
    method HandleRegister(signUp: SignUpOutcome, sync: Fetched<string>)
      modifies this
      ensures email == old(email) && password == old(password) && username == old(username)
      ensures name == old(name) && surname == old(surname)
      ensures !loading
      ensures calls == old(calls) + [SignUp(old(email), old(password), old(username), old(name), old(surname))]
      ensures !(signUp.SignedUp? && signUp.user.Some?) ==>
        && requests == old(requests) && navigations == old(navigations)
        && errorMsg == Some(if signUp == SignedUp(None) then NoUserMessage else ErrorText(signUp.message, SignUpFallback))
      ensures signUp.SignedUp? && signUp.user.Some? ==>
        && requests == old(requests) + [SyncRequest(SyncPath, SyncBody(signUp.user.value, old(name), old(surname)))]
        && (sync.Answered? ==> errorMsg.None? && navigations == old(navigations) + [Push(ConfirmEmailPath)])
        && (sync.Threw? ==> errorMsg == Some(ErrorText(sync.message, SignUpFallback)) && navigations == old(navigations))
    {
      loading := true;
      errorMsg := None;
      calls := calls + [SignUp(email, password, username, name, surname)];
      match signUp {
        case SignUpThrew(m) =>
          errorMsg := Some(ErrorText(m, SignUpFallback));
        case SignUpError(m) =>
          errorMsg := Some(ErrorText(m, SignUpFallback));
        case SignedUp(u) =>
          if u.None? {
            errorMsg := Some(NoUserMessage);
          } else {
            requests := requests + [SyncRequest(SyncPath, SyncBody(u.value, name, surname))];
            if sync.Threw? {
              errorMsg := Some(ErrorText(sync.message, SignUpFallback));
            } else {
              // a non-ok answer only logs its `detail`
              navigations := navigations + [Push(ConfirmEmailPath)];
            }
          }
      }
      loading := false;
    }
  }
}
