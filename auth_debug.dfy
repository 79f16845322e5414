/** Server-side bearer-token verification and current-user resolution
    (auth_debug.py). The JOSE library and the database are oracles: the
    header reader, the decoder (a function of the token and of the decode
    options it is asked to use) and the query runner are parameters. */
module AuthDebug {
  import opened Web
  import Text

  /** The claims the code reads from a verified payload. */
  datatype Claims = Claims(sub: Option<string>, email: Option<string>)

  /** Outcome of `jwt.get_unverified_header(token)`: the header's `alg`
      parameter (section 4.1.1 of RFC 7515), absent or present, or the
      error raised. */
  datatype HeaderRead = HeaderOk(alg: Option<string>) | HeaderError(message: string)

  /** What `jwt.decode` is asked to do: the accepted algorithms and whether
      the audience claim is checked. */
  datatype DecodeOptions = DecodeOptions(algorithms: seq<string>, verifyAudience: bool)

  datatype Decoded = Decoded(claims: Claims) | DecodeError(message: string)

  /** Outcome of `verify_supabase_token`: the payload, the 401 it raises, or
      an exception that escapes it unconverted. */
  datatype Verification = Verified(claims: Claims) | Unauthorized(detail: string) | Escaped(error: string)

  /** An HTTPException: status, detail and whether it carries
      `WWW-Authenticate: Bearer` (section 3 of RFC 6750). */
  datatype HttpError = HttpError(status: int, detail: string, bearerChallenge: bool)

  datatype CurrentUser = CurrentUser(userId: int, email: string, supabaseId: string)

  datatype AuthOutcome = Authenticated(user: CurrentUser) | Failed(error: HttpError) | Unhandled(exception: string)

  /** The four lookups `get_current_user` may run. */
  datatype Query = UsersById(id: string) | UsersAuthByOwner(owner: string)
                 | CapitalAuthByOwner(owner: string) | UsersByEmail(email: string)

  /** Outcome of one `execute_query(..., fetch="one")`: it raised, found no
      row, or found a row (given by its `user_id` column, the one column the
      code reads). */
  datatype DbAnswer = DbFailed(error: string) | NoRow | Row(userId: int)

  /** The outcome together with the queries run, in order. */
  datatype Resolution = Resolution(outcome: AuthOutcome, queries: seq<Query>)

  const DefaultAlg := "HS256"
  const Es256Advice := "Your project uses ES256. " + "You cannot use a simple " + "'Secret string'. "
                       + "You must provide the " + "Public Key from your dashboard."
  const CriticalConfigDetail := "CRITICAL CONFIG ERROR: " + "Your Supabase uses ES256 (Asymmetric). "
                                + "You must paste the PUBLIC KEY (PEM) into your .env, " + "not just the secret string."
  const InvalidPayloadDetail := "Invalid token payload"
  const NotFoundDetail := "User not found in local database. Please complete registration sync."
  /** The error that escapes when `alg` is read before it was bound. The
      text is a placeholder: Python's own wording is not modelled, and the
      framework answers any escaped error with a generic 500. */
  const UnboundAlgError := "UnboundLocalError: alg"

  /** The algorithm the header names, HS256 when it names none. */
  function SelectedAlg(alg: Option<string>): string {
    alg.GetOr(DefaultAlg)
  }

  /** Decoding with exactly one algorithm and no audience check. */
  function DecodeWith(alg: string): DecodeOptions {
    DecodeOptions([alg], false)
  }

  /** The strategic verification of lines 45-63: HS256, ES256 (whose key-format
      errors are replaced by advice) or any other algorithm. */
  function DecodeByAlg(token: string, alg: string, decode: (string, DecodeOptions) -> Decoded): (r: Decoded)
    ensures decode(token, DecodeWith(alg)).Decoded? ==> r == decode(token, DecodeWith(alg))
    ensures r.Decoded? ==> r == decode(token, DecodeWith(alg))
    ensures r.DecodeError? ==> decode(token, DecodeWith(alg)).DecodeError?
  {
    if alg == "HS256" then decode(token, DecodeWith("HS256"))
    else if alg == "ES256" then
      match decode(token, DecodeWith("ES256"))
      case Decoded(c) => Decoded(c)
      case DecodeError(e) =>
        if Text.Contains(e, "MalformedFraming") || Text.Contains(e, "PEM") then DecodeError(Es256Advice)
        else DecodeError(e)
    else decode(token, DecodeWith(alg))
  }

  /** The detail of the 401 raised for a failed verification. */
  function FailureDetail(alg: string, msg: string): string {
    if Text.Contains(alg, "ES256") && (Text.Contains(msg, "PEM") || Text.Contains(msg, "Framing"))
    then CriticalConfigDetail
    else "Authentication Failed (" + alg + "): " + msg
  }

  /** `verify_supabase_token`. */
  function VerifySupabaseToken(token: string, readHeader: string -> HeaderRead,
                               decode: (string, DecodeOptions) -> Decoded): (r: Verification)
    ensures readHeader(token).HeaderError? <==> r.Escaped?
    ensures readHeader(token).HeaderOk? ==>
      var alg := SelectedAlg(readHeader(token).alg);
      && (r.Verified? <==> decode(token, DecodeWith(alg)).Decoded?)
      && (r.Verified? ==> decode(token, DecodeWith(alg)) == Decoded(r.claims))
      && (r.Unauthorized? ==> r.detail == FailureDetail(alg, DecodeByAlg(token, alg, decode).message))
  {
    match readHeader(token)
    case HeaderError(_) =>
      // `alg` is unbound here: the f-string of the failure detail raises.
      Escaped(UnboundAlgError)
    case HeaderOk(algParam) =>
      var alg := SelectedAlg(algParam);
      match DecodeByAlg(token, alg, decode)
      case Decoded(c) => Verified(c)
      case DecodeError(msg) => Unauthorized(FailureDetail(alg, msg))
  }

  /** The result depends on the decoder only through the one call it makes:
      the selected algorithm, alone, with the audience check off. */
  lemma DecodesWithSelectedAlgOnly(token: string, readHeader: string -> HeaderRead,
                                   d1: (string, DecodeOptions) -> Decoded, d2: (string, DecodeOptions) -> Decoded)
    requires readHeader(token).HeaderOk?
    requires var opts := DecodeWith(SelectedAlg(readHeader(token).alg)); d1(token, opts) == d2(token, opts)
    ensures VerifySupabaseToken(token, readHeader, d1) == VerifySupabaseToken(token, readHeader, d2)
  {
  }

  /** The ES256 advice text lacks the letter 'M' (checked piece by piece). */
  lemma AdviceLacksM()
    ensures 'M' !in Es256Advice
  {
    assert 'M' !in "Your project uses ES256. " && 'M' !in "You cannot use a simple ";
    assert 'M' !in "'Secret string'. " && 'M' !in "You must provide the ";
    assert 'M' !in "Public Key from your dashboard.";
  }

  /** The ES256 advice text lacks the letter 'F' (checked piece by piece). */
  lemma AdviceLacksF()
    ensures 'F' !in Es256Advice
  {
    assert 'F' !in "Your project uses ES256. " && 'F' !in "You cannot use a simple ";
    assert 'F' !in "'Secret string'. " && 'F' !in "You must provide the ";
    assert 'F' !in "Public Key from your dashboard.";
  }

  /** The ES256 advice text mentions neither "PEM" nor "Framing". */
  lemma AdviceMentionsNoKeyFormat()
    ensures !Text.Contains(Es256Advice, "PEM") && !Text.Contains(Es256Advice, "Framing")
  {
    AdviceLacksM();
    AdviceLacksF();
    Text.MissingCharExcludes(Es256Advice, "PEM", 'M');
    Text.MissingCharExcludes(Es256Advice, "Framing", 'F');
  }

  /** The generic failure detail is never the critical configuration detail. */
  lemma GenericDetailIsNotCritical(alg: string, msg: string)
    ensures "Authentication Failed (" + alg + "): " + msg != CriticalConfigDetail
  {
    assert ("Authentication Failed (" + alg + "): " + msg)[0] != CriticalConfigDetail[0];
  }

  /** With alg ES256, a key-format error (one mentioning PEM or MalformedFraming)
      is answered with the advice text in the generic detail: the critical
      configuration detail is not produced for it. */
  lemma Es256KeyFormatError(token: string, readHeader: string -> HeaderRead,
                            decode: (string, DecodeOptions) -> Decoded, e: string)
    requires readHeader(token) == HeaderOk(Some("ES256"))
    requires decode(token, DecodeWith("ES256")) == DecodeError(e)
    requires Text.Contains(e, "PEM") || Text.Contains(e, "MalformedFraming")
    ensures VerifySupabaseToken(token, readHeader, decode) ==
      Unauthorized("Authentication Failed (ES256): " + Es256Advice)
  {
    assert DecodeByAlg(token, "ES256", decode) == DecodeError(Es256Advice);
    AdviceMentionsNoKeyFormat();
    assert FailureDetail("ES256", Es256Advice) == "Authentication Failed (ES256): " + Es256Advice;
  }

  /** With alg ES256, the critical configuration detail appears exactly for a
      decode error that mentions "Framing" but neither "MalformedFraming" nor "PEM". */
  lemma Es256CriticalDetail(token: string, readHeader: string -> HeaderRead,
                            decode: (string, DecodeOptions) -> Decoded, e: string)
    requires readHeader(token) == HeaderOk(Some("ES256"))
    requires decode(token, DecodeWith("ES256")) == DecodeError(e)
    ensures VerifySupabaseToken(token, readHeader, decode) == Unauthorized(CriticalConfigDetail) <==>
      Text.Contains(e, "Framing") && !Text.Contains(e, "MalformedFraming") && !Text.Contains(e, "PEM")
  {
    assert Text.Contains("ES256", "ES256") by { assert "ES256" <= "ES256"; }
    if Text.Contains(e, "MalformedFraming") || Text.Contains(e, "PEM") {
      Es256KeyFormatError(token, readHeader, decode, e);
      GenericDetailIsNotCritical("ES256", Es256Advice);
    } else {
      assert DecodeByAlg(token, "ES256", decode) == DecodeError(e);
      GenericDetailIsNotCritical("ES256", e);
    }
  }

  /** With no `alg` or alg HS256, a decode error is refused with the generic
      detail carrying the decoder's own message. */
  lemma Hs256RefusalDetail(token: string, readHeader: string -> HeaderRead,
                           decode: (string, DecodeOptions) -> Decoded, e: string)
    requires readHeader(token) == HeaderOk(None) || readHeader(token) == HeaderOk(Some("HS256"))
    requires decode(token, DecodeWith("HS256")) == DecodeError(e)
    ensures VerifySupabaseToken(token, readHeader, decode) == Unauthorized("Authentication Failed (HS256): " + e)
  {
    Text.MissingCharExcludes("HS256", "ES256", 'E');
  }

  /** A header without `alg`, or with alg HS256, never yields the critical
      configuration detail. */
  lemma Hs256NeverCritical(token: string, readHeader: string -> HeaderRead,
                           decode: (string, DecodeOptions) -> Decoded)
    requires readHeader(token) == HeaderOk(None) || readHeader(token) == HeaderOk(Some("HS256"))
    ensures VerifySupabaseToken(token, readHeader, decode) != Unauthorized(CriticalConfigDetail)
  {
    Text.MissingCharExcludes("HS256", "ES256", 'E');
    var d := decode(token, DecodeWith("HS256"));
    if d.DecodeError? {
      GenericDetailIsNotCritical("HS256", d.message);
    }
  }

  /** Any algorithm other than HS256 and ES256 is decoded as named, and its
      failure message reaches the 401 detail unchanged; unless the name
      contains "ES256" that detail is the generic one. */
  lemma OtherAlgRefusalDetail(token: string, readHeader: string -> HeaderRead,
                              decode: (string, DecodeOptions) -> Decoded, alg: string, e: string)
    requires readHeader(token) == HeaderOk(Some(alg)) && alg != "HS256" && alg != "ES256"
    requires decode(token, DecodeWith(alg)) == DecodeError(e)
    ensures VerifySupabaseToken(token, readHeader, decode) == Unauthorized(FailureDetail(alg, e))
    ensures !Text.Contains(alg, "ES256") ==>
      VerifySupabaseToken(token, readHeader, decode) == Unauthorized("Authentication Failed (" + alg + "): " + e)
  {
    assert DecodeByAlg(token, alg, decode) == DecodeError(e);
  }

  // ---------------------------------------------------------------------
  // get_current_user

  /** The local integer user id: the `users_auth` match, else the
      `users_auth_capitaldotcom` match, else 0. */
  function LocalUserId(sub: string, db: Query -> DbAnswer): int {
    match db(UsersAuthByOwner(sub))
    case Row(id) => id
    case _ =>
      match db(CapitalAuthByOwner(sub))
      case Row(id) => id
      case _ => 0
  }

  /** No query of the chain raises. */
  predicate ChainSucceeds(sub: string, email: string, db: Query -> DbAnswer) {
    && !db(UsersById(sub)).DbFailed?
    && !db(UsersAuthByOwner(sub)).DbFailed?
    && (db(UsersAuthByOwner(sub)).NoRow? ==> !db(CapitalAuthByOwner(sub)).DbFailed?)
    && (db(UsersById(sub)).NoRow? ==> !db(UsersByEmail(email)).DbFailed?)
  }

  /** A users row exists by id or, failing that, by email. */
  predicate UserRowExists(sub: string, email: string, db: Query -> DbAnswer) {
    db(UsersById(sub)).Row? || (db(UsersById(sub)).NoRow? && db(UsersByEmail(email)).Row?)
  }

  function ServerError(e: string): AuthOutcome {
    Failed(HttpError(500, "Failed to authenticate user: " + e, false))
  }

  /** Lines 103-159: the database part of `get_current_user`. */
  function ResolveLocalUser(sub: string, email: string, db: Query -> DbAnswer): (r: Resolution)
    ensures r.queries != [] && r.queries[0] == UsersById(sub)
    ensures r.outcome.Authenticated? <==> ChainSucceeds(sub, email, db) && UserRowExists(sub, email, db)
    ensures r.outcome.Authenticated? ==> r.outcome.user == CurrentUser(LocalUserId(sub, db), email, sub)
    ensures !r.outcome.Unhandled?
    ensures r.outcome.Failed? ==> !r.outcome.error.bearerChallenge
    ensures r.outcome.Failed? && r.outcome.error.status != 500 ==>
      r.outcome.error == HttpError(404, NotFoundDetail, false)
      && ChainSucceeds(sub, email, db) && !UserRowExists(sub, email, db)
    ensures ChainSucceeds(sub, email, db) && !UserRowExists(sub, email, db) ==>
      r.outcome == Failed(HttpError(404, NotFoundDetail, false))
    ensures !ChainSucceeds(sub, email, db) ==>
      var last := r.queries[|r.queries| - 1];
      db(last).DbFailed? && r.outcome == Failed(HttpError(500, "Failed to authenticate user: " + db(last).error, false))
    ensures UsersByEmail(email) in r.queries ==> db(UsersById(sub)).NoRow?
    ensures CapitalAuthByOwner(sub) in r.queries ==> db(UsersAuthByOwner(sub)).NoRow?
  {
    var byId := db(UsersById(sub));
    if byId.DbFailed? then Resolution(ServerError(byId.error), [UsersById(sub)])
    else
      var auth := db(UsersAuthByOwner(sub));
      if auth.DbFailed? then Resolution(ServerError(auth.error), [UsersById(sub), UsersAuthByOwner(sub)])
      else
        var authQueries := [UsersById(sub), UsersAuthByOwner(sub)] + (if auth.NoRow? then [CapitalAuthByOwner(sub)] else []);
        var authRecord := if auth.NoRow? then db(CapitalAuthByOwner(sub)) else auth;
        if authRecord.DbFailed? then Resolution(ServerError(authRecord.error), authQueries)
        else
          var localId := if authRecord.Row? then authRecord.userId else 0;
          if byId.NoRow? then
            var byEmail := db(UsersByEmail(email));
            var queries := authQueries + [UsersByEmail(email)];
            if byEmail.DbFailed? then Resolution(ServerError(byEmail.error), queries)
            else if byEmail.NoRow? then Resolution(Failed(HttpError(404, NotFoundDetail, false)), queries)
            else Resolution(Authenticated(CurrentUser(localId, email, sub)), queries)
          else Resolution(Authenticated(CurrentUser(localId, email, sub)), authQueries)
  }

  /** `get_current_user` for the bearer token `token`. */
  function GetCurrentUser(token: string, readHeader: string -> HeaderRead,
                          decode: (string, DecodeOptions) -> Decoded, db: Query -> DbAnswer): (r: Resolution)
    ensures var v := VerifySupabaseToken(token, readHeader, decode);
      && (v.Escaped? ==> r == Resolution(Unhandled(v.error), []))
      && (v.Unauthorized? ==> r == Resolution(Failed(HttpError(401, v.detail, true)), []))
      && (v.Verified? && !(Truthy(v.claims.sub) && Truthy(v.claims.email)) ==>
            r == Resolution(Failed(HttpError(401, InvalidPayloadDetail, false)), []))
      && (v.Verified? && Truthy(v.claims.sub) && Truthy(v.claims.email) ==>
            r == ResolveLocalUser(v.claims.sub.value, v.claims.email.value, db))
    ensures r.outcome.Authenticated? ==>
      var v := VerifySupabaseToken(token, readHeader, decode);
      && v.Verified?
      && v.claims.email == Some(r.outcome.user.email)
      && v.claims.sub == Some(r.outcome.user.supabaseId)
      && r.outcome.user.userId == LocalUserId(r.outcome.user.supabaseId, db)
  {
    match VerifySupabaseToken(token, readHeader, decode)
    case Escaped(e) => Resolution(Unhandled(e), [])
    case Unauthorized(detail) => Resolution(Failed(HttpError(401, detail, true)), [])
    case Verified(c) =>
      if !Truthy(c.sub) || !Truthy(c.email) then
        Resolution(Failed(HttpError(401, InvalidPayloadDetail, false)), [])
      else ResolveLocalUser(c.sub.value, c.email.value, db)
  }

  /** Every refusal that comes from verifying the token is a 401 carrying the
      Bearer challenge, except when the header cannot be read at all: then no
      HTTP error is produced and the exception escapes. */
  lemma VerificationRefusals(token: string, readHeader: string -> HeaderRead,
                             decode: (string, DecodeOptions) -> Decoded, db: Query -> DbAnswer)
    ensures var r := GetCurrentUser(token, readHeader, decode, db);
      && (readHeader(token).HeaderError? ==> r.outcome.Unhandled? && r.queries == [])
      && (r.outcome.Failed? && r.outcome.error.bearerChallenge ==>
            r.outcome.error.status == 401 && r.queries == [])
  {
    var v := VerifySupabaseToken(token, readHeader, decode);
    if v.Verified? && Truthy(v.claims.sub) && Truthy(v.claims.email) {
      var _ := ResolveLocalUser(v.claims.sub.value, v.claims.email.value, db);
    }
  }

  datatype Credentials = Credentials(token: string)

  /** `get_current_user_optional`: no credentials, no user. */
  function GetCurrentUserOptional(credentials: Option<Credentials>, readHeader: string -> HeaderRead,
                                  decode: (string, DecodeOptions) -> Decoded, db: Query -> DbAnswer): (r: Option<Resolution>)
    ensures credentials.None? <==> r.None?
    ensures credentials.Some? ==> r == Some(GetCurrentUser(credentials.value.token, readHeader, decode, db))
  {
    match credentials
    case None => None
    case Some(c) => Some(GetCurrentUser(c.token, readHeader, decode, db))
  }
}
