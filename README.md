# Session-gated account linking, modelled in Dafny

This project models the logic of a trading dashboard's web front end and of its
backend's authentication dependency:

- **Accounts page.** It loads the user's plan limits and linked MetaTrader 5 and
  Capital.com accounts with the session's access token. It links a new account
  from a form and unlinks one after confirmation.
- **Route guards.**
  - `useRequireAuth` sends visitors without a session to the login page and
    unconfirmed users to the confirmation page.
  - `useRedirectIfAuth` moves signed-in visitors off the public pages.
  - The earlier dashboard page has its own session check.
- **Login and registration pages.**
  - Password sign-in with a trimmed email, and the password-reset request.
  - A two-phase sign-up: the identity service first, then a profile sync with
    the backend.
- **Backend token resolution (`auth_debug.py`).**
  - Verification dispatches on the JWS `alg` header parameter (section 4.1.1
    of RFC 7515).
  - Failures map to 401 (with `WWW-Authenticate: Bearer`, section 3 of
    RFC 6750), 404 or 500.
  - A fallback chain of database lookups yields the local user id.
- **API debug console.** A newest-first log of at most 100 lines, and a map
  from test names to the last JSON each test received.
- **Dashboard menu search.** Case-insensitive label search capped at five
  results, the Enter-key rule, and the search-page URL with its
  percent-encoded query (section 2.1 of RFC 3986).

Form of the model:

- Each page is a `class` whose fields are the page's React state cells, with one
  method per handler.
- Everything the page sends or shows goes into ghost traces: identity-service
  calls, backend requests, `alert`/`confirm` dialogs and router navigations. This
  is how "nothing is sent" and "no navigation" can be stated.
- Outside services are inputs to the methods, never modelled from the inside:
  Supabase auth, `fetch`, the router, dialogs, `parseInt`, `jwt.decode` and the
  database.
- The backend module and the guards' decisions are pure functions over those
  oracle outcomes.

Shared helpers:

- `Web`: optional values, fetch outcomes, JavaScript truthiness,
  `err.message || fallback`, and a JSON value type.
- `Identity`: the identity service's session and user values.
- `Text`: substring search, `trim()` over the ECMAScript white-space set,
  lower-casing, and decimal rendering.
- `Uri`: `encodeURIComponent` over UTF-8, with a decoder proved to be its
  inverse.

### Behaviour of the code worth knowing

- **Linking.** No plan limit is checked and the handler validates no form
  field before the request is sent: its only check is that an access token
  is held. The "+ Link New Account" toggle (`AccountsPage.LinkToggleVisible`)
  only decides at render time whether the form can be opened; once open, the
  form stays whatever the limits say. The inputs themselves are `required`,
  which the browser enforces before the handler runs.
- **Timing.** The limits and list requests are sequential, and neither is
  retried. There is no per-account operation queue, and no guard cancels its
  work on unmount.
- **`useRedirectIfAuth`** has no loading flag: the public page renders before
  the hook has decided.
- **`useRequireAuth`** admits a session whose `getUser` returns no user
  (`RedirectIfAuth.NullUserCornerCase`).
- **The old dashboard** does not check email confirmation
  (`OldDashboard.AdmitsUnconfirmed`).
- **Account lists** are stored as received, with no consistency check between
  the two lists and the limits.
- **`verify_supabase_token`, ES256 path.** A key-format error mentioning
  `PEM` or `MalformedFraming` is replaced by a `ValueError` whose text has
  neither word. The outer handler therefore gives the generic
  `Authentication Failed (ES256): …` detail, not the critical configuration
  message.
- **`verify_supabase_token`, unreadable header.** If the token header cannot
  be read, the outer handler formats an `alg` that was never bound. The
  resulting error escapes instead of a 401.

Both `verify_supabase_token` behaviours are modelled as written and proved as
lemmas (`Es256KeyFormatError`, `Es256CriticalDetail`, `VerificationRefusals`).

## Model

| member | source | states |
|---|---|---|
| `AccountsPage.Load` | app/accounts/page.tsx:58-86 | limits are replaced only by an ok limits answer, else kept (possibly null); both lists are replaced only by an ok list answer reached after a non-throwing limits request, a missing list becoming empty; the error is cleared, or set to the thrown message or "Failed to load account data" exactly when a request threw |
| `AccountsPage.LoadIdempotent` | app/accounts/page.tsx:58-86 | loading twice with the same answers is loading once |
| `AccountsPage.LoadForgetsOnSuccess` | app/accounts/page.tsx:64-80 | when both answers are ok the loaded data does not depend on what was stored before |
| `AccountsPage.LoadRequests` | app/accounts/page.tsx:64-75 | one load sends GET limits with the bearer token, then GET list only if the limits request did not throw |
| `AccountsPage.FormRequest` | app/accounts/page.tsx:92-103 | the request built from the form is of the selected broker kind |
| `AccountsPage.PostedFields` | app/accounts/page.tsx:92-103 | the posted MT5 login is `parseInt` of the `mt5_login` field (null when missing or NaN), `mt5_investor_password` carries the `mt5_password` field, and every other key carries the field of its own name (null when missing) |
| `AccountsPage.LinkBody` | app/accounts/page.tsx:93-103 | the posted JSON has `broker_type` plus exactly the three MT5 fields or the three Capital.com fields |
| `AccountsPage.LinkBodyRoundTrip` | app/accounts/page.tsx:93-112 | reading the posted body back gives the typed request: NaN logins and missing fields travel as null and are recovered |
| `AccountsPage.LinkBodyInjective` | app/accounts/page.tsx:93-112 | different link requests never produce the same body |
| `AccountsPage.ViewOf` | app/accounts/page.tsx:149-219 | the management view appears iff authenticated and not loading; the error banner iff the error is truthy, showing that error's text; the limits panel iff limits are set; the link toggle iff limits allow adding; the form iff toggled on, for the selected broker kind |
| `AccountsPage.Page.constructor` | app/accounts/page.tsx:31-39 | the initial state cells: unauthenticated, no token, no limits, empty lists, loading, no error, form hidden, MT5 selected |
| `AccountsPage.Page.LoadAccountData` | app/accounts/page.tsx:58-86 | the stored data becomes `Load` of the old data; loading ends false; exactly `LoadRequests` are sent; nothing else changes |
| `AccountsPage.Page.CheckAuth` | app/accounts/page.tsx:46-56 | a session stores its token, marks the page authenticated and loads with that token; no session marks it unauthenticated, clears loading, sends nothing and shows the log-in prompt; a rejected lookup changes nothing |
| `AccountsPage.Page.HandleLinkAccount` | app/accounts/page.tsx:88-126 | without a truthy token nothing is sent or shown; otherwise the form's request is posted whatever the limits; `success` alerts the message, hides the form and reloads; otherwise only an alert (message, or the prefixed error) and the data, loading and form stay untouched |
| `AccountsPage.Page.HandleUnlinkAccount` | app/accounts/page.tsx:128-147 | without a token nothing happens and no confirmation is asked; a declined confirmation sends nothing; otherwise a DELETE of `/api/accounts/{kind}/{login}`, then a reload on ok only, or an alert with the `detail` or thrown message and no state change |
| `AccountsPage.Page.ToggleLinkForm` | app/accounts/page.tsx:211 | the form flag is flipped and nothing else changes |
| `AccountsPage.Page.SelectBrokerType` | app/accounts/page.tsx:226 | the selected broker kind is set and nothing else changes |
| `RequireAuth.Decide` | hooks/useRequireAuth.ts:12-38 | allow iff there is a session and `getUser` neither threw nor returned an unconfirmed user (a null user is allowed); confirm-email iff a session with an unconfirmed user; login iff no session, a rejected lookup or a rejected `getUser` |
| `RequireAuth.NoSessionIgnoresUser` | hooks/useRequireAuth.ts:17-20 | without a session the outcome of `getUser` is irrelevant: the hook goes to the login page |
| `RequireAuth.Guard.constructor` | hooks/useRequireAuth.ts:10 | `loading` starts true with no navigation |
| `RequireAuth.Guard.CheckUser` | hooks/useRequireAuth.ts:12-41 | `getUser` is called only after a session is found; an allowed run clears `loading` without navigating; any other run makes exactly one `replace` to the decided page and leaves `loading` as it was |
| `RedirectIfAuth.Target` | hooks/useRedirectIfAuth.ts:11-28 | no target iff there is no session or the lookup threw; a session goes to `/dashboard` iff its user's email is confirmed, otherwise to the confirmation page |
| `RedirectIfAuth.Navigations` | hooks/useRedirectIfAuth.ts:14-24 | a run makes at most one navigation, a `replace`, and none without a session or after an error |
| `RedirectIfAuth.GuardsAgree` | hooks/useRedirectIfAuth.ts:15-20 | for the same confirmed-or-not user both guards pick the confirmation page, and the private guard allows exactly when the public one sends to the dashboard |
| `RedirectIfAuth.NoSessionStaysPublic` | hooks/useRedirectIfAuth.ts:15 | without a session the public guard stays and the private guard goes to login |
| `RedirectIfAuth.NullUserCornerCase` | hooks/useRequireAuth.ts:23-32 | a session whose `getUser` returns no user is allowed by the private guard even when the session's own user is unconfirmed |
| `OldDashboard.Page.constructor` | app/dashboard/old/page.tsx:14-15 | no user and `loading` true |
| `OldDashboard.Page.GetSession` | app/dashboard/old/page.tsx:17-28 | a session stores its user and clears `loading` without navigating; no session pushes `/auth/login` and leaves `loading` true; a rejected lookup changes nothing |
| `OldDashboard.Page.HandleLogout` | app/dashboard/old/page.tsx:30-33 | sign-out is called, then `/auth/login` is pushed unless sign-out rejected |
| `OldDashboard.AdmitsUnconfirmed` | app/dashboard/old/page.tsx:19-25 | an unconfirmed session is admitted here while `useRequireAuth` would send it to the confirmation page |
| `OldDashboard.RequireAuthAllowedIsAdmitted` | app/dashboard/old/page.tsx:19-25 | every state `useRequireAuth` allows is admitted by this page |
| `LoginPage.LoginEnabled` | app/auth/login/page.tsx:163 | the Log In button is enabled iff nothing is in flight and the email and password fields are non-empty (untrimmed) |
| `LoginPage.Page.constructor` | app/auth/login/page.tsx:24-28 | empty fields, no message, not loading |
| `LoginPage.Page.SetEmail` | app/auth/login/page.tsx:137 | the email field is set and nothing else changes |
| `LoginPage.Page.SetPassword` | app/auth/login/page.tsx:148 | the password field is set and nothing else changes |
| `LoginPage.Page.HandleLogin` | app/auth/login/page.tsx:31-57 | the exchange gets the trimmed email and the unchanged password; an error shows its message, a missing user "No user found", a rejection its message or "An unexpected error occurred", each with loading cleared and no navigation; success pushes `/dashboard` and leaves loading true |
| `LoginPage.Page.HandleForgotPassword` | app/auth/login/page.tsx:59-76 | an empty email sets the prompt, calls nothing and leaves loading; otherwise one reset call with the untrimmed email, the sent message or the error message, and loading false |
| `LoginPage.WhitespaceEmailEnablesButton` | app/auth/login/page.tsx:35-38 | an all-whitespace email enables the button (line 163) yet is sent as the empty string |
| `LoginPage.SentEmailIsTrimmedField` | app/auth/login/page.tsx:36 | the email sent is a contiguous run of the field and only whitespace is removed around it |
| `RegisterPage.SyncBody` | app/auth/register/page.tsx:60-65 | the sync body holds exactly id, name, surname and (when present) email of the created user; username is never sent |
| `RegisterPage.RegisterEnabled` | app/auth/register/page.tsx:204 | the Register button is enabled iff nothing is in flight and email, password, name, surname and username are all non-empty (untrimmed) |
| `RegisterPage.WhitespaceFieldsEnableRegister` | app/auth/register/page.tsx:204 | fields holding only white space enable the Register button even though each trims to nothing; `HandleRegister` sends them to sign-up as held |
| `RegisterPage.Page.constructor` | app/auth/register/page.tsx:26-33 | empty fields, no message, not loading |
| `RegisterPage.Page.Fill` | app/auth/register/page.tsx:142-189 | the five form fields are set and nothing else changes |
| `RegisterPage.Page.HandleRegister` | app/auth/register/page.tsx:35-80 | sign-up is called with all five fields; its error, rejection or missing user ("User creation failed") sets the message and stops before the sync with no navigation; otherwise the sync is posted, any answer (ok or not) navigates to the confirmation page, and a thrown sync sets the message ("Failed to sign up" when empty) with no navigation; loading ends false |
| `AuthDebug.DecodeByAlg` | auth_debug.py:44-63 | decoding uses exactly the selected algorithm; a success is the decoder's own, and a failure is a failure of that decode |
| `AuthDebug.VerifySupabaseToken` | auth_debug.py:32-79 | an unreadable header escapes with no 401; otherwise the token is verified iff decoding with the selected algorithm (HS256 when absent), audience check off, succeeds, and its claims are returned; a refusal carries `FailureDetail` of the algorithm and the (possibly replaced) decode message |
| `AuthDebug.DecodesWithSelectedAlgOnly` | auth_debug.py:39-63 | the result depends on the decoder only through the single decode with the selected algorithm |
| `AuthDebug.AdviceMentionsNoKeyFormat` | auth_debug.py:59 | the ES256 advice text contains neither "PEM" nor "Framing" |
| `AuthDebug.GenericDetailIsNotCritical` | auth_debug.py:70-73 | the generic failure detail never equals the critical configuration detail |
| `AuthDebug.Es256KeyFormatError` | auth_debug.py:54-79 | with ES256, a PEM or MalformedFraming decode error yields the generic detail carrying the advice text |
| `AuthDebug.Es256CriticalDetail` | auth_debug.py:49-79 | with ES256, the critical detail appears iff the error mentions "Framing" and neither "MalformedFraming" nor "PEM" |
| `AuthDebug.Hs256RefusalDetail` | auth_debug.py:39-79 | with no alg or alg HS256, a decode error `e` is refused with exactly "Authentication Failed (HS256): " followed by `e` |
| `AuthDebug.OtherAlgRefusalDetail` | auth_debug.py:60-79 | any alg other than HS256 and ES256 is decoded as named and its error `e` reaches the 401 detail unchanged through `FailureDetail`; when the alg does not contain "ES256" the detail is exactly "Authentication Failed (" + alg + "): " + `e` |
| `AuthDebug.Hs256NeverCritical` | auth_debug.py:39-47 | a header with no alg or alg HS256 never yields the critical detail |
| `AuthDebug.LocalUserId` | auth_debug.py:113-130 | the local id is the `users_auth` match, else the capital.com match, else 0 |
| `AuthDebug.ResolveLocalUser` | auth_debug.py:101-159 | lookups start with users-by-id; the user is authenticated iff no lookup raises and a users row exists by id or, failing that, by email; the user carries the local id and the token's email and subject; when no lookup raises but no row exists, exactly the 404 with the sync message; when a lookup raises, exactly the 500 "Failed to authenticate user: " followed by the error of that lookup, the last one made; never a challenge; the email lookup runs only after the id lookup found nothing |
| `AuthDebug.GetCurrentUser` | auth_debug.py:82-159 | an escaped verification error escapes; a verification refusal is a 401 with the Bearer challenge and no queries; a payload without truthy sub or email is a 401 "Invalid token payload" without challenge and no queries; a payload with both gets exactly `ResolveLocalUser`'s outcome and queries (success, 404 or 500); an authenticated user carries the token's email and sub and the local id |
| `AuthDebug.VerificationRefusals` | auth_debug.py:36-99 | an unreadable header gives no HTTP error and runs no query; every challenged refusal is a 401 decided before any query |
| `AuthDebug.GetCurrentUserOptional` | auth_debug.py:162-171 | no credentials gives no user (a branch a request cannot reach, see Left out); credentials give exactly `get_current_user`'s result |
| `ApiDebug.Prefix` | app/api-debug/page.tsx:25 | the prefix is `[OK]` exactly for success, `[ERR]` exactly for errors and `[INF]` exactly for information |
| `ApiDebug.Newest` | app/api-debug/page.tsx:26 | keeps the first (newest) lines, exactly 100 of them when there are more and all of them otherwise |
| `ApiDebug.Reverse` | app/api-debug/page.tsx:26 | the history in the opposite order, position by position, which is how the newest-first log relates to call order |
| `ApiDebug.Prepend` | app/api-debug/page.tsx:26 | the new line comes first, followed by the previous lines that still fit, up to 100 in all |
| `ApiDebug.PrependAllIsWindow` | app/api-debug/page.tsx:23-27 | any sequence of `addLog` calls leaves the newest 100 lines of the whole history, newest first |
| `ApiDebug.RequestHeaders` | app/api-debug/page.tsx:43 | with a truthy token the caller's headers plus `Authorization: Bearer <token>`, and nothing else changed; without one the caller's headers unchanged |
| `ApiDebug.Console.constructor` | app/api-debug/page.tsx:13-16 | no token, no email, empty log, no results |
| `ApiDebug.Console.AddLog` | app/api-debug/page.tsx:23-27 | the log becomes `Prepend` of the old log with the timestamped, prefixed line, and stays within 100 lines |
| `ApiDebug.Console.CheckAuth` | app/api-debug/page.tsx:29-38 | a session stores the token and the truthy email and logs success; no session only logs the offline error; a rejected lookup, or a session without a user after storing the token, stops |
| `ApiDebug.Console.RunTest` | app/api-debug/page.tsx:40-51 | logs the start, sends the request with `RequestHeaders`; a received answer is stored under the test name and logged as success iff ok with its status; a thrown error is logged and the results are unchanged; the entry of every other test name is untouched |
| `Menu.AllSections` | app/dashboard/components/Menu.tsx:245-271 | four sections, none of them empty |
| `Menu.DropEmpty` | app/dashboard/components/Menu.tsx:275-282 | keeps only sections that have items and every section that has them |
| `Menu.DropEmptyAppend` | app/dashboard/components/Menu.tsx:275-282 | the filter works section by section (it distributes over concatenation), so kept sections stay in order |
| `Menu.DropEmptySingle` | app/dashboard/components/Menu.tsx:275-282 | one section is kept exactly when it has items |
| `Menu.FilteredSections` | app/dashboard/components/Menu.tsx:273-283 | nothing while loading, else the non-empty sections |
| `Menu.ToRoutes` | app/dashboard/components/Menu.tsx:288-291 | each item becomes its `{label, href}` route, position by position |
| `Menu.DropEmptyKeepsRoutes` | app/dashboard/components/Menu.tsx:273-292 | dropping empty sections loses no route |
| `Menu.AvailableRoutesMembership` | app/dashboard/components/Menu.tsx:287-292 | a route is available iff some section has an item with that label and href |
| `Menu.MenuRoutes` | app/dashboard/components/Menu.tsx:245-292 | once loaded the menu offers exactly the five routes of the project, in menu order |
| `Menu.MatchingRoutes` | app/dashboard/components/Menu.tsx:294-295 | a route is kept iff its lower-cased label contains the lower-cased query |
| `Menu.MatchingAppend` | app/dashboard/components/Menu.tsx:294-295 | the search works route by route (it distributes over concatenation), keeping order and repeats |
| `Menu.MatchingSingle` | app/dashboard/components/Menu.tsx:294-295 | one route is kept exactly when it matches |
| `Menu.FilteredResults` | app/dashboard/components/Menu.tsx:294-296 | the first five matching routes in order: a prefix of the matches of length five, or all of them when there are at most five |
| `Menu.FirstResultIsFirstMatch` | app/dashboard/components/Menu.tsx:294-311 | there is a first result iff some route matches, and it is the earliest matching route, the one Enter opens |
| `Menu.EmptyQueryMatchesAll` | app/dashboard/components/Menu.tsx:294-295 | the empty query matches every route |
| `Menu.CaseInsensitive` | app/dashboard/components/Menu.tsx:294-296 | queries equal after lower-casing give the same results |
| `Menu.SubmitTarget` | app/dashboard/components/Menu.tsx:305-316 | navigates iff Enter with results or a query not blank after trimming; Enter with results opens the first result; otherwise it opens `SearchUrl` of the trimmed query, the project's search path followed by the percent-encoded query (`encodeURIComponent`, see `Uri.EncodeIsSafe`), which decodes back to the trimmed query |
| `Menu.SubmitTargetIsKnown` | app/dashboard/components/Menu.tsx:305-316 | every navigation goes to an offered route or is exactly `SearchUrl` of the trimmed query, the current project's search page with the query percent-encoded, and that URL decodes back to the trimmed query |
| `Menu.SearchBox.constructor` | app/dashboard/components/Menu.tsx:217 | the search box starts empty with no navigation |
| `Menu.SearchBox.SetQuery` | app/dashboard/components/Menu.tsx:356 | typing (in either search input) sets the query and navigates nowhere |
| `Menu.SearchBox.HandleResultClick` | app/dashboard/components/Menu.tsx:300-303 | clears the query and pushes the result's href |
| `Menu.SearchBox.HandleSearchSubmit` | app/dashboard/components/Menu.tsx:305-316 | pushes `SubmitTarget` and clears the query when there is one; a blank query without an Enter match changes nothing |
| `Uri.EncodeRoundTrip` | app/dashboard/components/Menu.tsx:313 | decoding the percent-encoded query gives it back, for every string |
| `Uri.EncodeIsSafe` | app/dashboard/components/Menu.tsx:313 | the encoded query holds only unescaped characters, `%` and upper-case hex digits, so no `&`, `#`, `=`, `?`, `/`, `+` or space reaches the URL |
| `Uri.EncodeInjective` | app/dashboard/components/Menu.tsx:313 | different queries give different URLs |
| `Text.TrimStartSpec` | app/dashboard/components/Menu.tsx:307 | the leading-whitespace step of `trim()` keeps a suffix of its input, removes only whitespace and stops at the first non-whitespace character |
| `Text.TrimEndSpec` | app/dashboard/components/Menu.tsx:307 | the trailing-whitespace step of `trim()` keeps a prefix of its input, removes only whitespace and stops at the last non-whitespace character |
| `Text.TrimSpec` | app/dashboard/components/Menu.tsx:307 | `trim()` returns a contiguous run of its input, bounded by non-whitespace, and removes only whitespace |
| `Text.TrimEmptyIff` | app/dashboard/components/Menu.tsx:312 | a trimmed query is empty iff the query is all whitespace |
| `Text.TrimIdempotent` | app/dashboard/components/Menu.tsx:307 | trimming twice is trimming once |
| `Text.IntRoundTrip` | app/api-debug/page.tsx:47 | the rendered status code reads back as the same integer |

## Left out

- Supabase, `fetch`, the router, `alert`/`confirm`, `parseInt`, `jwt.decode` and the database are inputs: their internals are not modelled.
- The API base URL and the Supabase settings come from the environment; requests record the path below the base URL.
- React scheduling is not modelled: each handler runs as one sequential method over the current state cells. Stale closures, effect re-runs and batching are left out.
- Concurrency and cancellation are left out; the code has none of its own.
- JSON numbers are integers; the display-only floating-point fields (`portfolio_value`) are left out of `Account`.
- Server-side plan arithmetic (remaining slots, whether another account may be added) is computed by the backend and only displayed, so it is not modelled.
- `AccountsPage.UnlinkPath` concatenates the broker kind and login unencoded, as the code does. The caller's `toString()` of the MT5 login is not modelled: the login arrives as text.
- `AccountsPage.Page.HandleLinkAccount` and `AccountsPage.Page.HandleUnlinkAccount` take a rejection's message as text: a rejection value that is not an `Error`, for which the alert reads "Failed to link account: undefined" (or unlink), is not modelled.
- `AccountsPage.Page.HandleLinkAccount` models `FormData` as a map from field names to text. File-valued fields and repeated names are not modelled.
- `Text.Lower` lower-cases ASCII letters only; `toLowerCase()` also folds other scripts.
- `AuthDebug.SelectedAlg` takes the `alg` parameter as text. A JSON `null` or non-string `alg` is not modelled.
- `AuthDebug.GetCurrentUser` does not model FastAPI's bearer-scheme extraction (a missing or malformed `Authorization` header is refused before this dependency runs). Logging is not modelled.
- `AuthDebug.GetCurrentUserOptional`: the no-credentials branch (auth_debug.py:169-170) cannot be reached from a request, because the shared `HTTPBearer()` (auth_debug.py:16) keeps `auto_error` on and refuses a request without a bearer header before the dependency runs; the model states the function as written.
- `ApiDebug.RequestHeaders` takes the caller's headers as a plain string map; a `Headers` object or an array of pairs is not modelled.
- `ApiDebug.Console.CheckAuth` renders a missing email as "undefined", as the template string does; the navigator's display of the email's local part is not modelled.
- Purely visual state is not modelled: password visibility toggles, the debug console's active tab, and the menu's collapse, mobile panels and one-second loading timer with its mock account list.
- `Menu.IsActive` (the current path equals the item's href) and `Menu.DropdownOpen` (the query is non-empty) are plain predicates with no separate contract.
- `OldDashboard.Page.ShowsPlaceholder` (app/dashboard/old/page.tsx:35) is the `loading` cell itself; the rows of the constructor and `GetSession` state when it holds.
- Browser constraint validation is not modelled: the link inputs are `required` and the MT5 login is `type="number"` (app/accounts/page.tsx:236-244), so the missing-field case of `AccountsPage.FormRequest` (sent as null) cannot arise from the rendered form; the handler itself would send it.
- `Uri.Encode` takes Dafny characters, which are Unicode scalar values: a query holding a lone surrogate, for which `encodeURIComponent` throws `URIError` inside `handleSearchSubmit`, is not representable and not modelled.
