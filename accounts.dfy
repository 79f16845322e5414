/** The broker-account management page (app/accounts/page.tsx): it loads the
    user's plan limits and linked MT5 and Capital.com accounts from the
    backend with the session's access token, links a new account from a form
    and unlinks an account after confirmation. The identity service,
    `fetch`, `alert`/`confirm` and `parseInt` are inputs; what the page sends
    and shows is recorded in ghost traces. */
module AccountsPage {
  import opened Web
  import opened Identity

  const LimitsPath := "/api/accounts/limits"
  const ListPath := "/api/accounts/list"
  const LinkPath := "/api/accounts/link"
  const LoadFallback := "Failed to load account data"
  const LinkFailurePrefix := "Failed to link account: "
  const UnlinkedMessage := "Account unlinked successfully"
  const UnlinkFailurePrefix := "Failed to unlink account: "
  const UnlinkQuestion := "Are you sure you want to unlink this account?"

  datatype BrokerKind = MT5 | CAPITAL

  function KindName(kind: BrokerKind): (name: string)
    ensures name == "MT5" || name == "CAPITAL"
  {
    match kind
    case MT5 => "MT5"
    case CAPITAL => "CAPITAL"
  }

  /** The plan limits the backend computes; the page only displays them. */
  datatype Limits = Limits(planName: string, maxAccounts: int, currentAccounts: int, remainingSlots: int, canAddAccount: bool)

  /** A linked account, with the fields the page reads. */
  datatype Account = Account(userId: int, email: string, mt5Login: Option<int>, mt5Server: Option<string>, capitalLogin: Option<string>)

  /** The list answer; either array may be missing. */
  datatype AccountsList = AccountsList(mt5Accounts: Option<seq<Account>>, capitalAccounts: Option<seq<Account>>)

  /** The two sequential requests of one load: the list is requested only if
      the limits request did not throw. */
  datatype LoadOutcome = LoadOutcome(limits: Fetched<Limits>, accounts: Fetched<AccountsList>)

  /** The data part of the page's state. */
  datatype Registry = Registry(limits: Option<Limits>, mt5Accounts: seq<Account>, capitalAccounts: seq<Account>, error: Option<string>)

  /** A request sent to the backend, below the API base URL, with the bearer
      token of its `Authorization` header. */
  datatype ApiRequest = ApiRequest(verb: string, path: string, token: string, body: Option<map<string, Json>>)

  datatype Dialog = Alert(text: string) | Confirm(text: string)

  predicate ListReached(o: LoadOutcome) {
    !o.limits.Threw?
  }

  predicate LoadFailed(o: LoadOutcome) {
    o.limits.Threw? || o.accounts.Threw?
  }

  /** The message of the error that ended the load. */
  function FailureMessage(o: LoadOutcome): string
    requires LoadFailed(o)
  {
    if o.limits.Threw? then o.limits.message else o.accounts.message
  }

  /** The data after `loadAccountData`. */
  function Load(r: Registry, o: LoadOutcome): (n: Registry)
    ensures o.limits.Answered? && o.limits.ok ==> n.limits == Some(o.limits.body)
    ensures !(o.limits.Answered? && o.limits.ok) ==> n.limits == r.limits
    ensures ListReached(o) && o.accounts.Answered? && o.accounts.ok ==>
      n.mt5Accounts == o.accounts.body.mt5Accounts.GetOr([])
      && n.capitalAccounts == o.accounts.body.capitalAccounts.GetOr([])
    ensures !(ListReached(o) && o.accounts.Answered? && o.accounts.ok) ==>
      n.mt5Accounts == r.mt5Accounts && n.capitalAccounts == r.capitalAccounts
    ensures n.error.None? <==> !LoadFailed(o)
    ensures LoadFailed(o) ==> n.error == Some(ErrorText(FailureMessage(o), LoadFallback)) && n.error != Some("")
  {
    var limits := if o.limits.Answered? && o.limits.ok then Some(o.limits.body) else r.limits;
    if o.limits.Threw? then Registry(limits, r.mt5Accounts, r.capitalAccounts, Some(ErrorText(o.limits.message, LoadFallback)))
    else match o.accounts
      case Threw(m) => Registry(limits, r.mt5Accounts, r.capitalAccounts, Some(ErrorText(m, LoadFallback)))
      case Answered(ok, list) =>
        if ok then Registry(limits, list.mt5Accounts.GetOr([]), list.capitalAccounts.GetOr([]), None)
        else Registry(limits, r.mt5Accounts, r.capitalAccounts, None)
  }

  /** Loading twice with the same answers is loading once. */
  lemma LoadIdempotent(r: Registry, o: LoadOutcome)
    ensures Load(Load(r, o), o) == Load(r, o)
  {
  }

  /** The result of a load depends on the previous data only where an answer
      was not ok: two loads that both got ok answers agree whatever they
      started from. */
  lemma LoadForgetsOnSuccess(r1: Registry, r2: Registry, o: LoadOutcome)
    requires o.limits.Answered? && o.limits.ok && o.accounts.Answered? && o.accounts.ok
    ensures Load(r1, o) == Load(r2, o)
  {
  }

  /** The requests of one load. */
  function LoadRequests(token: string, o: LoadOutcome): (rs: seq<ApiRequest>)
    ensures 1 <= |rs| <= 2 && rs[0] == ApiRequest("GET", LimitsPath, token, None)
    ensures |rs| == 2 <==> ListReached(o)
    ensures |rs| == 2 ==> rs[1] == ApiRequest("GET", ListPath, token, None)
  {
    [ApiRequest("GET", LimitsPath, token, None)]
      + (if ListReached(o) then [ApiRequest("GET", ListPath, token, None)] else [])
  }

  // ---------------------------------------------------------------------
  // The link request

  /** `parseInt` of a form field: a number or NaN. */
  datatype ParsedInt = Int(value: int) | NaN

  /** The link request, by broker kind. A field missing from the form reads
      as null; the login of an MT5 account is what `parseInt` made of it. */
  datatype LinkRequest =
    | Mt5Link(login: ParsedInt, investorPassword: Option<string>, server: Option<string>)
    | CapitalLink(capitalLogin: Option<string>, password: Option<string>, apiKey: Option<string>)

  function Kind(r: LinkRequest): BrokerKind {
    if r.Mt5Link? then MT5 else CAPITAL
  }

  /** `formData.get(name)`. */
  function Field(form: map<string, string>, name: string): Option<string> {
    if name in form then Some(form[name]) else None
  }

  /** The request the form describes for the selected broker kind. */
  function FormRequest(kind: BrokerKind, form: map<string, string>, parseInt: string -> ParsedInt): (r: LinkRequest)
    ensures Kind(r) == kind
  {
    match kind
    case MT5 =>
      var login := match Field(form, "mt5_login") case Some(s) => parseInt(s) case None => NaN;
      Mt5Link(login, Field(form, "mt5_password"), Field(form, "mt5_server"))
    case CAPITAL =>
      CapitalLink(Field(form, "capital_login"), Field(form, "capital_password"), Field(form, "capital_api_key"))
  }

  function TextJson(s: Option<string>): Json {
    match s
    case Some(t) => JString(t)
    case None => JNull
  }

  /** `JSON.stringify` writes NaN as null. */
  function NumberJson(n: ParsedInt): Json {
    match n
    case Int(v) => JNumber(v)
    case NaN => JNull
  }

  /** The JSON object posted to the link endpoint. */
  function LinkBody(r: LinkRequest): (body: map<string, Json>)
    ensures "broker_type" in body && body["broker_type"] == JString(KindName(Kind(r)))
    ensures r.Mt5Link? ==> body.Keys == {"broker_type", "mt5_login", "mt5_investor_password", "mt5_server"}
    ensures r.CapitalLink? ==> body.Keys == {"broker_type", "capital_login", "capital_password", "capital_api_key"}
  {
    match r
    case Mt5Link(login, password, server) =>
      map["broker_type" := JString("MT5"), "mt5_login" := NumberJson(login),
          "mt5_investor_password" := TextJson(password), "mt5_server" := TextJson(server)]
    case CapitalLink(login, password, apiKey) =>
      map["broker_type" := JString("CAPITAL"), "capital_login" := TextJson(login),
          "capital_password" := TextJson(password), "capital_api_key" := TextJson(apiKey)]
  }

  function ReadText(j: Json): Option<Option<string>> {
    match j
    case JString(s) => Some(Some(s))
    case JNull => Some(None)
    case _ => None
  }

  function ReadNumber(j: Json): Option<ParsedInt> {
    match j
    case JNumber(n) => Some(Int(n))
    case JNull => Some(NaN)
    case _ => None
  }

  /** How a receiver reads a link body back; `None` for any object that is
      not of one of the two shapes. */
  function ReadLinkBody(body: map<string, Json>): Option<LinkRequest> {
    if "broker_type" !in body then None
    else if body["broker_type"] == JString("MT5") && body.Keys == {"broker_type", "mt5_login", "mt5_investor_password", "mt5_server"} then
      match (ReadNumber(body["mt5_login"]), ReadText(body["mt5_investor_password"]), ReadText(body["mt5_server"]))
      case (Some(l), Some(p), Some(s)) => Some(Mt5Link(l, p, s))
      case _ => None
    else if body["broker_type"] == JString("CAPITAL") && body.Keys == {"broker_type", "capital_login", "capital_password", "capital_api_key"} then
      match (ReadText(body["capital_login"]), ReadText(body["capital_password"]), ReadText(body["capital_api_key"]))
      case (Some(l), Some(p), Some(k)) => Some(CapitalLink(l, p, k))
      case _ => None
    else None
  }

  /** What each key of the posted body carries: the MT5 login is `parseInt`
      of the `mt5_login` field (null when missing or not a number), the
      investor password comes from the `mt5_password` field, and every other
      key copies the form field of its own name (null when missing). */
  lemma PostedFields(form: map<string, string>, parseInt: string -> ParsedInt)
    ensures var b := LinkBody(FormRequest(MT5, form, parseInt));
      && b["mt5_login"] == (if "mt5_login" in form then NumberJson(parseInt(form["mt5_login"])) else JNull)
      && b["mt5_investor_password"] == TextJson(Field(form, "mt5_password"))
      && b["mt5_server"] == TextJson(Field(form, "mt5_server"))
    ensures var b := LinkBody(FormRequest(CAPITAL, form, parseInt));
      && b["capital_login"] == TextJson(Field(form, "capital_login"))
      && b["capital_password"] == TextJson(Field(form, "capital_password"))
      && b["capital_api_key"] == TextJson(Field(form, "capital_api_key"))
  {
  }

  /** The body carries the whole request: reading it back gives the request. */
  lemma LinkBodyRoundTrip(r: LinkRequest)
    ensures ReadLinkBody(LinkBody(r)) == Some(r)
  {
    var body := LinkBody(r);
    if r.Mt5Link? {
      assert body["broker_type"] != JString("CAPITAL");
    }
  }

  /** Different requests have different bodies. */
  lemma LinkBodyInjective(r1: LinkRequest, r2: LinkRequest)
    requires LinkBody(r1) == LinkBody(r2)
    ensures r1 == r2
  {
    LinkBodyRoundTrip(r1);
    LinkBodyRoundTrip(r2);
  }

  /** The decoded answer of the link endpoint: the truthiness of `success`
      and the text `message` renders as. */
  datatype LinkReply = LinkReply(success: bool, message: string)

  /** The text alerted after a link attempt that did not succeed. */
  function LinkFailureText(reply: Fetched<LinkReply>): string {
    match reply
    case Threw(m) => LinkFailurePrefix + m
    case Answered(_, body) => body.message
  }

  /** The decoded error answer of the unlink endpoint: its `detail` as text. */
  datatype UnlinkReply = UnlinkReply(detail: string)

  function UnlinkPath(kind: BrokerKind, login: string): string {
    "/api/accounts/" + KindName(kind) + "/" + login
  }

  // ---------------------------------------------------------------------
  // What the page renders

  datatype View =
    | PleaseLogIn
    | LoadingAccounts
    | Management(errorBanner: Option<string>, limitsPanel: Option<Limits>, linkToggle: bool, linkForm: Option<BrokerKind>)

  /** The "+ Link New Account" toggle is rendered. */
  predicate LinkToggleVisible(limits: Option<Limits>) {
    limits.Some? && limits.value.canAddAccount
  }

  function ViewOf(isAuthenticated: bool, loading: bool, r: Registry, showLinkForm: bool, brokerType: BrokerKind): (v: View)
    ensures v.Management? <==> isAuthenticated && !loading
    ensures v.Management? ==> (v.errorBanner.Some? <==> Truthy(r.error))
    ensures v.Management? && v.errorBanner.Some? ==> v.errorBanner == r.error
    ensures v.Management? ==> v.limitsPanel == r.limits
    ensures v.Management? ==> (v.linkToggle <==> LinkToggleVisible(r.limits))
    ensures v.Management? ==> (v.linkForm.Some? <==> showLinkForm)
    ensures v.Management? && v.linkForm.Some? ==> v.linkForm.value == brokerType
  {
    if !isAuthenticated then PleaseLogIn
    else if loading then LoadingAccounts
    else Management(if Truthy(r.error) then r.error else None, r.limits, LinkToggleVisible(r.limits),
                    if showLinkForm then Some(brokerType) else None)
  }

  // ---------------------------------------------------------------------
  // The page

  class Page {
    var isAuthenticated: bool
    var accessToken: Option<string>
    var limits: Option<Limits>
    var mt5Accounts: seq<Account>
    var capitalAccounts: seq<Account>
    var loading: bool
    var error: Option<string>
    var showLinkForm: bool
    var brokerType: BrokerKind
    ghost var calls: seq<IdentityCall>
    ghost var requests: seq<ApiRequest>
    ghost var dialogs: seq<Dialog>

    constructor()
      ensures !isAuthenticated && accessToken.None? && limits.None? && mt5Accounts == [] && capitalAccounts == []
      ensures loading && error.None? && !showLinkForm && brokerType == MT5
      ensures calls == [] && requests == [] && dialogs == []
    {
      isAuthenticated := false;
      accessToken := None;
      limits := None;
      mt5Accounts := [];
      capitalAccounts := [];
      loading := true;
      error := None;
      showLinkForm := false;
      brokerType := MT5;
      calls := [];
      requests := [];
      dialogs := [];
    }

    function Stored(): Registry
      reads this
    {
      Registry(limits, mt5Accounts, capitalAccounts, error)
    }

    function View(): View
      reads this
    {
      ViewOf(isAuthenticated, loading, Stored(), showLinkForm, brokerType)
    }

    /** `loadAccountData(token)`, given the outcomes of its two requests. */
    method LoadAccountData(token: string, outcome: LoadOutcome)
      modifies this
      ensures Stored() == Load(old(Stored()), outcome) && !loading
      ensures requests == old(requests) + LoadRequests(token, outcome)
      ensures isAuthenticated == old(isAuthenticated) && accessToken == old(accessToken)
      ensures showLinkForm == old(showLinkForm) && brokerType == old(brokerType)
      ensures calls == old(calls) && dialogs == old(dialogs)
    {
      loading := true;
      error := None;
      requests := requests + [ApiRequest("GET", LimitsPath, token, None)];
      match outcome.limits {
        case Threw(m) =>
          error := Some(ErrorText(m, LoadFallback));
          loading := false;
          return;
        case Answered(ok, data) =>
          if ok {
            limits := Some(data);
          }
      }
      requests := requests + [ApiRequest("GET", ListPath, token, None)];
      match outcome.accounts {
        case Threw(m) =>
          error := Some(ErrorText(m, LoadFallback));
        case Answered(ok, data) =>
          if ok {
            mt5Accounts := data.mt5Accounts.GetOr([]);
            capitalAccounts := data.capitalAccounts.GetOr([]);
          }
      }
      loading := false;
    }

    /** `checkAuth`, given the session lookup and, when a session is found,
        the outcome of the load it starts. A rejected lookup is not caught. */
    method CheckAuth(session: SessionLookup, load: LoadOutcome)
      modifies this
      ensures calls == old(calls) + [GetSession] && dialogs == old(dialogs)
      ensures showLinkForm == old(showLinkForm) && brokerType == old(brokerType)
      ensures session.HasSession? ==>
        var token := session.session.accessToken;
        && isAuthenticated && accessToken == Some(token) && !loading
        && Stored() == Load(old(Stored()), load)
        && requests == old(requests) + LoadRequests(token, load)
      ensures session.NoSession? ==>
        && !isAuthenticated && !loading && accessToken == old(accessToken)
        && Stored() == old(Stored()) && requests == old(requests)
        && View() == PleaseLogIn
      ensures session.SessionThrew? ==>
        && isAuthenticated == old(isAuthenticated) && loading == old(loading) && accessToken == old(accessToken)
        && Stored() == old(Stored()) && requests == old(requests)
    {
      calls := calls + [GetSession];
      match session {
        case SessionThrew(_) =>
        case NoSession =>
          isAuthenticated := false;
          loading := false;
        case HasSession(s) =>
          isAuthenticated := true;
          accessToken := Some(s.accessToken);
          LoadAccountData(s.accessToken, load);
      }
    }

    /** `handleLinkAccount`, given the submitted form, the `parseInt`
        oracle, the decoded answer and, after a success, the outcome of the
        reload. `res.ok` is not consulted; no limit is checked. */
    method HandleLinkAccount(form: map<string, string>, parseInt: string -> ParsedInt,
                             reply: Fetched<LinkReply>, reload: LoadOutcome)
      modifies this
      ensures isAuthenticated == old(isAuthenticated) && accessToken == old(accessToken)
      ensures brokerType == old(brokerType) && calls == old(calls)
      ensures !Truthy(old(accessToken)) ==>
        && Stored() == old(Stored()) && loading == old(loading) && showLinkForm == old(showLinkForm)
        && requests == old(requests) && dialogs == old(dialogs)
      ensures Truthy(old(accessToken)) && reply.Answered? && reply.body.success ==>
        var token := old(accessToken).value;
        && requests == old(requests)
             + [ApiRequest("POST", LinkPath, token, Some(LinkBody(FormRequest(old(brokerType), form, parseInt))))]
             + LoadRequests(token, reload)
        && dialogs == old(dialogs) + [Alert(reply.body.message)]
        && !showLinkForm && !loading && Stored() == Load(old(Stored()), reload)
      ensures Truthy(old(accessToken)) && !(reply.Answered? && reply.body.success) ==>
        var token := old(accessToken).value;
        && requests == old(requests)
             + [ApiRequest("POST", LinkPath, token, Some(LinkBody(FormRequest(old(brokerType), form, parseInt))))]
        && dialogs == old(dialogs) + [Alert(LinkFailureText(reply))]
        && Stored() == old(Stored()) && loading == old(loading) && showLinkForm == old(showLinkForm)
    {
      if !Truthy(accessToken) {
        return;
      }
      var token := accessToken.value;
      var request: map<string, Json> := map["broker_type" := JString(KindName(brokerType))];
      if brokerType == MT5 {
        var login := match Field(form, "mt5_login") case Some(s) => parseInt(s) case None => NaN;
        request := request["mt5_login" := NumberJson(login)];
        request := request["mt5_investor_password" := TextJson(Field(form, "mt5_password"))];
        request := request["mt5_server" := TextJson(Field(form, "mt5_server"))];
      } else {
        request := request["capital_login" := TextJson(Field(form, "capital_login"))];
        request := request["capital_password" := TextJson(Field(form, "capital_password"))];
        request := request["capital_api_key" := TextJson(Field(form, "capital_api_key"))];
      }
      assert request == LinkBody(FormRequest(brokerType, form, parseInt));
      requests := requests + [ApiRequest("POST", LinkPath, token, Some(request))];
      match reply {
        case Threw(m) =>
          dialogs := dialogs + [Alert(LinkFailurePrefix + m)];
        case Answered(_, data) =>
          dialogs := dialogs + [Alert(data.message)];
          if data.success {
            showLinkForm := false;
            LoadAccountData(token, reload);
          }
      }
    }

    /** `handleUnlinkAccount(kind, login)`, given the answer to the
        confirmation, the outcome of the request (`Threw` also when the error
        body of a non-ok answer cannot be decoded) and the reload. */
    method HandleUnlinkAccount(kind: BrokerKind, login: string, confirmed: bool,
                               reply: Fetched<UnlinkReply>, reload: LoadOutcome)
      modifies this
      ensures isAuthenticated == old(isAuthenticated) && accessToken == old(accessToken)
      ensures brokerType == old(brokerType) && showLinkForm == old(showLinkForm) && calls == old(calls)
      ensures !Truthy(old(accessToken)) ==>
        Stored() == old(Stored()) && loading == old(loading) && requests == old(requests) && dialogs == old(dialogs)
      ensures Truthy(old(accessToken)) && !confirmed ==>
        && Stored() == old(Stored()) && loading == old(loading) && requests == old(requests)
        && dialogs == old(dialogs) + [Confirm(UnlinkQuestion)]
      ensures Truthy(old(accessToken)) && confirmed ==>
        var token := old(accessToken).value;
        var delete := ApiRequest("DELETE", UnlinkPath(kind, login), token, None);
        if reply.Answered? && reply.ok then
          && requests == old(requests) + [delete] + LoadRequests(token, reload)
          && dialogs == old(dialogs) + [Confirm(UnlinkQuestion), Alert(UnlinkedMessage)]
          && !loading && Stored() == Load(old(Stored()), reload)
        else
          && requests == old(requests) + [delete]
          && dialogs == old(dialogs) + [Confirm(UnlinkQuestion),
               Alert(UnlinkFailurePrefix + (if reply.Threw? then reply.message else reply.body.detail))]
          && Stored() == old(Stored()) && loading == old(loading)
    {
      if !Truthy(accessToken) {
        return;
      }
      dialogs := dialogs + [Confirm(UnlinkQuestion)];
      if !confirmed {
        return;
      }
      var token := accessToken.value;
      requests := requests + [ApiRequest("DELETE", UnlinkPath(kind, login), token, None)];
      match reply {
        case Threw(m) =>
          dialogs := dialogs + [Alert(UnlinkFailurePrefix + m)];
        case Answered(ok, body) =>
          if ok {
            dialogs := dialogs + [Alert(UnlinkedMessage)];
            LoadAccountData(token, reload);
          } else {
            dialogs := dialogs + [Alert(UnlinkFailurePrefix + body.detail)];
          }
      }
    }

    /** The toggle button's handler. */
    method ToggleLinkForm()
      modifies this`showLinkForm
      ensures showLinkForm == !old(showLinkForm)
    {
      showLinkForm := !showLinkForm;
    }

    /** The broker selector's handler. */
    method SelectBrokerType(kind: BrokerKind)
      modifies this`brokerType
      ensures brokerType == kind
    {
      brokerType := kind;
    }
  }
}
