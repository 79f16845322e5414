/** The API debug console (app/api-debug/page.tsx): a bounded terminal log,
    newest line first, and a map from test names to the last JSON each test
    received. Clock readings (`toLocaleTimeString`) are parameters. */
module ApiDebug {
  import opened Web
  import opened Identity
  import Text

  const MaxLogs: nat := 100
  const OfflineMessage := "System offline. Please log in."

  datatype LogKind = Info | Success | Error

  function Prefix(kind: LogKind): (p: string)
    ensures p == "[OK]" <==> kind == Success
    ensures p == "[ERR]" <==> kind == Error
    ensures p == "[INF]" <==> kind == Info
  {
    match kind
    case Success => "[OK]"
    case Error => "[ERR]"
    case Info => "[INF]"
  }

  /** One log line. */
  function Entry(timestamp: string, kind: LogKind, message: string): string {
    timestamp + " " + Prefix(kind) + " " + message
  }

  /** The newest `MaxLogs` lines of a newest-first log. */
  function Newest(lines: seq<string>): (r: seq<string>)
    ensures |r| == if |lines| <= MaxLogs then |lines| else MaxLogs
    ensures r <= lines
  {
    if |lines| <= MaxLogs then lines else lines[..MaxLogs]
  }

  /** The log after `addLog`: the new line in front, then the previous lines
      that still fit. */
  function Prepend(logs: seq<string>, line: string): (r: seq<string>)
    ensures |r| == if |logs| < MaxLogs then |logs| + 1 else MaxLogs
    ensures r[0] == line
    ensures r[1..] == logs[..|r| - 1]
  {
    Newest([line] + logs)
  }

  /** The log after several `addLog` calls, in call order. */
  function PrependAll(logs: seq<string>, lines: seq<string>): seq<string>
    decreases |lines|
  {
    if lines == [] then logs else PrependAll(Prepend(logs, lines[0]), lines[1..])
  }

  /** The lines of `s` in the opposite order. */
  function Reverse<T>(s: seq<T>): (r: seq<T>)
    ensures |r| == |s|
    ensures forall k :: 0 <= k < |s| ==> r[k] == s[|s| - 1 - k]
  {
    if s == [] then [] else Reverse(s[1..]) + [s[0]]
  }

  /** Truncating twice is truncating once. */
  lemma NewestAbsorbs(front: seq<string>, lines: seq<string>)
    ensures Newest(front + Newest(lines)) == Newest(front + lines)
  {
    if |lines| > MaxLogs {
      if |front| >= MaxLogs {
        assert (front + Newest(lines))[..MaxLogs] == front[..MaxLogs] == (front + lines)[..MaxLogs];
      } else {
        assert (front + Newest(lines))[..MaxLogs] == (front + lines)[..MaxLogs];
      }
    }
  }

  /** Any number of `addLog` calls leave the newest `MaxLogs` lines of the
      whole history, newest first: the buffer behaves as an unbounded log
      read through a window. */
  lemma {:induction false} PrependAllIsWindow(logs: seq<string>, lines: seq<string>)
    requires |logs| <= MaxLogs
    ensures PrependAll(logs, lines) == Newest(Reverse(lines) + logs)
    decreases |lines|
  {
    if lines != [] {
      var p := Prepend(logs, lines[0]);
      var older := Reverse(lines[1..]);
      calc {
        PrependAll(logs, lines);
        PrependAll(p, lines[1..]);
        { PrependAllIsWindow(p, lines[1..]); }
        Newest(older + p);
        { NewestAbsorbs(older, [lines[0]] + logs); }
        Newest(older + ([lines[0]] + logs));
        { assert older + ([lines[0]] + logs) == (older + [lines[0]]) + logs; }
        Newest(Reverse(lines) + logs);
      }
    }
  }

  /** The headers `runTest` sends: the caller's, plus the bearer credential
      (section 2.1 of RFC 6750) when a token is held. */
  function RequestHeaders(token: Option<string>, given: Option<map<string, string>>): (h: Option<map<string, string>>)
    ensures Truthy(token) ==> h.Some? && forall k :: k in h.value <==> k in given.GetOr(map[]) || k == "Authorization"
    ensures Truthy(token) ==> h.value["Authorization"] == "Bearer " + token.value
    ensures Truthy(token) ==> forall k :: k in given.GetOr(map[]) && k != "Authorization" ==> h.value[k] == given.value[k]
    ensures !Truthy(token) ==> h == given
  {
    if Truthy(token) then Some(given.GetOr(map[])["Authorization" := "Bearer " + token.value]) else given
  }

  /** The request `runTest` sends, below the API base URL. */
  datatype TestRequest = TestRequest(endpoint: string, headers: Option<map<string, string>>)

  /** The outcome of the awaited `fetch` and `res.json()` of one test. */
  datatype TestOutcome = TestThrew(message: string) | Received(status: int, ok: bool, data: Json)

  class Console {
    var accessToken: Option<string>
    var userEmail: Option<string>
    var logs: seq<string>
    var testResults: map<string, Json>
    ghost var calls: seq<IdentityCall>
    ghost var requests: seq<TestRequest>

    ghost predicate Valid()
      reads this
    {
      |logs| <= MaxLogs
    }

    constructor()
      ensures Valid()
      ensures accessToken.None? && userEmail.None? && logs == [] && testResults == map[]
      ensures calls == [] && requests == []
    {
      accessToken := None;
      userEmail := None;
      logs := [];
      testResults := map[];
      calls := [];
      requests := [];
    }

    /** `addLog`. */
    method AddLog(timestamp: string, message: string, kind: LogKind)
      requires Valid()
      modifies this`logs
      ensures Valid()
      ensures logs == Prepend(old(logs), Entry(timestamp, kind, message))
    {
      logs := ([Entry(timestamp, kind, message)] + logs)[..if |logs| < MaxLogs then |logs| + 1 else MaxLogs];
    }

    /** `checkAuth`, given the session lookup. A rejected lookup, or a session
        without a user (reading its email throws after the token is stored),
        escapes the handler. */
    method CheckAuth(session: SessionLookup, timestamp: string)
      requires Valid()
      modifies this
      ensures Valid()
      ensures calls == old(calls) + [GetSession]
      ensures testResults == old(testResults) && requests == old(requests)
      ensures session.HasSession? && session.session.user.Some? ==>
        var email := session.session.user.value.email;
        && accessToken == Some(session.session.accessToken)
        && userEmail == (if Truthy(email) then email else None)
        && logs == Prepend(old(logs), Entry(timestamp, Success, "Account synchronized: " + email.GetOr("undefined")))
      ensures session.HasSession? && session.session.user.None? ==>
        accessToken == Some(session.session.accessToken) && userEmail == old(userEmail) && logs == old(logs)
      ensures session.NoSession? ==>
        accessToken == old(accessToken) && userEmail == old(userEmail)
        && logs == Prepend(old(logs), Entry(timestamp, Error, OfflineMessage))
      ensures session.SessionThrew? ==>
        accessToken == old(accessToken) && userEmail == old(userEmail) && logs == old(logs)
    {
      calls := calls + [GetSession];
      match session {
        case SessionThrew(_) =>
        case NoSession =>
          AddLog(timestamp, OfflineMessage, Error);
        case HasSession(s) =>
          accessToken := Some(s.accessToken);
          if s.user.Some? {
            var email := s.user.value.email;
            userEmail := if Truthy(email) then email else None;
            AddLog(timestamp, "Account synchronized: " + email.GetOr("undefined"), Success);
          }
      }
    }

    /** `runTest(name, endpoint, options)`, given the caller's headers, the
        outcome of the request and the two clock readings. */
    method RunTest(name: string, endpoint: string, given: Option<map<string, string>>, outcome: TestOutcome,
                   startedAt: string, finishedAt: string)
      requires Valid()
      modifies this
      ensures Valid()
      ensures accessToken == old(accessToken) && userEmail == old(userEmail) && calls == old(calls)
      ensures requests == old(requests) + [TestRequest(endpoint, RequestHeaders(old(accessToken), given))]
      ensures forall k :: k != name ==>
        && (k in testResults <==> k in old(testResults))
        && (k in testResults ==> testResults[k] == old(testResults)[k])
      ensures outcome.Received? ==>
        && testResults == old(testResults)[name := outcome.data]
        && logs == Prepend(Prepend(old(logs), Entry(startedAt, Info, "Executing: " + name + "...")),
                           Entry(finishedAt, if outcome.ok then Success else Error,
                                 name + " response received (HTTP " + Text.IntToString(outcome.status) + ")"))
      ensures outcome.TestThrew? ==>
        && testResults == old(testResults)
        && logs == Prepend(Prepend(old(logs), Entry(startedAt, Info, "Executing: " + name + "...")),
                           Entry(finishedAt, Error, name + " failed: " + outcome.message))
    {
      AddLog(startedAt, "Executing: " + name + "...", Info);
      var headers := if Truthy(accessToken) then Some(given.GetOr(map[])["Authorization" := "Bearer " + accessToken.value]) else given;
      requests := requests + [TestRequest(endpoint, headers)];
      match outcome {
        case TestThrew(m) =>
          AddLog(finishedAt, name + " failed: " + m, Error);
        case Received(status, ok, data) =>
          testResults := testResults[name := data];
          AddLog(finishedAt, name + " response received (HTTP " + Text.IntToString(status) + ")", if ok then Success else Error);
      }
    }
  }
}
