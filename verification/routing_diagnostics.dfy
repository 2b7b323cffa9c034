/** The routing diagnostics utility: an in-memory log of routing events with
    copy and clear operations, a detector for suspicious environment
    settings, and an analysis of the logged events (visits per path, redirect
    loops, unauthenticated attempts). What the source only prints to the
    console is returned here as a value. */
module Diagnostics {
  import opened Common

  /** The routing-related environment variables, as read from the process. */
  datatype EnvironmentInfo = EnvironmentInfo(
    nodeEnv: Option<string>, appName: Option<string>, appVersion: Option<string>,
    publicEnvironment: Option<string>, publicApiUrl: Option<string>,
    nextAuthUrl: Option<string>, vercelUrl: Option<string>, vercelEnv: Option<string>)

  function EnvironmentInfoOf(env: Env): (info: EnvironmentInfo)
    ensures info.nodeEnv == Get(env, "NODE_ENV")
    ensures info.publicEnvironment == Get(env, "NEXT_PUBLIC_ENVIRONMENT")
    ensures info.publicApiUrl == Get(env, "NEXT_PUBLIC_API_URL")
    ensures info.nextAuthUrl == Get(env, "NEXTAUTH_URL")
    ensures info.vercelEnv == Get(env, "VERCEL_ENV")
    ensures info.appName == Get(env, "NEXT_PUBLIC_APP_NAME")
    ensures info.appVersion == Get(env, "NEXT_PUBLIC_APP_VERSION")
    ensures info.vercelUrl == Get(env, "VERCEL_URL")
  {
    EnvironmentInfo(Get(env, "NODE_ENV"), Get(env, "NEXT_PUBLIC_APP_NAME"),
                    Get(env, "NEXT_PUBLIC_APP_VERSION"), Get(env, "NEXT_PUBLIC_ENVIRONMENT"),
                    Get(env, "NEXT_PUBLIC_API_URL"), Get(env, "NEXTAUTH_URL"),
                    Get(env, "VERCEL_URL"), Get(env, "VERCEL_ENV"))
  }

  datatype RoutingEvent = RoutingEvent(
    timestamp: string, event: string, path: string, referrer: string, userAgent: string,
    sessionStatus: string, environmentInfo: EnvironmentInfo, additionalData: Option<Object>)

  /** The event `logRoutingEvent` records. The clock reading, the browser's
      referrer and user agent and the environment are inputs; the browser
      values are used only on the client. */
  function MakeEvent(isClient: bool, event: string, path: string, sessionStatus: Option<string>,
                     additionalData: Option<Object>, timestamp: string, referrer: string,
                     userAgent: string, env: Env): (e: RoutingEvent)
    ensures e.event == event && e.path == path && e.additionalData == additionalData
    ensures e.timestamp == timestamp && e.environmentInfo == EnvironmentInfoOf(env)
    // The status parameter defaults to "unknown" when it is left out.
    ensures sessionStatus.None? ==> e.sessionStatus == "unknown"
    ensures sessionStatus.Some? ==> e.sessionStatus == sessionStatus.value
    // On the server both browser fields read "server".
    ensures !isClient ==> e.referrer == "server" && e.userAgent == "server"
    ensures isClient ==> e.referrer == referrer && e.userAgent == userAgent
  {
    RoutingEvent(timestamp, event, path,
                 if isClient then referrer else "server",
                 if isClient then userAgent else "server",
                 sessionStatus.GetOr("unknown"), EnvironmentInfoOf(env), additionalData)
  }

  /** The environment problems `checkEnvironmentIssues` reports. */
  datatype EnvIssue =
    | LocalhostAuthUrl
    | LocalhostApiUrl
    | MissingAuthUrl
    | MissingApiUrl
    | EnvironmentMismatch(nodeEnv: Option<string>, publicEnvironment: Option<string>)

  function IssueText(i: EnvIssue): string {
    match i
    case LocalhostAuthUrl => "⚠️ NEXTAUTH_URL contains localhost in production environment"
    case LocalhostApiUrl => "⚠️ NEXT_PUBLIC_API_URL contains localhost in production environment"
    case MissingAuthUrl => "❌ NEXTAUTH_URL is not set"
    case MissingApiUrl => "❌ NEXT_PUBLIC_API_URL is not set"
    case EnvironmentMismatch(n, p) =>
      "⚠️ Environment mismatch: NODE_ENV=" + Interpolate(n) + ", NEXT_PUBLIC_ENVIRONMENT=" + Interpolate(p)
  }

  /** `value?.includes('localhost')`: an unset value never matches. */
  predicate MentionsLocalhost(value: Option<string>) {
    value.Some? && Contains(value.value, "localhost")
  }

  predicate InProduction(info: EnvironmentInfo) {
    info.vercelEnv == Some("production")
  }

  /** The one-element list `[i]` when `c` holds, else the empty list. */
  function When(c: bool, i: EnvIssue): seq<EnvIssue> {
    if c then [i] else []
  }

  /** The issues collected when each condition has the given truth value, in push order. */
  function IssuesFor(localAuth: bool, localApi: bool, noAuth: bool, noApi: bool, mismatch: bool,
                     m: EnvIssue): seq<EnvIssue> {
    When(localAuth, LocalhostAuthUrl) + When(localApi, LocalhostApiUrl) + When(noAuth, MissingAuthUrl)
    + When(noApi, MissingApiUrl) + When(mismatch, m)
  }

  /** The issues `checkEnvironmentIssues` collects for `info`, in push order. */
  function EnvironmentIssues(info: EnvironmentInfo): seq<EnvIssue> {
    IssuesFor(MentionsLocalhost(info.nextAuthUrl) && InProduction(info),
              MentionsLocalhost(info.publicApiUrl) && InProduction(info),
              !Truthy(info.nextAuthUrl), !Truthy(info.publicApiUrl),
              info.nodeEnv != info.publicEnvironment,
              EnvironmentMismatch(info.nodeEnv, info.publicEnvironment))
  }

  /** Each kind of issue is collected exactly when its condition holds. */
  lemma IssuesForReported(localAuth: bool, localApi: bool, noAuth: bool, noApi: bool, mismatch: bool,
                          m: EnvIssue)
    requires m.EnvironmentMismatch?
    ensures var issues := IssuesFor(localAuth, localApi, noAuth, noApi, mismatch, m);
      && (LocalhostAuthUrl in issues <==> localAuth)
      && (LocalhostApiUrl in issues <==> localApi)
      && (MissingAuthUrl in issues <==> noAuth)
      && (MissingApiUrl in issues <==> noApi)
      && (m in issues <==> mismatch)
  {
  }

  /** The only mismatch issue ever collected is the one describing the two values. */
  lemma IssuesForSingleMismatch(localAuth: bool, localApi: bool, noAuth: bool, noApi: bool, mismatch: bool,
                                m: EnvIssue)
    requires m.EnvironmentMismatch?
    ensures forall i :: i in IssuesFor(localAuth, localApi, noAuth, noApi, mismatch, m) && i.EnvironmentMismatch? ==> i == m
  {
  }

  /** `checkEnvironmentIssues`: pushes each issue whose condition holds. */
  method CheckEnvironmentIssues(info: EnvironmentInfo) returns (issues: seq<EnvIssue>)
    ensures issues == EnvironmentIssues(info)
    ensures LocalhostAuthUrl in issues <==> MentionsLocalhost(info.nextAuthUrl) && InProduction(info)
    ensures LocalhostApiUrl in issues <==> MentionsLocalhost(info.publicApiUrl) && InProduction(info)
    ensures MissingAuthUrl in issues <==> !Truthy(info.nextAuthUrl)
    ensures MissingApiUrl in issues <==> !Truthy(info.publicApiUrl)
    ensures EnvironmentMismatch(info.nodeEnv, info.publicEnvironment) in issues <==> info.nodeEnv != info.publicEnvironment
    ensures forall i :: i in issues && i.EnvironmentMismatch? ==> i == EnvironmentMismatch(info.nodeEnv, info.publicEnvironment)
  {
    var localAuth := MentionsLocalhost(info.nextAuthUrl) && InProduction(info);
    var localApi := MentionsLocalhost(info.publicApiUrl) && InProduction(info);
    var noAuth, noApi := !Truthy(info.nextAuthUrl), !Truthy(info.publicApiUrl);
    var mismatch := info.nodeEnv != info.publicEnvironment;
    var m := EnvironmentMismatch(info.nodeEnv, info.publicEnvironment);
    issues := [];
    if localAuth {
      issues := issues + [LocalhostAuthUrl];
    }
    if localApi {
      issues := issues + [LocalhostApiUrl];
    }
    if noAuth {
      issues := issues + [MissingAuthUrl];
    }
    if noApi {
      issues := issues + [MissingApiUrl];
    }
    if mismatch {
      issues := issues + [m];
    }
    assert issues == IssuesFor(localAuth, localApi, noAuth, noApi, mismatch, m);
    IssuesForReported(localAuth, localApi, noAuth, noApi, mismatch, m);
    IssuesForSingleMismatch(localAuth, localApi, noAuth, noApi, mismatch, m);
  }

  /** Visits per path: `(acc[path] || 0) + 1` folded over the events. */
  function PathCounts(events: seq<RoutingEvent>): map<string, nat>
    decreases |events|
  {
    if events == [] then map[]
    else
      var acc := PathCounts(events[..|events| - 1]);
      var p := events[|events| - 1].path;
      acc[p := (if p in acc then acc[p] else 0) + 1]
  }

  function Paths(events: seq<RoutingEvent>): (ps: seq<string>)
    ensures |ps| == |events| && forall i :: 0 <= i < |events| ==> ps[i] == events[i].path
  {
    seq(|events|, i requires 0 <= i < |events| => events[i].path)
  }

  /** A path is counted exactly when it was visited, and its count is the
      number of events on it. */
  lemma {:induction false} PathCountsAreOccurrences(events: seq<RoutingEvent>)
    ensures forall p :: p in PathCounts(events) <==> multiset(Paths(events))[p] > 0
    ensures forall p :: p in PathCounts(events) ==> PathCounts(events)[p] == multiset(Paths(events))[p]
    decreases |events|
  {
    if events != [] {
      var front := events[..|events| - 1];
      PathCountsAreOccurrences(front);
      assert Paths(events) == Paths(front) + [events[|events| - 1].path];
    }
  }

  /** The sum of the values of a map. */
  ghost function Total(m: map<string, nat>): nat
    decreases |m|
  {
    if m == map[] then 0
    else
      var k :| k in m;
      m[k] + Total(m - {k})
  }

  /** `Total` may take out any key first. */
  lemma {:induction false} TotalRemove(m: map<string, nat>, k: string)
    requires k in m
    ensures Total(m) == m[k] + Total(m - {k})
    decreases |m|
  {
    var j :| j in m && Total(m) == m[j] + Total(m - {j});
    if j != k {
      assert |m - {j}| < |m| by { assert m.Keys - {j} < m.Keys; }
      TotalRemove(m - {j}, k);
      assert (m - {j}) - {k} == (m - {k}) - {j};
      assert |m - {k}| < |m| by { assert m.Keys - {k} < m.Keys; }
      TotalRemove(m - {k}, j);
    }
  }

  /** The per-path counts add up to the number of logged events. */
  lemma {:induction false} PathCountsTotal(events: seq<RoutingEvent>)
    ensures Total(PathCounts(events)) == |events|
    decreases |events|
  {
    if events != [] {
      var front := events[..|events| - 1];
      var acc := PathCounts(front);
      var p := events[|events| - 1].path;
      var m := PathCounts(events);
      PathCountsTotal(front);
      TotalRemove(m, p);
      if p in acc {
        TotalRemove(acc, p);
        assert m - {p} == acc - {p};
      } else {
        assert m - {p} == acc;
      }
    }
  }

  predicate IsRedirect(e: RoutingEvent) {
    Contains(e.event, "redirect")
  }

  /** `events.filter(e => e.event.includes('redirect'))`. */
  function Redirects(events: seq<RoutingEvent>): (r: seq<RoutingEvent>)
    ensures |r| <= |events|
    ensures forall e :: e in r <==> e in events && IsRedirect(e)
    decreases |events|
  {
    if events == [] then []
    else
      var last := events[|events| - 1];
      Redirects(events[..|events| - 1]) + (if IsRedirect(last) then [last] else [])
  }

  /** `events.filter(e => e.sessionStatus === 'unauthenticated')`. */
  function Unauthenticated(events: seq<RoutingEvent>): (r: seq<RoutingEvent>)
    ensures |r| <= |events|
    ensures forall e :: e in r <==> e in events && e.sessionStatus == "unauthenticated"
    decreases |events|
  {
    if events == [] then []
    else
      var last := events[|events| - 1];
      Unauthenticated(events[..|events| - 1])
        + (if last.sessionStatus == "unauthenticated" then [last] else [])
  }

  /** Every redirect event is kept as often as it was logged, and nothing
      else is kept, so the redirect count is the number of redirect events. */
  lemma {:induction false} RedirectsKeepMultiplicity(events: seq<RoutingEvent>)
    ensures forall e :: multiset(Redirects(events))[e] == if IsRedirect(e) then multiset(events)[e] else 0
    decreases |events|
  {
    if events != [] {
      var front := events[..|events| - 1];
      RedirectsKeepMultiplicity(front);
      assert events == front + [events[|events| - 1]];
    }
  }

  /** Every unauthenticated event is kept as often as it was logged, and
      nothing else is kept. */
  lemma {:induction false} UnauthenticatedKeepMultiplicity(events: seq<RoutingEvent>)
    ensures forall e :: multiset(Unauthenticated(events))[e] == if e.sessionStatus == "unauthenticated" then multiset(events)[e] else 0
    decreases |events|
  {
    if events != [] {
      var front := events[..|events| - 1];
      UnauthenticatedKeepMultiplicity(front);
      assert events == front + [events[|events| - 1]];
    }
  }

  /** The findings of `analyzeRoutingPatterns`. */
  datatype PatternReport = PatternReport(pathCounts: map<string, nat>, redirectCount: nat,
                                         redirectLoop: bool, unauthenticatedCount: nat)

  /** A log that ever showed a redirect loop keeps showing it as events are
      added. */
  lemma {:induction false} RedirectsOnlyGrow(events: seq<RoutingEvent>, more: seq<RoutingEvent>)
    ensures |Redirects(events)| <= |Redirects(events + more)|
    decreases |more|
  {
    if more != [] {
      var front := more[..|more| - 1];
      RedirectsOnlyGrow(events, front);
      var all := events + more;
      assert all[..|all| - 1] == events + front;
      assert |Redirects(events + front)| <= |Redirects(all)|;
    } else {
      assert events + more == events;
    }
  }

  class RoutingDiagnostics {
    /** Whether the code runs in a browser (`typeof window !== 'undefined'`). */
    const isClient: bool
    var logBuffer: seq<RoutingEvent>

    constructor (isClient: bool)
      ensures this.isClient == isClient && logBuffer == []
    {
      this.isClient := isClient;
      logBuffer := [];
    }

    /** Records one event at the end of the log; earlier entries stay as they were. */
    method LogRoutingEvent(event: string, path: string, sessionStatus: Option<string>,
                           additionalData: Option<Object>, timestamp: string,
                           referrer: string, userAgent: string, env: Env)
      modifies this
      ensures logBuffer == old(logBuffer) + [MakeEvent(isClient, event, path, sessionStatus,
                                                       additionalData, timestamp, referrer,
                                                       userAgent, env)]
    {
      var routingEvent := MakeEvent(isClient, event, path, sessionStatus, additionalData,
                                    timestamp, referrer, userAgent, env);
      logBuffer := logBuffer + [routingEvent];
    }

    /** A copy of the log: a new array, so writing to it leaves the log alone. */
    method GetEventHistory() returns (history: array<RoutingEvent>)
      ensures fresh(history)
      ensures history[..] == logBuffer
    {
      history := new RoutingEvent[|logBuffer|](i requires 0 <= i < |logBuffer| reads this => logBuffer[i]);
    }

    method ClearEventHistory()
      modifies this
      ensures logBuffer == []
    {
      logBuffer := [];
    }

    method AnalyzeRoutingPatterns() returns (report: PatternReport)
      ensures report.pathCounts == PathCounts(logBuffer)
      ensures Total(report.pathCounts) == |logBuffer|
      ensures report.redirectCount == |Redirects(logBuffer)|
      ensures report.redirectLoop <==> report.redirectCount > 3
      ensures report.unauthenticatedCount == |Unauthenticated(logBuffer)|
    {
      var history := GetEventHistory();
      var events := history[..];

      var pathCounts := CountPaths(events);
      PathCountsTotal(events);
      var redirectEvents := FilterRedirects(events);
      var authEvents := FilterUnauthenticated(events);
      report := PatternReport(pathCounts, |redirectEvents|, |redirectEvents| > 3, |authEvents|);
    }
  }

  /** The `reduce` over the events: one count per visited path. */
  method CountPaths(events: seq<RoutingEvent>) returns (pathCounts: map<string, nat>)
    ensures pathCounts == PathCounts(events)
  {
    pathCounts := map[];
    for i := 0 to |events|
      invariant pathCounts == PathCounts(events[..i])
    {
      assert events[..i + 1][..i] == events[..i];
      var p := events[i].path;
      pathCounts := pathCounts[p := (if p in pathCounts then pathCounts[p] else 0) + 1];
    }
    assert events[..|events|] == events;
  }

  /** The `filter` keeping the events whose name contains "redirect". */
  method FilterRedirects(events: seq<RoutingEvent>) returns (redirectEvents: seq<RoutingEvent>)
    ensures redirectEvents == Redirects(events)
  {
    redirectEvents := [];
    for i := 0 to |events|
      invariant redirectEvents == Redirects(events[..i])
    {
      assert events[..i + 1][..i] == events[..i];
      if Contains(events[i].event, "redirect") {
        redirectEvents := redirectEvents + [events[i]];
      }
    }
    assert events[..|events|] == events;
  }

  /** The `filter` keeping the events of unauthenticated visitors. */
  method FilterUnauthenticated(events: seq<RoutingEvent>) returns (authEvents: seq<RoutingEvent>)
    ensures authEvents == Unauthenticated(events)
  {
    authEvents := [];
    for i := 0 to |events|
      invariant authEvents == Unauthenticated(events[..i])
    {
      assert events[..i + 1][..i] == events[..i];
      if events[i].sessionStatus == "unauthenticated" {
        authEvents := authEvents + [events[i]];
      }
    }
    assert events[..|events|] == events;
  }

  /** Writing into the history copy does not touch the log. */
  method HistoryIsACopy(d: RoutingDiagnostics, e: RoutingEvent)
    requires |d.logBuffer| > 0
    ensures d.logBuffer == old(d.logBuffer)
  {
    var history := d.GetEventHistory();
    history[0] := e;
  }
}
