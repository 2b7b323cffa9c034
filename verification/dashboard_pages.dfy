/** The two protected dashboard pages: the effect each runs when the session
    changes, and what each renders. */
module DashboardPages {
  import opened Common
  import opened Auth
  import AuthModalContext

  /** The blocks of the main dashboard, top to bottom. */
  datatype DashboardBlock = AnalyticsOverview | EsgScoreAndActivity | ActiveProjects | ProfileAndTeam

  const DashboardBlocks := [AnalyticsOverview, EsgScoreAndActivity, ActiveProjects, ProfileAndTeam]

  const NoSessionReason := "No session found - redirecting to trigger NextAuth flow"

  /** The mount effect of the main dashboard page: the environment report,
      then a mount event carrying whether there is a session and the clock
      reading (`timestamp`, an input). Booleans are logged as their JSON text. */
  function MountEffect(status: SessionStatus, session: Option<Session>, pathname: string, timestamp: string)
    : (effects: seq<Effect>)
    ensures |effects| == 2 && effects[0] == LogEnvironment
    ensures effects[1].LogRouting? && effects[1].event == "dashboard_page_mounted"
    ensures effects[1].path == pathname && effects[1].sessionStatus == Some(StatusName(status))
    ensures effects[1].data.Some?
    ensures Lookup(effects[1].data.value, "hasSession") == Some(if session.Some? then "true" else "false")
    ensures Lookup(effects[1].data.value, "timestamp") == Some(timestamp)
  {
    [LogEnvironment,
     LogRouting("dashboard_page_mounted", pathname, Some(StatusName(status)),
                Some(map["hasSession" := Some(if session.Some? then "true" else "false"),
                         "timestamp" := Some(timestamp)]))]
  }

  /** The effect of the main dashboard page, as the list of what it does in order. */
  function DashboardEffect(status: SessionStatus, session: Option<Session>, pathname: string)
    : (effects: seq<Effect>)
    // While loading it only logs.
    ensures status == Loading ==>
      effects == [LogRouting("dashboard_auth_loading", pathname, Some("loading"), None)]
    // Without a session it logs, opens the login modal, then goes home.
    ensures status != Loading && session.None? ==>
      && |effects| == 3
      && effects[0].LogRouting? && effects[0].event == "dashboard_no_session_redirect"
      && effects[0].sessionStatus == Some("unauthenticated")
      && effects[0].data == Some(map["redirectTo" := Some("/dashboard"), "reason" := Some(NoSessionReason)])
      && effects[1] == OpenModal(AuthModalContext.Login)
      && effects[2] == Push("/")
    // With a session it logs the grant, with the account type defaulted.
    ensures status != Loading && session.Some? ==>
      && |effects| == 1
      && effects[0].LogRouting? && effects[0].event == "dashboard_access_granted"
      && effects[0].sessionStatus == Some("authenticated")
      && effects[0].data.Some?
      && Lookup(effects[0].data.value, "userId") == UserEmail(session.value)
      && Lookup(effects[0].data.value, "accountType") == Some(AccountTypeOf(session.value))
    ensures forall e :: e in effects && e.LogRouting? ==> e.path == pathname
  {
    if status == Loading then
      [LogRouting("dashboard_auth_loading", pathname, Some("loading"), None)]
    else if session.None? then
      [LogRouting("dashboard_no_session_redirect", pathname, Some("unauthenticated"),
                  Some(map["redirectTo" := Some("/dashboard"), "reason" := Some(NoSessionReason)])),
       OpenModal(AuthModalContext.Login),
       Push("/")]
    else
      [LogRouting("dashboard_access_granted", pathname, Some("authenticated"),
                  Some(map["userId" := UserEmail(session.value),
                           "accountType" := Some(AccountTypeOf(session.value))]))]
  }

  /** The page navigates away exactly when the session has finished loading
      and there is none, and only after opening the login modal. */
  lemma DashboardLeavesOnlyWithoutSession(status: SessionStatus, session: Option<Session>, pathname: string)
    ensures var effects := DashboardEffect(status, session, pathname);
      && ((exists e :: e in effects && e.Push?) <==> status != Loading && session.None?)
      && ((exists e :: e in effects && e.OpenModal?) <==> status != Loading && session.None?)
      && forall i, j :: 0 <= i < |effects| && 0 <= j < |effects| && effects[i].OpenModal? && effects[j].Push?
           ==> i < j
  {
    var effects := DashboardEffect(status, session, pathname);
    if status != Loading && session.None? {
      assert effects[2].Push? && effects[1].OpenModal?;
    }
  }

  function DashboardView(status: SessionStatus, session: Option<Session>): (v: View<seq<DashboardBlock>>)
    ensures v == Gate(status, session, DashboardBlocks)
    ensures v.Content? ==> |v.content| == 4 && v.content[0] == AnalyticsOverview
  {
    if status == Loading then Spinner
    else if session.None? then Nothing
    else Content(DashboardBlocks)
  }

  /** The sections of the company dashboard, top to bottom. */
  datatype CompanySection =
    | CompanyHeader | KeyMetrics | EsgTrendsChart | ImpactMetrics
    | PeerComparison | Overview | RecentEsgUpdates | EsgCertifications

  const CompanySections := [CompanyHeader, KeyMetrics, EsgTrendsChart, ImpactMetrics,
                            PeerComparison, Overview, RecentEsgUpdates, EsgCertifications]

  /** The effect of the company dashboard: nothing while loading, nothing
      with a session, and without one the login modal then the home page. */
  function CompanyEffect(status: SessionStatus, session: Option<Session>): (effects: seq<Effect>)
    ensures status == Loading ==> effects == []
    ensures status != Loading && session.None? ==>
      effects == [OpenModal(AuthModalContext.Login), Push("/")]
    ensures session.Some? ==> effects == []
  {
    if status == Loading then []
    else if session.None? then [OpenModal(AuthModalContext.Login), Push("/")]
    else []
  }

  function CompanyView(status: SessionStatus, session: Option<Session>): (v: View<seq<CompanySection>>)
    ensures v == Gate(status, session, CompanySections)
  {
    if status == Loading then Spinner
    else if session.None? then Nothing
    else Content(CompanySections)
  }

  /** The company page shows each of its eight sections exactly once. */
  lemma CompanySectionsOnceEach()
    ensures forall s: CompanySection :: s in CompanySections
    ensures forall i, j :: 0 <= i < j < |CompanySections| ==> CompanySections[i] != CompanySections[j]
  {
    var t := CompanySections;
    forall s: CompanySection ensures s in t {
      match s {
        case CompanyHeader => assert t[0] == s;
        case KeyMetrics => assert t[1] == s;
        case EsgTrendsChart => assert t[2] == s;
        case ImpactMetrics => assert t[3] == s;
        case PeerComparison => assert t[4] == s;
        case Overview => assert t[5] == s;
        case RecentEsgUpdates => assert t[6] == s;
        case EsgCertifications => assert t[7] == s;
      }
    }
  }

  /** Both pages agree on when they leave for the home page. */
  lemma PagesAgreeOnRedirect(status: SessionStatus, session: Option<Session>, pathname: string)
    ensures (Push("/") in DashboardEffect(status, session, pathname))
            <==> (Push("/") in CompanyEffect(status, session))
  {
    var effects := DashboardEffect(status, session, pathname);
    if status != Loading && session.None? {
      assert effects[2] == Push("/");
    }
  }
}
