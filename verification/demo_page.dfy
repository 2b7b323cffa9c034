/** The public dashboard demo: a layout that needs no session, fed by a mock
    user, and a page whose content is chosen by the account type the visitor
    toggles between. */
module DemoPage {
  import opened Common
  import opened DashboardLayout
  import opened DashboardWidgets
  import AuthModalContext

  /** The demo's own navigation table: the same entries under `/dashboard/demo`. */
  const DemoNavigationItems: seq<NavItem> := [
    NavItem("Overview", "/dashboard/demo", "📊", true, true),
    NavItem("Projects", "/dashboard/demo/projects", "📋", true, true),
    NavItem("Analytics", "/dashboard/demo/analytics", "📈", true, true),
    NavItem("Company Dashboard", "/dashboard/demo/company", "🏢", false, true),
    NavItem("Team", "/dashboard/demo/team", "👥", true, true),
    NavItem("Profile", "/dashboard/demo/profile", "👤", true, true)
  ]

  /** The demo table offers the same entries, with the same visibility, as
      the signed-in dashboard; only the link targets differ. */
  lemma DemoTableMirrorsDashboard()
    ensures |DemoNavigationItems| == |NavigationItems|
    ensures forall i :: 0 <= i < |NavigationItems| ==>
      var d, n := DemoNavigationItems[i], NavigationItems[i];
      d.name == n.name && d.icon == n.icon && d.general == n.general && d.company == n.company
  {
  }

  datatype MockUser = MockUser(name: Option<string>, email: Option<string>, accountType: Option<string>)

  datatype DemoLayoutView = DemoLayoutView(nav: seq<NavItem>, initial: string, displayName: string,
                                           accountLabel: string, heading: string)

  /** `DemoDashboardLayout`: every fallback is spelled out. */
  function DemoLayout(user: MockUser): (v: DemoLayoutView)
    ensures var accountType := Or(user.accountType, "general");
      && v.nav == FilterNav(DemoNavigationItems, accountType)
      && v.accountLabel == AccountBadge(accountType)
      && v.heading == "Dashboard Demo - " + (if accountType == "company" then "Company" else "General User")
    ensures v.initial == InitialOf(user.name, "D")
    ensures Truthy(user.name) ==> v.displayName == user.name.value
    ensures !Truthy(user.name) ==> v.displayName == "Demo User"
  {
    var accountType := Or(user.accountType, "general");
    DemoLayoutView(FilterNav(DemoNavigationItems, accountType),
                   InitialOf(user.name, "D"), Or(user.name, "Demo User"),
                   AccountBadge(accountType),
                   "Dashboard Demo - " + (if accountType == "company" then "Company" else "General User"))
  }

  /** The mock user the demo page passes to its layout. */
  function MockUserFor(a: AuthModalContext.AccountType): (u: MockUser)
    ensures u.accountType == Some(AuthModalContext.AccountTypeName(a))
    ensures a == AuthModalContext.Company ==> u.name == Some("Acme Corp") && u.email == Some("admin@acme.corp")
    ensures a == AuthModalContext.General ==> u.name == Some("John Doe") && u.email == Some("john.doe@example.com")
  {
    var company := a == AuthModalContext.Company;
    MockUser(Some(if company then "Acme Corp" else "John Doe"),
             Some(if company then "admin@acme.corp" else "john.doe@example.com"),
             Some(AuthModalContext.AccountTypeName(a)))
  }

  /** The demo's navigation for each toggle position: a general visitor sees
      all but the company dashboard, a company visitor sees all six. */
  lemma DemoNavigationByAccount(a: AuthModalContext.AccountType)
    ensures a == AuthModalContext.General ==>
      DemoLayout(MockUserFor(a)).nav == DemoNavigationItems[..3] + DemoNavigationItems[4..]
    ensures a == AuthModalContext.Company ==>
      DemoLayout(MockUserFor(a)).nav == DemoNavigationItems
  {
    if a == AuthModalContext.General {
      FilterNavDropsOne(DemoNavigationItems, 3, "general");
    } else {
      FilterNavKeepsVisible(DemoNavigationItems, "company");
    }
  }

  const GeneralProjects: seq<Project> := [
    Project("Clean Water Initiative", Active, 75, "Providing clean water access to underserved communities",
            "500 people served", Some("2024-12-31")),
    Project("Education Support Program", Completed, 100, "Supporting education in rural areas",
            "200 students helped", None),
    Project("Renewable Energy Project", Pending, 25, "Solar panel installation for community center",
            "15 tons CO2 reduced", Some("2025-03-15"))
  ]

  const CompanyProjects: seq<Project> := [
    Project("Corporate Sustainability Program", Active, 85,
            "Company-wide sustainability initiatives and carbon neutrality goals",
            "12,500 employees engaged", Some("2024-12-31")),
    Project("Supply Chain Optimization", Active, 60,
            "Optimizing supply chain for reduced environmental impact",
            "2,300 tons CO2 saved", Some("2025-02-28"))
  ]

  function DemoProjects(a: AuthModalContext.AccountType): (ps: seq<Project>)
    ensures a == AuthModalContext.Company ==> ps == CompanyProjects && |ps| == 2
    ensures a == AuthModalContext.General ==> ps == GeneralProjects && |ps| == 3
  {
    if a == AuthModalContext.Company then CompanyProjects else GeneralProjects
  }

  /** The scores handed to the ESG score card. */
  datatype EsgScores = EsgScores(environmental: int, social: int, governance: int, overall: int)

  function DemoScores(a: AuthModalContext.AccountType): (s: EsgScores)
    ensures a == AuthModalContext.Company ==> s == EsgScores(82, 88, 79, 83)
    ensures a == AuthModalContext.General ==> s == EsgScores(78, 85, 72, 78)
  {
    var company := a == AuthModalContext.Company;
    EsgScores(if company then 82 else 78, if company then 88 else 85,
              if company then 79 else 72, if company then 83 else 78)
  }

  /** With these figures the company demo's overall score shows green and the
      general one yellow. */
  lemma DemoOverallBands()
    ensures ScoreBandOf(DemoScores(AuthModalContext.Company).overall) == Green
    ensures ScoreBandOf(DemoScores(AuthModalContext.General).overall) == Yellow
  {
  }
}
