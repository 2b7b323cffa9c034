/** The signed-in dashboard frame: the navigation table filtered by account
    type, the highlighted link, the header title chosen by path, the avatar,
    and the redirect to the login page when there is no session. */
module DashboardLayout {
  import opened Common
  import opened Auth

  datatype NavItem = NavItem(name: string, href: string, icon: string, general: bool, company: bool)

  const NavigationItems: seq<NavItem> := [
    NavItem("Overview", "/dashboard", "📊", true, true),
    NavItem("Projects", "/dashboard/projects", "📋", true, true),
    NavItem("Analytics", "/dashboard/analytics", "📈", true, true),
    NavItem("Company Dashboard", "/dashboard/company", "🏢", false, true),
    NavItem("Team", "/dashboard/team", "👥", true, true),
    NavItem("Profile", "/dashboard/profile", "👤", true, true)
  ]

  /** Every entry is offered to company accounts, and general accounts miss
      only the company dashboard. */
  lemma NavigationVisibility()
    ensures forall i :: 0 <= i < |NavigationItems| ==> NavigationItems[i].company
    ensures forall i :: 0 <= i < |NavigationItems| ==>
      (NavigationItems[i].general <==> NavigationItems[i].href != "/dashboard/company")
  {
  }

  /** The filter's test: general accounts go by the `general` flag, every
      other account type by the `company` flag. */
  predicate Visible(item: NavItem, accountType: string) {
    if accountType == "general" then item.general else item.company
  }

  /** `items.filter(item => accountType === 'general' ? item.general : item.company)`. */
  function FilterNav(items: seq<NavItem>, accountType: string): (r: seq<NavItem>)
    ensures |r| <= |items|
    ensures forall i :: 0 <= i < |r| ==> Visible(r[i], accountType)
    decreases |items|
  {
    if items == [] then []
    else
      var last := items[|items| - 1];
      FilterNav(items[..|items| - 1], accountType) + (if Visible(last, accountType) then [last] else [])
  }

  /** The filtered table holds exactly the visible entries of the table. */
  lemma {:induction false} FilterNavMembers(items: seq<NavItem>, accountType: string)
    ensures forall x :: x in FilterNav(items, accountType) <==> x in items && Visible(x, accountType)
    decreases |items|
  {
    if items != [] {
      var front := items[..|items| - 1];
      FilterNavMembers(front, accountType);
      assert items == front + [items[|items| - 1]];
    }
  }

  /** Filtering works piece by piece, so it keeps the table's order. */
  lemma {:induction false} FilterNavDistributes(a: seq<NavItem>, b: seq<NavItem>, accountType: string)
    ensures FilterNav(a + b, accountType) == FilterNav(a, accountType) + FilterNav(b, accountType)
    decreases |b|
  {
    if b == [] {
      assert a + b == a;
    } else {
      var front := b[..|b| - 1];
      FilterNavDistributes(a, front, accountType);
      assert (a + b)[..|a + b| - 1] == a + front;
    }
  }

  lemma {:induction false} FilterNavKeepsVisible(items: seq<NavItem>, accountType: string)
    requires forall i :: 0 <= i < |items| ==> Visible(items[i], accountType)
    ensures FilterNav(items, accountType) == items
    decreases |items|
  {
    if items != [] {
      FilterNavKeepsVisible(items[..|items| - 1], accountType);
    }
  }

  lemma {:induction false} FilterNavDropsHidden(items: seq<NavItem>, accountType: string)
    requires forall i :: 0 <= i < |items| ==> !Visible(items[i], accountType)
    ensures FilterNav(items, accountType) == []
    decreases |items|
  {
    if items != [] {
      FilterNavDropsHidden(items[..|items| - 1], accountType);
    }
  }

  /** A hidden entry between two visible runs drops out, the runs stay. */
  lemma FilterNavDropsMiddle(before: seq<NavItem>, hidden: NavItem, after: seq<NavItem>, accountType: string)
    requires forall i :: 0 <= i < |before| ==> Visible(before[i], accountType)
    requires !Visible(hidden, accountType)
    requires forall i :: 0 <= i < |after| ==> Visible(after[i], accountType)
    ensures FilterNav(before + [hidden] + after, accountType) == before + after
  {
    FilterNavKeepsVisible(before, accountType);
    FilterNavSkipsHidden(before, hidden, accountType);
    FilterNavKeepsVisible(after, accountType);
    FilterNavDistributes(before + [hidden], after, accountType);
  }

  /** A hidden entry at the end of a table adds nothing to the filtered table. */
  lemma FilterNavSkipsHidden(items: seq<NavItem>, hidden: NavItem, accountType: string)
    requires !Visible(hidden, accountType)
    ensures FilterNav(items + [hidden], accountType) == FilterNav(items, accountType)
  {
    var all := items + [hidden];
    assert all[..|all| - 1] == items;
  }

  /** Filtering a table in which only entry `k` is hidden removes just that entry. */
  lemma FilterNavDropsOne(items: seq<NavItem>, k: nat, accountType: string)
    requires k < |items| && !Visible(items[k], accountType)
    requires forall i :: 0 <= i < |items| && i != k ==> Visible(items[i], accountType)
    ensures FilterNav(items, accountType) == items[..k] + items[k + 1..]
  {
    var before, after := items[..k], items[k + 1..];
    forall i | 0 <= i < |before| ensures Visible(before[i], accountType) {
      assert before[i] == items[i];
    }
    forall i | 0 <= i < |after| ensures Visible(after[i], accountType) {
      assert after[i] == items[k + 1 + i];
    }
    assert items == before + [items[k]] + after;
    FilterNavDropsMiddle(before, items[k], after, accountType);
  }

  /** A general account sees every entry but the company dashboard, in table order. */
  lemma GeneralNavigation()
    ensures FilterNav(NavigationItems, "general") == NavigationItems[..3] + NavigationItems[4..]
  {
    FilterNavDropsOne(NavigationItems, 3, "general");
  }

  /** Every other account type sees all six entries. */
  lemma OtherAccountNavigation(accountType: string)
    requires accountType != "general"
    ensures FilterNav(NavigationItems, accountType) == NavigationItems
  {
    FilterNavKeepsVisible(NavigationItems, accountType);
  }

  /** No two entries share a link. */
  lemma HrefsDistinct()
    ensures forall i, j :: 0 <= i < j < |NavigationItems| ==> NavigationItems[i].href != NavigationItems[j].href
  {
  }

  /** A link with whether it is highlighted. */
  datatype NavLink = NavLink(item: NavItem, active: bool)

  function NavLinks(items: seq<NavItem>, pathname: string): (links: seq<NavLink>)
    ensures |links| == |items|
    ensures forall i :: 0 <= i < |items| ==> links[i].item == items[i]
    // A link is highlighted exactly when the path is its target, nothing looser.
    ensures forall i :: 0 <= i < |items| ==> (links[i].active <==> pathname == items[i].href)
  {
    seq(|items|, i requires 0 <= i < |items| => NavLink(items[i], pathname == items[i].href))
  }

  /** On any path at most one entry of the (filtered) table is highlighted. */
  lemma AtMostOneActive(accountType: string, pathname: string, i: nat, j: nat)
    requires var links := NavLinks(FilterNav(NavigationItems, accountType), pathname);
      i < |links| && j < |links| && links[i].active && links[j].active
    ensures i == j
  {
    var items := FilterNav(NavigationItems, accountType);
    if accountType == "general" {
      GeneralNavigation();
    } else {
      OtherAccountNavigation(accountType);
    }
    HrefsDistinct();
  }

  function TitleIf(pathname: string, path: string, title: string): string {
    if pathname == path then title else ""
  }

  /** The six `pathname === … && title` pieces of the header, in source order. */
  function HeaderTitle(pathname: string): (t: string)
    ensures pathname in Titles ==> t == Titles[pathname]
    ensures pathname !in Titles ==> t == ""
  {
    TitleIf(pathname, "/dashboard", "Dashboard Overview")
    + TitleIf(pathname, "/dashboard/company", "Company Dashboard")
    + TitleIf(pathname, "/dashboard/projects", "Projects")
    + TitleIf(pathname, "/dashboard/analytics", "Analytics")
    + TitleIf(pathname, "/dashboard/team", "Team Management")
    + TitleIf(pathname, "/dashboard/profile", "Profile")
  }

  /** The header titles as a table. */
  const Titles: map<string, string> := map[
    "/dashboard" := "Dashboard Overview",
    "/dashboard/company" := "Company Dashboard",
    "/dashboard/projects" := "Projects",
    "/dashboard/analytics" := "Analytics",
    "/dashboard/team" := "Team Management",
    "/dashboard/profile" := "Profile"
  ]

  /** The header shows the table's title for a known path and nothing for
      any other path; the known paths are exactly the navigation targets. */
  lemma HeaderTitleByTable()
    ensures Titles.Keys == set i | 0 <= i < |NavigationItems| :: NavigationItems[i].href
  {
    var t := NavigationItems;
    assert Titles.Keys == {t[0].href, t[1].href, t[2].href, t[3].href, t[4].href, t[5].href};
  }

  /** The avatar: the user's picture, or a badge with one letter. */
  datatype Avatar = Picture(src: string, alt: string) | Initial(letter: string)

  /** Upper-casing of one character, for the ASCII letters. */
  function UpperAscii(c: char): (u: char)
    ensures 'a' <= c <= 'z' ==> u as int == c as int - 32
    ensures !('a' <= c <= 'z') ==> u == c
  {
    if 'a' <= c <= 'z' then (c as int - 32) as char else c
  }

  /** `name?.charAt(0)?.toUpperCase() || fallback`. */
  function InitialOf(name: Option<string>, fallback: string): (s: string)
    ensures Truthy(name) ==> s == [UpperAscii(name.value[0])]
    ensures !Truthy(name) ==> s == fallback
  {
    if name.Some? && |name.value| > 0 then [UpperAscii(name.value[0])] else fallback
  }

  function AvatarOf(session: Session): (a: Avatar)
    ensures Truthy(if session.user.Some? then session.user.value.image else None) <==> a.Picture?
    ensures a.Initial? ==> a.letter == InitialOf(UserName(session), "?")
    // The picture is the user's image, described by the name or "User".
    ensures a.Picture? ==> a == Picture(session.user.value.image.value, Or(UserName(session), "User"))
  {
    var image := if session.user.Some? then session.user.value.image else None;
    if Truthy(image) then Picture(image.value, Or(UserName(session), "User"))
    else Initial(InitialOf(UserName(session), "?"))
  }

  function AccountBadge(accountType: string): string {
    (if accountType == "company" then "🏢" else "👤") + " " + accountType
  }

  datatype LayoutView = LayoutView(nav: seq<NavLink>, avatar: Avatar, userName: Option<string>,
                                   accountLabel: string, title: string)

  datatype LayoutResult = LayoutResult(effects: seq<Effect>, view: Option<LayoutView>)

  /** One render of the layout. */
  function Layout(session: Option<Session>, pathname: string): (r: LayoutResult)
    // Without a session: go to the login page and show nothing.
    ensures session.None? <==> r.view.None?
    ensures session.None? ==> r.effects == [Push("/login")]
    ensures session.Some? ==> r.effects == []
    ensures session.Some? ==>
      var accountType := AccountTypeOf(session.value);
      && r.view.value.nav == NavLinks(FilterNav(NavigationItems, accountType), pathname)
      && r.view.value.title == HeaderTitle(pathname)
      && r.view.value.avatar == AvatarOf(session.value)
      && r.view.value.accountLabel == AccountBadge(accountType)
      && r.view.value.userName == UserName(session.value)
  {
    match session
    case None => LayoutResult([Push("/login")], None)
    case Some(s) =>
      var accountType := AccountTypeOf(s);
      var filtered := FilterNav(NavigationItems, accountType);
      LayoutResult([], Some(LayoutView(NavLinks(filtered, pathname), AvatarOf(s), UserName(s),
                                       AccountBadge(accountType), HeaderTitle(pathname))))
  }

  /** Whatever the session says, the company dashboard link is offered
      exactly to accounts that are not general ones. */
  lemma CompanyLinkOnlyForNonGeneral(s: Session)
    ensures NavigationItems[3] in FilterNav(NavigationItems, AccountTypeOf(s))
            <==> AccountTypeOf(s) != "general"
  {
    FilterNavMembers(NavigationItems, AccountTypeOf(s));
  }
}
