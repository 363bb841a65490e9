/** The side navigation (components/navigation/side-nav.tsx) and the bottom
    navigation (components/navigation/bottom-nav.tsx): four fixed links, each
    highlighted when the current pathname is its page or lies below it. */
module Navigation {
  import opened Wrappers
  import opened Ascii

  datatype NavItem = NavItem(name: string, href: string)

  const DashboardHref := "/dashboard"
  const ProjectsHref := "/projects"
  const TeamsHref := "/teams"
  const SettingsHref := "/settings"

  /** The hrefs shared by both navigations, in display order. */
  const NavHrefs: seq<string> := [DashboardHref, ProjectsHref, TeamsHref, SettingsHref]

  const SideNavItems: seq<NavItem> := [
    NavItem("Dashboard", DashboardHref),
    NavItem("Projects", ProjectsHref),
    NavItem("Teams", TeamsHref),
    NavItem("Settings", SettingsHref)
  ]

  const BottomNavItems: seq<NavItem> := [
    NavItem("Home", DashboardHref),
    NavItem("Projects", ProjectsHref),
    NavItem("Teams", TeamsHref),
    NavItem("Settings", SettingsHref)
  ]

  /** `pathname === href || pathname?.startsWith(href + "/")`; a missing pathname
      (`null` before hydration) matches nothing. */
  function IsActive(pathname: Option<string>, href: string): (active: bool)
    ensures pathname.None? ==> !active
    ensures pathname == Some(href) ==> active
    ensures active ==> StartsWith(pathname.value, href)
  {
    pathname == Some(href) || (pathname.Some? && StartsWith(pathname.value, href + "/"))
  }

  /** An item is active exactly on its own page and on the pages below it: the match
      stops at a path-segment boundary. */
  lemma ActiveIffSegmentPrefix(path: string, href: string)
    ensures IsActive(Some(path), href) <==>
      path == href || (|path| > |href| && path[..|href|] == href && path[|href|] == '/')
  {
    if |path| > |href| && path[..|href|] == href && path[|href|] == '/' {
      assert path[..|href| + 1] == href + "/";
    }
    if StartsWith(path, href + "/") {
      assert path[..|href|] == (href + "/")[..|href|];
    }
  }

  /** "/projectsX" does not activate "/projects": a longer word is not a page below. */
  lemma ProjectsXInactive()
    ensures !IsActive(Some(ProjectsHref + "X"), ProjectsHref)
  {
    ActiveIffSegmentPrefix(ProjectsHref + "X", ProjectsHref);
    assert (ProjectsHref + "X")[|ProjectsHref|] == 'X';
  }

  /** Two hrefs that differ at a position inside both can never be active together. */
  lemma ActiveExclusive(path: string, h1: string, h2: string, k: nat)
    requires k < |h1| && k < |h2| && h1[k] != h2[k]
    ensures !(IsActive(Some(path), h1) && IsActive(Some(path), h2))
  {
    ActiveIffSegmentPrefix(path, h1);
    ActiveIffSegmentPrefix(path, h2);
  }

  /** Whatever the pathname, at most one of the four links is highlighted: their
      hrefs differ in the character after the slash. */
  lemma AtMostOneActive(pathname: Option<string>, i: nat, j: nat)
    requires i < |NavHrefs| && j < |NavHrefs|
    requires IsActive(pathname, NavHrefs[i]) && IsActive(pathname, NavHrefs[j])
    ensures i == j
  {
    assert DashboardHref[1] == 'd' && ProjectsHref[1] == 'p';
    assert TeamsHref[1] == 't' && SettingsHref[1] == 's';
    if i != j {
      ActiveExclusive(pathname.value, NavHrefs[i], NavHrefs[j], 1);
    }
  }

  /** A side-navigation link as rendered: the item and whether it is highlighted. */
  datatype SideLink = SideLink(item: NavItem, active: bool)

  /** A bottom-navigation link as rendered: the item and its `aria-current`. */
  datatype BottomLink = BottomLink(item: NavItem, ariaCurrent: Option<string>)

  const CurrentPage := "page"

  /** `navItems.map(...)` in the side navigation. */
  function SideNavLinks(pathname: Option<string>): (links: seq<SideLink>)
    ensures |links| == |SideNavItems|
    ensures forall i :: 0 <= i < |links| ==>
      links[i].item == SideNavItems[i] && (links[i].active <==> IsActive(pathname, SideNavItems[i].href))
    ensures pathname.None? ==> forall i :: 0 <= i < |links| ==> !links[i].active
  {
    seq(|SideNavItems|, i requires 0 <= i < |SideNavItems| =>
      SideLink(SideNavItems[i], IsActive(pathname, SideNavItems[i].href)))
  }

  /** `navItems.map(...)` in the bottom navigation: `aria-current="page"` exactly on
      the highlighted link. */
  function BottomNavLinks(pathname: Option<string>): (links: seq<BottomLink>)
    ensures |links| == |BottomNavItems|
    ensures forall i :: 0 <= i < |links| ==> links[i].item == BottomNavItems[i]
    ensures forall i :: 0 <= i < |links| ==>
      (links[i].ariaCurrent == Some(CurrentPage) <==> IsActive(pathname, BottomNavItems[i].href))
      && (links[i].ariaCurrent.None? <==> !IsActive(pathname, BottomNavItems[i].href))
    ensures pathname.None? ==> forall i :: 0 <= i < |links| ==> links[i].ariaCurrent.None?
  {
    seq(|BottomNavItems|, i requires 0 <= i < |BottomNavItems| =>
      BottomLink(BottomNavItems[i], if IsActive(pathname, BottomNavItems[i].href) then Some(CurrentPage) else None))
  }

  /** Both navigations point at the same four pages in the same order, so they
      highlight the same position. */
  lemma NavigationsAgree(pathname: Option<string>, i: nat)
    requires i < 4
    ensures SideNavLinks(pathname)[i].active <==> BottomNavLinks(pathname)[i].ariaCurrent == Some(CurrentPage)
    ensures SideNavItems[i].href == BottomNavItems[i].href == NavHrefs[i]
  {
  }

  /** At most one `aria-current` in the bottom navigation. */
  lemma OneCurrentPage(pathname: Option<string>, i: nat, j: nat)
    requires i < 4 && j < 4
    requires BottomNavLinks(pathname)[i].ariaCurrent.Some? && BottomNavLinks(pathname)[j].ariaCurrent.Some?
    ensures i == j
  {
    assert BottomNavItems[i].href == NavHrefs[i] && BottomNavItems[j].href == NavHrefs[j];
    AtMostOneActive(pathname, i, j);
  }
}
