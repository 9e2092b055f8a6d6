/** The navigation of the side bar (src/components/layout/Sidebar.tsx): which link is highlighted
    for the current path. */
module Sidebar {
  import opened Text

  /** A link: its path, its caption (`label`) and its icon. */
  datatype NavItem = NavItem(path: string, caption: string, icon: string)

  /** `navItems` (src/components/layout/Sidebar.tsx:6-10) */
  const NavItems: seq<NavItem> := [
    NavItem("/", "Dashboard", "\U{1F4CA}"),
    NavItem("/scripts", "Scripts", "\U{1F4CB}"),
    NavItem("/roleplay", "Roleplay", "\U{1F3AD}")
  ]

  /** `isActive`: the dashboard only at `/` itself, any other item wherever the path starts with
      its own path, as raw text. */
  function IsActive(item: NavItem, pathname: string): (r: bool)
    ensures item.path == "/" ==> (r <==> pathname == "/")
    ensures item.path != "/" ==> (r <==> |item.path| <= |pathname| && pathname[..|item.path|] == item.path)
  {
    if item.path == "/" then pathname == "/" else StartsWith(pathname, item.path)
  }

  /** The highlighting of every item, in order. */
  function Highlighted(pathname: string): (r: seq<bool>)
    ensures |r| == |NavItems| && forall k | 0 <= k < |r| :: r[k] == IsActive(NavItems[k], pathname)
  {
    seq(|NavItems|, k requires 0 <= k < |NavItems| => IsActive(NavItems[k], pathname))
  }

  /** At `/` only the dashboard is highlighted. */
  lemma OnlyDashboardAtRoot()
    ensures Highlighted("/") == [true, false, false]
  {
    assert !IsActive(NavItems[1], "/");
    assert !IsActive(NavItems[2], "/");
  }

  /** At most one item is highlighted for any path: no item's path is a prefix of another's. */
  lemma AtMostOneActive(pathname: string, i: nat, j: nat)
    requires i < |NavItems| && j < |NavItems|
    requires IsActive(NavItems[i], pathname) && IsActive(NavItems[j], pathname)
    ensures i == j
  {
    if i != 0 {
      ActiveSecondChar(pathname, i);
    }
    if j != 0 {
      ActiveSecondChar(pathname, j);
    }
  }

  /** A highlighted item other than the dashboard agrees with the path on its second character. */
  lemma ActiveSecondChar(pathname: string, i: nat)
    requires 0 < i < |NavItems| && IsActive(NavItems[i], pathname)
    ensures |pathname| > 1 && pathname[1] == NavItems[i].path[1]
  {
    assert pathname[..|NavItems[i].path|][1] == pathname[1];
  }

  /** The match is on raw text, not on path segments: `/scriptsX` highlights Scripts. */
  lemma RawPrefix()
    ensures Highlighted("/scriptsX") == [false, true, false]
    ensures Highlighted("/scripts/new") == [false, true, false]
  {
    assert "/scriptsX"[..8] == "/scripts";
    assert "/scripts/new"[..8] == "/scripts";
    assert "/scriptsX"[1] != 'r' && "/scripts/new"[1] != 'r';
  }
}
