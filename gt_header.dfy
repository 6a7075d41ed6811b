/** The header of the `gt_frontend` app.  It keeps no state of its own: it shows
    the navigation items with the current one marked, the shortened principal
    and the theme glyph, and hands clicks to the session's setters. */
module GtHeader {
  import opened Base
  import opened JsString
  import opened Screens
  import GtHome

  datatype NavItem = NavItem(id: string, caption: string)

  /** The navigation items, in display order. */
  const NavItems: seq<NavItem> := [
    NavItem("dashboard", "Dashboard"),
    NavItem("identity", "Identity"),
    NavItem("verification", "Verify"),
    NavItem("nfts", "NFTs"),
    NavItem("marketplace", "Marketplace"),
    NavItem("lending", "Lending")]

  /** `"nav-item" + (currentView === id ? " active" : "")`. */
  function ItemClass(currentView: string, id: string): (c: string)
    ensures c == "nav-item active" <==> currentView == id
    ensures c == "nav-item" <==> currentView != id
  {
    "nav-item" + (if currentView == id then " active" else "")
  }

  /** Exactly the item whose id is the current view is marked active, so at
      most one is, and none when the view is not one of the items. */
  lemma OneActive(currentView: string, i: nat, j: nat)
    requires i < |NavItems| && j < |NavItems|
    requires ItemClass(currentView, NavItems[i].id) == "nav-item active"
    requires ItemClass(currentView, NavItems[j].id) == "nav-item active"
    ensures i == j
  {
    assert forall a, b :: 0 <= a < b < |NavItems| ==> NavItems[a].id != NavItems[b].id;
  }

  /** Every item leads to a screen of its own once signed in. */
  lemma NavRoutes()
    ensures forall i, j :: 0 <= i < j < |NavItems| ==>
      GtHome.RenderCurrentView(true, NavItems[i].id) != GtHome.RenderCurrentView(true, NavItems[j].id)
  {
  }

  /** `principal.slice(0, 6)...principal.slice(-4)`; without a principal the
      property access throws and nothing is rendered (`None`). */
  function PrincipalLabel(principal: Option<string>): (r: Option<string>)
    ensures r.None? <==> principal.None?
  {
    match principal
    case Some(p) => Some(Abbreviate(p, 6, 4))
    case None => None
  }

  /** A principal of at least 10 characters shows as its first 6 and last 4
      characters around "...". */
  lemma PrincipalLabelShape(p: string)
    requires |p| >= 10
    ensures var r := PrincipalLabel(Some(p)).value;
      |r| == 13 && r[..6] == p[..6] && r[6..9] == "..." && r[9..] == p[|p| - 4..]
  {
    AbbreviateShape(p, 6, 4);
  }

  datatype Glyph = NewMoon | FullMoon

  /** `theme === "dark" ? new moon : full moon`. */
  function ThemeGlyph(theme: string): (g: Glyph)
    ensures g == NewMoon <==> theme == "dark"
  {
    if theme == "dark" then NewMoon else FullMoon
  }

  /** A navigation click: `setCurrentView(item.id)`; afterwards exactly the
      clicked item is marked active. */
  method ClickNavItem(home: GtHome.HomeSession, i: nat)
    requires i < |NavItems| && home.Valid()
    modifies home`currentView
    ensures home.Valid() && home.currentView == NavItems[i].id
    ensures forall j :: 0 <= j < |NavItems| ==>
      (ItemClass(home.currentView, NavItems[j].id) == "nav-item active" <==> j == i)
  {
    home.SetCurrentView(NavItems[i].id);
    assert forall a, b :: 0 <= a < b < |NavItems| ==> NavItems[a].id != NavItems[b].id;
  }
}
