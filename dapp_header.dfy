/** The header of the `globaltrust_dapp` app: the navigation items, the
    highlight of the current one, the shortened principal, the theme icon and
    the mobile menu it opens and closes. */
module DappHeader {
  import opened Base
  import opened JsString
  import opened Screens
  import DappApp

  /** The ids of the navigation items, in display order. */
  const NavIds: seq<string> := ["dashboard", "identity", "assets", "marketplace", "lending", "verification"]

  /** The ids are pairwise distinct. */
  lemma NavIdsDistinct()
    ensures |NavIds| == 6
    ensures forall i, j :: 0 <= i < j < |NavIds| ==> NavIds[i] != NavIds[j]
  {
  }

  /** `currentView === item.id` picks the highlighted style. */
  predicate Highlighted(currentView: string, id: string)
  {
    currentView == id
  }

  /** At most one item is highlighted: two highlighted positions are the same. */
  lemma AtMostOneHighlighted(currentView: string, i: nat, j: nat)
    requires i < |NavIds| && j < |NavIds|
    requires Highlighted(currentView, NavIds[i]) && Highlighted(currentView, NavIds[j])
    ensures i == j
  {
    NavIdsDistinct();
  }

  /** Every item leads to a screen of its own: once signed in, the six ids route
      to six different screens and only "dashboard" routes to the dashboard. */
  lemma NavRoutes()
    ensures forall i, j :: 0 <= i < j < |NavIds| ==>
      DappApp.RenderCurrentView(true, NavIds[i]) != DappApp.RenderCurrentView(true, NavIds[j])
    ensures forall i :: 0 < i < |NavIds| ==> DappApp.RenderCurrentView(true, NavIds[i]) != Dashboard
  {
  }

  /** `principal?.slice(0, 8)...principal?.slice(-8)`: a null principal renders
      both halves as nothing. */
  function PrincipalLabel(principal: Option<string>): string
  {
    match principal
    case Some(p) => Abbreviate(p, 8, 8)
    case None => "..."
  }

  /** A principal of at least 16 characters shows as its first 8 and last 8
      characters around "...", 19 characters in all. */
  lemma PrincipalLabelShape(p: string)
    requires |p| >= 16
    ensures var r := PrincipalLabel(Some(p));
      |r| == 19 && r[..8] == p[..8] && r[8..11] == "..." && r[11..] == p[|p| - 8..]
  {
    AbbreviateShape(p, 8, 8);
  }

  datatype Icon = Moon | Sun

  /** `theme === "light" ? moon : sun`. */
  function ThemeIcon(theme: string): (icon: Icon)
    ensures icon == Moon <==> theme == "light"
  {
    if theme == "light" then Moon else Sun
  }

  class Header {
    /** The session whose setters the header is handed. */
    const app: DappApp.Session
    var mobileMenuOpen: bool

    /** The menu starts closed. */
    constructor(app: DappApp.Session)
      ensures this.app == app && !mobileMenuOpen
    {
      this.app := app;
      mobileMenuOpen := false;
    }

    /** The menu button: `setMobileMenuOpen(!mobileMenuOpen)`. */
    method ToggleMobileMenu()
      modifies this`mobileMenuOpen
      ensures mobileMenuOpen == !old(mobileMenuOpen)
    {
      mobileMenuOpen := !mobileMenuOpen;
    }

    /** A desktop navigation click: the item's id becomes the current view, the
        menu is left as it was, and the signed-in screen is that item's screen. */
    method SelectItem(i: nat)
      requires i < |NavIds| && app.Valid()
      modifies app`currentView
      ensures app.Valid() && app.currentView == NavIds[i]
      ensures app.HeaderShown() ==> app.Page() == DappApp.RenderCurrentView(true, NavIds[i])
    {
      app.SetCurrentView(NavIds[i]);
    }

    /** A click in the open mobile menu: the item's id becomes the current view
        and the menu closes. */
    method SelectMobileItem(i: nat)
      requires i < |NavIds| && app.Valid() && mobileMenuOpen
      modifies this`mobileMenuOpen, app`currentView
      ensures app.Valid() && app.currentView == NavIds[i] && !mobileMenuOpen
    {
      app.SetCurrentView(NavIds[i]);
      mobileMenuOpen := false;
    }
  }
}
