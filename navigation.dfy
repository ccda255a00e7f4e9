/**
 * The site's navigation bar (client/src/components/layout/navigation.tsx):
 * the five links, the rule that decides which link is highlighted for the
 * current location, and the mobile menu's open/closed state.
 */
module Navigation {
  import opened JsText

  datatype NavItem = NavItem(path: string, caption: string)

  const NavItems: seq<NavItem> := [
    NavItem("/", "Home"),
    NavItem("/product", "Product"),
    NavItem("/services", "Services"),
    NavItem("/team", "Team"),
    NavItem("/contact", "Contact")
  ]

  /** The list holds five distinct paths, captioned Home, Product, Services, Team, Contact. */
  lemma NavItemsShape()
    ensures |NavItems| == 5
    ensures forall i, j :: 0 <= i < j < |NavItems| ==> NavItems[i].path != NavItems[j].path
    ensures forall i :: 0 <= i < |NavItems| ==> |NavItems[i].path| >= 1 && NavItems[i].path[0] == '/'
    ensures [NavItems[0].caption, NavItems[1].caption, NavItems[2].caption, NavItems[3].caption, NavItems[4].caption]
         == ["Home", "Product", "Services", "Team", "Contact"]
  {
  }

  /** Whether the link to `path` is highlighted at `location`: exact for "/", by prefix otherwise. */
  function IsActive(location: string, path: string): (active: bool)
    ensures path == "/" ==> (active <==> location == "/")
    ensures path != "/" ==> (active <==> StartsWith(location, path))
  {
    if path == "/" && location == "/" then true
    else if path != "/" && StartsWith(location, path) then true
    else false
  }

  /** The indices of the highlighted links at `location`. */
  function ActiveItems(location: string): (active: set<nat>)
    ensures forall i: nat :: i in active <==> i < |NavItems| && IsActive(location, NavItems[i].path)
  {
    set i: nat | i < |NavItems| && IsActive(location, NavItems[i].path)
  }

  /** No two links are highlighted at once. */
  lemma {:induction false} ActiveIsUnique(location: string, i: nat, j: nat)
    requires i < |NavItems| && j < |NavItems|
    requires IsActive(location, NavItems[i].path) && IsActive(location, NavItems[j].path)
    ensures i == j
  {
    NavItemsShape();
    if i != 0 && j != 0 {
      assert location[1] == NavItems[i].path[1] by { assert location[..|NavItems[i].path|] == NavItems[i].path; }
      assert location[1] == NavItems[j].path[1] by { assert location[..|NavItems[j].path|] == NavItems[j].path; }
    }
  }

  /** At most one of the five links is highlighted, for any location. */
  lemma AtMostOneActive(location: string)
    ensures |ActiveItems(location)| <= 1
  {
    var active := ActiveItems(location);
    if active != {} {
      var i :| i in active;
      forall j | j in active
        ensures j == i
      {
        ActiveIsUnique(location, i, j);
      }
      assert active == {i};
    }
  }

  /** At a link's own path, or below a non-root one, exactly that link is highlighted. */
  lemma ExactlyTheVisitedItemIsActive(i: nat, rest: string)
    requires i < |NavItems|
    requires i == 0 ==> rest == ""
    ensures ActiveItems(NavItems[i].path + rest) == {i}
  {
    var location := NavItems[i].path + rest;
    assert location[..|NavItems[i].path|] == NavItems[i].path;
    assert IsActive(location, NavItems[i].path);
    forall j | j in ActiveItems(location)
      ensures j == i
    {
      ActiveIsUnique(location, i, j);
    }
  }

  /** The prefix rule also highlights a link for any route that merely begins with its path. */
  lemma PrefixRuleMatchesLongerRoutes()
    ensures IsActive("/productivity", "/product")
    ensures IsActive("/teamwork", "/team")
  {
  }

  /**
   * The bar's state: the router's current location and whether the mobile
   * menu is open. Link clicks change the location; the highlighted links are
   * a function of the location alone.
   */
  class NavigationBar {
    var location: string
    var isMobileMenuOpen: bool

    /** The bar mounts with the menu closed. */
    constructor (location: string)
      ensures this.location == location && !isMobileMenuOpen
    {
      this.location := location;
      isMobileMenuOpen := false;
    }

    /** The highlighted links right now. */
    function Highlighted(): (active: set<nat>)
      reads this`location
      ensures |active| <= 1
    {
      AtMostOneActive(location);
      ActiveItems(location)
    }

    /** The menu button flips the menu. */
    method ToggleMobileMenu()
      modifies this`isMobileMenuOpen
      ensures isMobileMenuOpen == !old(isMobileMenuOpen)
    {
      isMobileMenuOpen := !isMobileMenuOpen;
    }

    /** A link in the open mobile menu closes the menu and goes to its path. */
    method ClickMobileLink(i: nat)
      requires isMobileMenuOpen && i < |NavItems|
      modifies this
      ensures !isMobileMenuOpen && location == NavItems[i].path
      ensures Highlighted() == {i}
    {
      isMobileMenuOpen := false;
      location := NavItems[i].path;
      ExactlyTheVisitedItemIsActive(i, "");
      assert NavItems[i].path + "" == NavItems[i].path;
    }

    /** A desktop link goes to its path and leaves the menu as it was. */
    method ClickDesktopLink(i: nat)
      requires i < |NavItems|
      modifies this`location
      ensures location == NavItems[i].path
      ensures Highlighted() == {i}
    {
      location := NavItems[i].path;
      ExactlyTheVisitedItemIsActive(i, "");
      assert NavItems[i].path + "" == NavItems[i].path;
    }

    /** The logo links home and leaves the menu as it was. */
    method ClickLogo()
      modifies this`location
      ensures location == "/"
      ensures Highlighted() == {0}
    {
      location := "/";
      ExactlyTheVisitedItemIsActive(0, "");
      assert NavItems[0].path + "" == "/";
    }
  }
}
