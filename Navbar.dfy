/** The site header (src/components/Navbar.tsx): six navigation links,
    shown inline on wide screens and in a collapsible menu on narrow ones. */
module Navbar {
  import opened Types
  import opened Routes

  datatype NavItem = NavItem(name: string, path: string)

  /** navItems, in display order. */
  const NavItems: seq<NavItem> := [
    NavItem("Home", "/"),
    NavItem("About", "/about"),
    NavItem("Events", "/events"),
    NavItem("Projects", "/projects"),
    NavItem("Join Us", "/join"),
    NavItem("Contact", "/contact")
  ]

  /** The path of the link labelled `name`, if there is one. */
  function PathFor(name: string, items: seq<NavItem>): (r: Option<string>)
    ensures r.None? <==> forall i :: 0 <= i < |items| ==> items[i].name != name
    ensures r.Some? ==> exists i :: 0 <= i < |items| && items[i] == NavItem(name, r.value)
  {
    if items == [] then None
    else if items[0].name == name then Some(items[0].path)
    else
      var r := PathFor(name, items[1..]);
      assert r.Some? ==> exists i :: 0 <= i < |items| && items[i] == NavItem(name, r.value) by {
        if r.Some? {
          var k :| 0 <= k < |items[1..]| && items[1..][k] == NavItem(name, r.value);
          assert items[k + 1] == NavItem(name, r.value);
        }
      }
      r
  }

  /** Looking up the label of an entry finds that entry's path when no
      earlier entry has the same label. */
  lemma {:induction false} PathForEntry(items: seq<NavItem>, i: nat)
    requires i < |items|
    requires forall j :: 0 <= j < i ==> items[j].name != items[i].name
    ensures PathFor(items[i].name, items) == Some(items[i].path)
  {
    if i > 0 {
      PathForEntry(items[1..], i - 1);
    }
  }

  /** The link table: six entries with distinct labels, each leading to a
      route the router declares, and "Join Us" leading to "/join". */
  lemma NavItemsWellFormed()
    ensures |NavItems| == 6
    ensures forall i, j :: 0 <= i < j < |NavItems| ==> NavItems[i].name != NavItems[j].name
    ensures forall i :: 0 <= i < |NavItems| ==> |NavItems[i].path| > 0 && NavItems[i].path[0] == '/'
    ensures forall i :: 0 <= i < |NavItems| ==> IsRoute(NavItems[i].path)
    ensures PathFor("Join Us", NavItems) == Some("/join")
  {
  }

  /** The header's one piece of state: whether the mobile menu is open. */
  class Header {
    var isOpen: bool

    /** `useState(false)`: the menu starts closed. */
    constructor ()
      ensures !isOpen
    {
      isOpen := false;
    }

    /** toggleMenu, behind the menu button. */
    method ToggleMenu()
      modifies this
      ensures isOpen == !old(isOpen)
    {
      isOpen := !isOpen;
    }

    /** closeMenu: closed afterwards, whatever it was before. */
    method CloseMenu()
      modifies this
      ensures !isOpen
    {
      isOpen := false;
    }

    /** The logo links home and closes the menu. */
    method ClickLogo() returns (path: string)
      modifies this
      ensures !isOpen && path == "/"
    {
      CloseMenu();
      path := "/";
    }

    /** A link in the mobile menu navigates and closes the menu. */
    method ClickMobileLink(i: nat) returns (path: string)
      requires i < |NavItems|
      modifies this
      ensures !isOpen && path == NavItems[i].path && IsRoute(path)
    {
      NavItemsWellFormed();
      CloseMenu();
      path := NavItems[i].path;
    }

    /** A link in the inline menu navigates without touching `isOpen`. */
    method ClickDesktopLink(i: nat) returns (path: string)
      requires i < |NavItems|
      ensures path == NavItems[i].path && IsRoute(path)
    {
      NavItemsWellFormed();
      path := NavItems[i].path;
    }
  }

  /** Toggling twice puts the menu back as it was. */
  method ToggleTwiceRestores(h: Header)
    modifies h
    ensures h.isOpen == old(h.isOpen)
  {
    h.ToggleMenu();
    h.ToggleMenu();
  }

  /** Closing twice leaves the menu closed, as closing once does. */
  method CloseMenuIdempotent(h: Header)
    modifies h
    ensures !h.isOpen
  {
    h.CloseMenu();
    h.CloseMenu();
  }
}
