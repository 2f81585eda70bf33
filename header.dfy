/** The site header: which navigation item is highlighted for a pathname,
    the search dialog's open flag that the shortcut and the search button
    raise, and the mobile menu flag. */
module Header {
  import opened Strings

  datatype NavItem = NavItem(href: string, caption: string, active: bool)

  const DocsHref := "/docs/getting-started/introduction"
  const CreateHref := "/create"
  const LibraryHref := "/library"

  predicate IsDocsPage(pathname: string) {
    StartsWith(pathname, "/docs")
  }

  predicate IsCreatePage(pathname: string) {
    pathname == "/create"
  }

  /** The library item also covers the pages of generated documents. */
  predicate IsLibraryPage(pathname: string) {
    pathname == "/library" || StartsWith(pathname, "/generated")
  }

  /** `navItems`, in display order. */
  function NavItems(pathname: string): (r: seq<NavItem>)
    ensures |r| == 3
    ensures r[0].active <==> IsDocsPage(pathname)
    ensures r[1].active <==> IsCreatePage(pathname)
    ensures r[2].active <==> IsLibraryPage(pathname)
  {
    [NavItem(DocsHref, "Docs", IsDocsPage(pathname)),
     NavItem(CreateHref, "Create", IsCreatePage(pathname)),
     NavItem(LibraryHref, "Library", IsLibraryPage(pathname))]
  }

  /** No pathname highlights two items. */
  lemma AtMostOneActive(pathname: string, i: nat, j: nat)
    requires i < j < 3
    ensures !(NavItems(pathname)[i].active && NavItems(pathname)[j].active)
  {
    var items := NavItems(pathname);
    if items[0].active {
      assert pathname[1] == 'd';
      assert pathname != "/create" && pathname != "/library";
      assert !StartsWith(pathname, "/generated");
    }
  }

  /** Each item is highlighted on its own link's target. */
  lemma ItemActiveOnItsHref(i: nat)
    requires i < 3
    ensures NavItems(NavItems("")[i].href)[i].active
  {
    if i == 0 {
      assert DocsHref[..4 + 1] == "/docs";
    }
  }

  class Header {
    var mobileMenuOpen: bool
    var searchOpen: bool
    var pathname: string

    constructor(pathname: string)
      ensures !mobileMenuOpen && !searchOpen && this.pathname == pathname
    {
      mobileMenuOpen := false;
      searchOpen := false;
      this.pathname := pathname;
    }

    /** The header's own `keydown` listener: Ctrl/Cmd+K opens the search,
        and never closes it. */
    method KeyDown(key: string, meta: bool, ctrl: bool)
      modifies this
      ensures (meta || ctrl) && key == "k" ==> searchOpen
      ensures !((meta || ctrl) && key == "k") ==> searchOpen == old(searchOpen)
      ensures old(searchOpen) ==> searchOpen
      ensures mobileMenuOpen == old(mobileMenuOpen) && pathname == old(pathname)
    {
      if (meta || ctrl) && key == "k" {
        searchOpen := true;
      }
    }

    /** The search button. */
    method OpenSearch()
      modifies this
      ensures searchOpen && mobileMenuOpen == old(mobileMenuOpen) && pathname == old(pathname)
    {
      searchOpen := true;
    }

    /** The dialog's `onOpenChange`. */
    method SetSearchOpen(open: bool)
      modifies this
      ensures searchOpen == open && mobileMenuOpen == old(mobileMenuOpen) && pathname == old(pathname)
    {
      searchOpen := open;
    }

    /** The menu button. */
    method ToggleMenu()
      modifies this
      ensures mobileMenuOpen == !old(mobileMenuOpen) && searchOpen == old(searchOpen) && pathname == old(pathname)
    {
      mobileMenuOpen := !mobileMenuOpen;
    }

    /** A link of the mobile menu: the route changes and the menu closes. */
    method FollowMobileLink(href: string)
      modifies this
      ensures !mobileMenuOpen && pathname == href && searchOpen == old(searchOpen)
    {
      pathname := href;
      mobileMenuOpen := false;
    }
  }

  /** Following the i-th mobile link closes the menu and highlights that
      item and no other. */
  method FollowItem(h: Header, i: nat)
    requires i < 3
    modifies h
    ensures !h.mobileMenuOpen
    ensures forall j :: 0 <= j < 3 ==> (NavItems(h.pathname)[j].active <==> j == i)
  {
    h.FollowMobileLink(NavItems(h.pathname)[i].href);
    ItemActiveOnItsHref(i);
    forall j | 0 <= j < 3 && j != i
      ensures !NavItems(h.pathname)[j].active
    {
      if i < j { AtMostOneActive(h.pathname, i, j); } else { AtMostOneActive(h.pathname, j, i); }
    }
  }
}
