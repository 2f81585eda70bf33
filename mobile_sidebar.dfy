/** The mobile sidebar: the drawer's open flag, the list of expanded section
    slugs, the active-page test and the page links. */
module MobileSidebar {
  import opened Expansion
  import DocsData
  import SearchDialog

  /** The sidebar of one docs page; `activeSection` and `activePage` are its
      props. */
  class Sidebar {
    const activeSection: string
    const activePage: string
    var isOpen: bool
    var expanded: seq<string>

    /** The drawer starts closed with the active section expanded. */
    constructor(activeSection: string, activePage: string)
      ensures this.activeSection == activeSection && this.activePage == activePage
      ensures !isOpen && expanded == [activeSection]
    {
      this.activeSection := activeSection;
      this.activePage := activePage;
      isOpen := false;
      expanded := [activeSection];
    }

    predicate IsExpanded(sectionSlug: string)
      reads this
    {
      sectionSlug in expanded
    }

    /** `toggleExpand` on a section slug. */
    method Toggle(sectionSlug: string)
      modifies this
      ensures expanded == ToggleExpand(old(expanded), sectionSlug) && isOpen == old(isOpen)
      ensures IsExpanded(sectionSlug) <==> !old(IsExpanded(sectionSlug))
    {
      expanded := ToggleExpand(expanded, sectionSlug);
    }

    method Open()
      modifies this
      ensures isOpen && expanded == old(expanded)
    {
      isOpen := true;
    }

    /** The close button, the backdrop and every page link close the
        drawer. */
    method Close()
      modifies this
      ensures !isOpen && expanded == old(expanded)
    {
      isOpen := false;
    }

    /** A page is highlighted when its section is the active one and its
        slug is the active page. */
    predicate IsActivePage(sectionSlug: string, pageSlug: string)
      reads this
    {
      activeSection == sectionSlug && activePage == pageSlug
    }

    /** Following a page link: the route of the page, and the drawer
        closes. */
    method FollowLink(sectionSlug: string, pageSlug: string) returns (route: string)
      modifies this
      ensures route == SearchDialog.DocPath(sectionSlug, pageSlug)
      ensures !isOpen && expanded == old(expanded)
    {
      route := SearchDialog.DocPath(sectionSlug, pageSlug);
      Close();
    }
  }

  /** Slugs are unique in the navigation, so at most one of its pages is
      highlighted. */
  lemma OneActivePage(s: Sidebar, i: nat, j: nat, k: nat, l: nat)
    requires i < |DocsData.Navigation| && j < |DocsData.Navigation[i].pages|
    requires k < |DocsData.Navigation| && l < |DocsData.Navigation[k].pages|
    requires s.IsActivePage(DocsData.Navigation[i].slug, DocsData.Navigation[i].pages[j].slug)
    requires s.IsActivePage(DocsData.Navigation[k].slug, DocsData.Navigation[k].pages[l].slug)
    ensures i == k && j == l
  {
    DocsData.NavigationSlugsUnique();
    assert DocsData.UniquePageSlugs(DocsData.Navigation[i].pages);
  }
}
