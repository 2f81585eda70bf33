/** The desktop sidebar: its own navigation table of titled entries with
    anchor links, the expanded titles, and which entries show their links. */
module DocsSidebar {
  import opened Options
  import opened Expansion

  datatype SubItem = SubItem(title: string, href: string)

  /** A navigation entry; an entry may come without an `items` list. */
  datatype NavItem = NavItem(title: string, items: Option<seq<SubItem>>)

  function Entry(title: string, items: seq<SubItem>): NavItem {
    NavItem(title, Some(items))
  }

  /** `navigation` */
  const Navigation: seq<NavItem> := [
    Entry("Getting Started", [SubItem("Introduction", "#introduction"), SubItem("Quick Start", "#quickstart"), SubItem("Installation", "#installation")]),
    Entry("Core Concepts", [SubItem("Architecture", "#architecture"), SubItem("AI Models", "#models"), SubItem("Inference", "#inference")]),
    Entry("API Reference", [SubItem("Authentication", "#auth"), SubItem("Completions", "#completions"), SubItem("Embeddings", "#embeddings"), SubItem("Fine-tuning", "#finetuning")]),
    Entry("Data & Storage", [SubItem("Datasets", "#datasets"), SubItem("Vector Store", "#vectors"), SubItem("File Management", "#files")]),
    Entry("Compute", [SubItem("GPU Instances", "#gpu"), SubItem("Scaling", "#scaling"), SubItem("Batch Processing", "#batch")]),
    Entry("Integrations", [SubItem("SDKs", "#sdks"), SubItem("Webhooks", "#webhooks"), SubItem("Third-party", "#thirdparty")]),
    Entry("Security", [SubItem("API Keys", "#apikeys"), SubItem("Permissions", "#permissions"), SubItem("Compliance", "#compliance")]),
    Entry("Configuration", [SubItem("Environment", "#environment"), SubItem("Rate Limits", "#ratelimits"), SubItem("Billing", "#billing")])
  ]

  const InitiallyExpanded: seq<string> := ["Getting Started", "API Reference"]

  class Sidebar {
    var expanded: seq<string>

    constructor()
      ensures expanded == InitiallyExpanded
    {
      expanded := InitiallyExpanded;
    }

    /** `toggleExpand` on an entry title. */
    method Toggle(title: string)
      modifies this
      ensures expanded == ToggleExpand(old(expanded), title)
    {
      expanded := ToggleExpand(expanded, title);
    }

    /** The links of `item` are shown when its title is expanded and it has
        an `items` list; an empty list still counts as one. */
    predicate ShowsItems(item: NavItem)
      reads this
    {
      item.title in expanded && item.items.Some?
    }
  }

  /** Every title of the table is distinct, so expanding by title expands
      one entry; and every entry has links. */
  lemma NavigationTitles()
    ensures forall i, j :: 0 <= i < j < |Navigation| ==> Navigation[i].title != Navigation[j].title
    ensures forall i :: 0 <= i < |Navigation| ==> Navigation[i].items.Some? && Navigation[i].items.value != []
  {
  }

  /** On a fresh sidebar exactly the first and third entries show their
      links. */
  method InitialLinks() returns (s: Sidebar)
    ensures forall i :: 0 <= i < |Navigation| ==> (s.ShowsItems(Navigation[i]) <==> i == 0 || i == 2)
  {
    s := new Sidebar();
  }
}
