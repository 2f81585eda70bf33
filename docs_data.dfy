/** The static documentation: the navigation table of sections and pages,
    and the two-level content lookup that never fails, falling back to a
    "coming soon" placeholder named after the navigation entry. */
module DocsData {
  import opened Options
  import opened Seqs

  datatype DocPage = DocPage(title: string, slug: string, description: Option<string>)

  /** A navigation section; `icon` is the name of its icon component. */
  datatype DocSection = DocSection(title: string, slug: string, icon: string, pages: seq<DocPage>)

  datatype CodeSample = CodeSample(language: string, title: string, content: string)

  datatype ContentSection = ContentSection(id: string, title: string, content: string, code: Option<CodeSample>)

  datatype DocPageContent = DocPageContent(title: string, description: string, sections: seq<ContentSection>)

  /** The content table: section slug, then page slug, to a page. */
  type ContentTable = map<string, map<string, DocPageContent>>

  function Page(title: string, slug: string, description: string): DocPage {
    DocPage(title, slug, Some(description))
  }

  /** `docsNavigation` */
  const Navigation: seq<DocSection> := [
    DocSection("Getting Started", "getting-started", "Rocket", [
      Page("Introduction", "introduction", "Welcome to AI Cloud"),
      Page("Quick Start", "quickstart", "Get started in 5 minutes"),
      Page("Installation", "installation", "Install the SDK"),
      Page("Concepts", "concepts", "Core concepts and terminology")]),
    DocSection("Core Concepts", "core-concepts", "Book", [
      Page("Architecture", "architecture", "System architecture overview"),
      Page("AI Models", "models", "Available AI models"),
      Page("Inference", "inference", "Running inference"),
      Page("Tokens & Pricing", "tokens", "Understanding tokens")]),
    DocSection("API Reference", "api-reference", "Code2", [
      Page("Authentication", "authentication", "API authentication"),
      Page("Chat Completions", "completions", "Generate text responses"),
      Page("Embeddings", "embeddings", "Generate embeddings"),
      Page("Fine-tuning", "finetuning", "Custom model training"),
      Page("Assistants", "assistants", "AI assistants API")]),
    DocSection("Data & Storage", "data-storage", "Database", [
      Page("Datasets", "datasets", "Manage training data"),
      Page("Vector Store", "vectors", "Vector database"),
      Page("File Management", "files", "Upload and manage files")]),
    DocSection("Compute", "compute", "Cpu", [
      Page("GPU Instances", "gpu", "GPU compute resources"),
      Page("Scaling", "scaling", "Auto-scaling configuration"),
      Page("Batch Processing", "batch", "Batch inference jobs")]),
    DocSection("Integrations", "integrations", "Blocks", [
      Page("SDKs", "sdks", "Official SDKs"),
      Page("Webhooks", "webhooks", "Event webhooks"),
      Page("Third-party", "thirdparty", "Third-party integrations")]),
    DocSection("Security", "security", "Shield", [
      Page("API Keys", "apikeys", "Manage API keys"),
      Page("Permissions", "permissions", "Access control"),
      Page("Compliance", "compliance", "Security compliance")]),
    DocSection("Configuration", "configuration", "Settings", [
      Page("Environment", "environment", "Environment variables"),
      Page("Rate Limits", "ratelimits", "API rate limits"),
      Page("Billing", "billing", "Billing and usage")])
  ]

  /** The keys of the content table: which pages have written content. */
  const ContentIndex: map<string, seq<string>> := map[
    "getting-started" := ["introduction", "quickstart", "installation", "concepts"],
    "api-reference" := ["authentication", "completions", "embeddings", "finetuning", "assistants"]
  ]

  /** A content table with exactly the keys of `ContentIndex`. */
  predicate Indexed(contents: ContentTable) {
    && contents.Keys == ContentIndex.Keys
    && forall s :: s in contents ==> contents[s].Keys == set p | p in ContentIndex[s]
  }

  /** No two entries of `ss` share a slug. */
  predicate UniqueSectionSlugs(ss: seq<DocSection>) {
    forall i, j :: 0 <= i < j < |ss| ==> ss[i].slug != ss[j].slug
  }

  predicate UniquePageSlugs(ps: seq<DocPage>) {
    forall i, j :: 0 <= i < j < |ps| ==> ps[i].slug != ps[j].slug
  }

  /** The page slug `page` is listed under the section slug `section`. */
  predicate InNavigation(section: string, page: string) {
    exists i, j :: 0 <= i < |Navigation| && 0 <= j < |Navigation[i].pages|
      && Navigation[i].slug == section && Navigation[i].pages[j].slug == page
  }

  /** `docsNavigation.find(s => s.slug === section)?.pages.find(p => p.slug === page)` */
  function NavPage(section: string, page: string): (r: Option<DocPage>)
    ensures r.Some? ==> r.value.slug == page
  {
    match Find(Navigation, (s: DocSection) => s.slug == section)
    case None => None
    case Some(sec) => Find(sec.pages, (p: DocPage) => p.slug == page)
  }

  const FallbackTitle := "Documentation"
  const FallbackDescription := "Documentation content coming soon."
  const ComingSoonId := "coming-soon"
  const ComingSoonTitle := "Coming Soon"
  const ComingSoonLead := "This documentation page is currently being written. Check back soon for comprehensive content on "
  const ComingSoonTail := ".\n\nIn the meantime, feel free to:\n- Explore other sections of the documentation\n- Ask our AI assistant for help\n- Join our Discord community for support"

  /** `getDefaultContent`: the placeholder page, titled after the navigation
      entry when there is one. */
  function GetDefaultContent(section: string, page: string): (r: DocPageContent)
    ensures |r.sections| == 1
    ensures r.sections[0].id == ComingSoonId && r.sections[0].title == ComingSoonTitle && r.sections[0].code.None?
    ensures r.title != ""
    ensures NavPage(section, page).None? ==>
      && r.title == FallbackTitle && r.description == FallbackDescription
      && r.sections[0].content == ComingSoonLead + "this topic" + ComingSoonTail
  {
    var pageData := NavPage(section, page);
    var title := if pageData.Some? && pageData.value.title != "" then pageData.value.title else FallbackTitle;
    var description :=
      if pageData.Some? && pageData.value.description.Some? && pageData.value.description.value != ""
      then pageData.value.description.value else FallbackDescription;
    var named := if pageData.Some? && pageData.value.title != "" then pageData.value.title else "this topic";
    DocPageContent(title, description, [ContentSection(ComingSoonId, ComingSoonTitle, ComingSoonLead + named + ComingSoonTail, None)])
  }

  /** `getDocContent`: the stored page for a known key, the placeholder for
      anything else. */
  function GetDocContent(contents: ContentTable, section: string, page: string): (r: DocPageContent)
    ensures section in contents && page in contents[section] ==> r == contents[section][page]
    ensures section !in contents || page !in contents[section] ==> r == GetDefaultContent(section, page)
  {
    if section !in contents then GetDefaultContent(section, page)
    else if page !in contents[section] then GetDefaultContent(section, page)
    else contents[section][page]
  }

  /** Section slugs are unique, and page slugs are unique within each
      section. */
  lemma NavigationSlugsUnique()
    ensures UniqueSectionSlugs(Navigation)
    ensures forall i :: 0 <= i < |Navigation| ==> UniquePageSlugs(Navigation[i].pages)
  {
    assert UniqueSectionSlugs(Navigation);
    forall i | 0 <= i < |Navigation|
      ensures UniquePageSlugs(Navigation[i].pages)
    {
      PageSlugsUnique(i);
    }
  }

  lemma PageSlugsUnique(i: nat)
    requires i < |Navigation|
    ensures UniquePageSlugs(Navigation[i].pages)
  {
    if i == 0 {
      assert UniquePageSlugs(Navigation[0].pages);
    } else if i == 1 {
      assert UniquePageSlugs(Navigation[1].pages);
    } else if i == 2 {
      assert UniquePageSlugs(Navigation[2].pages);
    } else if i == 3 {
      assert UniquePageSlugs(Navigation[3].pages);
    } else {
      assert UniquePageSlugs(Navigation[i].pages);
    }
  }

  /** A page with a title and a description. */
  predicate Described(pg: DocPage) {
    pg.title != "" && pg.description.Some? && pg.description.value != ""
  }

  /** Every navigation page has a title and a description. */
  lemma NavigationPagesDescribed()
    ensures forall i :: 0 <= i < |Navigation| ==> forall j :: 0 <= j < |Navigation[i].pages| ==> Described(Navigation[i].pages[j])
  {
  }

  /** With unique slugs, a `find` by slug lands on the entry with that slug. */
  lemma {:induction false} FindSectionBySlug(ss: seq<DocSection>, i: nat)
    requires i < |ss| && UniqueSectionSlugs(ss)
    ensures Find(ss, (s: DocSection) => s.slug == ss[i].slug) == Some(ss[i])
  {
    var p := (s: DocSection) => s.slug == ss[i].slug;
    assert p(ss[i]);
  }

  lemma {:induction false} FindPageBySlug(ps: seq<DocPage>, j: nat)
    requires j < |ps| && UniquePageSlugs(ps)
    ensures Find(ps, (p: DocPage) => p.slug == ps[j].slug) == Some(ps[j])
  {
    var p := (q: DocPage) => q.slug == ps[j].slug;
    assert p(ps[j]);
  }

  /** A key that is in the navigation finds exactly its navigation page. */
  lemma NavPageFound(i: nat, j: nat)
    requires i < |Navigation| && j < |Navigation[i].pages|
    ensures NavPage(Navigation[i].slug, Navigation[i].pages[j].slug) == Some(Navigation[i].pages[j])
  {
    NavigationSlugsUnique();
    FindSectionBySlug(Navigation, i);
    FindPageBySlug(Navigation[i].pages, j);
  }

  /** A key that is not in the navigation finds nothing. */
  lemma NavPageMissing(section: string, page: string)
    requires !InNavigation(section, page)
    ensures NavPage(section, page).None?
  {
    var f := Find(Navigation, (s: DocSection) => s.slug == section);
    if f.Some? {
      var pages := f.value.pages;
      var g := Find(pages, (p: DocPage) => p.slug == page);
      if g.Some? {
        assert false;
      }
    }
  }

  /** The placeholder of a page listed in the navigation carries that page's
      title and description, and names the page in its text. */
  lemma DefaultContentOfNavPage(i: nat, j: nat)
    requires i < |Navigation| && j < |Navigation[i].pages|
    ensures var pg := Navigation[i].pages[j];
      var r := GetDefaultContent(Navigation[i].slug, pg.slug);
      && r.title == pg.title
      && Some(r.description) == pg.description
      && r.sections[0].content == ComingSoonLead + pg.title + ComingSoonTail
  {
    NavPageFound(i, j);
    NavigationPagesDescribed();
    assert Described(Navigation[i].pages[j]);
  }

  /** The placeholder of a page the navigation does not list is the generic
      one. */
  lemma DefaultContentOfUnknownPage(section: string, page: string)
    requires !InNavigation(section, page)
    ensures GetDefaultContent(section, page) == DocPageContent(FallbackTitle, FallbackDescription,
      [ContentSection(ComingSoonId, ComingSoonTitle, ComingSoonLead + "this topic" + ComingSoonTail, None)])
  {
    NavPageMissing(section, page);
  }

  /** Every page with written content is also listed in the navigation. */
  lemma ContentKeysInNavigation()
    ensures forall s :: s in ContentIndex ==> forall k :: 0 <= k < |ContentIndex[s]| ==> InNavigation(s, ContentIndex[s][k])
  {
    assert forall k :: 0 <= k < 4 ==> Navigation[0].pages[k].slug == ContentIndex["getting-started"][k];
    assert forall k :: 0 <= k < 5 ==> Navigation[2].pages[k].slug == ContentIndex["api-reference"][k];
  }

  /** For the indexed table, a listed key gives its stored page and any
      other key the placeholder. */
  lemma IndexedLookup(contents: ContentTable, section: string, page: string)
    requires Indexed(contents)
    ensures section in ContentIndex && page in ContentIndex[section] ==>
      GetDocContent(contents, section, page) == contents[section][page]
    ensures !(section in ContentIndex && page in ContentIndex[section]) ==>
      GetDocContent(contents, section, page) == GetDefaultContent(section, page)
  {
  }
}
