/** The search dialog: popular pages for an empty query, otherwise the
    navigation pages whose title, description or section title contains the
    query, in navigation order and at most eight; the keyboard shortcut that
    toggles it and the selection that navigates and closes it. */
module SearchDialog {
  import opened Options
  import opened Strings
  import opened Seqs
  import DocsData

  /** A result: the section's title and slug with the page's own fields. */
  datatype SearchResult = SearchResult(section: string, sectionSlug: string, title: string, slug: string, description: Option<string>)

  const MaxResults := 8
  const PopularSections := 3
  const PopularPerSection := 2

  function Entry(sec: DocsData.DocSection, page: DocsData.DocPage): SearchResult {
    SearchResult(sec.title, sec.slug, page.title, page.slug, page.description)
  }

  /** The results for some pages of one section. */
  function Entries(sec: DocsData.DocSection, pages: seq<DocsData.DocPage>): (r: seq<SearchResult>)
    ensures |r| == |pages|
    ensures forall j :: 0 <= j < |pages| ==> r[j] == Entry(sec, pages[j])
  {
    seq(|pages|, j requires 0 <= j < |pages| => Entry(sec, pages[j]))
  }

  /** The results of each section of `nav` for all its pages. */
  function SectionEntries(nav: seq<DocsData.DocSection>): (r: seq<seq<SearchResult>>)
    ensures |r| == |nav|
    ensures forall i :: 0 <= i < |nav| ==> r[i] == Entries(nav[i], nav[i].pages)
  {
    seq(|nav|, i requires 0 <= i < |nav| => Entries(nav[i], nav[i].pages))
  }

  /** Every navigation page as a result, section by section. */
  function AllEntries(nav: seq<DocsData.DocSection>): seq<SearchResult> {
    Concat(SectionEntries(nav))
  }

  /** The query matches a page: in its lower-cased title, description or
      section title. A page without a description simply does not match on
      it. */
  predicate Matches(lowerQuery: string, r: SearchResult) {
    || Contains(ToLower(r.title), lowerQuery)
    || (r.description.Some? && Contains(ToLower(r.description.value), lowerQuery))
    || Contains(ToLower(r.section), lowerQuery)
  }

  /** The filter callback for a lower-cased query. */
  function Matcher(lowerQuery: string): SearchResult -> bool {
    r => Matches(lowerQuery, r)
  }

  /** The popular pages: the first two pages of each of the first three
      sections. */
  function Popular(nav: seq<DocsData.DocSection>): seq<SearchResult> {
    var secs := Take(nav, PopularSections);
    Concat(seq(|secs|, i requires 0 <= i < |secs| => Entries(secs[i], Take(secs[i].pages, PopularPerSection))))
  }

  /** `getResults`, over a navigation table. */
  function GetResults(nav: seq<DocsData.DocSection>, query: string): seq<SearchResult> {
    if IsBlank(query) then Popular(nav)
    else
      Take(Concat(FilterEach(SectionEntries(nav), Matcher(ToLower(query)))), MaxResults)
  }

  /** A blank query gives at most two pages from each of at most three
      sections, so at most six. */
  lemma {:induction false} PopularBound(nav: seq<DocsData.DocSection>)
    ensures |Popular(nav)| <= PopularSections * PopularPerSection
  {
    var secs := Take(nav, PopularSections);
    var parts := seq(|secs|, i requires 0 <= i < |secs| => Entries(secs[i], Take(secs[i].pages, PopularPerSection)));
    ConcatBound(parts, PopularPerSection);
  }

  lemma {:induction false} ConcatBound<T>(parts: seq<seq<T>>, k: nat)
    requires forall i :: 0 <= i < |parts| ==> |parts[i]| <= k
    ensures |Concat(parts)| <= |parts| * k
  {
    if parts != [] {
      ConcatBound(parts[..|parts| - 1], k);
    }
  }

  /** The popular pages of the documentation's own navigation, in order. */
  lemma PopularPages()
    ensures GetResults(DocsData.Navigation, "") == [
      Entry(DocsData.Navigation[0], DocsData.Navigation[0].pages[0]),
      Entry(DocsData.Navigation[0], DocsData.Navigation[0].pages[1]),
      Entry(DocsData.Navigation[1], DocsData.Navigation[1].pages[0]),
      Entry(DocsData.Navigation[1], DocsData.Navigation[1].pages[1]),
      Entry(DocsData.Navigation[2], DocsData.Navigation[2].pages[0]),
      Entry(DocsData.Navigation[2], DocsData.Navigation[2].pages[1])]
  {
    var nav := DocsData.Navigation;
    var secs := Take(nav, PopularSections);
    var parts := seq(|secs|, i requires 0 <= i < |secs| => Entries(secs[i], Take(secs[i].pages, PopularPerSection)));
    assert |parts| == 3;
    assert parts[..2][..1] == [parts[0]];
    assert parts[..2] == parts[..2][..1] + [parts[1]];
    assert Concat(parts[..2]) == Concat(parts[..2][..1]) + parts[1];
    assert Concat(parts) == Concat(parts[..2]) + parts[2];
  }

  /** With a query, the results are the first matches in navigation order:
      a prefix of the matching pages, at most eight, all of them when fewer
      match. */
  lemma QueryResults(nav: seq<DocsData.DocSection>, query: string)
    requires !IsBlank(query)
    ensures var matching := Filter(AllEntries(nav), Matcher(ToLower(query)));
      var res := GetResults(nav, query);
      && res == Take(matching, MaxResults)
      && |res| <= MaxResults
      && (|matching| <= MaxResults ==> res == matching)
  {
    FilterConcat(SectionEntries(nav), Matcher(ToLower(query)));
  }

  /** A page is among the filtered results only if it matches, and only in
      navigation order; when fewer than eight match, every matching page is
      there. */
  lemma QueryMembership(nav: seq<DocsData.DocSection>, query: string, x: SearchResult)
    requires !IsBlank(query)
    ensures x in GetResults(nav, query) ==> x in AllEntries(nav) && Matches(ToLower(query), x)
    ensures |Filter(AllEntries(nav), Matcher(ToLower(query)))| <= MaxResults ==>
      (x in GetResults(nav, query) <==> x in AllEntries(nav) && Matches(ToLower(query), x))
    ensures IsSubsequence(GetResults(nav, query), AllEntries(nav))
  {
    var p := Matcher(ToLower(query));
    var matching := Filter(AllEntries(nav), p);
    QueryResults(nav, query);
    FilterMembership(AllEntries(nav), p, x);
    FilterIsSubsequence(AllEntries(nav), p);
    PrefixOfSubsequence(GetResults(nav, query), matching, AllEntries(nav));
  }

  lemma {:induction false} PrefixOfSubsequence<T>(a: seq<T>, b: seq<T>, c: seq<T>)
    requires |a| <= |b| && a == b[..|a|] && IsSubsequence(b, c)
    ensures IsSubsequence(a, c)
    decreases |c|
  {
    if a != [] && c != [] {
      if b[0] == c[0] && IsSubsequence(b[1..], c[1..]) {
        assert a[1..] == b[1..][..|a| - 1];
        PrefixOfSubsequence(a[1..], b[1..], c[1..]);
      } else {
        PrefixOfSubsequence(a, b, c[1..]);
        SubsequenceOfTail(a, c);
      }
    }
  }

  /** Every entry carries the title and slug of its own section with the
      page's fields. */
  lemma EntryOfNavigation(nav: seq<DocsData.DocSection>, i: nat, j: nat)
    requires i < |nav| && j < |nav[i].pages|
    ensures Entry(nav[i], nav[i].pages[j]) in AllEntries(nav)
  {
    PartAt(SectionEntries(nav), i);
    var off := Offset(SectionEntries(nav), i);
    assert AllEntries(nav)[off + j] == SectionEntries(nav)[i][j];
  }

  /** The route of a selected result. */
  function DocPath(sectionSlug: string, pageSlug: string): string {
    "/docs/" + sectionSlug + "/" + pageSlug
  }

  /** The dialog state: `open` belongs to the parent and is changed through
      `onOpenChange`; `query` is the input; `location` is the route. */
  class Dialog {
    var open: bool
    var query: string
    var location: string

    constructor(open: bool, location: string)
      ensures this.open == open && query == "" && this.location == location
    {
      this.open := open;
      query := "";
      this.location := location;
    }

    /** The `keydown` listener: Ctrl/Cmd+K toggles, Escape closes, other
        keys do nothing. */
    method KeyDown(key: string, meta: bool, ctrl: bool)
      modifies this
      ensures (meta || ctrl) && key == "k" ==> open == !old(open)
      ensures key == "Escape" ==> !open
      ensures !((meta || ctrl) && key == "k") && key != "Escape" ==> open == old(open)
      ensures query == old(query) && location == old(location)
    {
      if (meta || ctrl) && key == "k" {
        open := !open;
      }
      if key == "Escape" {
        open := false;
      }
    }

    method Type(text: string)
      modifies this
      ensures query == text && open == old(open) && location == old(location)
    {
      query := text;
    }

    /** `handleSelect`: navigate to the page, close, clear the query. */
    method Select(sectionSlug: string, pageSlug: string)
      modifies this
      ensures location == DocPath(sectionSlug, pageSlug) && !open && query == ""
    {
      location := DocPath(sectionSlug, pageSlug);
      open := false;
      query := "";
    }
  }
}
