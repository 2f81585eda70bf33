/** The viewer of a generated document: which section is shown, its
    neighbours in the ordered list (no wrap-around), the fetch that fills the
    page state and redirects to the first section, how fenced code is
    rendered, the icon of a section, and the guards of the two exports. */
module GeneratedDocsPage {
  import opened Options
  import opened Seqs
  import opened Strings
  import ExportUtils

  /** A row of `doc_sections` as fetched, ordered by `order_index`. */
  datatype StoredSection = StoredSection(id: string, slug: string, title: string, content: string, icon: string, orderIndex: nat)

  /** A row of `generated_docs`. */
  datatype GeneratedDoc = GeneratedDoc(id: string, topic: string, description: string, createdAt: string)

  /** `sections.find((s) => s.slug === sectionSlug) || sections[0]` */
  function CurrentSection(sections: seq<StoredSection>, sectionSlug: Option<string>): (r: Option<StoredSection>)
    ensures r.None? <==> sections == []
    ensures r.Some? ==> r.value in sections
  {
    match Find(sections, (s: StoredSection) => Some(s.slug) == sectionSlug)
    case Some(s) => Some(s)
    case None => if sections == [] then None else Some(sections[0])
  }

  /** `sections.findIndex((s) => s.slug === currentSection?.slug)` */
  function CurrentIndex(sections: seq<StoredSection>, sectionSlug: Option<string>): (r: int)
    ensures -1 <= r < |sections|
  {
    var cur := CurrentSection(sections, sectionSlug);
    FindIndex(sections, (s: StoredSection) => cur.Some? && s.slug == cur.value.slug)
  }

  /** `currentIndex > 0 ? sections[currentIndex - 1] : null` */
  function PrevSection(sections: seq<StoredSection>, sectionSlug: Option<string>): Option<StoredSection> {
    var i := CurrentIndex(sections, sectionSlug);
    if i > 0 then Some(sections[i - 1]) else None
  }

  /** `currentIndex < sections.length - 1 ? sections[currentIndex + 1] : null` */
  function NextSection(sections: seq<StoredSection>, sectionSlug: Option<string>): Option<StoredSection> {
    var i := CurrentIndex(sections, sectionSlug);
    if i < |sections| - 1 then Some(sections[i + 1]) else None
  }

  /** The section shown is the first whose slug is the one in the URL, and
      the first section when no slug matches (or none is given). */
  lemma CurrentSectionChoice(sections: seq<StoredSection>, sectionSlug: Option<string>)
    ensures forall i :: 0 <= i < |sections| ==>
      (Some(sections[i].slug) == sectionSlug && (forall j :: 0 <= j < i ==> Some(sections[j].slug) != sectionSlug)
       ==> CurrentSection(sections, sectionSlug) == Some(sections[i]))
    ensures sections != [] && (forall i :: 0 <= i < |sections| ==> Some(sections[i].slug) != sectionSlug)
      ==> CurrentSection(sections, sectionSlug) == Some(sections[0])
  {
    var p := (s: StoredSection) => Some(s.slug) == sectionSlug;
    var k := FindIndex(sections, p);
    forall i | 0 <= i < |sections| && Some(sections[i].slug) == sectionSlug
        && (forall j :: 0 <= j < i ==> Some(sections[j].slug) != sectionSlug)
      ensures CurrentSection(sections, sectionSlug) == Some(sections[i])
    {
      assert p(sections[i]);
    }
  }

  /** The index is -1 exactly for the empty list, and otherwise it is the
      position of the section shown. */
  lemma CurrentIndexOfCurrent(sections: seq<StoredSection>, sectionSlug: Option<string>)
    ensures CurrentIndex(sections, sectionSlug) == -1 <==> sections == []
    ensures sections != [] ==> Some(sections[CurrentIndex(sections, sectionSlug)]) == CurrentSection(sections, sectionSlug)
  {
    var cur := CurrentSection(sections, sectionSlug);
    var q := (s: StoredSection) => cur.Some? && s.slug == cur.value.slug;
    if sections != [] {
      var p := (s: StoredSection) => Some(s.slug) == sectionSlug;
      var k := FindIndex(sections, p);
      var i := FindIndex(sections, q);
      if k >= 0 {
        assert q(sections[k]);
      } else {
        assert q(sections[0]);
      }
    }
  }

  /** A previous section exists exactly when the section shown is not the
      first, and a next one exactly when it is not the last; they are its
      neighbours. */
  lemma PrevNext(sections: seq<StoredSection>, sectionSlug: Option<string>)
    ensures var i := CurrentIndex(sections, sectionSlug);
      && (PrevSection(sections, sectionSlug).Some? <==> i > 0)
      && (NextSection(sections, sectionSlug).Some? <==> 0 <= i < |sections| - 1)
      && (i > 0 ==> PrevSection(sections, sectionSlug) == Some(sections[i - 1]))
      && (0 <= i < |sections| - 1 ==> NextSection(sections, sectionSlug) == Some(sections[i + 1]))
  {
    CurrentIndexOfCurrent(sections, sectionSlug);
  }

  /** No wrap-around: the first section has no previous one, the last no
      next one, and a list of at most one section has neither. */
  lemma NoWrapAround(sections: seq<StoredSection>, sectionSlug: Option<string>)
    ensures CurrentIndex(sections, sectionSlug) == 0 ==> PrevSection(sections, sectionSlug).None?
    ensures CurrentIndex(sections, sectionSlug) == |sections| - 1 ==> NextSection(sections, sectionSlug).None?
    ensures |sections| <= 1 ==> PrevSection(sections, sectionSlug).None? && NextSection(sections, sectionSlug).None?
  {
    CurrentIndexOfCurrent(sections, sectionSlug);
  }

  predicate UniqueSlugs(sections: seq<StoredSection>) {
    forall i, j :: 0 <= i < j < |sections| ==> sections[i].slug != sections[j].slug
  }

  /** With unique slugs, opening a section by its slug shows that section at
      its own position. */
  lemma OpenBySlug(sections: seq<StoredSection>, i: nat)
    requires i < |sections| && UniqueSlugs(sections)
    ensures CurrentSection(sections, Some(sections[i].slug)) == Some(sections[i])
    ensures CurrentIndex(sections, Some(sections[i].slug)) == i
  {
    var slug := Some(sections[i].slug);
    CurrentSectionChoice(sections, slug);
    assert forall j :: 0 <= j < i ==> Some(sections[j].slug) != slug;
    CurrentIndexOfCurrent(sections, slug);
    var k := CurrentIndex(sections, slug);
    assert sections[k] == sections[i];
  }

  /** Following the previous link and then the next link comes back to the
      section shown, when slugs are unique. */
  lemma PrevThenNext(sections: seq<StoredSection>, sectionSlug: Option<string>)
    requires UniqueSlugs(sections)
    requires PrevSection(sections, sectionSlug).Some?
    ensures NextSection(sections, Some(PrevSection(sections, sectionSlug).value.slug)) == CurrentSection(sections, sectionSlug)
  {
    var i := CurrentIndex(sections, sectionSlug);
    PrevNext(sections, sectionSlug);
    CurrentIndexOfCurrent(sections, sectionSlug);
    OpenBySlug(sections, i - 1);
  }

  /** Following the next link and then the previous link comes back too. */
  lemma NextThenPrev(sections: seq<StoredSection>, sectionSlug: Option<string>)
    requires UniqueSlugs(sections)
    requires NextSection(sections, sectionSlug).Some?
    ensures PrevSection(sections, Some(NextSection(sections, sectionSlug).value.slug)) == CurrentSection(sections, sectionSlug)
  {
    var i := CurrentIndex(sections, sectionSlug);
    PrevNext(sections, sectionSlug);
    CurrentIndexOfCurrent(sections, sectionSlug);
    OpenBySlug(sections, i + 1);
  }

  /** The route of a section of a generated document. */
  function SectionPath(docId: string, slug: string): string {
    "/generated/" + docId + "/" + slug
  }

  /** `\w`: letters, digits and the underscore. */
  predicate IsWordChar(c: char) {
    ('a' <= c <= 'z') || ('A' <= c <= 'Z') || ('0' <= c <= '9') || c == '_'
  }

  /** The longest prefix of word characters. */
  function WordRun(s: string): (r: string)
    ensures |r| <= |s| && r == s[..|r|]
    ensures forall i :: 0 <= i < |r| ==> IsWordChar(r[i])
    ensures |r| < |s| ==> !IsWordChar(s[|r|])
  {
    if s != [] && IsWordChar(s[0]) then [s[0]] + WordRun(s[1..]) else []
  }

  const LanguagePrefix := "language-"

  /** `language-` at `i`, followed by a word character. */
  predicate LanguageAt(cls: string, i: int) {
    0 <= i && i + |LanguagePrefix| < |cls| && cls[i..i + |LanguagePrefix|] == LanguagePrefix
      && IsWordChar(cls[i + |LanguagePrefix|])
  }

  /** `i` is the first match at or after `from`. */
  predicate FirstLanguageAt(cls: string, from: nat, i: int) {
    from <= i < |cls| && LanguageAt(cls, i) && forall j :: from <= j < i ==> !LanguageAt(cls, j)
  }

  /** The first match of `/language-(\w+)/` at or after `from`, as the
      captured word. */
  function LanguageFrom(cls: string, from: nat): (r: Option<string>)
    requires from <= |cls|
    ensures r.None? <==> forall i :: from <= i < |cls| ==> !LanguageAt(cls, i)
    ensures r.Some? ==>
      exists i :: FirstLanguageAt(cls, from, i) && r.value == WordRun(cls[i + |LanguagePrefix|..])
    decreases |cls| - from
  {
    if from == |cls| then None
    else if LanguageAt(cls, from) then
      assert FirstLanguageAt(cls, from, from);
      Some(WordRun(cls[from + |LanguagePrefix|..]))
    else
      var r := LanguageFrom(cls, from + 1);
      if r.Some? then ShiftFirstLanguage(cls, from, from + 1, r.value); r else r
  }

  /** A first match after a position that is not a match is the first match
      from that position. */
  lemma ShiftFirstLanguage(cls: string, from: nat, next: nat, w: string)
    requires from < |cls| && next == from + 1 && !LanguageAt(cls, from)
    requires exists i :: FirstLanguageAt(cls, next, i) && w == WordRun(cls[i + |LanguagePrefix|..])
    ensures exists i :: FirstLanguageAt(cls, from, i) && w == WordRun(cls[i + |LanguagePrefix|..])
  {
    var i :| FirstLanguageAt(cls, next, i) && w == WordRun(cls[i + |LanguagePrefix|..]);
    assert FirstLanguageAt(cls, from, i);
  }

  /** The language passed to the code block: the captured word, or `text`. */
  function CodeLanguage(className: Option<string>): (r: string)
    ensures r != []
    ensures r == LanguageFrom(className.GetOr([]), 0).GetOr("text")
    ensures (forall i :: 0 <= i < |className.GetOr([])| ==> !LanguageAt(className.GetOr([]), i)) ==> r == "text"
  {
    match LanguageFrom(className.GetOr([]), 0)
    case None => "text"
    case Some(w) =>
      var cls := className.GetOr([]);
      var i :| 0 <= i < |cls| && LanguageAt(cls, i) && w == WordRun(cls[i + |LanguagePrefix|..]);
      assert w != [] by { assert WordRun(cls[i + |LanguagePrefix|..])[0] == cls[i + |LanguagePrefix|]; }
      w
  }

  /** Wherever the first `language-` match of the class stands, the code
      block gets the word captured there. */
  lemma CodeLanguageOfFirstMatch(cls: string, i: int)
    requires FirstLanguageAt(cls, 0, i)
    ensures CodeLanguage(Some(cls)) == WordRun(cls[i + |LanguagePrefix|..])
  {
    var r := LanguageFrom(cls, 0);
    assert r.Some? by { assert LanguageAt(cls, i); }
    var j :| FirstLanguageAt(cls, 0, j) && r.value == WordRun(cls[j + |LanguagePrefix|..]);
    assert j == i by {
      if j < i || i < j { assert false; }
    }
  }

  /** `String(children).replace(/\n$/, "")`: one final newline removed. */
  function StripFinalNewline(s: string): (r: string)
    ensures EndsWith(s, "\n") ==> r + "\n" == s
    ensures !EndsWith(s, "\n") ==> r == s
  {
    if EndsWith(s, "\n") then s[..|s| - 1] else s
  }

  /** How a `code` element of the Markdown is rendered. */
  datatype CodeRender = Inline(text: string) | Highlighted(code: string, language: string)

  function RenderCode(children: string, className: Option<string>): (r: CodeRender)
    ensures r.Inline? <==> className.None? || className.value == ""
    ensures r.Inline? ==> r.text == children
    ensures r.Highlighted? ==> r.code == StripFinalNewline(children) && r.language == CodeLanguage(className)
  {
    if className.None? || className.value == "" then Inline(children)
    else Highlighted(StripFinalNewline(children), CodeLanguage(className))
  }

  /** Only one newline goes: code ending in a blank line keeps one. */
  lemma OneNewlineStripped(s: string)
    ensures StripFinalNewline(s + "\n\n") == s + "\n"
  {
    assert EndsWith(s + "\n\n", "\n");
    assert (s + "\n\n")[..|s| + 1] == s + "\n";
  }

  /** `class="language-ts"` gives `ts`, and `language-` alone gives `text`. */
  lemma LanguageExamples()
    ensures CodeLanguage(Some("language-ts")) == "ts"
    ensures CodeLanguage(Some("language-")) == "text"
  {
    assert LanguageAt("language-ts", 0);
    assert "language-ts"[9..] == "ts";
    assert WordRun("ts") == "ts";
    assert WordRun("language-ts"[9..]) == "ts";
  }

  /** The icons the sidebar knows by name. */
  const IconNames: set<string> := {"BookOpen", "Rocket", "Code", "Settings", "Database", "Shield",
    "Zap", "Terminal", "FileText", "HelpCircle", "Layers", "Box"}

  /** `iconMap[section.icon] || FileText` */
  function IconFor(name: string): (r: string)
    ensures r in IconNames
    ensures name in IconNames ==> r == name
    ensures name !in IconNames ==> r == "FileText"
  {
    if name in IconNames then name else "FileText"
  }

  /** What the sections query answered: an error, or the rows (`null` when
      there are none to give). */
  datatype SectionsReply = SectionsError | Rows(data: Option<seq<StoredSection>>)

  /** The fields the exports read from a stored section. */
  function ForExport(sections: seq<StoredSection>): (r: seq<ExportUtils.ExportSection>)
    ensures |r| == |sections|
    ensures forall k :: 0 <= k < |r| ==>
      r[k] == ExportUtils.ExportSection(sections[k].slug, sections[k].title, sections[k].content)
  {
    seq(|sections|, k requires 0 <= k < |sections| => ExportUtils.ExportSection(sections[k].slug, sections[k].title, sections[k].content))
  }

  /** A toast the page raises. */
  datatype Toast = LoadFailed | MarkdownExported | PdfExported

  /** The page state. `location` is the route shown and `toasts` lists the
      toasts raised, oldest first. */
  class Page {
    var doc: Option<GeneratedDoc>
    var sections: seq<StoredSection>
    var isLoading: bool
    var location: string
    var toasts: seq<Toast>

    constructor(location: string)
      ensures doc.None? && sections == [] && isLoading && this.location == location && toasts == []
    {
      doc := None;
      sections := [];
      isLoading := true;
      this.location := location;
      toasts := [];
    }

    /** The fetch effect. Without a document id it returns at once and the
        page keeps loading. A failed document query leaves `doc` and
        `sections` as they were; a failed sections query comes after `doc`
        was set. Either failure shows an error toast. When the route names no
        section and sections were fetched, the route is replaced by the first
        section's. Loading ends on every path past the id check. */
    method FetchDoc(docId: Option<string>, sectionSlug: Option<string>,
                    docReply: Option<GeneratedDoc>, sectionsReply: SectionsReply)
      modifies this
      ensures docId.None? || docId.value == "" ==>
        doc == old(doc) && sections == old(sections) && isLoading == old(isLoading)
        && location == old(location) && toasts == old(toasts)
      ensures docId.Some? && docId.value != "" ==> !isLoading
      ensures docId.Some? && docId.value != "" && docReply.None? ==>
        doc == old(doc) && sections == old(sections) && location == old(location) && toasts == old(toasts) + [LoadFailed]
      ensures docId.Some? && docId.value != "" && docReply.Some? ==> doc == docReply
      ensures docId.Some? && docId.value != "" && docReply.Some? && sectionsReply.SectionsError? ==>
        sections == old(sections) && location == old(location) && toasts == old(toasts) + [LoadFailed]
      ensures docId.Some? && docId.value != "" && docReply.Some? && sectionsReply.Rows? ==>
        && sections == sectionsReply.data.GetOr([])
        && toasts == old(toasts)
        && location == (if (sectionSlug.None? || sectionSlug.value == "") && sections != []
                        then SectionPath(docId.value, sections[0].slug) else old(location))
    {
      if docId.None? || docId.value == "" {
        return;
      }
      if docReply.None? {
        toasts := toasts + [LoadFailed];
        isLoading := false;
        return;
      }
      doc := docReply;
      if sectionsReply.SectionsError? {
        toasts := toasts + [LoadFailed];
        isLoading := false;
        return;
      }
      sections := sectionsReply.data.GetOr([]);
      var data := sectionsReply.data;
      if (sectionSlug.None? || sectionSlug.value == "") && data.Some? && |data.value| > 0 {
        location := SectionPath(docId.value, data.value[0].slug);
      }
      isLoading := false;
    }

    /** Both exports need a document and at least one section. */
    predicate CanExport()
      reads this
    {
      doc.Some? && |sections| > 0
    }

    /** `handleExportMarkdown`: nothing without a document or sections;
        otherwise the Markdown file and its name, and the success toast. */
    method HandleExportMarkdown() returns (file: Option<(string, string)>)
      modifies this
      ensures doc == old(doc) && sections == old(sections) && isLoading == old(isLoading) && location == old(location)
      ensures file.None? <==> !CanExport()
      ensures !CanExport() ==> toasts == old(toasts)
      ensures CanExport() ==>
        && file.value == (ExportUtils.Markdown(doc.value.topic, doc.value.description, ForExport(sections)),
                          ExportUtils.FileName(doc.value.topic))
        && toasts == old(toasts) + [MarkdownExported]
    {
      if doc.None? || |sections| == 0 {
        return None;
      }
      var markdown, name := ExportUtils.ExportToMarkdown(doc.value.topic, doc.value.description, ForExport(sections));
      toasts := toasts + [MarkdownExported];
      return Some((markdown, name));
    }

    /** `handleExportPDF`: nothing without a document or sections;
        otherwise what the PDF export did, then the success toast. The
        export returns normally after the blocked-popup alert, so the toast
        is raised for a blocked popup too. */
    method HandleExportPdf(popupOpened: bool, render: string -> string) returns (outcome: Option<ExportUtils.PdfOutcome>)
      modifies this
      ensures doc == old(doc) && sections == old(sections) && isLoading == old(isLoading) && location == old(location)
      ensures outcome.None? <==> !CanExport()
      ensures !CanExport() ==> toasts == old(toasts)
      ensures CanExport() ==>
        && outcome.value == ExportUtils.ExportToPdf(doc.value.topic, doc.value.description, ForExport(sections), popupOpened, render)
        && toasts == old(toasts) + [PdfExported]
    {
      if doc.None? || |sections| == 0 {
        return None;
      }
      outcome := Some(ExportUtils.ExportToPdf(doc.value.topic, doc.value.description, ForExport(sections), popupOpened, render));
      toasts := toasts + [PdfExported];
    }
  }
}
