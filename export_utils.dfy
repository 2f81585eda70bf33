/** Exporting a generated document: the Markdown file is assembled by
    appending to one string, a header, a numbered table of contents and one
    anchored block per section; the file name is a slug of the topic. The PDF
    export writes a printable page into a popup window, or alerts when the
    popup is blocked. */
module ExportUtils {
  import opened Strings
  import opened Seqs

  /** The fields of a stored section that the exports read. */
  datatype ExportSection = ExportSection(slug: string, title: string, content: string)

  /** The first four lines: title, quoted description, rule, TOC heading. */
  function Header(topic: string, description: string): string {
    "# " + topic + "\n\n" + "> " + description + "\n\n" + "---\n\n" + "## Table of Contents\n\n"
  }

  /** The table-of-contents line of the section at position `index`. */
  function TocLine(index: nat, section: ExportSection): string {
    NatToString(index + 1) + ". [" + section.title + "](#" + section.slug + ")\n"
  }

  function TocLines(sections: seq<ExportSection>): (r: seq<string>)
    ensures |r| == |sections|
    ensures forall k :: 0 <= k < |r| ==> r[k] == TocLine(k, sections[k])
  {
    seq(|sections|, k requires 0 <= k < |sections| => TocLine(k, sections[k]))
  }

  const TocEnd := "\n---\n\n"
  const BlockEnd := "\n\n---\n\n"

  /** The anchor that opens the block of a section. */
  function Anchor(slug: string): string {
    "<a name=\"" + slug + "\"></a>\n\n"
  }

  function Block(section: ExportSection): string {
    Anchor(section.slug) + section.content + BlockEnd
  }

  function Blocks(sections: seq<ExportSection>): (r: seq<string>)
    ensures |r| == |sections|
    ensures forall k :: 0 <= k < |r| ==> r[k] == Block(sections[k])
  {
    seq(|sections|, k requires 0 <= k < |sections| => Block(sections[k]))
  }

  /** The whole Markdown document. */
  function Markdown(topic: string, description: string, sections: seq<ExportSection>): string {
    Header(topic, description) + Concat(TocLines(sections)) + TocEnd + Concat(Blocks(sections))
  }

  /** `topic.toLowerCase().replace(/\s+/g, "-")`: every maximal run of white
      space becomes one dash. */
  function DashRuns(s: string): (r: string)
    ensures |r| <= |s|
    ensures NoWhitespace(r)
    decreases |s|
  {
    if s == [] then []
    else if IsWhitespace(s[0]) then
      "-" + DashRuns(TrimStart(s))
    else [s[0]] + DashRuns(s[1..])
  }

  const FileSuffix := "-documentation.md"

  /** The download name of the Markdown file. */
  function FileName(topic: string): (r: string)
    ensures r == DashRuns(ToLower(topic)) + FileSuffix
    ensures EndsWith(r, FileSuffix)
    ensures NoWhitespace(r)
  {
    DashRuns(ToLower(topic)) + FileSuffix
  }

  /** A topic of two words with any white space between them is saved as
      the two lower-cased words joined by one dash, then the suffix. */
  lemma FileNameOfTwoWords(a: string, w: string, b: string)
    requires NoWhitespace(a) && NoWhitespace(b)
    requires w != [] && AllWhitespace(w)
    ensures FileName(a + w + b) == ToLower(a) + "-" + ToLower(b) + FileSuffix
  {
    ToLowerConcat(a + w, b);
    ToLowerConcat(a, w);
    var la, lw, lb := ToLower(a), ToLower(w), ToLower(b);
    ToLowerKeepsWhitespace(a);
    ToLowerKeepsWhitespace(w);
    ToLowerKeepsWhitespace(b);
    assert NoWhitespace(la) && AllWhitespace(lw) && NoWhitespace(lb);
    assert lb == [] || !IsWhitespace(lb[0]);
    DashRunsJoin(la, lw, lb);
    DashRunsOfWord(lb);
  }

  /** `exportToMarkdown`, without the download: the text accumulated with
      `+=`, a header, then the two passes over the sections, and the file
      name. */
  method ExportToMarkdown(topic: string, description: string, sections: seq<ExportSection>)
    returns (markdown: string, filename: string)
    ensures markdown == Markdown(topic, description, sections)
    ensures filename == FileName(topic)
  {
    markdown := "# " + topic + "\n\n";
    markdown := markdown + "> " + description + "\n\n";
    markdown := markdown + "---\n\n";
    markdown := markdown + "## Table of Contents\n\n";
    markdown := AppendToc(markdown, sections);
    markdown := markdown + "\n---\n\n";
    markdown := AppendBlocks(markdown, sections);
    filename := FileName(topic);
  }

  /** The first pass: one numbered line per section. */
  method AppendToc(start: string, sections: seq<ExportSection>) returns (markdown: string)
    ensures markdown == start + Concat(TocLines(sections))
  {
    markdown := start;
    ghost var toc := TocLines(sections);
    var i := 0;
    while i < |sections|
      invariant 0 <= i <= |sections|
      invariant markdown == start + Concat(toc[..i])
    {
      var line := NatToString(i + 1) + ". [" + sections[i].title + "](#" + sections[i].slug + ")\n";
      markdown := markdown + line;
      ConcatStep(toc, i);
      i := i + 1;
    }
    ConcatAll(toc);
  }

  /** The second pass: anchor, content and rule of each section. */
  method AppendBlocks(start: string, sections: seq<ExportSection>) returns (markdown: string)
    ensures markdown == start + Concat(Blocks(sections))
  {
    markdown := start;
    ghost var blocks := Blocks(sections);
    var i := 0;
    while i < |sections|
      invariant 0 <= i <= |sections|
      invariant markdown == start + Concat(blocks[..i])
    {
      ghost var before := markdown;
      markdown := markdown + "<a name=\"" + sections[i].slug + "\"></a>\n\n";
      markdown := markdown + sections[i].content;
      markdown := markdown + "\n\n---\n\n";
      AppendBlock(before, sections[i]);
      ConcatStep(blocks, i);
      i := i + 1;
    }
    ConcatAll(blocks);
  }

  /** The three appends of one section's block. */
  lemma AppendBlock(before: string, section: ExportSection)
    ensures before + "<a name=\"" + section.slug + "\"></a>\n\n" + section.content + "\n\n---\n\n"
      == before + Block(section)
  {
  }

  /** The document opens with the header. */
  lemma MarkdownStartsWithHeader(topic: string, description: string, sections: seq<ExportSection>)
    ensures StartsWith(Markdown(topic, description, sections), Header(topic, description))
  {
    var h := Header(topic, description);
    var m := Markdown(topic, description, sections);
    assert m == h + (Concat(TocLines(sections)) + TocEnd + Concat(Blocks(sections)));
  }

  /** Where the table of contents begins. */
  function TocStart(topic: string, description: string): nat {
    |Header(topic, description)|
  }

  /** Where the section blocks begin. */
  function BlocksStart(topic: string, description: string, sections: seq<ExportSection>): nat {
    |Header(topic, description)| + |Concat(TocLines(sections))| + |TocEnd|
  }

  /** The table of contents has one line per section, in input order: line
      `k`, numbered `k + 1`, stands at its offset after the header. */
  lemma TocLineAt(topic: string, description: string, sections: seq<ExportSection>, k: nat)
    requires k < |sections|
    ensures StandsAt(Markdown(topic, description, sections), TocStart(topic, description) + Offset(TocLines(sections), k), TocLine(k, sections[k]))
  {
    PartOfSecond(Header(topic, description), TocLines(sections), TocEnd, Concat(Blocks(sections)), k);
    assert TocLines(sections)[k] == TocLine(k, sections[k]);
  }

  /** The separator after the table of contents stands right before the
      first block. */
  lemma TocEndAt(topic: string, description: string, sections: seq<ExportSection>)
    ensures StandsAt(Markdown(topic, description, sections), BlocksStart(topic, description, sections) - |TocEnd|, TocEnd)
  {
    var h := Header(topic, description);
    var toc := Concat(TocLines(sections));
    var blocks := Concat(Blocks(sections));
    ThirdStands(h, toc, TocEnd, blocks);
    MarkdownLayout(topic, description, sections);
    StandsMoved(h + toc + TocEnd + blocks, |h| + |toc|, TocEnd,
      Markdown(topic, description, sections), BlocksStart(topic, description, sections) - |TocEnd|, TocEnd);
  }

  lemma MarkdownLayout(topic: string, description: string, sections: seq<ExportSection>)
    ensures Markdown(topic, description, sections) == Header(topic, description) + Concat(TocLines(sections)) + TocEnd + Concat(Blocks(sections))
  {
  }

  /** Section `k` appears as its anchor, then its content verbatim, then the
      rule, at its offset among the blocks, after the blocks of the sections
      before it. */
  lemma SectionAt(topic: string, description: string, sections: seq<ExportSection>, k: nat)
    requires k < |sections|
    ensures var at := BlocksStart(topic, description, sections) + Offset(Blocks(sections), k);
      var a := Anchor(sections[k].slug);
      var m := Markdown(topic, description, sections);
      && StandsAt(m, at, a)
      && StandsAt(m, at + |a|, sections[k].content)
      && StandsAt(m, at + |a| + |sections[k].content|, BlockEnd)
  {
    var at := BlocksStart(topic, description, sections) + Offset(Blocks(sections), k);
    var m := Markdown(topic, description, sections);
    var b := Block(sections[k]);
    BlockAt(topic, description, sections, k);
    assert StandsAt(m, at, b);
    assert b == Anchor(sections[k].slug) + sections[k].content + BlockEnd;
    StandsInParts(m, at, Anchor(sections[k].slug), sections[k].content, BlockEnd);
  }

  /** Block `k` stands at its offset after the table of contents. */
  lemma BlockAt(topic: string, description: string, sections: seq<ExportSection>, k: nat)
    requires k < |sections|
    ensures StandsAt(Markdown(topic, description, sections),
      BlocksStart(topic, description, sections) + Offset(Blocks(sections), k), Block(sections[k]))
  {
    PartOfFourth(Header(topic, description), Concat(TocLines(sections)), TocEnd, Blocks(sections), k);
    assert Blocks(sections)[k] == Block(sections[k]);
  }

  /** Each block begins right where the previous one ends, so the sections
      appear in input order and nothing stands between their blocks. */
  lemma BlocksInOrder(sections: seq<ExportSection>, k: nat)
    requires k + 1 < |sections|
    ensures Offset(Blocks(sections), k + 1) == Offset(Blocks(sections), k) + |Block(sections[k])|
  {
    PartAt(Blocks(sections), k);
  }

  /** A run of white space before a text that does not start with white space
      becomes a single dash. */
  lemma DashRunsOfRun(w: string, s: string)
    requires w != [] && AllWhitespace(w)
    requires s == [] || !IsWhitespace(s[0])
    ensures DashRuns(w + s) == "-" + DashRuns(s)
  {
    TrimStartOfWhitespacePrefix(w, s);
    assert (w + s)[0] == w[0];
  }

  /** A text without white space is kept as it is. */
  lemma {:induction false} DashRunsOfWord(s: string)
    requires NoWhitespace(s)
    ensures DashRuns(s) == s
  {
    if s != [] {
      DashRunsOfWord(s[1..]);
    }
  }

  /** Two words joined by any run of white space are joined by one dash. */
  lemma DashRunsJoin(a: string, w: string, b: string)
    requires NoWhitespace(a)
    requires w != [] && AllWhitespace(w)
    requires b == [] || !IsWhitespace(b[0])
    ensures DashRuns(a + w + b) == a + "-" + DashRuns(b)
  {
    DashRunsOfRun(w, b);
    DashRunsPrefix(a, w + b);
    Assoc(a, w, b);
    Assoc(a, "-", DashRuns(b));
  }

  lemma {:induction false} DashRunsPrefix(a: string, s: string)
    requires NoWhitespace(a)
    ensures DashRuns(a + s) == a + DashRuns(s)
  {
    if a != [] {
      assert (a + s)[0] == a[0];
      assert (a + s)[1..] == a[1..] + s;
      DashRunsPrefix(a[1..], s);
    } else {
      assert a + s == s;
    }
  }

  /** The outcome of `exportToPDF`: an alert when the popup was blocked,
      otherwise the printable page written into it. */
  datatype PdfOutcome =
    | Blocked(alert: string)
    | Written(page: PrintPage)

  /** The parts of the printable page that depend on the document; the style
      sheet is fixed. `bodies` holds the HTML rendering of each section. */
  datatype PrintPage = PrintPage(title: string, heading: string, description: string, tocItems: string, bodies: seq<string>)

  const PopupBlocked := "Please allow popups to export PDF"

  function TocItem(section: ExportSection): string {
    "<li>" + section.title + "</li>"
  }

  function TocItems(sections: seq<ExportSection>): (r: seq<string>)
    ensures |r| == |sections|
    ensures forall k :: 0 <= k < |r| ==> r[k] == TocItem(sections[k])
  {
    seq(|sections|, k requires 0 <= k < |sections| => TocItem(sections[k]))
  }

  /** `exportToPDF`: `popupOpened` is whether `window.open` returned a window,
      `render` stands for the Markdown-to-HTML conversion. */
  function ExportToPdf(topic: string, description: string, sections: seq<ExportSection>,
                       popupOpened: bool, render: string -> string): (r: PdfOutcome)
    ensures r.Blocked? <==> !popupOpened
    ensures r.Blocked? ==> r.alert == PopupBlocked
    ensures r.Written? ==>
      (&& |r.page.bodies| == |sections|
       && forall k :: 0 <= k < |sections| ==> r.page.bodies[k] == render(sections[k].content))
  {
    if !popupOpened then Blocked(PopupBlocked)
    else Written(PrintPage(topic + " Documentation", topic, description, Concat(TocItems(sections)),
      seq(|sections|, k requires 0 <= k < |sections| => render(sections[k].content))))
  }

  /** The printed table of contents lists every section title, in order,
      one `<li>` each. */
  lemma PdfTocItemAt(topic: string, description: string, sections: seq<ExportSection>, render: string -> string, k: nat)
    requires k < |sections|
    ensures StandsAt(ExportToPdf(topic, description, sections, true, render).page.tocItems,
      Offset(TocItems(sections), k), "<li>" + sections[k].title + "</li>")
  {
    PartAt(TocItems(sections), k);
  }
}
