# AI documentation site — a Dafny model

This project models the logic of a small documentation web application in
Dafny 4.11 and proves properties of that model. The application has three
parts:

- a static documentation site with a navigation table, a content lookup with
  a placeholder fallback, sidebars, a header and a search dialog;
- a generator, where a server function asks an AI gateway for a JSON bundle
  of sections, cleans up the reply and can store the bundle in two database
  tables;
- pages that create, list, view and export the generated documents.

One module per source file:

| module | file | models |
|---|---|---|
| `GenerateDocs` | generate_docs.dfy | the generate-docs server function: preflight, topic validation, API key check, the gateway call and its status mapping, code-fence stripping, parse and structure checks, the optional two-step save, and the final response |
| `DocsData` | docs_data.dfy | the navigation table, `getDocContent` and `getDefaultContent` |
| `GeneratedDocsPage` | generated_docs_page.dfy | current, previous and next section; the fetch effect; the code renderer; the icon fallback; the two export handlers |
| `CodeBlock` | code_block.dfy | language aliases, the trimmed text that is highlighted, line numbers, and the copy button with its reset timer |
| `ExportUtils` | export_utils.dfy | the Markdown document built by appending, its file name, and the printable PDF page |
| `SearchDialog` | search_dialog.dfy | popular pages, filtered results, the keyboard shortcut and selection |
| `LibraryPage` | library_page.dfy | the document list, its search filter, fetch and delete |
| `CreateDocsPage` | create_docs_page.dfy | topic validation, the composed topic, the request and how it settles |
| `AiAssistant` | ai_assistant.dfy | the chat widget with its greeting and canned reply timer |
| `Expansion` | expansion.dfy | the `toggleExpand` list update shared by both sidebars |
| `MobileSidebar` | mobile_sidebar.dfy | the drawer, its expanded sections and the active page |
| `DocsSidebar` | docs_sidebar.dfy | the desktop sidebar's own table and expanded titles |
| `Header` | header.dfy | the active navigation item, the search flag and the mobile menu |

`Strings`, `Seqs` and `Options` hold helpers: JavaScript `trim`,
`toLowerCase`, `includes` and `startsWith`; filtering, concatenation and
search over sequences; and an option type.

How the model is built:

- Pure code (lookups, filters, string building) becomes functions with
  lemmas.
- Components whose handlers update state become classes. Their methods state
  the whole new state with `old(...)`.
- Loops that accumulate become methods whose loop invariants tie them to a
  specification function. The two `forEach` passes of `exportToMarkdown` are
  such methods.
- The chain of early returns in the server function is a method without a
  loop. Its `ensures` state that it gives the result of a reference function,
  and the server's properties are proved about that function.
- Foreign calls are inputs to the model: the database, the AI gateway,
  `JSON.parse`, the clipboard and `window.open`. The server function receives
  them as one `Services` value. Its result is the response together with the
  list of foreign calls it made, in order.
- Timers are counted as pending callbacks, so a later event can fire them.
- React effects that recompute state (the library's search filter) run at
  the end of every handler that changes what they depend on. A `Settled()`
  predicate states what they establish.

The model follows the code as written:

- The chat assistant calls no model. It appends one fixed reply when a
  1500 ms timer fires.
- Previous and next links in a generated document do not wrap around.
- The copy button copies the raw `code` prop, not the trimmed text that is
  highlighted.
- A white-space-only topic is accepted by the server function, which checks
  only for a missing, empty or non-string topic. The create page rejects it
  with `trim()`.

## Model

| member | source | states |
|---|---|---|
| GenerateDocs.Serve | supabase/functions/generate-docs/index.ts:50-202 | the handler as a chain of early returns computes exactly the response and the foreign calls that the reference `Handle` function describes |
| GenerateDocs.AskGateway | supabase/functions/generate-docs/index.ts:72-134 | from the gateway call on, the method's response and calls agree with `ReplyOutcome` |
| GenerateDocs.Store | supabase/functions/generate-docs/index.ts:136-195 | from the parsed value on, with `docId` held in a variable that only a successful save sets, the method agrees with `ParsedOutcome` |
| GenerateDocs.TopicValidation | supabase/functions/generate-docs/index.ts:56-63 | the answer is 400 "Topic is required" exactly when the topic is missing, empty or not a string, and then no foreign call was made; a topic of blanks passes |
| GenerateDocs.GatewayCalledOnce | supabase/functions/generate-docs/index.ts:67-87 | foreign calls happen exactly when the request is not a preflight, the topic is valid and the key is configured; the first is then the gateway call with the user prompt for the topic, it is the only gateway call, and at most three calls happen |
| GenerateDocs.GatewayStatusMapping | supabase/functions/generate-docs/index.ts:89-112 | 429 and 402 pass through with their own messages; any other non-2xx becomes 500 "AI gateway error: status"; an empty or missing content becomes 500 "No content received from AI"; the store is never touched |
| GenerateDocs.UnparsableReply | supabase/functions/generate-docs/index.ts:118-134 | a cleaned reply that does not parse gives 500 "Failed to parse generated documentation" and no store call |
| GenerateDocs.SectionsNotAnArray | supabase/functions/generate-docs/index.ts:136-138 | a parsed value whose `sections` is not an array gives 500 "Invalid documentation structure" and no store call |
| GenerateDocs.ParsedFacts | supabase/functions/generate-docs/index.ts:136-195 | after parsing, the status is 200 or 500, at most two inserts follow, both only when saving, and a returned id is the stored document's id after both inserts succeeded |
| GenerateDocs.ReplyFacts | supabase/functions/generate-docs/index.ts:89-195 | after the gateway call, the status is one of 200, 402, 429 and 500, and the same facts about the inserts hold |
| GenerateDocs.DocIdOnlyWhenSaved | supabase/functions/generate-docs/index.ts:141-189 | a successful response carries a document id only when `save` was asked for and both inserts succeeded, and it is the id of the inserted document row |
| GenerateDocs.SaveOutcome | supabase/functions/generate-docs/index.ts:148-160 | the document row, with its description fallback, is always the first insert of a save |
| GenerateDocs.SavedRows | supabase/functions/generate-docs/index.ts:141-195 | a save inserts the document row, then all section rows under the new id; a failed section insert answers 500 "Failed to save documentation sections" after the document row was written; success answers 200 with the id and the parsed, not defaulted, description |
| GenerateDocs.StoredDescription | supabase/functions/generate-docs/index.ts:152 | the stored description is the parsed one when it is non-empty, else "Documentation for " followed by the topic |
| GenerateDocs.IconOrDefault | supabase/functions/generate-docs/index.ts:170 | a section's icon is its own when non-empty, else "FileText"; never empty |
| GenerateDocs.RowsFrom | supabase/functions/generate-docs/index.ts:165-172 | one row per section, in order, each with the document id, its own slug, title and content, the icon with its fallback, and consecutive order indexes from the start given |
| GenerateDocs.SectionRows | supabase/functions/generate-docs/index.ts:165-172 | the rows of a save carry order index i at position i |
| GenerateDocs.TwoSectionsSaved | supabase/functions/generate-docs/index.ts:165-172 | two sections are stored as two rows with indexes 0 and 1, in input order |
| GenerateDocs.DropLeadingFence | supabase/functions/generate-docs/index.ts:121-125 | a leading "```json" is removed, or else a leading "```", and the text is otherwise unchanged |
| GenerateDocs.DropTrailingFence | supabase/functions/generate-docs/index.ts:126-128 | a trailing "```" is removed, and the text is otherwise unchanged |
| GenerateDocs.StripFences | supabase/functions/generate-docs/index.ts:120-129 | the cleaned reply is trimmed and no longer than the reply |
| GenerateDocs.StripFencesUnfenced | supabase/functions/generate-docs/index.ts:120-129 | a reply with no fence at either end is only trimmed |
| GenerateDocs.CleanContent | supabase/functions/generate-docs/index.ts:120-129 | the step-by-step reassignments of `cleanContent` compute `StripFences` |
| GenerateDocs.JsonFencedRoundTrip | supabase/functions/generate-docs/index.ts:120-129 | a trimmed payload wrapped in "```json" and "```", with any white space around and between, comes back exactly |
| GenerateDocs.PlainFencedRoundTrip | supabase/functions/generate-docs/index.ts:120-129 | the same for a bare "```" fence, as long as the payload does not itself begin with "json" |
| GenerateDocs.FencedRoundTrip | supabase/functions/generate-docs/index.ts:120-129 | a fenced block padded with white space cleans to the trimmed inside of the fences |
| GenerateDocs.PlainFenceNotTagged | supabase/functions/generate-docs/index.ts:121-124 | a bare fence whose inside does not begin with "json" is not taken for the tagged fence |
| GenerateDocs.FencedCoreIsTrimmed | supabase/functions/generate-docs/index.ts:120 | a text that opens and closes with a fence needs no trimming |
| GenerateDocs.LeadingFenceDropped | supabase/functions/generate-docs/index.ts:121-125 | the opening fence of a fenced block is the part removed |
| GenerateDocs.TrailingFenceDropped | supabase/functions/generate-docs/index.ts:126-128 | the closing fence is the part removed |
| GenerateDocs.OneFenceEachEnd | supabase/functions/generate-docs/index.ts:121-128 | only one fence is removed at each end; doubled fences leave one |
| DocsData.NavigationSlugsUnique | src/lib/docsData.ts:16-101 | section slugs are unique, and page slugs are unique within each section |
| DocsData.NavigationPagesDescribed | src/lib/docsData.ts:16-101 | every navigation page has a non-empty title and description |
| DocsData.NavPage | src/lib/docsData.ts:515-516 | a page found by the two `find` calls carries the slug asked for |
| DocsData.FindSectionBySlug | src/lib/docsData.ts:515 | with unique slugs, `find` by a section's slug returns that section |
| DocsData.FindPageBySlug | src/lib/docsData.ts:516 | with unique slugs, `find` by a page's slug returns that page |
| DocsData.NavPageFound | src/lib/docsData.ts:515-516 | a section and page listed in the navigation find exactly that page |
| DocsData.NavPageMissing | src/lib/docsData.ts:515-516 | a key the navigation does not list finds nothing |
| DocsData.GetDefaultContent | src/lib/docsData.ts:514-534 | the placeholder has one "coming-soon" section titled "Coming Soon" with no code and a non-empty title; an unlisted page gets "Documentation", "Documentation content coming soon." and "this topic" in its text |
| DocsData.DefaultContentOfNavPage | src/lib/docsData.ts:514-534 | the placeholder of a listed page carries that page's title and description and names the page in its text |
| DocsData.DefaultContentOfUnknownPage | src/lib/docsData.ts:514-534 | the placeholder of an unlisted page is the generic one, in full |
| DocsData.GetDocContent | src/lib/docsData.ts:501-511 | a key present at both levels gives the stored page; a key missing at either level gives the placeholder |
| DocsData.ContentKeysInNavigation | src/lib/docsData.ts:104-499 | every page with written content is also listed in the navigation |
| DocsData.IndexedLookup | src/lib/docsData.ts:103-512 | with the content table's own keys, the nine written pages are returned and every other key gets the placeholder |
| GeneratedDocsPage.CurrentSection | src/pages/GeneratedDocsPage.tsx:73 | a section is shown exactly when there are sections, and it is one of them |
| GeneratedDocsPage.CurrentSectionChoice | src/pages/GeneratedDocsPage.tsx:73 | the section shown is the first one whose slug is the URL's, else the first section |
| GeneratedDocsPage.CurrentIndex | src/pages/GeneratedDocsPage.tsx:74 | the index lies between -1 and the last position |
| GeneratedDocsPage.CurrentIndexOfCurrent | src/pages/GeneratedDocsPage.tsx:73-74 | the index is -1 exactly for an empty list, and otherwise it is the position of the section shown |
| GeneratedDocsPage.PrevNext | src/pages/GeneratedDocsPage.tsx:74-76 | a previous link exists exactly when the section shown is not the first, a next link exactly when it is not the last, and they are its neighbours |
| GeneratedDocsPage.NoWrapAround | src/pages/GeneratedDocsPage.tsx:75-76 | the first section has no previous link and the last has no next link |
| GeneratedDocsPage.OpenBySlug | src/pages/GeneratedDocsPage.tsx:73-74 | with unique slugs, the route of a section shows that section at its own position |
| GeneratedDocsPage.PrevThenNext | src/pages/GeneratedDocsPage.tsx:73-76 | following the previous link and then the next link returns to the section shown |
| GeneratedDocsPage.NextThenPrev | src/pages/GeneratedDocsPage.tsx:73-76 | following the next link and then the previous link returns too |
| GeneratedDocsPage.Page.constructor | src/pages/GeneratedDocsPage.tsx:68-70 | the page starts with no document, no sections, and loading, and with no toast raised |
| GeneratedDocsPage.Page.FetchDoc | src/pages/GeneratedDocsPage.tsx:78-120 | the state after each path: no id leaves everything untouched; a failed document query appends one "Error loading documentation" toast; a failed sections query does the same after the document was set; otherwise sections are the rows, with null read as none, and without a section slug the route becomes the first section's; loading ends on every path past the id check |
| GeneratedDocsPage.Page.HandleExportMarkdown | src/pages/GeneratedDocsPage.tsx:122-126 | nothing is exported exactly when there is no document or no section; otherwise the file is the Markdown document of the topic, description and sections, with its name, and the "Markdown exported!" toast is appended |
| GeneratedDocsPage.Page.HandleExportPdf | src/pages/GeneratedDocsPage.tsx:128-132 | the same guard, then the outcome of the PDF export and the "PDF exported!" toast, which is appended for a blocked popup too |
| GeneratedDocsPage.ForExport | src/pages/GeneratedDocsPage.tsx:124 | the exports receive each section's slug, title and content, in order |
| GeneratedDocsPage.WordRun | src/pages/GeneratedDocsPage.tsx:269 | `\w+` takes the longest prefix of word characters |
| GeneratedDocsPage.LanguageFrom | src/pages/GeneratedDocsPage.tsx:269 | no match exactly when "language-" followed by a word character occurs nowhere; otherwise the word captured at the first occurrence |
| GeneratedDocsPage.ShiftFirstLanguage | src/pages/GeneratedDocsPage.tsx:269 | the first match past a non-matching position is the first match from that position |
| GeneratedDocsPage.CodeLanguage | src/pages/GeneratedDocsPage.tsx:283 | the language is the word of the first `language-` match of the class name, or "text" when the class names no language; it is never empty |
| GeneratedDocsPage.CodeLanguageOfFirstMatch | src/pages/GeneratedDocsPage.tsx:283 | wherever the first `language-` match stands, the code block gets the word captured there |
| GeneratedDocsPage.LanguageExamples | src/pages/GeneratedDocsPage.tsx:269-283 | "language-ts" gives "ts", and "language-" alone gives "text" |
| GeneratedDocsPage.StripFinalNewline | src/pages/GeneratedDocsPage.tsx:282 | one final newline is removed, and text without one is kept |
| GeneratedDocsPage.OneNewlineStripped | src/pages/GeneratedDocsPage.tsx:282 | code ending in two newlines keeps one |
| GeneratedDocsPage.RenderCode | src/pages/GeneratedDocsPage.tsx:268-285 | code without a class is inline and unchanged; otherwise it goes to the code block without its final newline and with its language |
| GeneratedDocsPage.IconFor | src/pages/GeneratedDocsPage.tsx:32-45 | a known icon name is kept; any other name becomes "FileText" |
| CodeBlock.Language | src/components/CodeBlock.tsx:11 | the language defaults to "typescript" |
| CodeBlock.GetLanguage | src/components/CodeBlock.tsx:20-32 | the result is lower case: the alias of the lower-cased name when one is listed, else the lower-cased name |
| CodeBlock.AliasOf | src/components/CodeBlock.tsx:21-31 | a listed lower-case name maps to its alias |
| CodeBlock.ScriptAliases | src/components/CodeBlock.tsx:22-24 | ts, js and py become typescript, javascript and python |
| CodeBlock.ShellAliases | src/components/CodeBlock.tsx:25-26 | sh and shell both become bash |
| CodeBlock.SelfAliases | src/components/CodeBlock.tsx:27-29 | json, jsx and tsx map to themselves |
| CodeBlock.CaseInsensitive | src/components/CodeBlock.tsx:31 | the lookup ignores case |
| CodeBlock.UnknownPassesThrough | src/components/CodeBlock.tsx:31 | an unknown name passes through lower-cased |
| CodeBlock.AliasTargetsFixed | src/components/CodeBlock.tsx:21-30 | an alias that is itself a key maps to itself |
| CodeBlock.GetLanguageIdempotent | src/components/CodeBlock.tsx:20-32 | normalising twice is normalising once |
| CodeBlock.HighlightedCode | src/components/CodeBlock.tsx:50 | the highlighted text is `code.trim()`: the part of the code after its leading white space, with only white space after it and neither end white space; empty for blank code |
| CodeBlock.HighlightedPadded | src/components/CodeBlock.tsx:50 | code padded with white space on either side is highlighted without the padding |
| CodeBlock.LineNumbers | src/components/CodeBlock.tsx:58-62 | line i of the gutter shows i + 1 |
| CodeBlock.Block.constructor | src/components/CodeBlock.tsx:11-12 | a block starts with the default language and without the copied mark |
| CodeBlock.Block.HandleCopy | src/components/CodeBlock.tsx:14-18 | the clipboard receives the raw code, the mark is set and one reset timer is scheduled; a rejected write changes nothing |
| CodeBlock.Block.ResetFires | src/components/CodeBlock.tsx:17 | a reset timer clears the mark, whatever timers remain |
| CodeBlock.CopyTwiceThenFirstReset | src/components/CodeBlock.tsx:14-18 | after two copies, the first timer clears the mark while the second is still pending |
| ExportUtils.ExportToMarkdown | src/lib/exportUtils.ts:9-38 | the text built by appending equals the Markdown document, and the file name is the dashed topic |
| ExportUtils.AppendToc | src/lib/exportUtils.ts:20-22 | the first pass appends the numbered TOC lines of all sections, in order |
| ExportUtils.AppendBlocks | src/lib/exportUtils.ts:27-31 | the second pass appends every section's block, in order |
| ExportUtils.AppendBlock | src/lib/exportUtils.ts:28-30 | the three appends of one section make its block |
| ExportUtils.TocLines | src/lib/exportUtils.ts:20-22 | TOC line k is numbered k + 1 and links the k-th section's title to its slug |
| ExportUtils.Blocks | src/lib/exportUtils.ts:27-31 | block k is the anchor, content and rule of section k |
| ExportUtils.MarkdownStartsWithHeader | src/lib/exportUtils.ts:14-17 | the document opens with the title, the quoted description, a rule and the TOC heading |
| ExportUtils.MarkdownLayout | src/lib/exportUtils.ts:14-31 | the document is the header, then the TOC lines, the separator and the blocks |
| ExportUtils.TocLineAt | src/lib/exportUtils.ts:20-22 | the TOC line of section k stands at its offset after the header |
| ExportUtils.TocEndAt | src/lib/exportUtils.ts:24 | the separator after the TOC stands right before the first block |
| ExportUtils.BlockAt | src/lib/exportUtils.ts:27-31 | the block of section k stands at its offset after the separator |
| ExportUtils.SectionAt | src/lib/exportUtils.ts:27-31 | section k appears as its anchor, its verbatim content and the closing rule, in that order |
| ExportUtils.BlocksInOrder | src/lib/exportUtils.ts:27-31 | each block starts where the previous one ends |
| ExportUtils.DashRuns | src/lib/exportUtils.ts:38 | replacing white-space runs leaves no white space and never lengthens the text |
| ExportUtils.DashRunsOfRun | src/lib/exportUtils.ts:38 | a run of white space becomes a single dash |
| ExportUtils.DashRunsOfWord | src/lib/exportUtils.ts:38 | text without white space is unchanged |
| ExportUtils.DashRunsPrefix | src/lib/exportUtils.ts:38 | a white-space-free prefix is kept as it is |
| ExportUtils.DashRunsJoin | src/lib/exportUtils.ts:38 | two words joined by any white-space run are joined by one dash |
| ExportUtils.FileName | src/lib/exportUtils.ts:38 | the download name is the lower-cased topic with every white-space run turned into one dash, followed by "-documentation.md"; it contains no white space |
| ExportUtils.FileNameOfTwoWords | src/lib/exportUtils.ts:38 | a topic of two words with any white space between them is saved as the two lower-cased words joined by one dash, then the suffix |
| ExportUtils.TocItems | src/lib/exportUtils.ts:187 | the PDF's TOC item k is the k-th section's title in a list item |
| ExportUtils.ExportToPdf | src/lib/exportUtils.ts:45-213 | a blocked popup gives the alert "Please allow popups to export PDF"; otherwise the page holds one rendered body per section, in order |
| ExportUtils.PdfTocItemAt | src/lib/exportUtils.ts:184-189 | the printed TOC lists each section title at its offset, in order |
| SearchDialog.Entries | src/components/SearchDialog.tsx:37-41 | one result per page, carrying the section's title and slug with the page's fields |
| SearchDialog.SectionEntries | src/components/SearchDialog.tsx:46-57 | one list of results per section, in navigation order |
| SearchDialog.PopularBound | src/components/SearchDialog.tsx:34-42 | a blank query gives at most six results |
| SearchDialog.PopularPages | src/components/SearchDialog.tsx:34-42 | for the site's own navigation, a blank query gives the first two pages of each of the first three sections, in order |
| SearchDialog.QueryResults | src/components/SearchDialog.tsx:45-58 | a query gives the first eight matching pages in navigation order, or all of them when fewer match |
| SearchDialog.QueryMembership | src/components/SearchDialog.tsx:45-58 | every result is a navigation page matching the lower-cased query in its title, description or section title; when at most eight match, every match is shown; results keep navigation order |
| SearchDialog.EntryOfNavigation | src/components/SearchDialog.tsx:46-57 | every navigation page has its result among all entries |
| SearchDialog.Dialog.constructor | src/components/SearchDialog.tsx:12-13 | the query starts empty |
| SearchDialog.Dialog.KeyDown | src/components/SearchDialog.tsx:18-26 | Ctrl or Cmd with K toggles the dialog, Escape closes it, and other keys leave it |
| SearchDialog.Dialog.Type | src/components/SearchDialog.tsx:97 | typing sets the query |
| SearchDialog.Dialog.Select | src/components/SearchDialog.tsx:63-67 | choosing a result routes to its page, closes the dialog and clears the query |
| LibraryPage.FilteredDocs | src/pages/LibraryPage.tsx:49-56 | the shown list is the ordered subsequence of documents whose lower-cased topic or description contains the lower-cased query |
| LibraryPage.EmptyQueryKeepsAll | src/pages/LibraryPage.tsx:49-56 | the empty query keeps every document |
| LibraryPage.QueryCaseIgnored | src/pages/LibraryPage.tsx:52-53 | the filter ignores the query's case |
| LibraryPage.WithoutIdRemovesExactly | src/pages/LibraryPage.tsx:89 | deleting removes every document with that id and keeps the others in order, with their counts |
| LibraryPage.WithoutAbsentId | src/pages/LibraryPage.tsx:89 | deleting an id no document carries changes nothing |
| LibraryPage.Library.constructor | src/pages/LibraryPage.tsx:39-42 | the page starts empty and loading |
| LibraryPage.Library.Refilter | src/pages/LibraryPage.tsx:49-56 | the effect makes the shown list the filter of the documents |
| LibraryPage.Library.FetchDocs | src/pages/LibraryPage.tsx:58-78 | fetched rows replace the list, with null read as none; an error raises the load toast and keeps the lists; loading ends either way |
| LibraryPage.Library.SetQuery | src/pages/LibraryPage.tsx:136 | typing sets the query and the list is refiltered |
| LibraryPage.Library.HandleDelete | src/pages/LibraryPage.tsx:80-99 | a successful delete removes the documents with that id and raises its toast; a failed one only raises the error toast |
| LibraryPage.Library.EmptyHeading | src/pages/LibraryPage.tsx:143-155 | the empty state shows exactly when loading is over and nothing is listed, and says "No matching documentation" exactly when there is a query |
| LibraryPage.NoEmptyStateWithoutQuery | src/pages/LibraryPage.tsx:143-155 | with no query and a non-empty library, the empty state is not shown |
| CreateDocsPage.FullTopic | src/pages/CreateDocsPage.tsx:47-49 | the topic sent starts with the topic; an empty context adds nothing; any other context follows ". Additional context: " |
| CreateDocsPage.FullTopicInjective | src/pages/CreateDocsPage.tsx:47-49 | given the topic's length, the topic and the context can be read back from the text sent |
| CreateDocsPage.FullTopicCollision | src/pages/CreateDocsPage.tsx:47-49 | without the topic's length they cannot: a topic containing the separator is sent exactly like a shorter topic with a context |
| CreateDocsPage.FailureMessage | src/pages/CreateDocsPage.tsx:63-66 | the error shown is the body's non-empty `error`; a missing or empty `error` gives "Failed to generate documentation"; never empty |
| CreateDocsPage.GeneratedRoute | src/pages/CreateDocsPage.tsx:78-80 | the route after success is "/generated/" followed by the id, or "null" when there is none |
| CreateDocsPage.Form.constructor | src/pages/CreateDocsPage.tsx:22-25 | the form starts empty and idle |
| CreateDocsPage.Form.SetTopic | src/pages/CreateDocsPage.tsx:128 | typing sets the topic |
| CreateDocsPage.Form.SetContext | src/pages/CreateDocsPage.tsx:141 | typing sets the context |
| CreateDocsPage.Form.Submit | src/pages/CreateDocsPage.tsx:29-61 | a request is sent exactly when the topic is not blank; a blank topic raises "Topic required" and nothing else; otherwise generation starts at progress 0 and one request with the composed topic and save set is posted |
| CreateDocsPage.Form.Settle | src/pages/CreateDocsPage.tsx:63-92 | success raises its toast and schedules the document's route; a non-ok reply or a rejection raises the failure toast with its message; generation always ends with progress 0 |
| CreateDocsPage.SubmitFromEnabled | src/pages/CreateDocsPage.tsx:168 | pressing the enabled button posts exactly one request, asking to save, and disables the button |
| CreateDocsPage.GenerateOnce | src/pages/CreateDocsPage.tsx:29-92 | one full round posts the composed topic, schedules its route and leaves the form idle and enabled |
| AiAssistant.Count | src/components/AIAssistant.tsx:10 | a count of messages by role is bounded by the number of messages |
| AiAssistant.CountsPartition | src/components/AIAssistant.tsx:10 | the user's and the assistant's counts add up to the number of messages |
| AiAssistant.CountAppend | src/components/AIAssistant.tsx:20 | appending one message adds one to its own role's count only |
| AiAssistant.Widget.constructor | src/components/AIAssistant.tsx:7-15 | the widget starts closed, idle, with the greeting only |
| AiAssistant.Widget.Open | src/components/AIAssistant.tsx:42 | the button opens the widget |
| AiAssistant.Widget.Close | src/components/AIAssistant.tsx:73 | the close button closes it |
| AiAssistant.Widget.Type | src/components/AIAssistant.tsx:120 | typing sets the message |
| AiAssistant.Widget.HandleSend | src/components/AIAssistant.tsx:17-23 | a blank message changes nothing; any other is appended as typed, the input is cleared, loading starts, which disables the send button, and a reply is scheduled; the greeting stays first and every user message is answered or pending |
| AiAssistant.Widget.ReplyFires | src/components/AIAssistant.tsx:25-35 | a reply timer appends the fixed reply and ends loading, enabling the send button again, even while another reply is pending |
| AiAssistant.EnterTwice | src/components/AIAssistant.tsx:17-36 | two messages sent with Enter leave greeting, both messages and one reply, with the spinner off and the button enabled while a second reply is still pending |
| Expansion.ToggleExpand | src/components/MobileSidebar.tsx:28-32 | the key is listed afterwards exactly when it was not listed before |
| Expansion.ToggleMembership | src/components/MobileSidebar.tsx:28-32 | no other key changes membership |
| Expansion.ToggleAbsent | src/components/DocsSidebar.tsx:102-106 | an absent key is appended at the end |
| Expansion.TogglePresent | src/components/DocsSidebar.tsx:102-106 | a present key is removed, every copy of it, and the others keep their order and counts |
| Expansion.DoubleToggleAbsent | src/components/DocsSidebar.tsx:102-106 | toggling an absent key twice restores the list |
| Expansion.DoubleTogglePresent | src/components/DocsSidebar.tsx:102-106 | toggling a present key twice moves it, once, to the end |
| MobileSidebar.Sidebar.constructor | src/components/MobileSidebar.tsx:13-15 | the drawer starts closed with the active section expanded |
| MobileSidebar.Sidebar.Toggle | src/components/MobileSidebar.tsx:28-32 | a section's expansion flips |
| MobileSidebar.Sidebar.Open | src/components/MobileSidebar.tsx:38 | the menu button opens the drawer |
| MobileSidebar.Sidebar.Close | src/components/MobileSidebar.tsx:51-71 | the backdrop and the close button close it |
| MobileSidebar.Sidebar.FollowLink | src/components/MobileSidebar.tsx:121-127 | a page link routes to that page and closes the drawer |
| MobileSidebar.OneActivePage | src/components/MobileSidebar.tsx:121 | at most one navigation page is highlighted |
| DocsSidebar.Sidebar.constructor | src/components/DocsSidebar.tsx:100 | "Getting Started" and "API Reference" start expanded |
| DocsSidebar.Sidebar.Toggle | src/components/DocsSidebar.tsx:102-106 | a title's expansion flips |
| DocsSidebar.NavigationTitles | src/components/DocsSidebar.tsx:23-97 | the entry titles are distinct and every entry has links |
| DocsSidebar.InitialLinks | src/components/DocsSidebar.tsx:100-130 | on a fresh sidebar exactly the first and third entries show their links |
| Header.NavItems | src/components/Header.tsx:13-34 | Docs is active under "/docs", Create on "/create", Library on "/library" and under "/generated" |
| Header.AtMostOneActive | src/components/Header.tsx:13-34 | no pathname activates two items |
| Header.ItemActiveOnItsHref | src/components/Header.tsx:30-34 | each item is active on its own link's target |
| Header.Header.constructor | src/components/Header.tsx:9-10 | the menu and the search start closed |
| Header.Header.KeyDown | src/components/Header.tsx:19-28 | Ctrl or Cmd with K opens the search and never closes it; other keys change nothing |
| Header.Header.OpenSearch | src/components/Header.tsx:83 | the search button opens the search |
| Header.Header.SetSearchOpen | src/components/Header.tsx:142 | the dialog sets the search flag |
| Header.Header.ToggleMenu | src/components/Header.tsx:105 | the menu button flips the mobile menu |
| Header.Header.FollowMobileLink | src/components/Header.tsx:119-120 | a mobile link routes and closes the menu |
| Header.FollowItem | src/components/Header.tsx:116-126 | following a mobile link closes the menu and activates that item alone |
| Strings.Trim | src/pages/CreateDocsPage.tsx:30 | `trim` gives a trimmed text no longer than the input |
| Strings.TrimIdempotent | src/components/CodeBlock.tsx:50 | trimming twice is trimming once |
| Strings.TrimPadded | supabase/functions/generate-docs/index.ts:120 | white space around a trimmed text is removed exactly |
| Strings.BlankIffTrimmedEmpty | src/components/AIAssistant.tsx:18 | `!s.trim()` holds exactly when the text is all white space |
| Strings.ToLower | src/pages/LibraryPage.tsx:52 | lower-casing keeps the length and maps each character |
| Strings.ToLowerIdempotent | src/components/SearchDialog.tsx:45 | lower-casing twice is lower-casing once |
| Strings.ToLowerConcat | src/lib/exportUtils.ts:38 | lower-casing works piecewise on a concatenation |
| Strings.NatToString | src/lib/exportUtils.ts:21 | the TOC number is a non-empty string of digits without a leading zero |
| Strings.DecimalRoundTrip | src/lib/exportUtils.ts:21 | the digits read back as the number |

## Left out

- Lower-casing covers ASCII letters only. JavaScript's full Unicode case mapping is not modelled.
- Dictionary lookups (`langMap`, `iconMap`, the content table) use only their own keys. Keys inherited from `Object.prototype`, such as "constructor", are not modelled.
- The long Markdown bodies of the nine written documentation pages are not reproduced. `GetDocContent` takes the content table as a parameter, and `ContentIndex` records which keys it has.
- `convertMarkdownToHTML` and its regular expressions are not modelled. The PDF export takes the conversion as a function parameter, and the inline style sheet is fixed text that is not modelled.
- Browser effects are left out: the Blob download, `window.print`, `alert` display, body scroll locking and animations. The model records what would be written or shown.
- Syntax highlighting by prism, and the token split of each line, are not modelled. `LineNumbers` takes the number of token lines.
- CreateDocsPage.Form.Settle: the progress interval, which adds a random amount up to 90 every 500 ms, is not modelled. Only the values the handler writes itself (0 and 100) are.
- CreateDocsPage.Form.Settle: the toast description that counts the generated sections is not modelled. Toasts are recorded by kind.
- Dates (`created_at` formatting) and the ordering done by the database queries are not modelled. Rows arrive already in order.
- When both the header and the open search dialog receive Ctrl+K, the final open flag depends on the order in which React applies the two listeners' updates. Each listener is modelled on its own.
- GenerateDocs.Serve: JSON values that are neither strings nor arrays are modelled only as far as the checks need them: a topic is missing, not a string, or a string; `sections` is an array of sections or not an array. Other JSON values are not modelled.
- The system prompt, the model name, the temperature, the token limit, CORS headers and console logging of the server function are not modelled.
- GenerateDocs.Serve: an exception thrown by the database client itself, rather than an error it reports, is not modelled.
- The 500 ms delay before the route change after generation, the 1500 ms delay of the assistant's reply, and the 250 ms delay before printing, are not modelled. They are recorded as scheduled navigations, pending replies or the written page.
- Pages outside the core are not part of this model: the landing page, the static docs page, feature cards, the footer, the table of contents, the version selector and the plain search bar.
