/** The code block: language-name normalisation for the highlighter, the
    trimmed text it highlights with numbered lines, and the copy button whose
    `copied` flag a timer clears again. */
module CodeBlock {
  import opened Options
  import opened Strings

  /** The language shown when none is passed. */
  const DefaultLanguage := "typescript"

  /** How long the copied mark stays, in milliseconds. */
  const CopiedResetMs := 2000

  /** The aliases the highlighter is given instead of the name written. */
  const LangMap: map<string, string> := map[
    "ts" := "typescript",
    "js" := "javascript",
    "py" := "python",
    "sh" := "bash",
    "shell" := "bash",
    "json" := "json",
    "jsx" := "jsx",
    "tsx" := "tsx"
  ]

  /** The `language` prop with its default. */
  function Language(language: Option<string>): (r: string)
    ensures language.None? ==> r == DefaultLanguage
    ensures language.Some? ==> r == language.value
  {
    language.GetOr(DefaultLanguage)
  }

  /** `getLanguage`: the alias of the lower-cased name, or the lower-cased
      name itself. */
  function GetLanguage(lang: string): (r: string)
    ensures IsLowerCase(r)
    ensures ToLower(lang) in LangMap ==> r == LangMap[ToLower(lang)]
    ensures ToLower(lang) !in LangMap ==> r == ToLower(lang)
  {
    var key := ToLower(lang);
    ToLowerIsLower(lang);
    if key in LangMap && LangMap[key] != "" then LangMap[key] else key
  }

  /** A lower-case alias maps to its entry. */
  lemma AliasOf(name: string)
    requires name in LangMap && IsLowerCase(name)
    ensures GetLanguage(name) == LangMap[name]
  {
    ToLowerOfLower(name);
  }

  /** The aliases of TypeScript, JavaScript and Python. */
  lemma ScriptAliases()
    ensures GetLanguage("ts") == "typescript" && GetLanguage("js") == "javascript"
    ensures GetLanguage("py") == "python"
  {
    AliasOf("ts");
    AliasOf("js");
    AliasOf("py");
  }

  /** Both shell names map to `bash`. */
  lemma ShellAliases()
    ensures GetLanguage("sh") == "bash" && GetLanguage("shell") == "bash"
  {
    AliasOf("sh");
    AliasOf("shell");
  }

  /** `json`, `jsx` and `tsx` map to themselves. */
  lemma SelfAliases()
    ensures GetLanguage("json") == "json" && GetLanguage("jsx") == "jsx" && GetLanguage("tsx") == "tsx"
  {
    AliasOf("json");
    AliasOf("jsx");
    AliasOf("tsx");
  }

  /** The lookup ignores case, and an unknown name passes through
      lower-cased. */
  lemma CaseInsensitive(lang: string)
    ensures GetLanguage(lang) == GetLanguage(ToLower(lang))
  {
    ToLowerIdempotent(lang);
  }

  lemma UnknownPassesThrough()
    ensures GetLanguage("COBOL") == "cobol"
  {
    assert ToLower("COBOL") == "cobol";
  }

  /** An alias that is itself a key maps to itself. */
  lemma AliasTargetsFixed(k: string)
    requires k in LangMap && LangMap[k] in LangMap
    ensures LangMap[LangMap[k]] == LangMap[k]
  {
  }

  /** Normalising twice is normalising once. */
  lemma GetLanguageIdempotent(lang: string)
    ensures GetLanguage(GetLanguage(lang)) == GetLanguage(lang)
  {
    var key := ToLower(lang);
    var r := GetLanguage(lang);
    ToLowerOfLower(r);
    if key in LangMap && r in LangMap {
      AliasTargetsFixed(key);
    }
  }

  /** The text the highlighter receives: the part of `code` that starts
      where its leading white space ends and has only white space after it,
      with neither end white space. */
  function HighlightedCode(code: string): (r: string)
    ensures IsTrimmed(r)
    ensures |code| - |TrimStart(code)| + |r| <= |code|
    ensures forall i :: 0 <= i < |r| ==> r[i] == code[|code| - |TrimStart(code)| + i]
    ensures forall i :: 0 <= i < |code| - |TrimStart(code)| ==> IsWhitespace(code[i])
    ensures forall i :: |code| - |TrimStart(code)| + |r| <= i < |code| ==> IsWhitespace(code[i])
    ensures AllWhitespace(code) ==> r == []
  {
    TrimInfix(code);
    BlankIffTrimmedEmpty(code);
    Trim(code)
  }

  /** Code padded with white space on either side is highlighted without
      the padding. */
  lemma HighlightedPadded(w1: string, code: string, w2: string)
    requires AllWhitespace(w1) && AllWhitespace(w2) && IsTrimmed(code)
    ensures HighlightedCode(w1 + code + w2) == code
  {
    TrimPadded(w1, code, w2);
  }

  /** The gutter numbers of `lines` token lines. */
  function LineNumbers(lines: nat): (r: seq<nat>)
    ensures |r| == lines
    ensures forall i :: 0 <= i < lines ==> r[i] == i + 1
  {
    seq(lines, i => i + 1)
  }

  /** One rendered code block: its props are fixed, the `copied` flag is
      state, and so are the system clipboard and the reset timers it has
      scheduled that have not fired yet. */
  class Block {
    const code: string
    const language: string
    var copied: bool
    var clipboard: string
    var pendingResets: nat

    /** The copied mark is only ever shown while a timer that clears it is
        pending. */
    predicate Valid()
      reads this
    {
      copied ==> pendingResets > 0
    }

    constructor(code: string, language: Option<string>, clipboard: string)
      ensures Valid()
      ensures this.code == code && this.language == Language(language)
      ensures !copied && pendingResets == 0 && this.clipboard == clipboard
    {
      this.code := code;
      this.language := Language(language);
      copied := false;
      this.clipboard := clipboard;
      pendingResets := 0;
    }

    /** `handleCopy`: the clipboard receives the raw `code` prop, not the
        trimmed highlighted text; then the mark is set and a reset timer is
        scheduled. A rejected clipboard write ends the handler with nothing
        changed. */
    method HandleCopy(writeOk: bool)
      requires Valid()
      modifies this
      ensures Valid()
      ensures writeOk ==> clipboard == code && copied && pendingResets == old(pendingResets) + 1
      ensures !writeOk ==> clipboard == old(clipboard) && copied == old(copied) && pendingResets == old(pendingResets)
    {
      if !writeOk {
        return;
      }
      clipboard := code;
      copied := true;
      pendingResets := pendingResets + 1;
    }

    /** One reset timer fires after `CopiedResetMs`: the mark is cleared,
        even when a later copy has scheduled a timer of its own. */
    method ResetFires()
      requires Valid() && pendingResets > 0
      modifies this
      ensures Valid()
      ensures !copied && pendingResets == old(pendingResets) - 1 && clipboard == old(clipboard)
    {
      copied := false;
      pendingResets := pendingResets - 1;
    }
  }

  /** Copying twice leaves the mark to the earlier timer: the first reset
      clears it while the second is still pending. */
  method CopyTwiceThenFirstReset(code: string) returns (b: Block)
    ensures !b.copied && b.pendingResets == 1 && b.clipboard == code
  {
    b := new Block(code, None, "");
    b.HandleCopy(true);
    b.HandleCopy(true);
    b.ResetFires();
  }
}
