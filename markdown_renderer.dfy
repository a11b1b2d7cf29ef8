/**
 * How the markdown renderer treats a code element: the language named in its class, its text
 * without the final line break, whether its closing fence has arrived yet while a reply is
 * still streaming, and which renderer it goes to.
 */
module MarkdownRenderer {
  import opened Wrappers
  import opened JsText

  /** A character of `[\w-]`: an ASCII letter, digit, underscore or hyphen. */
  predicate IsLangChar(c: char) {
    ('A' <= c <= 'Z') || ('a' <= c <= 'z') || ('0' <= c <= '9') || c == '_' || c == '-'
  }

  const LANGUAGE_PREFIX: string := "language-"

  /** `/language-([\w-]+)/` matches at `p`: the prefix, then at least one language character. */
  ghost predicate MatchesAt(s: string, p: int) {
    && 0 <= p && p + |LANGUAGE_PREFIX| < |s|
    && s[p..p + |LANGUAGE_PREFIX|] == LANGUAGE_PREFIX
    && IsLangChar(s[p + |LANGUAGE_PREFIX|])
  }

  /** `s[i..i + n]` is a run of language characters that cannot be extended. */
  ghost predicate MaximalRun(s: string, i: int, n: int) {
    && 0 <= i && 0 <= n && i + n <= |s|
    && (forall k :: i <= k < i + n ==> IsLangChar(s[k]))
    && (i + n == |s| || !IsLangChar(s[i + n]))
  }

  /** The length of the run of language characters starting at `i`: the greedy `+`. */
  function RunLength(s: string, i: nat): (n: nat)
    requires i <= |s|
    ensures MaximalRun(s, i, n)
    decreases |s| - i
  {
    if i < |s| && IsLangChar(s[i]) then 1 + RunLength(s, i + 1) else 0
  }

  /** The first position at or after `p` where the pattern matches. */
  function MatchFrom(s: string, p: nat): (r: Option<nat>)
    ensures r.Some? ==> p <= r.value && r.value + |LANGUAGE_PREFIX| < |s|
    decreases |s| - p
  {
    if p + |LANGUAGE_PREFIX| >= |s| then None
    else if s[p..p + |LANGUAGE_PREFIX|] == LANGUAGE_PREFIX && IsLangChar(s[p + |LANGUAGE_PREFIX|]) then Some(p)
    else MatchFrom(s, p + 1)
  }

  /** `MatchFrom` finds the leftmost match at or after `p`, and only a real one. */
  lemma {:induction false} MatchFromFacts(s: string, p: nat)
    ensures MatchFrom(s, p).None? <==> forall q :: p <= q ==> !MatchesAt(s, q)
    ensures MatchFrom(s, p).Some? ==>
      var m := MatchFrom(s, p).value;
      p <= m && MatchesAt(s, m) && forall q :: p <= q < m ==> !MatchesAt(s, q)
    decreases |s| - p
  {
    if p + |LANGUAGE_PREFIX| >= |s| {
      assert forall q :: p <= q ==> !MatchesAt(s, q);
    } else if s[p..p + |LANGUAGE_PREFIX|] == LANGUAGE_PREFIX && IsLangChar(s[p + |LANGUAGE_PREFIX|]) {
      assert MatchesAt(s, p);
    } else {
      MatchFromFacts(s, p + 1);
      assert !MatchesAt(s, p);
    }
  }

  /** `match[1]` of `/language-([\w-]+)/.exec(s)`, or nothing when it does not match. */
  function LangMatch(s: string): Option<string> {
    match MatchFrom(s, 0)
    case None => None
    case Some(p) =>
      var start := p + |LANGUAGE_PREFIX|;
      Some(s[start..start + RunLength(s, start)])
  }

  /** The pattern matches at `p` and nowhere before it. */
  ghost predicate LeftmostMatch(s: string, p: int) {
    MatchesAt(s, p) && forall q :: 0 <= q < p ==> !MatchesAt(s, q)
  }

  /**
   * The regular expression's semantics: no match exactly when "language-" is nowhere followed
   * by a language character; otherwise the group is the longest run of language characters
   * after the leftmost such "language-", and it is never empty.
   */
  lemma LangMatchFacts(s: string)
    ensures LangMatch(s).None? <==> forall q :: 0 <= q ==> !MatchesAt(s, q)
    ensures LangMatch(s).Some? ==> exists p ::
      && LeftmostMatch(s, p)
      && MaximalRun(s, p + |LANGUAGE_PREFIX|, |LangMatch(s).value|)
      && LangMatch(s).value == s[p + |LANGUAGE_PREFIX|..p + |LANGUAGE_PREFIX| + |LangMatch(s).value|]
    ensures LangMatch(s).Some? ==> LangMatch(s).value != []
  {
    MatchFromFacts(s, 0);
    if MatchFrom(s, 0).Some? {
      LangGroup(s);
    }
  }

  /** The group found from the leftmost match: the run of language characters after its prefix. */
  lemma LangGroup(s: string)
    requires MatchFrom(s, 0).Some?
    ensures var p := MatchFrom(s, 0).value;
      var start := p + |LANGUAGE_PREFIX|;
      && LeftmostMatch(s, p)
      && LangMatch(s) == Some(s[start..start + RunLength(s, start)])
      && MaximalRun(s, start, RunLength(s, start))
      && RunLength(s, start) > 0
  {
    MatchFromFacts(s, 0);
  }

  /** The language: the group when the class names one, else the empty string. */
  function Lang(className: Option<string>): string {
    match LangMatch(Or(className, ""))
    case None => ""
    case Some(lang) => lang
  }

  lemma LangExamples()
    ensures Lang(Some("language-js")) == "js"
    ensures Lang(Some("language-")) == ""
    ensures Lang(None) == ""
  {
    var s := "language-js";
    assert s[..|LANGUAGE_PREFIX|] == LANGUAGE_PREFIX;
    assert MatchFrom(s, 0) == Some(0);
    assert RunLength(s, 11) == 0;
    assert RunLength(s, 10) == 1;
    assert RunLength(s, 9) == 2;
  }

  /** `String(children).replace(/\n$/, "")`: one final line break removed, if there is one. */
  function StripFinalNewline(s: string): (r: string)
    ensures s == r || s == r + "\n"
    ensures s == r <==> (s == [] || s[|s| - 1] != '\n')
  {
    if s != [] && s[|s| - 1] == '\n' then
      assert s == s[..|s| - 1] + "\n";
      s[..|s| - 1]
    else s
  }

  /** The end point of a code element in the markdown source; line and column are not consulted. */
  datatype Point = Point(offset: Option<nat>)

  /**
   * `isBlockComplete`: without an end position the block is incomplete; without an offset it is
   * complete; past the end of the source it is incomplete; otherwise its last three characters
   * must be a closing fence of backticks or tildes.
   */
  function IsBlockComplete(end: Option<Point>, source: string): (b: bool)
    ensures end.None? ==> !b
    ensures end.Some? && end.value.offset.None? ==> b
    ensures end.Some? && end.value.offset.Some? ==>
      var o := end.value.offset.value;
      (b <==> 3 <= o <= |source| && (source[o - 3..o] == "```" || source[o - 3..o] == "~~~"))
  {
    match end
    case None => false
    case Some(point) =>
      match point.offset
      case None => true
      case Some(o) =>
        if o > |source| then false
        else
          var fence := Slice(source, o - 3, o);
          assert o < 3 ==> |fence| < 3 by {
            if o < 3 { ShortSlice(source, o); }
          }
          fence == "```" || fence == "~~~"
  }

  /** Before the third character, `slice(o - 3, o)` is shorter than a fence. */
  lemma ShortSlice(source: string, o: nat)
    requires o < 3 && o <= |source|
    ensures |Slice(source, o - 3, o)| < 3
  {
  }

  /** The diagram components a plot language selects. */
  datatype DiagramKind = FunctionPlot | ForceGraph | MermaidGraph

  datatype Rendering =
    | Generating
    | Diagram(language: string, component: Option<DiagramKind>, content: string)
    | CodeBlock(language: string, content: string)
    | InlineCode(className: Option<string>, children: string)

  function DiagramFor(lang: string): Option<DiagramKind> {
    if lang == "plot-function" then Some(FunctionPlot)
    else if lang == "plot-force" then Some(ForceGraph)
    else if lang == "plot-mermaid" then Some(MermaidGraph)
    else None
  }

  /** `CodeBlock`: the element a code node renders to. */
  function Render(className: Option<string>, children: string, end: Option<Point>, source: string): (r: Rendering)
    ensures var lang := Lang(className);
      && (r.Generating? <==> StartsWith(lang, "plot-") && !IsBlockComplete(end, source))
      && (r.Diagram? <==> StartsWith(lang, "plot-") && IsBlockComplete(end, source))
      && (r.CodeBlock? <==> LangMatch(Or(className, "")).Some? && !StartsWith(lang, "plot-"))
      && (r.InlineCode? <==> LangMatch(Or(className, "")).None?)
  {
    var matched := LangMatch(Or(className, ""));
    var lang := if matched.Some? then matched.value else "";
    var content := StripFinalNewline(children);
    if StartsWith(lang, "plot-") then
      if !IsBlockComplete(end, source) then Generating
      else Diagram(if lang == "plot-mermaid" then "mermaid" else "json", DiagramFor(lang), content)
    else if matched.Some? then CodeBlock(lang, content)
    else InlineCode(className, children)
  }

  /**
   * A finished plot goes to the diagram wrapper: as mermaid code for `plot-mermaid`, as JSON
   * otherwise, with a component only for the three known kinds; its text loses one final line
   * break. Code in a named language goes to the code renderer the same way; anything else is
   * inline code with its children untouched.
   */
  lemma RenderContents(className: Option<string>, children: string, end: Option<Point>, source: string)
    ensures var r := Render(className, children, end, source);
      var lang := Lang(className);
      && (r.Diagram? ==>
        && r.language == (if lang == "plot-mermaid" then "mermaid" else "json")
        && (r.component.None? <==> lang != "plot-function" && lang != "plot-force" && lang != "plot-mermaid")
        && r.content == StripFinalNewline(children))
      && (r.CodeBlock? ==> r.language == lang && r.content == StripFinalNewline(children))
      && (r.InlineCode? ==> r.className == className && r.children == children)
  {
  }
}
