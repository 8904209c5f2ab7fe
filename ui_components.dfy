/** ui_components.py: the UI configuration record, the knowledge-source list shown in the
    sidebar, and the Markdown document offered for download. */
module UiComponents {
  import opened Text
  import opened Boundary

  /** `UIConfig`: a dataclass whose `__post_init__` fills in the supported formats. */
  class UIConfig {
    var buttonCounter: int
    var defaultFileFormat: string
    var supportedFormats: Option<seq<string>>

    /** The generated `__init__`, which ends by calling `__post_init__`. */
    constructor (buttonCounter: int := 0, defaultFileFormat: string := "json",
                 supportedFormats: Option<seq<string>> := None)
      ensures this.buttonCounter == buttonCounter && this.defaultFileFormat == defaultFileFormat
      ensures this.supportedFormats ==
                if supportedFormats.None? then Some(["json", "yaml"]) else supportedFormats
    {
      this.buttonCounter := buttonCounter;
      this.defaultFileFormat := defaultFileFormat;
      this.supportedFormats := supportedFormats;
      new;
      PostInit();
    }

    /** `__post_init__`: only a missing list of formats is replaced. */
    method PostInit()
      modifies this
      ensures supportedFormats == if old(supportedFormats).None? then Some(["json", "yaml"]) else old(supportedFormats)
      ensures buttonCounter == old(buttonCounter) && defaultFileFormat == old(defaultFileFormat)
    {
      if supportedFormats.None? {
        supportedFormats := Some(["json", "yaml"]);
      }
    }
  }

  // ---------------------------------------------------------------------------------
  // Knowledge sources

  /** The Markdown link of one source. */
  function SourceLink(title: string, url: string): (r: string)
    ensures StartsWith(r, "- [")
  {
    "- [" + title + "](" + url + ")"
  }

  /** The KeyError looking up a source's title, then its url, raises. */
  function SourceMissing(d: Dict): (r: Option<string>)
    ensures r.None? <==> "title" in d && "url" in d
  {
    if "title" !in d then Some("title") else if "url" !in d then Some("url") else None
  }

  predicate AllSourced(ss: seq<Dict>) {
    forall i :: 0 <= i < |ss| ==> "title" in ss[i] && "url" in ss[i]
  }

  /** The links of the sources, in order, or the first KeyError. */
  function SourceLinks(ss: seq<Dict>): (r: Result<seq<string>>)
    ensures r.Ok? <==> AllSourced(ss)
    ensures r.Ok? ==> |r.value| == |ss|
                      && forall i :: 0 <= i < |ss| ==> r.value[i] == SourceLink(ss[i]["title"], ss[i]["url"])
    ensures r.Err? ==> r.error in {KeyError("title"), KeyError("url")}
  {
    if ss == [] then Ok([])
    else
      match SourceMissing(ss[0])
      case Some(k) => Err(KeyError(k))
      case None =>
        match SourceLinks(ss[1..])
        case Err(e) => Err(e)
        case Ok(rest) =>
          assert forall i :: 1 <= i < |ss| ==> ss[i] == ss[1..][i - 1];
          Ok([SourceLink(ss[0]["title"], ss[0]["url"])] + rest)
  }

  /** `display_knowledge_sources(knowledge_sources)`: the returned `formatted_sources`. */
  function KnowledgeSourcesText(ss: seq<Dict>): Result<string> {
    match SourceLinks(ss)
    case Err(e) => Err(e)
    case Ok(links) => Ok(Join("\n", links))
  }

  const NoSourcesPlaceholder := "No knowledge sources provided"

  /** What the sidebar shows under "### Knowledge Sources". */
  function ShownSources(formatted: string): string {
    if formatted != "" then formatted else NoSourcesPlaceholder
  }

  /** The formatted text is empty exactly for an empty list, which is when the placeholder
      is shown; otherwise it is the links themselves. */
  lemma KnowledgeSourcesEmptyIff(ss: seq<Dict>)
    requires KnowledgeSourcesText(ss).Ok?
    ensures KnowledgeSourcesText(ss).value == "" <==> ss == []
    ensures ShownSources(KnowledgeSourcesText(ss).value) ==
              if ss == [] then NoSourcesPlaceholder else KnowledgeSourcesText(ss).value
  {
    var links := SourceLinks(ss).value;
    forall i | 0 <= i < |links| ensures links[i] != "" {
      assert StartsWith(links[i], "- [");
    }
    JoinEmptyIff("\n", links);
  }

  /** Every link has its line when the links hold no line break of their own. */
  lemma KnowledgeSourcesLines(ss: seq<Dict>)
    requires KnowledgeSourcesText(ss).Ok? && ss != []
    requires forall i :: 0 <= i < |ss| ==> '\n' !in SourceLinks(ss).value[i]
    ensures SplitOn(KnowledgeSourcesText(ss).value, '\n') == SourceLinks(ss).value
  {
    assert "\n" == ['\n'];
    SplitOnJoin('\n', SourceLinks(ss).value);
  }

  // ---------------------------------------------------------------------------------
  // create_markdown_content

  const Title := "# Generated Prompt\n"
  const PersonasHeading := "## Personas\n"
  const SourcesHeading := "## Knowledge Sources\n"

  /** The literal list `content` starts as. */
  function HeaderPieces(prompt: Dict): (r: Result<seq<string>>)
    ensures r.Ok? <==> "task" in prompt && "goals" in prompt
    ensures r.Ok? ==> |r.value| == 8 && r.value[0] == Title && r.value[7] == PersonasHeading
  {
    if "task" !in prompt then Err(KeyError("task"))
    else if "goals" !in prompt then Err(KeyError("goals"))
    else
      Ok([Title,
          "## Original Task Details\n",
          "**Task:** " + Get(prompt, "original_task", "N/A") + "\n",
          "**Goals:** " + Get(prompt, "original_goals", "N/A") + "\n\n",
          "## Enhanced Task Details\n",
          "**Task:** " + prompt["task"] + "\n",
          "**Goals:** " + prompt["goals"] + "\n\n",
          PersonasHeading])
  }

  predicate Complete(p: Dict) {
    "name" in p && "background" in p && "goals" in p && "beliefs" in p && "knowledge" in p
    && "communication_style" in p && "role" in p && "strengths" in p && "challenges" in p
  }

  /** The first of the nine keys, in the order the section reads them, that `p` lacks. */
  function PersonaMissing(p: Dict): (r: Option<string>)
    ensures r.None? <==> Complete(p)
    ensures r.Some? ==> r.value !in p
  {
    if "name" !in p then Some("name")
    else if "background" !in p then Some("background")
    else if "goals" !in p then Some("goals")
    else if "beliefs" !in p then Some("beliefs")
    else if "knowledge" !in p then Some("knowledge")
    else if "communication_style" !in p then Some("communication_style")
    else if "role" !in p then Some("role")
    else if "strengths" !in p then Some("strengths")
    else if "challenges" !in p then Some("challenges")
    else None
  }

  /** The nine lines of one persona's section. */
  function PersonaPieces(p: Dict): (r: seq<string>)
    requires Complete(p)
    ensures |r| == 9
  {
    ["### " + p["name"] + "\n",
     "- **Background:** " + p["background"] + "\n",
     "- **Goals:** " + p["goals"] + "\n",
     "- **Beliefs:** " + p["beliefs"] + "\n",
     "- **Knowledge:** " + p["knowledge"] + "\n",
     "- **Communication Style:** " + p["communication_style"] + "\n",
     "- **Role:** " + p["role"] + "\n",
     "- **Strengths:** " + p["strengths"] + "\n",
     "- **Challenges:** " + p["challenges"] + "\n\n"]
  }

  /** The persona sections, persona by persona, or the first KeyError. */
  function PersonaSections(ps: seq<Dict>): (r: Result<seq<string>>)
    ensures r.Ok? <==> forall i :: 0 <= i < |ps| ==> Complete(ps[i])
    ensures r.Ok? ==> |r.value| == 9 * |ps|
  {
    if ps == [] then Ok([])
    else
      match PersonaSections(ps[..|ps| - 1])
      case Err(e) => Err(e)
      case Ok(c) =>
        match PersonaMissing(ps[|ps| - 1])
        case Some(k) => Err(KeyError(k))
        case None =>
          assert forall i :: 0 <= i < |ps| - 1 ==> ps[i] == ps[..|ps| - 1][i];
          Ok(c + PersonaPieces(ps[|ps| - 1]))
  }

  /** The source lines, each link on its own line. */
  function SourceLines(ss: seq<Dict>): (r: Result<seq<string>>)
    ensures r.Ok? <==> AllSourced(ss)
    ensures r.Ok? ==> |r.value| == |ss|
  {
    if ss == [] then Ok([])
    else
      match SourceLines(ss[..|ss| - 1])
      case Err(e) => Err(e)
      case Ok(c) =>
        match SourceMissing(ss[|ss| - 1])
        case Some(k) => Err(KeyError(k))
        case None =>
          assert forall i :: 0 <= i < |ss| - 1 ==> ss[i] == ss[..|ss| - 1][i];
          Ok(c + [SourceLink(ss[|ss| - 1]["title"], ss[|ss| - 1]["url"]) + "\n"])
  }

  /** `if knowledge_sources:` — None and [] both leave the section out. */
  function SourceSection(sources: Option<seq<Dict>>): Result<seq<string>> {
    if sources.None? || sources.value == [] then Ok([])
    else
      match SourceLines(sources.value)
      case Err(e) => Err(e)
      case Ok(ls) => Ok([SourcesHeading] + ls)
  }

  /** The two closing sections. */
  function TailPieces(prompt: Dict): (r: Result<seq<string>>)
    ensures r.Ok? <==> "conflict_resolution" in prompt && "instructions" in prompt
  {
    if "conflict_resolution" !in prompt then Err(KeyError("conflict_resolution"))
    else if "instructions" !in prompt then Err(KeyError("instructions"))
    else
      Ok(["\n## Conflict Resolution Strategy\n" + prompt["conflict_resolution"] + "\n",
          "\n## Instructions\n" + prompt["instructions"] + "\n"])
  }

  /** The whole `content` list, or the first KeyError in the order the code meets them. */
  function MarkdownPieces(prompt: Dict, ps: seq<Dict>, sources: Option<seq<Dict>>): Result<seq<string>> {
    match HeaderPieces(prompt)
    case Err(e) => Err(e)
    case Ok(h) =>
      match PersonaSections(ps)
      case Err(e) => Err(e)
      case Ok(p) =>
        match SourceSection(sources)
        case Err(e) => Err(e)
        case Ok(s) =>
          match TailPieces(prompt)
          case Err(e) => Err(e)
          case Ok(t) => Ok(h + p + s + t)
  }

  /** `"".join(content)` */
  function MarkdownContent(prompt: Dict, ps: seq<Dict>, sources: Option<seq<Dict>>): Result<string> {
    match MarkdownPieces(prompt, ps, sources)
    case Err(e) => Err(e)
    case Ok(content) => Ok(Concat(content))
  }

  /** `create_markdown_content(prompt, personas, knowledge_sources)`, growing `content` with
      extend and append as the code does. */
  method CreateMarkdownContent(prompt: Dict, personas: seq<Dict>, sources: Option<seq<Dict>>)
    returns (r: Result<string>)
    ensures r == MarkdownContent(prompt, personas, sources)
  {
    var header := HeaderPieces(prompt);
    if header.Err? {
      return Err(header.error);
    }
    var sections := AppendPersonaSections(personas);
    if sections.Err? {
      return Err(sections.error);
    }
    var content := header.value + sections.value;
    if sources.Some? && sources.value != [] {
      var lines := AppendSourceLines(sources.value);
      if lines.Err? {
        return Err(lines.error);
      }
      content := content + ([SourcesHeading] + lines.value);
    }
    assert content == header.value + sections.value + SourceSection(sources).value;
    var tail := TailPieces(prompt);
    if tail.Err? {
      return Err(tail.error);
    }
    content := content + tail.value;
    return Ok(Concat(content));
  }

  /** The `for persona in personas: content.extend([...])` loop. */
  method AppendPersonaSections(ps: seq<Dict>) returns (r: Result<seq<string>>)
    ensures r == PersonaSections(ps)
  {
    var content: seq<string> := [];
    var i := 0;
    while i < |ps|
      invariant 0 <= i <= |ps|
      invariant PersonaSections(ps[..i]) == Ok(content)
    {
      assert ps[..i + 1][..i] == ps[..i];
      var missing := PersonaMissing(ps[i]);
      if missing.Some? {
        PersonaSectionsErrFrom(ps, i + 1);
        return Err(KeyError(missing.value));
      }
      content := content + PersonaPieces(ps[i]);
      i := i + 1;
    }
    assert ps[..i] == ps;
    return Ok(content);
  }

  /** The `for source in knowledge_sources: content.append(...)` loop. */
  method AppendSourceLines(ss: seq<Dict>) returns (r: Result<seq<string>>)
    ensures r == SourceLines(ss)
  {
    var content: seq<string> := [];
    var i := 0;
    while i < |ss|
      invariant 0 <= i <= |ss|
      invariant SourceLines(ss[..i]) == Ok(content)
    {
      assert ss[..i + 1][..i] == ss[..i];
      var missing := SourceMissing(ss[i]);
      if missing.Some? {
        SourceLinesErrFrom(ss, i + 1);
        return Err(KeyError(missing.value));
      }
      content := content + [SourceLink(ss[i]["title"], ss[i]["url"]) + "\n"];
      i := i + 1;
    }
    assert ss[..i] == ss;
    return Ok(content);
  }

  lemma {:induction false} PersonaSectionsErrFrom(ps: seq<Dict>, n: nat)
    requires n <= |ps| && PersonaSections(ps[..n]).Err?
    ensures PersonaSections(ps) == PersonaSections(ps[..n])
    decreases |ps| - n
  {
    if n < |ps| {
      assert ps[..n + 1][..n] == ps[..n];
      PersonaSectionsErrFrom(ps, n + 1);
    } else {
      assert ps[..n] == ps;
    }
  }

  lemma {:induction false} SourceLinesErrFrom(ss: seq<Dict>, n: nat)
    requires n <= |ss| && SourceLines(ss[..n]).Err?
    ensures SourceLines(ss) == SourceLines(ss[..n])
    decreases |ss| - n
  {
    if n < |ss| {
      assert ss[..n + 1][..n] == ss[..n];
      SourceLinesErrFrom(ss, n + 1);
    } else {
      assert ss[..n] == ss;
    }
  }

  // ---------------------------------------------------------------------------------
  // Properties of create_markdown_content

  /** A KeyError is raised exactly when the prompt lacks task, goals, conflict_resolution or
      instructions, a persona lacks one of its nine keys (role, strengths and challenges
      included), or a non-empty source list has a source without title or url. */
  lemma MarkdownFailsIff(prompt: Dict, ps: seq<Dict>, sources: Option<seq<Dict>>)
    ensures MarkdownContent(prompt, ps, sources).Err? <==>
              "task" !in prompt || "goals" !in prompt
              || (exists i :: 0 <= i < |ps| && !Complete(ps[i]))
              || (sources.Some? && !AllSourced(sources.value))
              || "conflict_resolution" !in prompt || "instructions" !in prompt
  {
  }

  /** Persona i owns pieces 9i..9i+8: its "### name" heading, seven "- **…:** …" lines in
      fixed order, and the challenges line followed by a blank line. */
  lemma PersonaSectionsShape(ps: seq<Dict>, i: nat)
    requires PersonaSections(ps).Ok? && i < |ps|
    ensures Complete(ps[i])
    ensures PersonaSections(ps).value[9 * i..9 * i + 9] == PersonaPieces(ps[i])
    ensures PersonaSections(ps).value[9 * i] == "### " + ps[i]["name"] + "\n"
    ensures EndsWith(PersonaSections(ps).value[9 * i + 8], "\n\n")
  {
    PersonaSectionsSlice(ps, i);
    PersonaPiecesShape(ps[i]);
    var v := PersonaSections(ps).value;
    assert v[9 * i] == v[9 * i..9 * i + 9][0];
    assert v[9 * i + 8] == v[9 * i..9 * i + 9][8];
  }

  lemma {:induction false} PersonaSectionsSlice(ps: seq<Dict>, i: nat)
    requires PersonaSections(ps).Ok? && i < |ps|
    ensures Complete(ps[i])
    ensures PersonaSections(ps).value[9 * i..9 * i + 9] == PersonaPieces(ps[i])
  {
    var n := |ps|;
    var c := PersonaSections(ps[..n - 1]).value;
    var d := PersonaPieces(ps[n - 1]);
    assert PersonaSections(ps).value == c + d;
    if i < n - 1 {
      assert ps[..n - 1][i] == ps[i];
      PersonaSectionsSlice(ps[..n - 1], i);
      SliceOfLeft(c, d, 9 * i, 9 * i + 9);
    } else {
      SliceOfRight(c, d);
    }
  }

  lemma SliceOfLeft<T>(c: seq<T>, d: seq<T>, lo: nat, hi: nat)
    requires lo <= hi <= |c|
    ensures (c + d)[lo..hi] == c[lo..hi]
  {
  }

  lemma SliceOfRight<T>(c: seq<T>, d: seq<T>)
    ensures (c + d)[|c|..|c| + |d|] == d
  {
  }

  lemma PersonaPiecesShape(p: Dict)
    requires Complete(p)
    ensures PersonaPieces(p)[0] == "### " + p["name"] + "\n"
    ensures EndsWith(PersonaPieces(p)[8], "\n\n")
  {
    EndsWithAppend("- **Challenges:** " + p["challenges"], "\n\n");
  }

  /** The knowledge-source section is absent for None and for [], and otherwise is its heading
      followed by one "- [title](url)\n" line per source, in order. */
  lemma SourceSectionShape(sources: Option<seq<Dict>>)
    requires SourceSection(sources).Ok?
    ensures SourceSection(sources).value == [] <==> sources.None? || sources.value == []
    ensures sources.Some? && sources.value != [] ==>
              var s := SourceSection(sources).value;
              |s| == |sources.value| + 1 && s[0] == SourcesHeading
              && forall i :: 0 <= i < |sources.value| ==>
                   "title" in sources.value[i] && "url" in sources.value[i]
                   && s[i + 1] == SourceLink(sources.value[i]["title"], sources.value[i]["url"]) + "\n"
  {
    if sources.Some? && sources.value != [] {
      forall i | 0 <= i < |sources.value|
        ensures SourceLines(sources.value).value[i] ==
                  SourceLink(sources.value[i]["title"], sources.value[i]["url"]) + "\n"
      {
        SourceLinesAt(sources.value, i);
      }
    }
  }

  lemma {:induction false} SourceLinesAt(ss: seq<Dict>, i: nat)
    requires SourceLines(ss).Ok? && i < |ss|
    ensures "title" in ss[i] && "url" in ss[i]
    ensures SourceLines(ss).value[i] == SourceLink(ss[i]["title"], ss[i]["url"]) + "\n"
  {
    var n := |ss|;
    if i < n - 1 {
      assert ss[..n - 1][i] == ss[i];
      SourceLinesAt(ss[..n - 1], i);
    }
  }

  /** The Markdown's source lines are the sidebar's links, each closed by a line break. */
  lemma SourceLinesAreLinks(ss: seq<Dict>)
    requires SourceLines(ss).Ok? && ss != []
    ensures Concat(SourceLines(ss).value) == KnowledgeSourcesText(ss).value + "\n"
  {
    var lines := SourceLines(ss).value;
    forall i | 0 <= i < |ss| ensures "title" in ss[i] && "url" in ss[i] {
      SourceLinesAt(ss, i);
    }
    var links := SourceLinks(ss).value;
    forall i | 0 <= i < |lines| ensures lines[i] == links[i] + "\n" {
      SourceLinesAt(ss, i);
    }
    ConcatTerminated("\n", links, lines);
  }

  /** The document opens with "# Generated Prompt\n" and closes with the conflict-resolution
      section followed by the instructions section. */
  lemma MarkdownFrame(prompt: Dict, ps: seq<Dict>, sources: Option<seq<Dict>>)
    requires MarkdownContent(prompt, ps, sources).Ok?
    ensures var r := MarkdownContent(prompt, ps, sources).value;
            StartsWith(r, Title)
            && EndsWith(r, "\n## Conflict Resolution Strategy\n" + prompt["conflict_resolution"] + "\n"
                           + ("\n## Instructions\n" + prompt["instructions"] + "\n"))
  {
    MarkdownParts(prompt, ps, sources);
    var h := HeaderPieces(prompt).value;
    var p := PersonaSections(ps).value;
    var src := SourceSection(sources).value;
    var t := TailPieces(prompt).value;
    assert h + p + src + t == h + (p + src) + [t[0], t[1]];
    ConcatFrame(h, p + src, t[0], t[1]);
  }

  /** A successful document is the concatenation of its four parts. */
  lemma MarkdownParts(prompt: Dict, ps: seq<Dict>, sources: Option<seq<Dict>>)
    requires MarkdownContent(prompt, ps, sources).Ok?
    ensures HeaderPieces(prompt).Ok? && PersonaSections(ps).Ok? && SourceSection(sources).Ok? && TailPieces(prompt).Ok?
    ensures MarkdownContent(prompt, ps, sources).value ==
              Concat(HeaderPieces(prompt).value + PersonaSections(ps).value + SourceSection(sources).value
                     + TailPieces(prompt).value)
  {
  }

  /** The original task and goals show as typed, or "N/A" when the prompt lacks them. */
  lemma HeaderOriginals(prompt: Dict)
    requires "task" in prompt && "goals" in prompt
    ensures HeaderPieces(prompt).value[2] ==
              "**Task:** " + (if "original_task" in prompt then prompt["original_task"] else "N/A") + "\n"
    ensures HeaderPieces(prompt).value[3] ==
              "**Goals:** " + (if "original_goals" in prompt then prompt["original_goals"] else "N/A") + "\n\n"
  {
  }

  /** The concatenation of a list starts with its first piece and ends with its last two. */
  lemma ConcatFrame(h: seq<string>, m: seq<string>, x: string, y: string)
    requires h != []
    ensures StartsWith(Concat(h + m + [x, y]), h[0])
    ensures EndsWith(Concat(h + m + [x, y]), x + y)
  {
    ConcatAppend(h + m, [x, y]);
    ConcatAppend(h, m);
    assert [x, y][1..] == [y];
    assert Concat([y]) == y by { assert [y][1..] == []; }
    assert Concat([x, y]) == x + y;
    assert Concat(h) == h[0] + Concat(h[1..]);
    PrefixStarts(h[0], Concat(h[1..]), Concat(m) + Concat([x, y]));
    assert Concat(h + m + [x, y]) == h[0] + Concat(h[1..]) + (Concat(m) + Concat([x, y]));
    EndsWithAppend(Concat(h + m), x + y);
  }

  lemma PrefixStarts(a: string, b: string, c: string)
    ensures StartsWith(a + b + c, a)
  {
    assert a + b + c == a + (b + c);
  }
}
