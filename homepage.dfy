/** homepage.py: the data steps of the "Generate Prompt" handler, the fallbacks of its two
    LLM-backed helpers, and the session counter that keeps download-button keys unique. */
module Homepage {
  import opened Text
  import opened Boundary
  import SharedFunctions
  import UiComponents

  /** `value or ""` for a text area that may hold None. */
  function OrEmpty(s: Option<string>): string {
    if s.Some? then s.value else ""
  }

  /** How an f-string shows a value that may be None. */
  function Shown(s: Option<string>): string {
    if s.Some? then s.value else "None"
  }

  // ---------------------------------------------------------------------------------
  // The handler's data steps

  /** `[url.strip() for url in (reference_urls or "").splitlines() if url.strip()]` */
  function HandlerUrls(referenceUrls: Option<string>): seq<string> {
    NonBlankStripped(SplitLines(OrEmpty(referenceUrls)))
  }

  /** The URLs are non-blank, already stripped and free of line breaks; no text gives none. */
  lemma HandlerUrlsClean(referenceUrls: Option<string>)
    ensures referenceUrls.None? ==> HandlerUrls(referenceUrls) == []
    ensures forall u :: u in HandlerUrls(referenceUrls) ==>
              u != "" && Strip(u) == u && '\n' !in u && '\r' !in u
  {
    var lines := SplitLines(OrEmpty(referenceUrls));
    forall l | l in lines ensures '\n' !in l && '\r' !in l {
      forall i | 0 <= i < |l| ensures l[i] != '\n' && l[i] != '\r' {
        assert !IsLineBreak(l[i]);
      }
    }
    NonBlankStrippedFrom(lines, '\n');
    NonBlankStrippedFrom(lines, '\r');
    forall u | u in HandlerUrls(referenceUrls) ensures u != "" {
      var i :| 0 <= i < |HandlerUrls(referenceUrls)| && HandlerUrls(referenceUrls)[i] == u;
    }
  }

  /** `{"title": url.split('/')[-1], "url": url}` */
  function KnowledgeSource(url: string): Dict {
    map["title" := AfterLast(url, '/'), "url" := url]
  }

  function KnowledgeSources(urls: seq<string>): (r: seq<Dict>)
    ensures |r| == |urls| && forall i :: 0 <= i < |urls| ==> r[i] == KnowledgeSource(urls[i])
  {
    seq(|urls|, i requires 0 <= i < |urls| => KnowledgeSource(urls[i]))
  }

  /** One source per URL, in order: the url verbatim, and a title that is the URL's last
      path segment, so it ends the URL and holds no '/'. */
  lemma KnowledgeSourcesShape(urls: seq<string>, i: nat)
    requires i < |urls|
    ensures var s := KnowledgeSources(urls)[i];
            s.Keys == {"title", "url"} && s["url"] == urls[i]
            && '/' !in s["title"] && EndsWith(urls[i], s["title"])
            && ('/' !in urls[i] ==> s["title"] == urls[i])
  {
    var u := urls[i];
    if '/' !in u {
      assert RFind(u, '/') < 0;
    }
  }

  const NoConflicts := "No conflicts detected."

  /** `resolve_conflicts(personas)` once its completion call has `reply`. */
  function ResolveConflicts(reply: Completion): string {
    if reply.Failed? then NoConflicts else Strip(reply.text)
  }

  /** The text `generate_instructions` falls back to. */
  function InstructionsFallback(task: Option<string>, goals: Option<string>): string {
    "Complete the task: " + Shown(task) + " with the following goals: " + Shown(goals)
    + " and refer to the provided knowledge sources."
  }

  predicate AllSourced(sources: seq<Dict>) {
    forall i :: 0 <= i < |sources| ==> "title" in sources[i] && "url" in sources[i]
  }

  /** `generate_instructions(task_description, goals, knowledge_sources)` once its completion
      call has `reply`; a source without title or url raises inside the `try` too. */
  function GenerateInstructions(task: Option<string>, goals: Option<string>, sources: seq<Dict>,
                                reply: Completion): string {
    if !AllSourced(sources) || reply.Failed? then InstructionsFallback(task, goals)
    else Strip(reply.text)
  }

  /** A failing completion yields exactly the fixed fallbacks, and the instructions' fallback
      carries the task and goals as typed. */
  lemma HelperFallbacks(task: Option<string>, goals: Option<string>, sources: seq<Dict>)
    ensures ResolveConflicts(Failed) == "No conflicts detected."
    ensures GenerateInstructions(task, goals, sources, Failed) == InstructionsFallback(task, goals)
    ensures Contains(InstructionsFallback(task, goals), Shown(task))
    ensures Contains(InstructionsFallback(task, goals), Shown(goals))
    ensures StartsWith(InstructionsFallback(task, goals), "Complete the task: ")
  {
    var a := "Complete the task: ";
    var b := " with the following goals: ";
    var c := " and refer to the provided knowledge sources.";
    ConcatParts(a, Shown(task), b + Shown(goals), c);
    Regroup(a, Shown(task), b, Shown(goals), c);
    ContainsMiddle(a, Shown(task), b + Shown(goals) + c);
    ContainsMiddle(a + Shown(task) + b, Shown(goals), c);
  }

  lemma Regroup(a: string, t: string, b: string, g: string, c: string)
    ensures a + t + b + g + c == a + t + (b + g + c)
  {
  }

  /** The dict the handler stores as `prompt`; `task` and `goals` come from a `task_details`
      that never holds `enhanced_task` or `enhanced_goals`, so they are the raw inputs. */
  datatype HomePrompt = HomePrompt(
    originalTask: Option<string>, originalGoals: Option<string>,
    task: Option<string>, goals: Option<string>,
    personas: seq<string>, knowledgeSources: seq<Dict>,
    conflictResolution: string, instructions: string, fullPersonas: seq<Dict>)

  /** The `task_details` the handler passes to `generate_personas`. */
  function HandlerDetails(taskInput: Option<string>, goalsInput: Option<string>, urlsInput: Option<string>): TaskDetails {
    TaskDetails(OrEmpty(taskInput), Some(OrEmpty(goalsInput)), Some(HandlerUrls(urlsInput)))
  }

  /** What the shared `generate_personas` returns always carries the nine required fields. */
  lemma GeneratedComplete(model: Result<string>, details: TaskDetails, count: int,
                          enhanceReply: Completion, personaReply: Completion, parse: string -> Option<Json>)
    requires SharedFunctions.GeneratedPersonas(model, details, count, enhanceReply, personaReply, parse).Ok?
    ensures var ps := SharedFunctions.GeneratedPersonas(model, details, count, enhanceReply, personaReply, parse).value;
            forall i :: 0 <= i < |ps| ==> SharedFunctions.RequiredFields <= ps[i].Keys
  {
    var ps := SharedFunctions.GeneratedPersonas(model, details, count, enhanceReply, personaReply, parse).value;
    assert ps == SharedFunctions.PersonasFromReply(personaReply, parse, count);
    forall i | 0 <= i < |ps| ensures SharedFunctions.RequiredFields <= ps[i].Keys {
      SharedFunctions.PersonasComplete(personaReply, parse, count, i);
    }
  }

  /** Personas with the nine required fields are named. */
  lemma CompleteNamed(ps: seq<Dict>)
    requires forall i :: 0 <= i < |ps| ==> SharedFunctions.RequiredFields <= ps[i].Keys
    ensures AllNamed(ps)
  {
    assert "name" in SharedFunctions.RequiredFields;
  }

  /** The stored prompt once the personas are generated. */
  function BuildPrompt(taskInput: Option<string>, goalsInput: Option<string>, urls: seq<string>,
                       personas: seq<Dict>, conflictReply: Completion, instructionsReply: Completion): HomePrompt
    requires AllNamed(personas)
  {
    var sources := KnowledgeSources(urls);
    HomePrompt(taskInput, goalsInput, taskInput, goalsInput, Names(personas), sources,
               ResolveConflicts(conflictReply),
               GenerateInstructions(taskInput, goalsInput, sources, instructionsReply),
               personas)
  }

  /** The Generate button's handler, from the three text areas and the persona count to the
      stored prompt; the completion calls' outcomes and the shared model resolution are
      parameters. */
  function GenerateHandler(model: Result<string>, taskInput: Option<string>, goalsInput: Option<string>,
                           urlsInput: Option<string>, count: int,
                           enhanceReply: Completion, personaReply: Completion, parse: string -> Option<Json>,
                           conflictReply: Completion, instructionsReply: Completion): Result<HomePrompt>
  {
    var details := HandlerDetails(taskInput, goalsInput, urlsInput);
    var generated := SharedFunctions.GeneratedPersonas(model, details, count, enhanceReply, personaReply, parse);
    if generated.Err? then Err(generated.error)
    else
      GeneratedComplete(model, details, count, enhanceReply, personaReply, parse);
      CompleteNamed(generated.value);
      Ok(BuildPrompt(taskInput, goalsInput, HandlerUrls(urlsInput), generated.value, conflictReply, instructionsReply))
  }

  /** `task` and `goals` are the raw inputs, `personas` the names of `full_personas` in
      order, one knowledge source per URL, and the instructions never fall back for want of
      a title or url. */
  lemma BuildPromptFields(taskInput: Option<string>, goalsInput: Option<string>, urls: seq<string>,
                          personas: seq<Dict>, conflictReply: Completion, instructionsReply: Completion)
    requires AllNamed(personas)
    ensures var p := BuildPrompt(taskInput, goalsInput, urls, personas, conflictReply, instructionsReply);
            p.task == p.originalTask == taskInput && p.goals == p.originalGoals == goalsInput
            && p.fullPersonas == personas
            && |p.personas| == |personas|
            && (forall i :: 0 <= i < |personas| ==> p.personas[i] == personas[i]["name"])
            && p.knowledgeSources == KnowledgeSources(urls)
            && p.instructions == (if instructionsReply.Failed? then InstructionsFallback(taskInput, goalsInput)
                                  else Strip(instructionsReply.text))
  {
    var sources := KnowledgeSources(urls);
    assert AllSourced(sources);
    var p := BuildPrompt(taskInput, goalsInput, urls, personas, conflictReply, instructionsReply);
    assert p.instructions == GenerateInstructions(taskInput, goalsInput, sources, instructionsReply);
    assert p.personas == Names(personas);
  }

  /** The handler fails only when model resolution does, and then with its error. */
  lemma HandlerFails(model: Result<string>, taskInput: Option<string>, goalsInput: Option<string>,
                     urlsInput: Option<string>, count: int,
                     enhanceReply: Completion, personaReply: Completion, parse: string -> Option<Json>,
                     conflictReply: Completion, instructionsReply: Completion)
    ensures var r := GenerateHandler(model, taskInput, goalsInput, urlsInput, count, enhanceReply,
                                     personaReply, parse, conflictReply, instructionsReply);
            (r.Err? <==> model.Err?) && (r.Err? ==> r.error == model.error)
  {
    var details := HandlerDetails(taskInput, goalsInput, urlsInput);
    SharedFunctions.GeneratedPersonasFailIff(model, details, count, enhanceReply, personaReply, parse);
  }

  // ---------------------------------------------------------------------------------
  // display_prompt

  /** The prompt's text-valued entries as `create_markdown_content` reads them. */
  function MarkdownPrompt(p: HomePrompt): Dict {
    map["original_task" := Shown(p.originalTask), "original_goals" := Shown(p.originalGoals),
        "task" := Shown(p.task), "goals" := Shown(p.goals),
        "conflict_resolution" := p.conflictResolution, "instructions" := p.instructions]
  }

  /** The Markdown `display_prompt` builds for a prompt. */
  function PromptMarkdown(p: HomePrompt): Result<string> {
    UiComponents.MarkdownContent(MarkdownPrompt(p), p.fullPersonas, Some(p.knowledgeSources))
  }

  /** A prompt the handler produced always renders: its personas carry all nine fields and
      its sources both title and url. */
  lemma HandlerPromptRenders(model: Result<string>, taskInput: Option<string>, goalsInput: Option<string>,
                             urlsInput: Option<string>, count: int,
                             enhanceReply: Completion, personaReply: Completion, parse: string -> Option<Json>,
                             conflictReply: Completion, instructionsReply: Completion)
    requires GenerateHandler(model, taskInput, goalsInput, urlsInput, count, enhanceReply,
                             personaReply, parse, conflictReply, instructionsReply).Ok?
    ensures PromptMarkdown(GenerateHandler(model, taskInput, goalsInput, urlsInput, count, enhanceReply,
                                           personaReply, parse, conflictReply, instructionsReply).value).Ok?
  {
    var details := HandlerDetails(taskInput, goalsInput, urlsInput);
    GeneratedComplete(model, details, count, enhanceReply, personaReply, parse);
    var ps := SharedFunctions.GeneratedPersonas(model, details, count, enhanceReply, personaReply, parse).value;
    CompleteNamed(ps);
    BuildPromptRenders(taskInput, goalsInput, HandlerUrls(urlsInput), ps, conflictReply, instructionsReply);
  }

  /** A prompt built from personas with the nine required fields renders. */
  lemma BuildPromptRenders(taskInput: Option<string>, goalsInput: Option<string>, urls: seq<string>,
                           personas: seq<Dict>, conflictReply: Completion, instructionsReply: Completion)
    requires forall i :: 0 <= i < |personas| ==> SharedFunctions.RequiredFields <= personas[i].Keys
    requires AllNamed(personas)
    ensures PromptMarkdown(BuildPrompt(taskInput, goalsInput, urls, personas, conflictReply, instructionsReply)).Ok?
  {
    var p := BuildPrompt(taskInput, goalsInput, urls, personas, conflictReply, instructionsReply);
    forall i | 0 <= i < |personas| ensures UiComponents.Complete(personas[i]) {
      RequiredComplete(personas[i]);
    }
    assert UiComponents.AllSourced(p.knowledgeSources);
    UiComponents.MarkdownFailsIff(MarkdownPrompt(p), p.fullPersonas, Some(p.knowledgeSources));
  }

  lemma RequiredComplete(d: Dict)
    requires SharedFunctions.RequiredFields <= d.Keys
    ensures UiComponents.Complete(d)
  {
    var keys := d.Keys;
    assert "name" in keys && "background" in keys && "goals" in keys;
    assert "beliefs" in keys && "knowledge" in keys && "communication_style" in keys;
    assert "role" in keys && "strengths" in keys && "challenges" in keys;
  }

  /** The key of the Markdown download button for a counter value. */
  function DownloadKey(counter: nat): string {
    "download_markdown_" + Decimal(counter)
  }

  /** Different counter values give different keys. */
  lemma DownloadKeysDistinct(a: nat, b: nat)
    requires a != b
    ensures DownloadKey(a) != DownloadKey(b)
  {
    var pre := "download_markdown_";
    if DownloadKey(a) == DownloadKey(b) {
      assert DownloadKey(a)[|pre|..] == Decimal(a);
      assert DownloadKey(b)[|pre|..] == Decimal(b);
      DecimalInjective(a, b);
    }
  }

  /** The part of `st.session_state` the home page keeps. */
  class Session {
    var buttonCounter: nat
    var currentPrompt: Option<HomePrompt>

    /** `page1` starts the counter at 0 when the session has none. */
    constructor ()
      ensures buttonCounter == 0 && currentPrompt == None
    {
      buttonCounter := 0;
      currentPrompt := None;
    }

    /** `display_prompt(prompt)`: builds the Markdown, keys the download button with the
        current counter, then increments it by exactly one; a KeyError while building the
        Markdown leaves the counter as it was. */
    method DisplayPrompt(p: HomePrompt) returns (r: Result<string>, key: string)
      modifies this
      ensures r == PromptMarkdown(p)
      ensures key == DownloadKey(old(buttonCounter))
      ensures buttonCounter == if r.Ok? then old(buttonCounter) + 1 else old(buttonCounter)
      ensures currentPrompt == old(currentPrompt)
    {
      key := DownloadKey(buttonCounter);
      r := UiComponents.CreateMarkdownContent(MarkdownPrompt(p), p.fullPersonas, Some(p.knowledgeSources));
      if r.Ok? {
        buttonCounter := buttonCounter + 1;
      }
    }

    /** The Generate button: stores the prompt in the session, then displays it. */
    method OnGenerate(p: HomePrompt) returns (r: Result<string>, key: string)
      modifies this
      ensures currentPrompt == Some(p)
      ensures r == PromptMarkdown(p) && key == DownloadKey(old(buttonCounter))
      ensures buttonCounter == if r.Ok? then old(buttonCounter) + 1 else old(buttonCounter)
    {
      currentPrompt := Some(p);
      r, key := DisplayPrompt(p);
    }

    /** The end of every page run: the current prompt, if there is one, is displayed again. */
    method ShowCurrent() returns (r: Option<Result<string>>, key: Option<string>)
      modifies this
      ensures currentPrompt == old(currentPrompt)
      ensures old(currentPrompt).None? ==> r.None? && key.None? && buttonCounter == old(buttonCounter)
      ensures old(currentPrompt).Some? ==>
                r == Some(PromptMarkdown(old(currentPrompt).value)) && key == Some(DownloadKey(old(buttonCounter)))
                && buttonCounter == if r.value.Ok? then old(buttonCounter) + 1 else old(buttonCounter)
    {
      r, key := None, None;
      if currentPrompt.Some? {
        var shown, k := DisplayPrompt(currentPrompt.value);
        r, key := Some(shown), Some(k);
      }
    }

    /** A page run in which Generate was clicked: the prompt is displayed at the click and,
        when that rendering did not raise, again at the end of the run, so the counter moves
        on by two and the two download buttons get distinct keys. A KeyError stops the run
        after the first display. */
    method GenerateRun(p: HomePrompt) returns (first: Result<string>, key1: string, second: Option<Result<string>>,
                                               key2: Option<string>)
      modifies this
      ensures currentPrompt == Some(p)
      ensures first == PromptMarkdown(p) && key1 == DownloadKey(old(buttonCounter))
      ensures first.Err? ==> second.None? && key2.None? && buttonCounter == old(buttonCounter)
      ensures first.Ok? ==>
                second == Some(first) && key2 == Some(DownloadKey(old(buttonCounter) + 1)) && key2.value != key1
                && buttonCounter == old(buttonCounter) + 2
    {
      first, key1 := OnGenerate(p);
      second, key2 := None, None;
      if first.Ok? {
        second, key2 := ShowCurrent();
        DownloadKeysDistinct(old(buttonCounter), old(buttonCounter) + 1);
      }
    }
  }
}
