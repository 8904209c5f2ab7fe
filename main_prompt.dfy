/** main.py: the reference-URL list read from the sidebar, and the nested `generate_prompt`
    that renders the memory sections and the instruction text from the collected inputs. */
module MainPrompt {
  import opened Text
  import opened Boundary

  // ---------------------------------------------------------------------------------
  // get_user_input: the reference-URL list

  /** `reference_urls_list` built from the text area's content. */
  function ReferenceUrlList(text: string): seq<string> {
    NonBlankStripped(SplitOn(text, '\n'))
  }

  /** Every entry is non-blank, already stripped, and holds no line break. */
  lemma ReferenceUrlsClean(text: string)
    ensures forall i :: 0 <= i < |ReferenceUrlList(text)| ==>
              var u := ReferenceUrlList(text)[i];
              u != "" && Strip(u) == u && '\n' !in u
  {
    SplitOnPieces(text, '\n');
    NonBlankStrippedFrom(SplitOn(text, '\n'), '\n');
  }

  /** URLs typed one per line, without blanks or surrounding spaces, come back as typed. */
  lemma ReferenceUrlsRoundTrip(urls: seq<string>)
    requires urls != []
    requires forall i :: 0 <= i < |urls| ==> urls[i] != "" && Strip(urls[i]) == urls[i] && '\n' !in urls[i]
    ensures ReferenceUrlList(Join("\n", urls)) == urls
  {
    assert "\n" == ['\n'];
    SplitOnJoin('\n', urls);
    NonBlankStrippedIdentity(urls);
  }

  /** A single URL followed by a newline gives just that URL. */
  lemma ReferenceUrlsTrailingBreak(u: string)
    requires u != "" && Strip(u) == u && '\n' !in u
    ensures ReferenceUrlList(u + "\n") == [u]
  {
    assert u + ['\n'] + "" == u + "\n";
    SplitOnAround(u, "", '\n');
    SplitOnNone(u, '\n');
    NonBlankStrippedAppend([u], [""]);
    NonBlankStrippedSingle(u);
    NonBlankStrippedSingle("");
    StripEmptyIff(u);
  }

  lemma ExampleUrl()
    ensures var u := "http://example.com";
            u != "" && Strip(u) == u && '\n' !in u && u + "\n" == "http://example.com\n"
  {
    var u := "http://example.com";
    assert LStrip(u) == u;
    assert RStrip(u) == u;
  }

  /** "http://example.com\n" gives ["http://example.com"]. */
  lemma ReferenceUrlsExample()
    ensures ReferenceUrlList("http://example.com\n") == ["http://example.com"]
  {
    ExampleUrl();
    ReferenceUrlsTrailingBreak("http://example.com");
  }

  // ---------------------------------------------------------------------------------
  // generate_prompt

  const NoGoals := "No specific goals provided."

  /** The persona keys the memory block reads, in the order it reads them. */
  const MemoryKeys := ["name", "background", "goals", "beliefs", "knowledge", "communication_style"]

  predicate Describable(p: Dict) {
    "name" in p && "background" in p && "goals" in p && "beliefs" in p && "knowledge" in p
    && "communication_style" in p
  }

  lemma DescribableIff(p: Dict)
    ensures HasKeys(p, MemoryKeys) <==> Describable(p)
  {
    if HasKeys(p, MemoryKeys) {
      assert MemoryKeys[0] in p && MemoryKeys[1] in p && MemoryKeys[2] in p;
      assert MemoryKeys[3] in p && MemoryKeys[4] in p && MemoryKeys[5] in p;
    }
  }

  /** The six lines of one persona's block of the memory section. */
  function EntryLines(p: Dict): (r: seq<string>)
    requires Describable(p)
    ensures |r| == 6
  {
    ["- " + p["name"] + ":",
     "    - Background: " + p["background"],
     "    - Goals: " + p["goals"],
     "    - Beliefs: " + p["beliefs"],
     "    - Knowledge: " + p["knowledge"],
     "    - Communication Style: " + p["communication_style"]]
  }

  /** One persona's block: the f-string's six lines with a line break between each two. */
  function PersonaEntry(p: Dict): string
    requires Describable(p)
  {
    Join("\n", EntryLines(p))
  }

  function Entries(ps: seq<Dict>): (r: seq<string>)
    requires forall i :: 0 <= i < |ps| ==> Describable(ps[i])
    ensures |r| == |ps|
  {
    if ps == [] then [] else [PersonaEntry(ps[0])] + Entries(ps[1..])
  }

  /** `memory_personas` */
  function MemoryPersonas(ps: seq<Dict>): string
    requires forall i :: 0 <= i < |ps| ==> Describable(ps[i])
  {
    Join("\n", Entries(ps))
  }

  function DecisionLines(ds: seq<string>): (r: seq<string>)
    ensures |r| == |ds| && forall i :: 0 <= i < |ds| ==> r[i] == "- " + ds[i]
  {
    seq(|ds|, i requires 0 <= i < |ds| => "- " + ds[i])
  }

  /** `memory_prior_decisions` */
  function MemoryPriorDecisions(ds: seq<string>): string {
    Join("\n", DecisionLines(ds))
  }

  /** A knowledge source as the prompt keeps it. */
  datatype Source = Source(title: string, url: string)

  predicate HasSourceKeys(d: Dict) {
    "title" in d && "url" in d
  }

  predicate AllSourced(sources: seq<Dict>) {
    forall i :: 0 <= i < |sources| ==> "title" in sources[i] && "url" in sources[i]
  }

  /** `[{"title": ..., "url": ...} for source in knowledge_sources]` */
  function Projected(sources: seq<Dict>): (r: seq<Source>)
    requires AllSourced(sources)
    ensures |r| == |sources|
    ensures forall i :: 0 <= i < |r| ==> r[i].title == sources[i]["title"] && r[i].url == sources[i]["url"]
  {
    seq(|sources|, i requires 0 <= i < |sources| => Source(sources[i]["title"], sources[i]["url"]))
  }

  function Titles(ks: seq<Source>): (r: seq<string>)
    ensures |r| == |ks| && forall i :: 0 <= i < |ks| ==> r[i] == ks[i].title
  {
    seq(|ks|, i requires 0 <= i < |ks| => ks[i].title)
  }

  /** The last paragraph of the instructions. */
  function Closing(task: string, names: seq<string>, titles: seq<string>, strategy: string): string {
    "Generate outputs for the task '" + task + "' by incorporating the perspectives of "
    + Join(", ", names) + ". Use knowledge from "
    + Join(", ", titles) + ", and resolve conflicts using "
    + strategy + ". Update the memory with significant decisions or outputs generated."
  }

  /** A header, its body, and a blank line. */
  function Section(header: string, body: string): string {
    "### " + header + " ###\n" + body + "\n\n"
  }

  /** The instructions: the Task, Memory: Personas, Memory: Task Goals and Memory: Prior
      Decisions sections, then the Instructions header and the closing paragraph. */
  function Instructions(task: string, memoryPersonas: string, goals: string, decisions: string, closing: string): string {
    Section("Task", task) + Section("Memory: Personas", memoryPersonas)
    + Section("Memory: Task Goals", goals) + Section("Memory: Prior Decisions", decisions)
    + "### Instructions ###\n" + closing
  }

  datatype Memory = Memory(personas: string, taskGoals: string, priorDecisions: string)

  /** The returned dict, with exactly the keys task, personas, knowledge_sources,
      conflict_resolution, memory and instructions. */
  datatype Prompt = Prompt(task: string, personas: seq<string>, knowledgeSources: seq<Source>,
                           conflictResolution: string, memory: Memory, instructions: string)

  /** The nested `generate_prompt(task_details, personas, knowledge_sources, conflict_strategy,
      prior_decisions)`, with the KeyError it raises first: a persona key while building the
      memory block, then "task", then a source's title or url. */
  function GeneratePrompt(taskDetails: Dict, ps: seq<Dict>, sources: seq<Dict>, strategy: string,
                          prior: seq<string>): Result<Prompt>
  {
    match MissingKey(ps, MemoryKeys)
    case Some(k) => Err(KeyError(k))
    case None =>
      assert forall i :: 0 <= i < |ps| ==> Describable(ps[i]) by {
        forall i | 0 <= i < |ps| ensures Describable(ps[i]) { DescribableIff(ps[i]); }
      }
      if "task" !in taskDetails then Err(KeyError("task"))
      else
        match MissingKey(sources, ["title", "url"])
        case Some(k) => Err(KeyError(k))
        case None =>
          assert AllSourced(sources) by {
            forall i | 0 <= i < |sources| ensures HasSourceKeys(sources[i]) {
              assert HasKeys(sources[i], ["title", "url"]);
              assert ["title", "url"][0] == "title" && ["title", "url"][1] == "url";
            }
          }
          var task := taskDetails["task"];
          var names := Names(ps);
          var ks := Projected(sources);
          var memoryPersonas := MemoryPersonas(ps);
          var decisions := MemoryPriorDecisions(prior);
          var goals := Get(taskDetails, "goals", NoGoals);
          Ok(Prompt(task, names, ks, strategy, Memory(memoryPersonas, goals, decisions),
                    Instructions(task, memoryPersonas, goals, decisions,
                                 Closing(task, names, Titles(ks), strategy))))
  }

  // ---------------------------------------------------------------------------------
  // Properties of generate_prompt

  /** A KeyError is raised exactly when a persona lacks one of the six memory keys, the task
      is missing, or a source lacks its title or url; the key it names is really missing. */
  lemma GeneratePromptFailsIff(taskDetails: Dict, ps: seq<Dict>, sources: seq<Dict>, strategy: string,
                               prior: seq<string>)
    ensures GeneratePrompt(taskDetails, ps, sources, strategy, prior).Err? <==>
              (exists i :: 0 <= i < |ps| && !Describable(ps[i]))
              || "task" !in taskDetails
              || (exists i :: 0 <= i < |sources| && !HasSourceKeys(sources[i]))
    ensures GeneratePrompt(taskDetails, ps, sources, strategy, prior).Err? ==>
              var e := GeneratePrompt(taskDetails, ps, sources, strategy, prior).error;
              e.KeyError? && e.key in {"name", "background", "goals", "beliefs", "knowledge",
                                       "communication_style", "task", "title", "url"}
  {
    forall i | 0 <= i < |ps| ensures HasKeys(ps[i], MemoryKeys) <==> Describable(ps[i]) {
      DescribableIff(ps[i]);
    }
    forall i | 0 <= i < |sources| ensures HasKeys(sources[i], ["title", "url"]) <==> HasSourceKeys(sources[i]) {
      if HasKeys(sources[i], ["title", "url"]) {
        assert ["title", "url"][0] == "title" && ["title", "url"][1] == "url";
      }
    }
  }

  /** `personas` lists the names in order, `knowledge_sources` keeps only each source's title
      and url, `conflict_resolution` is the strategy as given, and a missing goals key reads
      "No specific goals provided." both in the memory and in the instructions. */
  lemma PromptFields(taskDetails: Dict, ps: seq<Dict>, sources: seq<Dict>, strategy: string, prior: seq<string>)
    requires GeneratePrompt(taskDetails, ps, sources, strategy, prior).Ok?
    ensures var r := GeneratePrompt(taskDetails, ps, sources, strategy, prior).value;
            "task" in taskDetails && r.task == taskDetails["task"]
            && |r.personas| == |ps|
            && (forall i :: 0 <= i < |ps| ==> "name" in ps[i] && r.personas[i] == ps[i]["name"])
            && |r.knowledgeSources| == |sources|
            && (forall i :: 0 <= i < |sources| ==>
                  HasSourceKeys(sources[i]) && r.knowledgeSources[i] == Source(sources[i]["title"], sources[i]["url"]))
            && r.conflictResolution == strategy
            && ("goals" !in taskDetails ==> r.memory.taskGoals == NoGoals)
            && ("goals" in taskDetails ==> r.memory.taskGoals == taskDetails["goals"])
            && Contains(r.instructions, Section("Memory: Task Goals", r.memory.taskGoals))
  {
    GeneratePromptFailsIff(taskDetails, ps, sources, strategy, prior);
    var r := GeneratePrompt(taskDetails, ps, sources, strategy, prior).value;
    ContainsThird(Section("Task", r.task), Section("Memory: Personas", r.memory.personas),
                  Section("Memory: Task Goals", r.memory.taskGoals),
                  Section("Memory: Prior Decisions", r.memory.priorDecisions), "### Instructions ###\n",
                  Closing(r.task, r.personas, Titles(r.knowledgeSources), strategy));
  }

  /** The instructions open with the Task section and end with the closing paragraph. */
  lemma InstructionsShape(task: string, memoryPersonas: string, goals: string, decisions: string, closing: string)
    ensures StartsWith(Instructions(task, memoryPersonas, goals, decisions, closing), Section("Task", task))
    ensures EndsWith(Instructions(task, memoryPersonas, goals, decisions, closing), "### Instructions ###\n" + closing)
  {
    OuterParts(Section("Task", task), Section("Memory: Personas", memoryPersonas),
               Section("Memory: Task Goals", goals), Section("Memory: Prior Decisions", decisions),
               "### Instructions ###\n", closing);
  }

  lemma ContainsThird(a: string, b: string, c: string, d: string, e: string, f: string)
    ensures Contains(a + b + c + d + e + f, c)
  {
    assert a + b + c + d + e + f == (a + b) + c + (d + e + f);
    ContainsMiddle(a + b, c, d + e + f);
  }

  lemma OuterParts(a: string, b: string, c: string, d: string, e: string, f: string)
    ensures StartsWith(a + b + c + d + e + f, a)
    ensures EndsWith(a + b + c + d + e + f, e + f)
  {
    var s := a + b + c + d + e + f;
    assert s == a + (b + c + d + e + f);
    assert s == (a + b + c + d) + (e + f);
    assert s[|s| - |e + f|..] == e + f;
  }

  /** The closing paragraph carries the task, the names joined by ", ", the titles joined by
      ", " and the conflict strategy verbatim, and so every single name and title. */
  lemma ClosingMentions(task: string, names: seq<string>, titles: seq<string>, strategy: string)
    ensures var c := Closing(task, names, titles, strategy);
            Contains(c, task) && Contains(c, Join(", ", names)) && Contains(c, Join(", ", titles))
            && Contains(c, strategy)
            && (forall i :: 0 <= i < |names| ==> Contains(c, names[i]))
            && (forall i :: 0 <= i < |titles| ==> Contains(c, titles[i]))
  {
    var c := Closing(task, names, titles, strategy);
    var n := Join(", ", names);
    var t := Join(", ", titles);
    NinePieces("Generate outputs for the task '", task, "' by incorporating the perspectives of ", n,
               ". Use knowledge from ", t, ", and resolve conflicts using ", strategy,
               ". Update the memory with significant decisions or outputs generated.");
    forall i | 0 <= i < |names| ensures Contains(c, names[i]) {
      JoinContains(", ", names, i);
      ContainsTransitive(c, n, names[i]);
    }
    forall i | 0 <= i < |titles| ensures Contains(c, titles[i]) {
      JoinContains(", ", titles, i);
      ContainsTransitive(c, t, titles[i]);
    }
  }

  /** The pieces in odd positions of a nine-piece concatenation occur in it. */
  lemma NinePieces(p0: string, x1: string, p2: string, x3: string, p4: string, x5: string, p6: string,
                   x7: string, p8: string)
    ensures var s := p0 + x1 + p2 + x3 + p4 + x5 + p6 + x7 + p8;
            Contains(s, x1) && Contains(s, x3) && Contains(s, x5) && Contains(s, x7)
  {
    ContainsMiddle(p0, x1, p2);
    ContainsExtend(p0 + x1 + p2, x3, x1);
    ContainsExtend(p0 + x1 + p2 + x3, p4, x1);
    ContainsExtend(p0 + x1 + p2 + x3 + p4, x5, x1);
    ContainsExtend(p0 + x1 + p2 + x3 + p4 + x5, p6, x1);
    ContainsExtend(p0 + x1 + p2 + x3 + p4 + x5 + p6, x7, x1);
    ContainsExtend(p0 + x1 + p2 + x3 + p4 + x5 + p6 + x7, p8, x1);
    ContainsMiddle(p0 + x1 + p2, x3, p4);
    ContainsExtend(p0 + x1 + p2 + x3 + p4, x5, x3);
    ContainsExtend(p0 + x1 + p2 + x3 + p4 + x5, p6, x3);
    ContainsExtend(p0 + x1 + p2 + x3 + p4 + x5 + p6, x7, x3);
    ContainsExtend(p0 + x1 + p2 + x3 + p4 + x5 + p6 + x7, p8, x3);
    ContainsMiddle(p0 + x1 + p2 + x3 + p4, x5, p6);
    ContainsExtend(p0 + x1 + p2 + x3 + p4 + x5 + p6, x7, x5);
    ContainsExtend(p0 + x1 + p2 + x3 + p4 + x5 + p6 + x7, p8, x5);
    ContainsMiddle(p0 + x1 + p2 + x3 + p4 + x5 + p6, x7, p8);
  }

  /** No line break inside the fields a persona block shows. */
  predicate SingleLineFields(p: Dict) {
    Describable(p)
    && '\n' !in p["name"] && '\n' !in p["background"] && '\n' !in p["goals"]
    && '\n' !in p["beliefs"] && '\n' !in p["knowledge"] && '\n' !in p["communication_style"]
  }

  lemma EntrySplits(p: Dict)
    requires SingleLineFields(p)
    ensures SplitOn(PersonaEntry(p), '\n') == EntryLines(p)
  {
    var ls := EntryLines(p);
    forall i | 0 <= i < 6 ensures '\n' !in ls[i] {
      NoBreakIn("- ", p["name"], ":");
      NoBreakIn("    - Background: ", p["background"], "");
      NoBreakIn("    - Goals: ", p["goals"], "");
      NoBreakIn("    - Beliefs: ", p["beliefs"], "");
      NoBreakIn("    - Knowledge: ", p["knowledge"], "");
      NoBreakIn("    - Communication Style: ", p["communication_style"], "");
    }
    assert "\n" == ['\n'];
    SplitOnJoin('\n', ls);
  }

  lemma NoBreakIn(a: string, x: string, b: string)
    requires '\n' !in a && '\n' !in x && '\n' !in b
    ensures '\n' !in a + x + b && '\n' !in a + x
  {
  }

  /** The six lines of each persona, persona after persona. */
  function AllEntryLines(ps: seq<Dict>): (r: seq<string>)
    requires forall i :: 0 <= i < |ps| ==> Describable(ps[i])
    ensures |r| == 6 * |ps|
  {
    if ps == [] then [] else EntryLines(ps[0]) + AllEntryLines(ps[1..])
  }

  /** `memory.personas` is "" for no personas; otherwise, when no field holds a line break,
      its lines are exactly the six lines "- name:", "    - Background: …", …,
      "    - Communication Style: …" of each persona, in order. */
  lemma MemoryPersonasLines(ps: seq<Dict>)
    requires forall i :: 0 <= i < |ps| ==> Describable(ps[i])
    ensures ps == [] ==> MemoryPersonas(ps) == ""
    ensures ps != [] && (forall i :: 0 <= i < |ps| ==> SingleLineFields(ps[i])) ==>
              SplitOn(MemoryPersonas(ps), '\n') == AllEntryLines(ps)
  {
    if ps != [] && (forall i :: 0 <= i < |ps| ==> SingleLineFields(ps[i])) {
      assert "\n" == ['\n'];
      SplitOnJoinEach('\n', Entries(ps));
      EntriesSplit(ps);
    }
  }

  lemma {:induction false} EntriesSplit(ps: seq<Dict>)
    requires forall i :: 0 <= i < |ps| ==> SingleLineFields(ps[i])
    ensures forall i :: 0 <= i < |ps| ==> Describable(ps[i])
    ensures SplitEach(Entries(ps), '\n') == AllEntryLines(ps)
  {
    if ps != [] {
      EntrySplits(ps[0]);
      assert Entries(ps)[1..] == Entries(ps[1..]);
      EntriesSplit(ps[1..]);
    }
  }

  /** `memory.prior_decisions` is "" for no decisions; otherwise, for decisions without line
      breaks, its lines are "- d" for each decision d, in order. */
  lemma PriorDecisionLines(ds: seq<string>)
    ensures ds == [] ==> MemoryPriorDecisions(ds) == ""
    ensures ds != [] && (forall i :: 0 <= i < |ds| ==> '\n' !in ds[i]) ==>
              SplitOn(MemoryPriorDecisions(ds), '\n') == DecisionLines(ds)
  {
    if ds != [] && (forall i :: 0 <= i < |ds| ==> '\n' !in ds[i]) {
      forall i | 0 <= i < |ds| ensures '\n' !in DecisionLines(ds)[i] {
        NoBreakIn("- ", ds[i], "");
      }
      assert "\n" == ['\n'];
      SplitOnJoin('\n', DecisionLines(ds));
    }
  }
}
