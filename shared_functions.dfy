/** The persona pipeline of shared_functions.py: task enhancement, persona generation with
    repair and fallback, the default persona table, and the prompt assembly of
    `generate_prompt`.

    `configure_litellm` is imported there from a module that is not part of this model; each
    call of it is the parameter `model`: the model name, or the exception it raises. */
module SharedFunctions {
  import opened Text
  import opened Boundary

  // ---------------------------------------------------------------------------------
  // re.search(r'(<open>.*<close>)', s, re.DOTALL)

  /** The pattern `<open>.*<close>` with DOTALL matches `s[i..j]`. */
  predicate Matches(s: string, open: char, close: char, i: int, j: int) {
    0 <= i && i + 2 <= j <= |s| && s[i] == open && s[j - 1] == close
  }

  /** The bounds of the match `re.search` reports: the leftmost start, and for it the
      longest (greedy) end. */
  function SearchBounds(s: string, open: char, close: char): (r: Option<(nat, nat)>)
    ensures r.Some? ==> r.value.0 < r.value.1 <= |s|
  {
    var f := Find(s, open);
    var l := RFind(s, close);
    if f >= 0 && l > f then Some((f, l + 1)) else None
  }

  /** `match.group(1)` of that search, if it matched. */
  function GreedySpan(s: string, open: char, close: char): (r: Option<string>)
    ensures r.Some? ==> s != []
  {
    match SearchBounds(s, open, close)
    case None => None
    case Some((i, j)) => Some(s[i..j])
  }

  /** The computed bounds are exactly the leftmost-longest match, and there is no match
      when none is reported. */
  lemma SearchBoundsLeftmostLongest(s: string, open: char, close: char)
    requires open != close
    ensures SearchBounds(s, open, close).None? ==>
              forall i, j :: !Matches(s, open, close, i, j)
    ensures SearchBounds(s, open, close).Some? ==>
              var (i, j) := SearchBounds(s, open, close).value;
              Matches(s, open, close, i, j)
              && (forall i', j' :: 0 <= i' < i ==> !Matches(s, open, close, i', j'))
              && (forall j' :: j < j' ==> !Matches(s, open, close, i, j'))
  {
  }

  // ---------------------------------------------------------------------------------
  // enhance_task_description

  /** The dict `{"task": ..., "goals": ...}` it returns. */
  datatype TaskGoals = TaskGoals(task: string, goals: string)

  /** What `enhance_task_description(task, goals)` returns or raises, given the outcome of
      `configure_litellm`, the completion and the JSON parser. */
  function EnhanceTaskDescription(model: Result<string>, task: string, goals: string,
                                  reply: Completion, parse: string -> Option<Json>): Result<TaskGoals>
  {
    if model.Err? then Err(model.error)
    else if reply.Failed? then Ok(TaskGoals(task, goals))
    else
      match GreedySpan(Strip(reply.text), '{', '}')
      case None => Ok(TaskGoals(task, goals))
      case Some(span) =>
        match parse(span)
        case Some(JObject(fields)) =>
          Ok(TaskGoals(Get(fields, "enhanced_task", task), Get(fields, "enhanced_goals", goals)))
        case _ => Ok(TaskGoals(task, goals))   // JSONDecodeError, or `.get` on a non-dict
  }

  /** The object the reply's `{...}` span parses to, if it does. */
  function ParsedObject(reply: Completion, parse: string -> Option<Json>): Option<Dict> {
    if reply.Failed? then None
    else
      match GreedySpan(Strip(reply.text), '{', '}')
      case None => None
      case Some(span) =>
        match parse(span)
        case Some(JObject(fields)) => Some(fields)
        case _ => None
  }

  /** Only a failing `configure_litellm` escapes; without a parsed object the original task
      and goals come back unchanged; with one, each of them is replaced exactly when the
      object carries its own key, independently of the other. */
  lemma EnhanceOutcome(model: Result<string>, task: string, goals: string,
                       reply: Completion, parse: string -> Option<Json>)
    ensures var r := EnhanceTaskDescription(model, task, goals, reply, parse);
            (r.Err? <==> model.Err?)
            && (r.Ok? && ParsedObject(reply, parse).None? ==> r.value == TaskGoals(task, goals))
            && (r.Ok? && ParsedObject(reply, parse).Some? ==>
                  var f := ParsedObject(reply, parse).value;
                  (r.value.task == if "enhanced_task" in f then f["enhanced_task"] else task)
                  && (r.value.goals == if "enhanced_goals" in f then f["enhanced_goals"] else goals))
  {
  }

  // ---------------------------------------------------------------------------------
  // generate_personas

  const RequiredFields: set<string> :=
    {"name", "background", "goals", "beliefs", "knowledge", "communication_style", "role", "strengths", "challenges"}

  const NoGoals := "No specific goals provided."

  /** The system message of the persona request. This and the other long texts are
      written as concatenations of short pieces. */
  const PersonaSystemPrompt :=
    "You are an expert in " + "creating diverse and " + "well-defined personas " + "for collaborative tasks. "
    + "Your goal is to generate " + "personas that will work " + "together effectively " + "while maintaining unique " + "perspectives. "
    + "Each persona should " + "be distinct and contribute " + "meaningfully to the " + "task at hand. "
    + "For tasks with more " + "than 2 personas, ensure " + "each persona has:\n"
    + "1. A unique and culturally " + "appropriate professional " + "name\n"
    + "2. A distinct professional " + "background that complements " + "but doesn't overlap " + "with other personas\n"
    + "3. Specialized expertise " + "that adds value to the " + "task\n"
    + "4. A clear role that " + "differentiates them " + "from other team members\n\n"
    + "Generate the personas " + "in JSON format ONLY, " + "without any additional " + "text or explanations.\n\n"
    + "Each persona must include:\n"
    + "- name: A distinctive, " + "professional name that " + "reflects their background\n"
    + "- background: Detailed " + "expertise and experience, " + "including years of experience " + "and specific domains\n"
    + "- goals: Clear personal " + "and professional objectives " + "aligned with their role\n"
    + "- beliefs: Core values " + "and principles that " + "guide their work\n"
    + "- knowledge: Specific " + "areas of expertise with " + "concrete examples\n"
    + "- communication_style: " + "Detailed description " + "of how they interact " + "with others\n"
    + "- role: Their primary " + "function and unique " + "contribution to the " + "task\n"
    + "- strengths: Key capabilities " + "that set them apart\n"
    + "- challenges: Realistic " + "areas they might struggle " + "with"

  /** The user message asking for `count` personas. */
  function PersonaUserPrompt(task: string, goals: string, count: int): string {
    "Task Description: " + task + "\nGoals: " + goals + "\nNumber of Personas: " + IntText(count) + "\n\n"
    + "Generate personas that:\n"
    + "1. Have complementary " + "skills and knowledge\n"
    + "2. Represent different " + "perspectives and approaches\n"
    + "3. Can effectively collaborate " + "while maintaining their " + "unique viewpoints\n"
    + "4. Have realistic strengths " + "and challenges\n"
    + "Return ONLY a JSON array " + "of personas."
  }

  const SourcePrefix := "Consider information from this source: "

  /** The extra user message for one reference URL. */
  function SourceMessage(url: string): Message {
    Message("user", SourcePrefix + url)
  }

  /** The system message and the task message that open the persona request. */
  function PersonaHead(task: string, goals: string, count: int): (r: seq<Message>)
    ensures |r| == 2
  {
    [Message("system", PersonaSystemPrompt), Message("user", PersonaUserPrompt(task, goals, count))]
  }

  /** One source message per URL, in order. */
  function SourceMessages(urls: seq<string>): (r: seq<Message>)
    ensures |r| == |urls|
    ensures forall k :: 0 <= k < |urls| ==> r[k] == Message("user", SourcePrefix + urls[k])
    decreases |urls|
  {
    if urls == [] then [] else SourceMessages(urls[..|urls| - 1]) + [SourceMessage(urls[|urls| - 1])]
  }

  /** The messages of the persona request. */
  function PersonaRequest(task: string, goals: string, count: int, urls: seq<string>): (r: seq<Message>)
    ensures |r| == 2 + |urls|
    ensures r[0] == Message("system", PersonaSystemPrompt)
    ensures r[1] == Message("user", PersonaUserPrompt(task, goals, count))
    ensures forall k :: 0 <= k < |urls| ==> r[2 + k] == Message("user", SourcePrefix + urls[k])
  {
    PersonaHead(task, goals, count) + SourceMessages(urls)
  }

  /** Builds the persona request, appending one message per reference URL. */
  method BuildPersonaRequest(task: string, goals: string, count: int, urls: seq<string>)
    returns (messages: seq<Message>)
    ensures messages == PersonaRequest(task, goals, count, urls)
  {
    messages := PersonaHead(task, goals, count);
    if urls != [] {
      messages := AppendSources(messages, urls);
    }
  }

  /** The loop over `reference_urls`: one source message per URL, in order. */
  method AppendSources(head: seq<Message>, urls: seq<string>) returns (messages: seq<Message>)
    ensures messages == head + SourceMessages(urls)
  {
    messages := head;
    var i := 0;
    while i < |urls|
      invariant 0 <= i <= |urls|
      invariant messages == head + SourceMessages(urls[..i])
    {
      assert urls[..i + 1][..i] == urls[..i];
      messages := messages + [SourceMessage(urls[i])];
      i := i + 1;
    }
    assert urls[..i] == urls;
  }

  /** The persona with every missing required field set to "Default <field>". */
  function Repaired(p: Dict): (r: Dict)
    ensures r.Keys == p.Keys + RequiredFields
    ensures forall k :: k in p ==> r[k] == p[k]
    ensures forall f :: f in RequiredFields && f !in p ==> r[f] == "Default " + f
  {
    map k | k in p.Keys + RequiredFields :: if k in p then p[k] else "Default " + k
  }

  /** Fills the missing fields of one persona dict, field by field. */
  method RepairPersona(p0: Dict) returns (p: Dict)
    ensures p == Repaired(p0)
  {
    p := p0;
    var missing := RequiredFields - p0.Keys;
    while missing != {}
      invariant missing <= RequiredFields - p0.Keys
      invariant p.Keys == p0.Keys + (RequiredFields - p0.Keys - missing)
      invariant forall k :: k in p0 ==> p[k] == p0[k]
      invariant forall f :: f in p && f !in p0 ==> p[f] == "Default " + f
      decreases missing
    {
      var field :| field in missing;
      p := p[field := "Default " + field];
      missing := missing - {field};
    }
    assert p.Keys == Repaired(p0).Keys;
  }

  /** The repair loop: every persona of the parsed list is repaired in place. */
  method RepairPersonas(personas: array<Dict>)
    modifies personas
    ensures forall i :: 0 <= i < personas.Length ==> personas[i] == Repaired(old(personas[i]))
  {
    var i := 0;
    while i < personas.Length
      invariant 0 <= i <= personas.Length
      invariant forall k :: 0 <= k < i ==> personas[k] == Repaired(old(personas[k]))
      invariant forall k :: i <= k < personas.Length ==> personas[k] == old(personas[k])
    {
      var repaired := RepairPersona(personas[i]);
      personas[i] := repaired;
      i := i + 1;
    }
  }

  /** `generate_default_personas(count)` */
  function DefaultPersonas(count: int): (r: seq<Dict>)
    ensures |r| == if count < 0 then 0 else count
    ensures forall i :: 0 <= i < |r| ==> r[i] == DefaultPersona(i)
  {
    if count <= 0 then [] else seq(count, i requires 0 <= i < count => DefaultPersona(i))
  }

  function DefaultPersona(i: nat): (p: Dict)
    ensures p.Keys == RequiredFields
  {
    map["name" := "Persona_" + Decimal(i),
        "background" := "General professional background",
        "goals" := "Contribute to the task effectively",
        "beliefs" := "Collaborative problem-solving",
        "knowledge" := "General domain knowledge",
        "communication_style" := "Professional and clear",
        "role" := "Team member",
        "strengths" := "Adaptability and cooperation",
        "challenges" := "Managing complex situations"]
  }

  /** The default personas are named Persona_0, Persona_1, ... and no two share a name. */
  lemma DefaultPersonaNames(count: int, i: nat, j: nat)
    requires i < j < |DefaultPersonas(count)|
    ensures DefaultPersonas(count)[i]["name"] == "Persona_" + Decimal(i)
    ensures DefaultPersonas(count)[i]["name"] != DefaultPersonas(count)[j]["name"]
  {
    var ps := DefaultPersonas(count);
    if ps[i]["name"] == ps[j]["name"] {
      var pre := "Persona_";
      assert ps[i]["name"][|pre|..] == Decimal(i);
      assert ps[j]["name"][|pre|..] == Decimal(j);
      DecimalInjective(i, j);
    }
  }

  predicate AllObjects(items: seq<Json>) {
    forall k :: 0 <= k < |items| ==> items[k].JObject?
  }

  /** The parsed persona objects, each repaired. */
  function RepairedAll(items: seq<Json>): (r: seq<Dict>)
    requires AllObjects(items)
    ensures |r| == |items| && forall k :: 0 <= k < |items| ==> r[k] == Repaired(items[k].fields)
  {
    seq(|items|, k requires 0 <= k < |items| => Repaired(items[k].fields))
  }

  /** Copies the parsed objects into a list and repairs them in place. */
  method RepairParsedPersonas(items: seq<Json>) returns (ps: seq<Dict>)
    requires AllObjects(items)
    ensures ps == RepairedAll(items)
  {
    var personas := new Dict[|items|](k requires 0 <= k < |items| reads {} => items[k].fields);
    RepairPersonas(personas);
    ps := personas[..];
  }

  /** The personas `generate_personas` returns once its completion call has `reply`: the
      repaired parsed list, or the default personas on any failure. */
  function PersonasFromReply(reply: Completion, parse: string -> Option<Json>, count: int): seq<Dict> {
    if reply.Failed? || Strip(reply.text) == "" then DefaultPersonas(count)
    else
      var span := GreedySpan(Strip(reply.text), '[', ']');
      if span.None? then DefaultPersonas(count) else PersonasFromParsed(parse(span.value), count)
  }

  /** The personas for the parse result of the `[...]` span. */
  function PersonasFromParsed(parsed: Option<Json>, count: int): seq<Dict> {
    if parsed.Some? && parsed.value.JArray? && AllObjects(parsed.value.items)
    then RepairedAll(parsed.value.items)
    else DefaultPersonas(count)
  }

  function GoalsOrDefault(goals: Option<string>): string {
    if goals.Some? then goals.value else NoGoals
  }

  /** What `generate_personas(task_details, persona_count)` returns or raises. Both calls of
      `configure_litellm` (inside `enhance_task_description` and here) see the same
      environment and so share the outcome `model`. */
  function GeneratedPersonas(model: Result<string>, details: TaskDetails, count: int,
                             enhanceReply: Completion, personaReply: Completion,
                             parse: string -> Option<Json>): Result<seq<Dict>>
  {
    var goals := GoalsOrDefault(details.goals);
    match EnhanceTaskDescription(model, details.task, goals, enhanceReply, parse)
    case Err(e) => Err(e)
    case Ok(_) => Ok(PersonasFromReply(personaReply, parse, count))
  }

  /** `generate_personas`: enhances the task, sends the persona request (returned as
      `request`) and repairs the parsed personas in place. */
  method GeneratePersonas(model: Result<string>, details: TaskDetails, count: int,
                          enhanceReply: Completion, personaReply: Completion,
                          parse: string -> Option<Json>)
    returns (r: Result<seq<Dict>>, request: seq<Message>)
    ensures r == GeneratedPersonas(model, details, count, enhanceReply, personaReply, parse)
    ensures r.Ok? ==>
      var enhanced := EnhanceTaskDescription(model, details.task, GoalsOrDefault(details.goals), enhanceReply, parse).value;
      request == PersonaRequest(enhanced.task, enhanced.goals, count,
                                if details.referenceUrls.Some? then details.referenceUrls.value else [])
  {
    request := [];
    var goals := GoalsOrDefault(details.goals);
    var enhanced := EnhanceTaskDescription(model, details.task, goals, enhanceReply, parse);
    if enhanced.Err? {
      return Err(enhanced.error), request;
    }
    // the second `configure_litellm` call sees the same environment and succeeds too
    var urls := if details.referenceUrls.Some? then details.referenceUrls.value else [];
    request := BuildPersonaRequest(enhanced.value.task, enhanced.value.goals, count, urls);
    var personas := PersonasFromCompletion(personaReply, parse, count);
    return Ok(personas), request;
  }

  /** The `try` block of `generate_personas` after the request is sent: empty reply, no
      `[...]` span, a parse error or a non-dict item all end in the default personas. */
  method PersonasFromCompletion(reply: Completion, parse: string -> Option<Json>, count: int)
    returns (personas: seq<Dict>)
    ensures personas == PersonasFromReply(reply, parse, count)
  {
    var defaults := DefaultPersonas(count);
    if reply.Failed? {
      return defaults;
    }
    var content := Strip(reply.text);
    if content == "" {
      return defaults;
    }
    var span := GreedySpan(content, '[', ']');
    if span.None? {
      return defaults;
    }
    var parsed := parse(span.value);
    if !(parsed.Some? && parsed.value.JArray? && AllObjects(parsed.value.items)) {
      return defaults;
    }
    personas := RepairParsedPersonas(parsed.value.items);
  }

  /** `generate_personas` raises only when `configure_litellm` does. */
  lemma GeneratedPersonasFailIff(model: Result<string>, details: TaskDetails, count: int,
                                 enhanceReply: Completion, personaReply: Completion,
                                 parse: string -> Option<Json>)
    ensures GeneratedPersonas(model, details, count, enhanceReply, personaReply, parse).Err? <==> model.Err?
  {
  }

  /** Whatever happens, every returned persona carries all nine required fields; the
      values it had are untouched and each added one reads "Default <field>". */
  lemma PersonasComplete(reply: Completion, parse: string -> Option<Json>, count: int, i: nat)
    requires i < |PersonasFromReply(reply, parse, count)|
    ensures RequiredFields <= PersonasFromReply(reply, parse, count)[i].Keys
  {
    var ps := PersonasFromReply(reply, parse, count);
    if ps == DefaultPersonas(count) {
      assert ps[i] == DefaultPersona(i);
    } else {
      var span := GreedySpan(Strip(reply.text), '[', ']');
      var items := parse(span.value).value.items;
      assert ps == RepairedAll(items);
      assert ps[i] == Repaired(items[i].fields);
    }
  }

  /** A failed completion, an empty reply, a reply without a `[...]` span, or a span that
      does not parse to a list of objects gives exactly the `count` default personas. */
  lemma PersonasFallback(reply: Completion, parse: string -> Option<Json>, count: int)
    requires reply.Failed? || GreedySpan(Strip(reply.text), '[', ']').None?
             || !(parse(GreedySpan(Strip(reply.text), '[', ']').value).Some?
                  && parse(GreedySpan(Strip(reply.text), '[', ']').value).value.JArray?
                  && AllObjects(parse(GreedySpan(Strip(reply.text), '[', ']').value).value.items))
    ensures PersonasFromReply(reply, parse, count) == DefaultPersonas(count)
  {
  }

  /** With a parsed list of objects, the result is that list, each persona repaired. */
  lemma PersonasParsed(reply: Completion, parse: string -> Option<Json>, count: int, items: seq<Json>)
    requires reply.Completed? && GreedySpan(Strip(reply.text), '[', ']').Some?
    requires parse(GreedySpan(Strip(reply.text), '[', ']').value) == Some(JArray(items))
    requires AllObjects(items)
    ensures PersonasFromReply(reply, parse, count) == RepairedAll(items)
  {
    assert Strip(reply.text) != "";
  }

  // ---------------------------------------------------------------------------------
  // generate_prompt

  /** An empty JSON object, `{}`. */
  const EmptyObject := JObject(map[])

  /** The keys the agent-configuration request reads from each persona. */
  const PersonaPromptKeys := ["name", "background", "goals", "beliefs", "knowledge", "communication_style"]

  /** The configuration stored for a persona with a name: the parsed reply, or `{}` when
      a lookup, the completion or the parse fails. */
  function AgentConfig(taskDetails: Dict, p: Dict, reply: Completion, parse: string -> Option<Json>): Json {
    if "task" in taskDetails && HasKeys(p, PersonaPromptKeys) && reply.Completed? && parse(Strip(reply.text)).Some?
    then parse(Strip(reply.text)).value
    else EmptyObject
  }

  /** `agent_configs` after the loop over `ps`, or the KeyError the handler raises for a
      persona without a name. `replies(i)` is the completion for the i-th persona. */
  function AgentConfigs(taskDetails: Dict, ps: seq<Dict>, replies: nat -> Completion,
                        parse: string -> Option<Json>): Result<map<string, Json>>
  {
    if ps == [] then Ok(map[])
    else
      var n := |ps| - 1;
      match AgentConfigs(taskDetails, ps[..n], replies, parse)
      case Err(e) => Err(e)
      case Ok(m) =>
        if "name" !in ps[n] then Err(KeyError("name"))
        else Ok(m[ps[n]["name"] := AgentConfig(taskDetails, ps[n], replies(n), parse)])
  }

  /** `[{"title": s["title"], "url": s["url"]} for s in sources]`, or its KeyError. */
  function ProjectSources(sources: seq<Dict>): (r: Result<seq<Dict>>)
    ensures r.Ok? <==> forall i :: 0 <= i < |sources| ==> "title" in sources[i] && "url" in sources[i]
    ensures r.Ok? ==> |r.value| == |sources|
  {
    if sources == [] then Ok([])
    else if "title" !in sources[0] then Err(KeyError("title"))
    else if "url" !in sources[0] then Err(KeyError("url"))
    else
      match ProjectSources(sources[1..])
      case Err(e) => Err(e)
      case Ok(rest) =>
        assert forall i :: 1 <= i < |sources| ==> sources[i] == sources[1..][i - 1];
        Ok([map["title" := sources[0]["title"], "url" := sources[0]["url"]]] + rest)
  }

  datatype Memory = Memory(personas: seq<string>, taskGoals: string, priorDecisions: seq<string>)

  /** The dict `generate_prompt` returns. */
  datatype PromptOutput = PromptOutput(
    agentConfigs: map<string, Json>,
    workflowConfig: Json,
    task: string,
    knowledgeSources: seq<Dict>,
    conflictResolution: string,
    memory: Memory)

  /** The workflow configuration: the parsed reply, or `{}`. */
  function WorkflowConfig(taskDetails: Dict, reply: Completion, parse: string -> Option<Json>): Json {
    if "task" in taskDetails && reply.Completed? && parse(Strip(reply.text)).Some?
    then parse(Strip(reply.text)).value
    else EmptyObject
  }

  /** What `generate_prompt(task_details, personas, knowledge_sources, conflict_strategy,
      prior_decisions)` returns or raises. */
  function Prompt(model: Result<string>, taskDetails: Dict, ps: seq<Dict>, sources: seq<Dict>,
                  conflict: string, prior: seq<string>, replies: nat -> Completion,
                  workflowReply: Completion, parse: string -> Option<Json>): Result<PromptOutput>
  {
    if model.Err? then Err(model.error)
    else
      match AgentConfigs(taskDetails, ps, replies, parse)
      case Err(e) => Err(e)
      case Ok(configs) =>
        if "task" !in taskDetails then Err(KeyError("task"))
        else
          match ProjectSources(sources)
          case Err(e) => Err(e)
          case Ok(projected) =>
            AgentConfigsNamed(taskDetails, ps, replies, parse);
            Ok(PromptOutput(configs, WorkflowConfig(taskDetails, workflowReply, parse), taskDetails["task"],
                            projected, conflict,
                            Memory(Names(ps), Get(taskDetails, "goals", NoGoals), prior)))
  }

  /** `generate_prompt`: fills `agent_configs` persona by persona, then assembles the output. */
  method GeneratePrompt(model: Result<string>, taskDetails: Dict, ps: seq<Dict>, sources: seq<Dict>,
                        conflict: string, prior: seq<string>, replies: nat -> Completion,
                        workflowReply: Completion, parse: string -> Option<Json>)
    returns (r: Result<PromptOutput>)
    ensures r == Prompt(model, taskDetails, ps, sources, conflict, prior, replies, workflowReply, parse)
  {
    if model.Err? {
      return Err(model.error);
    }
    var configs: map<string, Json> := map[];
    var i := 0;
    while i < |ps|
      invariant 0 <= i <= |ps|
      invariant AgentConfigs(taskDetails, ps[..i], replies, parse) == Ok(configs)
    {
      assert ps[..i + 1][..i] == ps[..i];
      if "name" !in ps[i] {
        AgentConfigsErrFrom(taskDetails, ps, replies, parse, i + 1);
        return Err(KeyError("name"));
      }
      configs := configs[ps[i]["name"] := AgentConfig(taskDetails, ps[i], replies(i), parse)];
      i := i + 1;
    }
    assert ps[..i] == ps;
    var workflow := WorkflowConfig(taskDetails, workflowReply, parse);
    if "task" !in taskDetails {
      return Err(KeyError("task"));
    }
    var projected := ProjectSources(sources);
    if projected.Err? {
      return Err(projected.error);
    }
    AgentConfigsNamed(taskDetails, ps, replies, parse);
    return Ok(PromptOutput(configs, workflow, taskDetails["task"], projected.value, conflict,
                           Memory(Names(ps), Get(taskDetails, "goals", NoGoals), prior)));
  }

  /** Once the loop has raised, the whole loop raises the same KeyError. */
  lemma {:induction false} AgentConfigsErrFrom(taskDetails: Dict, ps: seq<Dict>, replies: nat -> Completion,
                                               parse: string -> Option<Json>, n: nat)
    requires n <= |ps| && AgentConfigs(taskDetails, ps[..n], replies, parse).Err?
    ensures AgentConfigs(taskDetails, ps, replies, parse) == AgentConfigs(taskDetails, ps[..n], replies, parse)
    decreases |ps| - n
  {
    if n == |ps| {
      assert ps[..n] == ps;
    } else {
      assert ps[..n + 1][..n] == ps[..n];
      AgentConfigsErrFrom(taskDetails, ps, replies, parse, n + 1);
    }
  }

  /** The loop raises exactly when some persona lacks a name; otherwise `agent_configs`
      is keyed by exactly the persona names. */
  lemma {:induction false} AgentConfigsNamed(taskDetails: Dict, ps: seq<Dict>, replies: nat -> Completion,
                                             parse: string -> Option<Json>)
    ensures AgentConfigs(taskDetails, ps, replies, parse).Ok? <==> AllNamed(ps)
    ensures AgentConfigs(taskDetails, ps, replies, parse).Ok? ==>
              AgentConfigs(taskDetails, ps, replies, parse).value.Keys == set i | 0 <= i < |ps| :: ps[i]["name"]
  {
    if ps != [] {
      var n := |ps| - 1;
      AgentConfigsNamed(taskDetails, ps[..n], replies, parse);
      assert forall i :: 0 <= i < n ==> ps[..n][i] == ps[i];
      if AllNamed(ps) {
        assert AllNamed(ps[..n]);
        var m := AgentConfigs(taskDetails, ps[..n], replies, parse).value;
        assert m.Keys == set i | 0 <= i < n :: ps[i]["name"];
        var all := set i | 0 <= i < |ps| :: ps[i]["name"];
        assert all == (set i | 0 <= i < n :: ps[i]["name"]) + {ps[n]["name"]};
      } else if AllNamed(ps[..n]) {
        assert "name" !in ps[n];
      }
    }
  }

  /** A later persona with the same name overwrites an earlier one: each name maps to the
      configuration of its last occurrence. */
  lemma {:induction false} AgentConfigsLastWins(taskDetails: Dict, ps: seq<Dict>, replies: nat -> Completion,
                                                parse: string -> Option<Json>, i: nat)
    requires AgentConfigs(taskDetails, ps, replies, parse).Ok?
    requires i < |ps| && "name" in ps[i]
    requires forall j :: i < j < |ps| && "name" in ps[j] ==> ps[j]["name"] != ps[i]["name"]
    ensures ps[i]["name"] in AgentConfigs(taskDetails, ps, replies, parse).value
    ensures AgentConfigs(taskDetails, ps, replies, parse).value[ps[i]["name"]]
              == AgentConfig(taskDetails, ps[i], replies(i), parse)
  {
    var n := |ps| - 1;
    if i < n {
      assert ps[..n][i] == ps[i];
      forall j | i < j < |ps[..n]| && "name" in ps[..n][j]
        ensures ps[..n][j]["name"] != ps[i]["name"]
      {
        assert ps[..n][j] == ps[j];
      }
      AgentConfigsLastWins(taskDetails, ps[..n], replies, parse, i);
    }
  }

  /** The output keeps the task, the strategy and the decisions as given, lists the persona
      names in order, keeps only title and url of each source, and falls back to
      "No specific goals provided." for missing goals. */
  lemma PromptFields(model: Result<string>, taskDetails: Dict, ps: seq<Dict>, sources: seq<Dict>,
                     conflict: string, prior: seq<string>, replies: nat -> Completion,
                     workflowReply: Completion, parse: string -> Option<Json>)
    requires Prompt(model, taskDetails, ps, sources, conflict, prior, replies, workflowReply, parse).Ok?
    ensures var out := Prompt(model, taskDetails, ps, sources, conflict, prior, replies, workflowReply, parse).value;
            "task" in taskDetails && out.task == taskDetails["task"]
            && out.conflictResolution == conflict && out.memory.priorDecisions == prior
            && |out.memory.personas| == |ps|
            && (forall i :: 0 <= i < |ps| ==> "name" in ps[i] && out.memory.personas[i] == ps[i]["name"])
            && (out.memory.taskGoals == if "goals" in taskDetails then taskDetails["goals"] else NoGoals)
            && |out.knowledgeSources| == |sources|
            && (forall i :: 0 <= i < |sources| ==>
                  out.knowledgeSources[i] == map["title" := sources[i]["title"], "url" := sources[i]["url"]])
  {
    AgentConfigsNamed(taskDetails, ps, replies, parse);
    ProjectSourcesValues(sources);
  }

  lemma {:induction false} ProjectSourcesValues(sources: seq<Dict>)
    requires ProjectSources(sources).Ok?
    ensures forall i :: 0 <= i < |sources| ==>
              ProjectSources(sources).value[i] == map["title" := sources[i]["title"], "url" := sources[i]["url"]]
  {
    if sources != [] {
      ProjectSourcesValues(sources[1..]);
      assert forall i :: 1 <= i < |sources| ==> sources[i] == sources[1..][i - 1];
    }
  }

  /** A failed completion stores `{}` for that persona, and for the workflow. */
  lemma FailedRepliesGiveEmptyConfigs(taskDetails: Dict, p: Dict, parse: string -> Option<Json>)
    ensures AgentConfig(taskDetails, p, Failed, parse) == EmptyObject
    ensures WorkflowConfig(taskDetails, Failed, parse) == EmptyObject
  {
  }
}
