/** persona_management.py: persona generation with a `find`/`rfind` slice and its own
    fallback table, the initial conversation, and in-place tone editing. */
module PersonaManagement {
  import opened Text
  import opened Boundary
  import SharedFunctions

  /** The array text handed to `json.loads`: from the first '[' through the last ']' when
      those bracket something, otherwise the whole content. */
  function SliceSpan(content: string): string {
    var start := Find(content, '[');
    var end := RFind(content, ']') + 1;
    if start >= 0 && end > start then content[start..end] else content
  }

  /** The slice selects the same text as the greedy regex `(\[.*\])` of shared_functions.py,
      and falls back to the whole content exactly when that regex finds nothing. */
  lemma SliceSpanIsRegexSpan(content: string)
    ensures SliceSpan(content) ==
      match SharedFunctions.GreedySpan(content, '[', ']')
      case Some(span) => span
      case None => content
  {
  }

  /** The keys of a fallback persona. */
  const FallbackKeys := {"name", "background", "goals", "beliefs", "knowledge", "communication_style"}

  function FallbackName(i: nat): string {
    if i == 0 then "John Smith" else if i == 1 then "Sarah Johnson" else "Developer " + Decimal(i + 1)
  }

  function FallbackPersona(task: string, i: nat): (p: Dict)
    ensures p.Keys == FallbackKeys
  {
    map["name" := FallbackName(i),
        "background" := "Senior Software Developer with " + Decimal(10 + i) + " years of experience",
        "goals" := "Deliver high-quality solutions for " + task,
        "beliefs" := "Code quality and maintainability are paramount",
        "knowledge" := "Expert in relevant technologies for " + "task " + Decimal(i + 1),
        "communication_style" := "Professional and detailed"]
  }

  /** The fallback list of `persona_count` personas. */
  function FallbackPersonas(task: string, count: int): (r: seq<Dict>)
    ensures |r| == if count < 0 then 0 else count
    ensures forall i :: 0 <= i < |r| ==> r[i] == FallbackPersona(task, i)
  {
    if count <= 0 then [] else seq(count, i requires 0 <= i < count => FallbackPersona(task, i))
  }

  /** What `generate_personas(task_details, persona_count)` returns or raises: the parsed
      reply as it is, or the fallback list as JSON objects. */
  function GeneratePersonas(details: Dict, count: int, reply: Completion, parse: string -> Option<Json>): Result<Json> {
    if "task" !in details then Err(KeyError("task"))
    else
      var fallback := JArray(seq(|FallbackPersonas(details["task"], count)|,
                                 i requires 0 <= i < |FallbackPersonas(details["task"], count)| =>
                                   JObject(FallbackPersonas(details["task"], count)[i])));
      if reply.Failed? then Ok(fallback)
      else
        match parse(SliceSpan(Strip(reply.text)))
        case Some(personas) => Ok(personas)
        case None => Ok(fallback)
  }

  /** `generate_personas_wrapper` */
  function GeneratePersonasWrapper(details: Dict, count: int, reply: Completion, parse: string -> Option<Json>): (r: Result<Json>)
    ensures r == GeneratePersonas(details, count, reply, parse)
  {
    GeneratePersonas(details, count, reply, parse)
  }

  /** On failure, `generate_personas` returns exactly `persona_count` personas with the six
      keys only, each fallback persona's goals ending with the task text. */
  lemma FallbackOutcome(details: Dict, count: int, reply: Completion, parse: string -> Option<Json>)
    requires "task" in details
    requires reply.Failed? || parse(SliceSpan(Strip(reply.text))).None?
    ensures var r := GeneratePersonas(details, count, reply, parse);
            r.Ok? && r.value.JArray?
            && |r.value.items| == (if count < 0 then 0 else count)
            && forall i :: 0 <= i < |r.value.items| ==>
                 r.value.items[i].JObject? && r.value.items[i].fields.Keys == FallbackKeys
                 && "role" !in r.value.items[i].fields
                 && EndsWith(r.value.items[i].fields["goals"], details["task"])
  {
  }

  /** Fallback persona i is John Smith, Sarah Johnson, then "Developer <i+1>"; its
      background mentions 10+i years and its knowledge ends with "task <i+1>". */
  lemma FallbackPersonaText(task: string, i: nat)
    ensures FallbackPersona(task, i)["name"] ==
              if i == 0 then "John Smith" else if i == 1 then "Sarah Johnson" else "Developer " + Decimal(i + 1)
    ensures Contains(FallbackPersona(task, i)["background"], Decimal(10 + i))
    ensures EndsWith(FallbackPersona(task, i)["knowledge"], "task " + Decimal(i + 1))
  {
    var p := FallbackPersona(task, i);
    ContainsMiddle("Senior Software Developer with ", Decimal(10 + i), " years of experience");
    var pre := "Expert in relevant technologies for ";
    AppendAssoc(pre, "task ", Decimal(i + 1));
    EndsWithAppend(pre, "task " + Decimal(i + 1));
  }

  /** No two fallback personas share a name. */
  lemma FallbackNamesDistinct(i: nat, j: nat)
    requires i != j
    ensures FallbackName(i) != FallbackName(j)
  {
    var dev := "Developer ";
    if i >= 2 && j >= 2 {
      if FallbackName(i) == FallbackName(j) {
        assert FallbackName(i)[|dev|..] == Decimal(i + 1);
        assert FallbackName(j)[|dev|..] == Decimal(j + 1);
        DecimalInjective(i + 1, j + 1);
      }
    } else if i >= 2 {
      assert FallbackName(i)[0] == 'D' && FallbackName(j)[0] != 'D';
    } else if j >= 2 {
      assert FallbackName(j)[0] == 'D' && FallbackName(i)[0] != 'D';
    }
  }

  // ---------------------------------------------------------------------------------
  // generate_initial_conversation

  function Greeting(name: string, background: string, goals: string): string {
    name + ": Hello, I am " + name + ". My background is " + background + ". I aim to achieve " + goals + "."
  }

  /** A persona the greeting line can be formatted from. */
  predicate Greetable(p: Dict) {
    "name" in p && "background" in p && "goals" in p
  }

  /** The greeting lines, or the KeyError of the first persona lacking a key, the keys
      being looked up in the order the f-string names them. */
  function Greetings(ps: seq<Dict>): (r: Result<seq<string>>)
    ensures r.Ok? <==> forall i :: 0 <= i < |ps| ==> Greetable(ps[i])
    ensures r.Ok? ==> |r.value| == |ps|
    ensures r.Err? ==> r.error in {KeyError("name"), KeyError("background"), KeyError("goals")}
  {
    if ps == [] then Ok([])
    else if "name" !in ps[0] then Err(KeyError("name"))
    else if "background" !in ps[0] then Err(KeyError("background"))
    else if "goals" !in ps[0] then Err(KeyError("goals"))
    else
      match Greetings(ps[1..])
      case Err(e) => Err(e)
      case Ok(rest) =>
        assert forall i :: 1 <= i < |ps| ==> ps[i] == ps[1..][i - 1];
        Ok([Greeting(ps[0]["name"], ps[0]["background"], ps[0]["goals"])] + rest)
  }

  /** `generate_initial_conversation(personas)` */
  function InitialConversation(ps: seq<Dict>): Result<string> {
    match Greetings(ps)
    case Err(e) => Err(e)
    case Ok(lines) => Ok(Join("\n", lines))
  }

  lemma {:induction false} GreetingsValues(ps: seq<Dict>, i: nat)
    requires Greetings(ps).Ok? && i < |ps|
    ensures Greetable(ps[i])
    ensures Greetings(ps).value[i] == Greeting(ps[i]["name"], ps[i]["background"], ps[i]["goals"])
  {
    if i > 0 {
      assert ps[1..][i - 1] == ps[i];
      GreetingsValues(ps[1..], i - 1);
    }
  }

  /** No line break inside the fields a greeting shows. */
  predicate SingleLine(p: Dict) {
    Greetable(p) && '\n' !in p["name"] && '\n' !in p["background"] && '\n' !in p["goals"]
  }

  /** An empty list gives ""; when no name, background or goals holds a line break, the
      conversation splits on "\n" into exactly one greeting per persona, in order. */
  lemma InitialConversationLines(ps: seq<Dict>)
    requires InitialConversation(ps).Ok?
    ensures ps == [] ==> InitialConversation(ps).value == ""
    ensures ps != [] && (forall i :: 0 <= i < |ps| ==> SingleLine(ps[i]))
            ==> var lines := SplitOn(InitialConversation(ps).value, '\n');
                |lines| == |ps|
                && forall i :: 0 <= i < |ps| ==> lines[i] == Greeting(ps[i]["name"], ps[i]["background"], ps[i]["goals"])
  {
    var lines := Greetings(ps).value;
    if ps != [] && (forall i :: 0 <= i < |ps| ==> SingleLine(ps[i])) {
      forall i | 0 <= i < |ps|
        ensures lines[i] == Greeting(ps[i]["name"], ps[i]["background"], ps[i]["goals"])
        ensures '\n' !in lines[i]
      {
        GreetingsValues(ps, i);
        GreetingSingleLine(ps[i]["name"], ps[i]["background"], ps[i]["goals"]);
      }
      assert "\n" == ['\n'];
      SplitOnJoin('\n', lines);
    }
  }

  lemma GreetingSingleLine(name: string, background: string, goals: string)
    requires '\n' !in name && '\n' !in background && '\n' !in goals
    ensures '\n' !in Greeting(name, background, goals)
  {
  }

  // ---------------------------------------------------------------------------------
  // edit_persona_tones

  /** One persona after the tone edit. */
  function Retoned(p: Dict, adjustments: Dict): (r: Dict)
    requires "name" in p
  {
    if p["name"] in adjustments then p["communication_style" := adjustments[p["name"]]] else p
  }

  /** The index of the first persona without a name, where the loop raises; `|ps|` if none. */
  function FirstUnnamed(ps: seq<Dict>): (k: nat)
    ensures k <= |ps|
    ensures forall i :: 0 <= i < k ==> "name" in ps[i]
    ensures k < |ps| ==> "name" !in ps[k]
  {
    if ps == [] then 0
    else if "name" !in ps[0] then 0
    else
      var k := FirstUnnamed(ps[1..]);
      assert forall i :: 1 <= i < |ps| ==> ps[i] == ps[1..][i - 1];
      1 + k
  }

  /** `edit_persona_tones(personas, tone_adjustments)`: changes the dicts of the list in
      place and returns the same list; a persona without a name raises KeyError after the
      personas before it were edited. */
  method EditPersonaTones(personas: array<Dict>, adjustments: Dict) returns (r: Result<array<Dict>>)
    modifies personas
    ensures var k := FirstUnnamed(old(personas[..]));
            (r.Ok? <==> k == personas.Length)
            && (r.Ok? ==> r.value == personas)
            && (r.Err? ==> r.error == KeyError("name"))
            && forall i :: 0 <= i < personas.Length ==>
                 personas[i] == if i < k then Retoned(old(personas[i]), adjustments) else old(personas[i])
  {
    ghost var k := FirstUnnamed(personas[..]);
    var i := 0;
    while i < personas.Length
      invariant 0 <= i <= personas.Length && i <= k
      invariant forall j :: 0 <= j < i ==> personas[j] == Retoned(old(personas[j]), adjustments)
      invariant forall j :: i <= j < personas.Length ==> personas[j] == old(personas[j])
    {
      assert personas[i] == old(personas[..])[i];
      if "name" !in personas[i] {
        return Err(KeyError("name"));
      }
      if personas[i]["name"] in adjustments {
        personas[i] := personas[i]["communication_style" := adjustments[personas[i]["name"]]];
      }
      i := i + 1;
    }
    return Ok(personas);
  }

  /** The edit touches only `communication_style`, and only for personas whose name is a key
      of the adjustments; applying the same adjustments again changes nothing. */
  lemma RetonedEffect(p: Dict, adjustments: Dict)
    requires "name" in p
    ensures var r := Retoned(p, adjustments);
            "name" in r && r["name"] == p["name"]
            && (forall k :: k in p && k != "communication_style" ==> k in r && r[k] == p[k])
            && (p["name"] in adjustments ==> r.Keys == p.Keys + {"communication_style"}
                                             && r["communication_style"] == adjustments[p["name"]])
            && (p["name"] !in adjustments ==> r == p)
            && Retoned(r, adjustments) == r
  {
  }
}
