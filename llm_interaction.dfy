/** Provider resolution (`configure_litellm`) and the AutoGen code-text builder
    (`generate_autogen_workflow`) of llm_interaction.py. */
module LlmInteraction {
  import opened Text
  import opened Boundary

  /** The process environment, `os.environ`. */
  type Env = map<string, string>

  const ModelVar := "LITELLM_MODEL"
  const ProviderVar := "LITELLM_PROVIDER"

  const NoConfigMessage :=
      "No valid LiteLLM configuration found. "
    + "Please set LITELLM_MODEL, LITELLM_PROVIDER, "
    + "and corresponding API key in environment variables."

  /** One row of the provider table: its name, the variable holding its API key and the
      model used for it when LITELLM_MODEL is not set. The source keeps the key variables
      and the default models in two dicts with the same six names in the same order. */
  datatype Provider = Provider(name: string, keyVar: string, defaultModel: string)

  const Providers: seq<Provider> := [
    Provider("openai", "OPENAI_API_KEY", "gpt-3.5-turbo"),
    Provider("groq", "GROQ_API_KEY", "groq/mixtral-8x7b-32768"),
    Provider("deepseek", "DEEPSEEK_API_KEY", "deepseek-coder"),
    Provider("huggingface", "HUGGINGFACE_API_KEY", "huggingface/mistral-7b"),
    Provider("ollama", "OLLAMA_API_KEY", "ollama/llama2"),
    Provider("mistral", "MISTRAL_API_KEY", "mistral-medium")
  ]

  /** `os.getenv(v)` is truthy: present and not empty. */
  predicate IsSet(env: Env, v: string) {
    v in env && env[v] != ""
  }

  /** `api_key and api_key.strip()`: present and not blank. */
  predicate Usable(env: Env, v: string) {
    v in env && Strip(env[v]) != ""
  }

  /** The index of the first provider, from `i` on, called `name`; `|Providers|` if none. */
  function ProviderIndex(name: string, i: nat): (r: nat)
    requires i <= |Providers|
    ensures i <= r <= |Providers|
    ensures r < |Providers| ==> Providers[r].name == name
    ensures forall j :: i <= j < r ==> Providers[j].name != name
    decreases |Providers| - i
  {
    if i == |Providers| then i
    else if Providers[i].name == name then i
    else ProviderIndex(name, i + 1)
  }

  /** `providers.get(name)`: the key variable of the provider called `name`. */
  function KeyVarOf(name: string): Option<string> {
    var k := ProviderIndex(name, 0);
    if k < |Providers| then Some(Providers[k].keyVar) else None
  }

  /** The index of the first provider, from `i` on, whose key is usable; `|Providers|` if none. */
  function FirstUsable(env: Env, i: nat): (k: nat)
    requires i <= |Providers|
    ensures i <= k <= |Providers|
    ensures k < |Providers| ==> Usable(env, Providers[k].keyVar)
    ensures forall j :: i <= j < k ==> !Usable(env, Providers[j].keyVar)
    decreases |Providers| - i
  {
    if i == |Providers| then i
    else if Usable(env, Providers[i].keyVar) then i
    else FirstUsable(env, i + 1)
  }

  /** The explicit configuration applies: model and provider set, the provider known
      (compared in lower case) and its key usable. */
  predicate ExplicitApplies(env: Env) {
    IsSet(env, ModelVar) && IsSet(env, ProviderVar)
    && KeyVarOf(Lower(env[ProviderVar])).Some?
    && Usable(env, KeyVarOf(Lower(env[ProviderVar])).value)
  }

  /** A successful configuration: the returned model, the value given to `litellm.api_key`
      and the environment afterwards. */
  datatype Resolution = Resolution(model: string, apiKey: string, env: Env)

  /** What `configure_litellm` does to an environment. */
  function Resolve(env: Env): Result<Resolution> {
    if ExplicitApplies(env) then
      var keyVar := KeyVarOf(Lower(env[ProviderVar])).value;
      Ok(Resolution(env[ModelVar], env[keyVar], env))
    else
      var k := FirstUsable(env, 0);
      if k == |Providers| then Err(ValueError(NoConfigMessage))
      else
        var p := Providers[k];
        var model := if IsSet(env, ModelVar) then env[ModelVar] else p.defaultModel;
        Ok(Resolution(model, env[p.keyVar], env[ModelVar := model][ProviderVar := p.name]))
  }

  /** The state `configure_litellm` touches: the environment and `litellm.api_key`. */
  class Process {
    var env: Env
    var apiKey: Option<string>

    constructor (env0: Env)
      ensures env == env0 && apiKey == None
    {
      env := env0;
      apiKey := None;
    }

    /** `configure_litellm()`: returns the model, or the ValueError it raises. */
    method ConfigureLitellm() returns (r: Result<string>)
      modifies this
      ensures Resolve(old(env)).Ok? ==>
        r == Ok(Resolve(old(env)).value.model)
        && apiKey == Some(Resolve(old(env)).value.apiKey)
        && env == Resolve(old(env)).value.env
      ensures Resolve(old(env)).Err? ==>
        r == Err(ValueError(NoConfigMessage)) && apiKey == old(apiKey) && env == old(env)
    {
      var model: Option<string> := if ModelVar in env then Some(env[ModelVar]) else None;
      var provider: Option<string> := if ProviderVar in env then Some(env[ProviderVar]) else None;
      if model.Some? && model.value != "" && provider.Some? && provider.value != "" {
        var keyVar := KeyVarOf(Lower(provider.value));
        if keyVar.Some? {
          if keyVar.value in env && Strip(env[keyVar.value]) != "" {
            assert ExplicitApplies(env);
            apiKey := Some(env[keyVar.value]);
            return Ok(model.value);
          }
        }
      }
      assert !ExplicitApplies(env);
      var i := 0;
      while i < |Providers|
        invariant 0 <= i <= |Providers|
        invariant env == old(env) && apiKey == old(apiKey)
        invariant FirstUsable(env, 0) == FirstUsable(env, i)
      {
        var p := Providers[i];
        if p.keyVar in env && Strip(env[p.keyVar]) != "" {
          assert FirstUsable(env, 0) == i;
          var chosen := if model.Some? && model.value != "" then model.value else p.defaultModel;
          apiKey := Some(env[p.keyVar]);
          env := env[ModelVar := chosen][ProviderVar := p.name];
          return Ok(chosen);
        }
        i := i + 1;
      }
      assert FirstUsable(env, 0) == |Providers|;
      return Err(ValueError(NoConfigMessage));
    }
  }

  /** The facts about the literal provider table the lemmas below rely on. */
  lemma ProviderTable(k: nat)
    requires k < |Providers|
    ensures Lower(Providers[k].name) == Providers[k].name
    ensures KeyVarOf(Providers[k].name) == Some(Providers[k].keyVar)
    ensures Providers[k].name != "" && Providers[k].defaultModel != ""
    ensures Providers[k].keyVar != ModelVar && Providers[k].keyVar != ProviderVar
  {
    var p := Providers[k];
    forall j | 0 <= j < |p.name|
      ensures LowerChar(p.name[j]) == p.name[j]
    {
      assert 'a' <= p.name[j] <= 'z';
    }
    assert Lower(p.name) == p.name;
    assert forall j :: 0 <= j < |Providers| && j != k ==> Providers[j].name != p.name;
  }

  /** A whitespace-only key counts as absent. */
  lemma UsableIff(env: Env, v: string)
    ensures Usable(env, v) <==> v in env && !AllSpace(env[v])
  {
    if v in env {
      StripEmptyIff(env[v]);
    }
  }

  /** A ValueError is raised exactly when no provider key is usable. */
  lemma ResolveFailsIff(env: Env)
    ensures Resolve(env).Err? <==> forall k :: 0 <= k < |Providers| ==> !Usable(env, Providers[k].keyVar)
  {
    if ExplicitApplies(env) {
      var k := ProviderIndex(Lower(env[ProviderVar]), 0);
      assert Usable(env, Providers[k].keyVar);
    }
  }

  /** The explicit branch returns the configured model and leaves the environment alone. */
  lemma ExplicitConfiguration(env: Env)
    requires ExplicitApplies(env)
    ensures Resolve(env).Ok?
    ensures Resolve(env).value.model == env[ModelVar]
    ensures Resolve(env).value.env == env
    ensures exists k :: 0 <= k < |Providers| && Lower(env[ProviderVar]) == Providers[k].name
              && Usable(env, Providers[k].keyVar) && Resolve(env).value.apiKey == env[Providers[k].keyVar]
  {
    var k := ProviderIndex(Lower(env[ProviderVar]), 0);
    assert Providers[k].name == Lower(env[ProviderVar]);
  }

  /** Otherwise the first provider in table order with a usable key wins; its default model
      is used unless a model is set, and both are written back. */
  lemma ScannedConfiguration(env: Env, k: nat)
    requires !ExplicitApplies(env)
    requires k < |Providers| && Usable(env, Providers[k].keyVar)
    requires forall j :: 0 <= j < k ==> !Usable(env, Providers[j].keyVar)
    ensures Resolve(env).Ok?
    ensures Resolve(env).value.apiKey == env[Providers[k].keyVar]
    ensures Resolve(env).value.model == if IsSet(env, ModelVar) then env[ModelVar] else Providers[k].defaultModel
    ensures Resolve(env).value.env == env[ModelVar := Resolve(env).value.model][ProviderVar := Providers[k].name]
  {
    FirstUsableIs(env, k);
    var p := Providers[k];
    var model := if IsSet(env, ModelVar) then env[ModelVar] else p.defaultModel;
    assert Resolve(env) == Ok(Resolution(model, env[p.keyVar], env[ModelVar := model][ProviderVar := p.name]));
  }

  lemma FirstUsableIs(env: Env, k: nat)
    requires k < |Providers| && Usable(env, Providers[k].keyVar)
    requires forall j :: 0 <= j < k ==> !Usable(env, Providers[j].keyVar)
    ensures FirstUsable(env, 0) == k
  {
  }

  /** Calling `configure_litellm` again on the environment it produced returns the same
      model and key and changes nothing further. */
  lemma ResolveIdempotent(env: Env)
    requires Resolve(env).Ok?
    ensures Resolve(Resolve(env).value.env) == Resolve(env)
  {
    if !ExplicitApplies(env) {
      var k := FirstUsable(env, 0);
      var p := Providers[k];
      var r := Resolve(env).value;
      ProviderTable(k);
      assert r.env[ProviderVar] == p.name;
      assert r.env[p.keyVar] == env[p.keyVar];
      assert ExplicitApplies(r.env);
      assert r.env[ModelVar := r.model][ProviderVar := p.name] == r.env;
    }
  }

  /** The configuration in tests/test_llm_interaction.py: a model and an OpenAI key. */
  lemma ResolveOpenAIExample()
    ensures var env := map[ModelVar := "gpt-3.5-turbo", "OPENAI_API_KEY" := "test_api_key"];
            Resolve(env) == Ok(Resolution("gpt-3.5-turbo", "test_api_key", env[ProviderVar := "openai"]))
  {
    var env := map[ModelVar := "gpt-3.5-turbo", "OPENAI_API_KEY" := "test_api_key"];
    OpenAIExampleScans(env);
    ScannedConfiguration(env, 0);
    RewriteSame(env, ModelVar);
  }

  lemma RewriteSame<K, V>(m: map<K, V>, k: K)
    requires k in m
    ensures m[k := m[k]] == m
  {
  }

  /** The example sets no provider, so the table is scanned and OpenAI comes first. */
  lemma OpenAIExampleScans(env: Env)
    requires env == map[ModelVar := "gpt-3.5-turbo", "OPENAI_API_KEY" := "test_api_key"]
    ensures !ExplicitApplies(env) && Usable(env, Providers[0].keyVar) && IsSet(env, ModelVar)
  {
    assert !IsSpace("test_api_key"[0]) && !IsSpace("test_api_key"[11]);
    assert ProviderVar[8] != ModelVar[8] && ProviderVar[0] != Providers[0].keyVar[0];
    assert ProviderVar !in env;
  }

  // ---------------------------------------------------------------------------------
  // generate_autogen_workflow

  const ProxyType := "User Proxy Agent"
  const AssistantType := "Assistant Agent"
  const GroupChatType := "GroupChat"

  const WorkflowHeader :=
      "from autogen import AssistantAgent, UserProxyAgent, GroupChat, GroupChatManager\n"
    + "import autogen\n"
    + "\n"
    + "# Configure agents\n"
    + "config_list = [\n"
    + "    {\n"
    + "        'model': 'gpt-4',\n"
    + "        'api_key': 'your-api-key'  # Replace with your API key\n"
    + "    }\n"
    + "]\n"

  const ChatTail :=
      "\n"
    + "\n"
    + "# Initialize chat between agents\n"
    + "initiator = user_proxy  # First agent\n"
    + "receiver = assistant_agent  # Second agent\n"
    + "\n"
    + "# Start the conversation\n"
    + "initiator.initiate_chat(\n"
    + "    receiver,\n"
    + "    message=\"Let's work on the task together.\"\n"
    + ")"

  const SequentialTail :=
      "\n"
    + "\n"
    + "# Create a list of agents in sequence\n"
    + "agents = [user_proxy, assistant_agent]  # Add more agents as needed\n"
    + "\n"
    + "# Create GroupChat\n"
    + "groupchat = GroupChat(\n"
    + "    agents=agents,\n"
    + "    messages=[],\n"
    + "    max_round=5\n"
    + ")\n"
    + "\n"
    + "# Create manager\n"
    + "manager = GroupChatManager(groupchat=groupchat, llm_config={\"config_list\": config_list})\n"
    + "\n"
    + "# Start the sequential interaction\n"
    + "manager.start()"

  const GroupChatTail :=
      "\n"
    + "\n"
    + "# Create GroupChat with all agents\n"
    + "all_agents = [user_proxy, assistant_agent]  # Add all agents\n"
    + "groupchat = GroupChat(\n"
    + "    agents=all_agents,\n"
    + "    messages=[],\n"
    + "    max_round=10\n"
    + ")\n"
    + "\n"
    + "# Create manager for group chat\n"
    + "manager = GroupChatManager(groupchat=groupchat, llm_config={\"config_list\": config_list})\n"
    + "\n"
    + "# Start the group chat\n"
    + "manager.start()"

  /** The Python identifier derived from a persona name. */
  function AgentIdent(name: string): (r: string)
    ensures |r| == |name|
    ensures forall j :: 0 <= j < |r| ==> r[j] != ' ' && !('A' <= r[j] <= 'Z')
  {
    Lower(ReplaceChar(name, ' ', '_'))
  }

  /** The comment line that opens an agent block: "\n# <agent type> for <persona name>\n". */
  function AgentComment(agentType: string, name: string): string {
    "\n# " + agentType + " for " + name + "\n"
  }

  function ProxyText(name: string, ident: string, background: string, goals: string, beliefs: string): string {
    AgentComment(ProxyType, name)
    + (ident + "_proxy = UserProxyAgent(\n    name=\"" + ident
       + "_proxy\",\n    system_message=\"" + background + "\\nGoals: " + goals + "\\nBeliefs: " + beliefs
       + "\",\n    human_input_mode=\"TERMINATE\"\n)")
  }

  function AssistantText(name: string, ident: string, background: string, knowledge: string, style: string): string {
    AgentComment(AssistantType, name)
    + (ident + "_assistant = AssistantAgent(\n    name=\"" + ident
       + "_assistant\",\n    system_message=\"" + background + "\\nKnowledge: " + knowledge + "\\nCommunication Style: " + style
       + "\",\n    llm_config={\"config_list\": config_list}\n)")
  }

  /** The persona carries every key its requested agent blocks read. */
  predicate HasAgentKeys(p: Dict, types: seq<string>) {
    "name" in p
    && (ProxyType in types ==> "background" in p && "goals" in p && "beliefs" in p)
    && (AssistantType in types ==> "background" in p && "knowledge" in p && "communication_style" in p)
  }

  /** The code one persona contributes, or the KeyError of its first missing lookup. */
  function PersonaBlock(p: Dict, types: seq<string>): (r: Result<string>)
    ensures r.Err? <==> !HasAgentKeys(p, types)
  {
    if "name" !in p then Err(KeyError("name"))
    else if ProxyType in types && "background" !in p then Err(KeyError("background"))
    else if ProxyType in types && "goals" !in p then Err(KeyError("goals"))
    else if ProxyType in types && "beliefs" !in p then Err(KeyError("beliefs"))
    else if AssistantType in types && "background" !in p then Err(KeyError("background"))
    else if AssistantType in types && "knowledge" !in p then Err(KeyError("knowledge"))
    else if AssistantType in types && "communication_style" !in p then Err(KeyError("communication_style"))
    else Ok(ProxyPart(p, types) + AssistantPart(p, types))
  }

  function ProxyPart(p: Dict, types: seq<string>): string
    requires HasAgentKeys(p, types)
  {
    if ProxyType in types then ProxyText(p["name"], AgentIdent(p["name"]), p["background"], p["goals"], p["beliefs"]) else ""
  }

  function AssistantPart(p: Dict, types: seq<string>): string
    requires HasAgentKeys(p, types)
  {
    if AssistantType in types then AssistantText(p["name"], AgentIdent(p["name"]), p["background"], p["knowledge"], p["communication_style"]) else ""
  }

  /** The blocks of all personas in order; the first failing persona's KeyError. */
  function AgentBlocks(ps: seq<Dict>, types: seq<string>): Result<string>
  {
    if ps == [] then Ok("")
    else
      match PersonaBlock(ps[0], types)
      case Err(e) => Err(e)
      case Ok(b) => Prefixed(b, AgentBlocks(ps[1..], types))
  }

  /** `s` put in front of a successful text; an error passes through. */
  function Prefixed(s: string, r: Result<string>): Result<string> {
    match r
    case Ok(t) => Ok(s + t)
    case Err(e) => Err(e)
  }

  /** The code after the agent blocks: the workflow tail, then the GroupChat block. */
  function WorkflowTail(workflowType: string, types: seq<string>): string {
    (if workflowType == "Autonomous (Chat)" then ChatTail
     else if workflowType == "Sequential" then SequentialTail
     else "")
    + (if GroupChatType in types then GroupChatTail else "")
  }

  function AgentTypesOrDefault(agentTypes: Option<seq<string>>): seq<string> {
    if agentTypes.None? then [AssistantType] else agentTypes.value
  }

  /** What `generate_autogen_workflow(personas, workflow_type, agent_types)` returns or raises. */
  function AutogenWorkflow(ps: seq<Dict>, workflowType: string, agentTypes: Option<seq<string>>): Result<string> {
    var types := AgentTypesOrDefault(agentTypes);
    match AgentBlocks(ps, types)
    case Err(e) => Err(e)
    case Ok(blocks) => Ok(WorkflowHeader + blocks + WorkflowTail(workflowType, types))
  }

  /** `generate_autogen_workflow`: the header, the agent blocks, then the tails. */
  method GenerateAutogenWorkflow(ps: seq<Dict>, workflowType: string, agentTypes: Option<seq<string>>)
    returns (r: Result<string>)
    ensures r == AutogenWorkflow(ps, workflowType, agentTypes)
  {
    var types := if agentTypes.None? then [AssistantType] else agentTypes.value;
    var workflow := WorkflowHeader;
    r := AppendAgentBlocks(workflow, ps, types);
    if r.Err? {
      return;
    }
    workflow := r.value;
    workflow := AppendTails(workflow, workflowType, types);
    return Ok(workflow);
  }

  /** The tail chosen by the workflow type, then the GroupChat block when requested. */
  method AppendTails(workflow0: string, workflowType: string, types: seq<string>) returns (workflow: string)
    ensures workflow == workflow0 + WorkflowTail(workflowType, types)
  {
    workflow := workflow0;
    ghost var tail := "";
    if workflowType == "Autonomous (Chat)" {
      workflow := workflow + ChatTail;
      tail := ChatTail;
    } else if workflowType == "Sequential" {
      workflow := workflow + SequentialTail;
      tail := SequentialTail;
    }
    assert workflow == workflow0 + tail;
    if GroupChatType in types {
      AppendAssoc(workflow0, tail, GroupChatTail);
      workflow := workflow + GroupChatTail;
      tail := tail + GroupChatTail;
    }
    assert tail == WorkflowTail(workflowType, types);
  }

  /** The loop of `generate_autogen_workflow` that appends, persona by persona, the proxy
      and assistant blocks to `workflow0`; stops at the first KeyError. */
  method AppendAgentBlocks(workflow0: string, ps: seq<Dict>, types: seq<string>) returns (r: Result<string>)
    ensures r == Prefixed(workflow0, AgentBlocks(ps, types))
  {
    var workflow := workflow0;
    var i := 0;
    assert ps[i..] == ps;
    while i < |ps|
      invariant 0 <= i <= |ps|
      invariant Prefixed(workflow0, AgentBlocks(ps, types)) == Prefixed(workflow, AgentBlocks(ps[i..], types))
    {
      var p := ps[i];
      var block := PersonaBlock(p, types);
      AgentBlocksFrom(ps, types, i);
      if block.Err? {
        return Err(block.error);
      }
      PrefixedTwice(workflow, block.value, AgentBlocks(ps[i + 1..], types));
      ghost var before := workflow;
      AppendAssoc(workflow, ProxyPart(p, types), AssistantPart(p, types));
      if ProxyType in types {
        workflow := workflow + ProxyText(p["name"], AgentIdent(p["name"]), p["background"], p["goals"], p["beliefs"]);
      } else {
        assert workflow + ProxyPart(p, types) == workflow;
      }
      ghost var middle := workflow;
      assert middle == before + ProxyPart(p, types);
      if AssistantType in types {
        workflow := workflow + AssistantText(p["name"], AgentIdent(p["name"]), p["background"], p["knowledge"], p["communication_style"]);
      } else {
        assert workflow + AssistantPart(p, types) == workflow;
      }
      assert workflow == middle + AssistantPart(p, types);
      i := i + 1;
    }
    assert ps[i..] == [] && workflow + "" == workflow;
    return Ok(workflow);
  }

  /** One step of `AgentBlocks` from position `i`. */
  lemma AgentBlocksFrom(ps: seq<Dict>, types: seq<string>, i: nat)
    requires i < |ps|
    ensures AgentBlocks(ps[i..], types) ==
      match PersonaBlock(ps[i], types)
      case Err(e) => Err(e)
      case Ok(b) => Prefixed(b, AgentBlocks(ps[i + 1..], types))
  {
    assert ps[i..][0] == ps[i] && ps[i..][1..] == ps[i + 1..];
  }

  lemma PrefixedTwice(a: string, b: string, r: Result<string>)
    ensures Prefixed(a, Prefixed(b, r)) == Prefixed(a + b, r)
  {
    if r.Ok? {
      AppendAssoc(a, b, r.value);
    }
  }

  /** The workflow fails with a KeyError exactly when some persona lacks a key its
      requested agent blocks read. */
  lemma {:induction false} AgentBlocksErrIff(ps: seq<Dict>, types: seq<string>)
    ensures AgentBlocks(ps, types).Err? <==> exists i :: 0 <= i < |ps| && !HasAgentKeys(ps[i], types)
  {
    if ps != [] {
      AgentBlocksErrIff(ps[1..], types);
      assert forall i :: 1 <= i < |ps| ==> ps[i] == ps[1..][i - 1];
      if exists i :: 1 <= i < |ps| && !HasAgentKeys(ps[i], types) {
        var i :| 1 <= i < |ps| && !HasAgentKeys(ps[i], types);
        assert !HasAgentKeys(ps[1..][i - 1], types);
      }
    }
  }

  /** Every persona's block, in full, occurs in the blocks. */
  lemma {:induction false} AgentBlocksContain(ps: seq<Dict>, types: seq<string>, i: nat)
    requires i < |ps| && AgentBlocks(ps, types).Ok?
    ensures PersonaBlock(ps[i], types).Ok?
    ensures Contains(AgentBlocks(ps, types).value, PersonaBlock(ps[i], types).value)
  {
    if i > 0 {
      assert ps[1..][i - 1] == ps[i];
    }
    var b := PersonaBlock(ps[0], types).value;
    var rest := AgentBlocks(ps[1..], types).value;
    assert AgentBlocks(ps, types).value == b + rest;
    if i == 0 {
      ContainsLeft(b, rest);
    } else {
      AgentBlocksContain(ps[1..], types, i - 1);
      ContainsRight(b, rest, PersonaBlock(ps[i], types).value);
    }
  }

  /** The shape of a successful workflow: the fixed header, then the agent blocks, then the
      tail chosen by the workflow type and the GroupChat block iff it was requested. */
  lemma WorkflowShape(ps: seq<Dict>, workflowType: string, agentTypes: Option<seq<string>>)
    requires AutogenWorkflow(ps, workflowType, agentTypes).Ok?
    ensures var w := AutogenWorkflow(ps, workflowType, agentTypes).value;
            var types := AgentTypesOrDefault(agentTypes);
            StartsWith(w, WorkflowHeader)
            && (GroupChatType in types ==> EndsWith(w, GroupChatTail))
            && (workflowType == "Autonomous (Chat)" ==> Contains(w, ChatTail))
            && (workflowType == "Sequential" ==> Contains(w, SequentialTail))
  {
    var types := AgentTypesOrDefault(agentTypes);
    var blocks := AgentBlocks(ps, types).value;
    var w := AutogenWorkflow(ps, workflowType, agentTypes).value;
    var tail := if workflowType == "Autonomous (Chat)" then ChatTail
                else if workflowType == "Sequential" then SequentialTail else "";
    var g := if GroupChatType in types then GroupChatTail else "";
    assert w == WorkflowHeader + blocks + (tail + g);
    ConcatParts(WorkflowHeader, blocks, tail, g);
  }

  /** With the proxy type requested, each persona's proxy block occurs in the workflow,
      headed by a comment naming the persona; likewise for the assistant type. */
  lemma WorkflowHasAgentComments(ps: seq<Dict>, workflowType: string, agentTypes: Option<seq<string>>, i: nat)
    requires AutogenWorkflow(ps, workflowType, agentTypes).Ok? && i < |ps|
    ensures "name" in ps[i]
    ensures var w := AutogenWorkflow(ps, workflowType, agentTypes).value;
            var types := AgentTypesOrDefault(agentTypes);
            (ProxyType in types ==> Contains(w, AgentComment(ProxyType, ps[i]["name"])))
            && (AssistantType in types ==> Contains(w, AgentComment(AssistantType, ps[i]["name"])))
  {
    var types := AgentTypesOrDefault(agentTypes);
    var blocks := AgentBlocks(ps, types).value;
    var w := AutogenWorkflow(ps, workflowType, agentTypes).value;
    var tail := WorkflowTail(workflowType, types);
    AgentBlocksContain(ps, types, i);
    var b := PersonaBlock(ps[i], types).value;
    assert w == WorkflowHeader + blocks + tail;
    ContainsWithin(WorkflowHeader, blocks, tail, b);
    BlockHasComments(ps[i], types);
    if ProxyType in types {
      ContainsTransitive(w, b, AgentComment(ProxyType, ps[i]["name"]));
    }
    if AssistantType in types {
      ContainsTransitive(w, b, AgentComment(AssistantType, ps[i]["name"]));
    }
  }

  /** A persona's block holds the comment line of each agent type it was built for. */
  lemma BlockHasComments(p: Dict, types: seq<string>)
    requires PersonaBlock(p, types).Ok?
    ensures "name" in p
    ensures var b := PersonaBlock(p, types).value;
            (ProxyType in types ==> Contains(b, AgentComment(ProxyType, p["name"])))
            && (AssistantType in types ==> Contains(b, AgentComment(AssistantType, p["name"])))
  {
    var b := PersonaBlock(p, types).value;
    var pre := ProxyPart(p, types);
    var post := AssistantPart(p, types);
    assert b == pre + post;
    if ProxyType in types {
      var c := AgentComment(ProxyType, p["name"]);
      ContainsLeft(c, pre[|c|..]);
      assert pre == c + pre[|c|..];
      ContainsLeft(pre, post);
      ContainsTransitive(b, pre, c);
    }
    if AssistantType in types {
      var c := AgentComment(AssistantType, p["name"]);
      assert post == c + post[|c|..];
      ContainsLeft(c, post[|c|..]);
      ContainsRight(pre, post, c);
    }
  }

  /** Leaving `agent_types` out is the same as asking for assistant agents only. */
  lemma DefaultAgentTypes(ps: seq<Dict>, workflowType: string)
    ensures AutogenWorkflow(ps, workflowType, None) == AutogenWorkflow(ps, workflowType, Some([AssistantType]))
  {
  }
}
