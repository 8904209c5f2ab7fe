# Persona-driven prompt generator — a verified model of its core logic

The system is a Streamlit front end around LLM calls. A user describes a task, its goals
and some reference URLs. The system:

- enhances the task text;
- generates personas that could work on the task;
- resolves conflicts between them;
- renders the result as a prompt dictionary and as Markdown.

A second set of modules builds autogen agents. They retry failed messages, cache fetched
web pages and local files, pick speakers by phase, recover from errors, and watch a
conversation for stalls.

This project models the deterministic logic behind the UI and the network, one Dafny
module per Python file:

| module | Python file | what it models |
|---|---|---|
| `SharedFunctions` | `shared_functions.py` | task enhancement; persona generation (regex span, field repair, default personas); `generate_prompt` output |
| `PersonaManagement` | `persona_management.py` | persona generation (`find`/`rfind` slice and fallback table), initial conversation, tone edits, the wrapper |
| `MainPrompt` | `main.py` | the reference-URL list and the nested `generate_prompt` renderer |
| `LlmInteraction` | `llm_interaction.py` | `configure_litellm` provider resolution (class `Process` over an environment map) and `generate_autogen_workflow` |
| `UiComponents` | `ui_components.py` | `UIConfig`, the `display_knowledge_sources` text, `create_markdown_content` |
| `AdvancedMenu` | `advanced_menu.py` | tone classification, score, prediction, in-place improvement, the chat log |
| `Homepage` | `homepage.py` | data steps of the Generate handler, the helper fallbacks, the `button_counter` session |
| `EnhancedAgents` | `agent/enhanced_agents.py` | retry loops, URL and file caches, summary and success flags, token extraction, file rules, speaker selection, phase parsing, recovery, stall detection |
| `Text` | Python `str` built-ins | `strip`, `lower`, `split`, `splitlines`, `join`, `find`, `rfind`, `in`, `startswith`, `endswith` on ASCII |
| `Boundary` | values crossing the boundary | `Result`, `Option`, errors, `Dict`, completions, parsed JSON, messages |

Everything outside the program becomes a parameter:

- an LLM completion is `Completion = Completed(text) | Failed`;
- `json.loads` is `parse: string -> Option<Json>`;
- a call into an autogen superclass is a sequence of `Reply = Replied(reply) | Raised`, indexed by attempt;
- an HTTP fetch is `fetch: string -> Fetched`;
- `os.stat` and `open` are `stat` and `open`;
- BeautifulSoup is `extract: string -> Option<PageParts>`;
- `urlparse(...).netloc` is the parameter `netloc`, and `urlparse(...).path` is the constant `pathOf` of a `FileSystemAgent`.

A Python exception that escapes to the caller is `Err(...)` of a `Result`, for example
`Err(KeyError("name"))`.

Code that mutates state is imperative Dafny. `configure_litellm` is a class `Process` whose
method writes `env` and `apiKey`. The agents are classes whose methods update their fields.
`edit_persona_tones`, `improve_emotional_tone` and the persona repair loop work in place on
an `array`. The code-building loops, `create_markdown_content`, `generate_prompt` and
`monitor_conversation` are methods with loops. Each method is proved against a function that
specifies it, and the properties are lemmas about that function.

## Model

| member | source | states |
|---|---|---|
| `SharedFunctions.SearchBounds` | shared_functions.py:60 | a found span `(i, j)` lies inside the text and is non-empty |
| `SharedFunctions.GreedySpan` | shared_functions.py:161 | a span is found only in non-empty text |
| `SharedFunctions.SearchBoundsLeftmostLongest` | shared_functions.py:161 | the greedy DOTALL search `(\[.*\])` finds nothing iff no open bracket precedes a close bracket; otherwise the span starts at the first open bracket and ends at the last close bracket |
| `SharedFunctions.EnhanceOutcome` | shared_functions.py:11-73 | an error only when no model is configured; a failed completion, no `{...}` span or a failed parse give the original task and goals; a parsed object replaces task and goals independently, each falling back to the original |
| `SharedFunctions.PersonaRequest` | shared_functions.py:100-147 | the system message, then the user message with task, goals and count, then one "Consider information from this source: url" message per URL, in order |
| `SharedFunctions.BuildPersonaRequest` | shared_functions.py:141-147 | the message-appending loop builds exactly `PersonaRequest` |
| `SharedFunctions.SourceMessages` | shared_functions.py:142-147 | one user message "Consider information from this source: url" per URL, in the URLs' order |
| `SharedFunctions.AppendSources` | shared_functions.py:142-147 | the loop over `reference_urls` appends exactly `SourceMessages` to the messages it starts from |
| `SharedFunctions.Repaired` | shared_functions.py:167-174 | after repair a persona has its own keys plus the nine required ones; present values are untouched; each missing field f holds "Default f" |
| `SharedFunctions.RepairPersona` | shared_functions.py:169-174 | the per-field loop computes `Repaired` |
| `SharedFunctions.RepairPersonas` | shared_functions.py:168-174 | repairs every persona of the array in place |
| `SharedFunctions.RepairParsedPersonas` | shared_functions.py:166-176 | the parsed objects, each repaired, in order |
| `SharedFunctions.RepairedAll` | shared_functions.py:168-176 | same length as the parsed list; element k is the repair of item k |
| `SharedFunctions.DefaultPersonas` | shared_functions.py:187-201 | exactly `max(count, 0)` personas; persona i is `DefaultPersona(i)` |
| `SharedFunctions.DefaultPersona` | shared_functions.py:190-200 | a default persona has exactly the nine required keys |
| `SharedFunctions.DefaultPersonaNames` | shared_functions.py:191 | persona i is named "Persona_i", and the names are pairwise distinct |
| `SharedFunctions.GeneratePersonas` | shared_functions.py:75-185 | the result is `GeneratedPersonas`; on success the request sent is `PersonaRequest` over the enhanced task and goals and the reference URLs |
| `SharedFunctions.PersonasFromCompletion` | shared_functions.py:154-185 | the reply handling computes `PersonasFromReply` |
| `SharedFunctions.GeneratedPersonasFailIff` | shared_functions.py:92-96 | generation fails iff no model is configured; every other failure is absorbed |
| `SharedFunctions.PersonasComplete` | shared_functions.py:166-185 | every persona returned carries all nine required keys |
| `SharedFunctions.PersonasFallback` | shared_functions.py:157-161 | a failed completion, an empty reply, a reply without an array span, or a span that does not parse to an array of objects gives `generate_default_personas(count)` |
| `SharedFunctions.PersonasParsed` | shared_functions.py:161-176 | a span that parses to an array of objects gives those objects, each repaired, in order |
| `SharedFunctions.ProjectSources` | shared_functions.py:312-315 | succeeds iff every source has a title and a url; keeps the length |
| `SharedFunctions.ProjectSourcesValues` | shared_functions.py:312-315 | each source is cut down to exactly its title and url |
| `SharedFunctions.GeneratePrompt` | shared_functions.py:203-328 | the config-filling loop computes `Prompt` |
| `SharedFunctions.AgentConfigsErrFrom` | shared_functions.py:238-274 | the KeyError of the first persona without a name ends the loop |
| `SharedFunctions.AgentConfigsNamed` | shared_functions.py:238-274 | the configs are built iff every persona has a name; they are keyed by exactly the persona names |
| `SharedFunctions.AgentConfigsLastWins` | shared_functions.py:270-274 | a name's config is the one from its last persona, so a later duplicate overwrites an earlier one |
| `SharedFunctions.FailedRepliesGiveEmptyConfigs` | shared_functions.py:272-274 | a failed agent or workflow completion gives `{}` |
| `SharedFunctions.PromptFields` | shared_functions.py:308-322 | the output holds the task, the strategy, the prior decisions, the names in order, the goals or "No specific goals provided.", and each source's title and url only |
| `PersonaManagement.SliceSpanIsRegexSpan` | persona_management.py:44-47 | the `find('[')`/`rfind(']')` slice is the same span the regex of shared_functions.py:161 selects, and the whole content when there is none |
| `PersonaManagement.FallbackPersona` | persona_management.py:55-62 | a fallback persona has exactly the six keys name, background, goals, beliefs, knowledge and communication_style |
| `PersonaManagement.FallbackPersonas` | persona_management.py:54-63 | exactly `max(count, 0)` personas; persona i is `FallbackPersona(task, i)` |
| `PersonaManagement.FallbackOutcome` | persona_management.py:51-63 | a failed completion or an unparsable span gives `count` objects with the six keys only, no role, goals ending with the task text |
| `PersonaManagement.FallbackPersonaText` | persona_management.py:56-60 | names John Smith, Sarah Johnson, then "Developer i+1"; the background mentions 10+i; the knowledge ends with "task i+1" |
| `PersonaManagement.FallbackNamesDistinct` | persona_management.py:56 | fallback names are pairwise distinct |
| `PersonaManagement.GeneratePersonasWrapper` | persona_management.py:99-110 | returns exactly what `generate_personas` returns for the same arguments |
| `PersonaManagement.Greetings` | persona_management.py:76-79 | succeeds iff every persona has name, background and goals; one line per persona; otherwise the KeyError of one of those keys |
| `PersonaManagement.GreetingsValues` | persona_management.py:77 | line i is "name: Hello, I am name. My background is …. I aim to achieve …." for persona i |
| `PersonaManagement.InitialConversationLines` | persona_management.py:76-80 | an empty list gives ""; with single-line fields, splitting the text on "\n" gives back exactly the greeting lines, in order |
| `PersonaManagement.FirstUnnamed` | persona_management.py:94-95 | the index of the first persona without a name: all before it are named |
| `PersonaManagement.EditPersonaTones` | persona_management.py:82-97 | the same array is returned; each persona is retoned in place up to the first one without a name, where KeyError("name") is raised; later personas are untouched |
| `PersonaManagement.RetonedEffect` | persona_management.py:95-96 | only `communication_style` changes, and only when the name is a key of the adjustments; the edit is idempotent |
| `MainPrompt.ReferenceUrlsClean` | main.py:40 | every URL kept is non-empty, stripped and on one line |
| `MainPrompt.ReferenceUrlsRoundTrip` | main.py:40 | joining clean URLs with "\n" and parsing the text gives them back, in order |
| `MainPrompt.ReferenceUrlsTrailingBreak` | main.py:40 | a trailing line break adds no entry |
| `MainPrompt.ExampleUrl` | tests/test_main.py:44 | the test's URL is a clean single line |
| `MainPrompt.ReferenceUrlsExample` | tests/test_main.py:44-53 | "http://example.com\n" gives ["http://example.com"] |
| `MainPrompt.DescribableIff` | main.py:150-155 | a persona can be described iff it has the six keys the memory block reads |
| `MainPrompt.EntryLines` | main.py:150-155 | a persona's memory entry has six lines |
| `MainPrompt.Entries` | main.py:149-157 | one entry per persona |
| `MainPrompt.GeneratePromptFailsIff` | main.py:147-192 | a KeyError is raised iff a persona lacks a memory key, the task is missing, or a source lacks its title or url; the key named is one of those |
| `MainPrompt.PromptFields` | main.py:164-192 | the result holds the task, the names in order, the projected sources, the strategy, the goals or "No specific goals provided.", and the instructions contain the task-goals section with the same goals |
| `MainPrompt.InstructionsShape` | main.py:177-186 | the instructions start with the Task section and end with the Instructions header and the closing paragraph |
| `MainPrompt.ClosingMentions` | main.py:187-190 | the closing paragraph contains the task, the names and titles joined by ", ", every name, every title and the strategy |
| `MainPrompt.AllEntryLines` | main.py:149-157 | six lines per persona |
| `MainPrompt.EntrySplits` | main.py:150-155 | with single-line fields, a persona entry splits into its six lines |
| `MainPrompt.EntriesSplit` | main.py:149-157 | with single-line fields, the entries split into six lines per persona, in order |
| `MainPrompt.MemoryPersonasLines` | main.py:149-157 | an empty list gives ""; otherwise the memory block splits into six lines per persona, in order |
| `MainPrompt.PriorDecisionLines` | main.py:159-161 | no decisions give ""; single-line decisions split back into the "- d" lines |
| `LlmInteraction.ProviderIndex` | llm_interaction.py:35 | the index of the provider with that name in the table, or past the end when it is unknown |
| `LlmInteraction.FirstUsable` | llm_interaction.py:44-46 | the first provider, in table order, whose key is set and not blank |
| `LlmInteraction.ProviderTable` | llm_interaction.py:21-28 | provider names are lower-case; each maps to its key variable; no default model is empty |
| `LlmInteraction.UsableIff` | llm_interaction.py:38 | a key counts iff it is set and not whitespace only |
| `LlmInteraction.ResolveFailsIff` | llm_interaction.py:64 | the ValueError is raised iff none of the six provider keys is usable |
| `LlmInteraction.ExplicitConfiguration` | llm_interaction.py:33-41 | with model and provider set, a known provider and its key usable, the configured model is returned with that provider's key and the environment is left as it is |
| `LlmInteraction.ScannedConfiguration` | llm_interaction.py:43-62 | otherwise the first usable provider wins; its default model is used unless a model is set; model and provider are written back |
| `LlmInteraction.FirstUsableIs` | llm_interaction.py:44-46 | the scan picks exactly the first usable provider |
| `LlmInteraction.ResolveIdempotent` | llm_interaction.py:58-62 | configuring again from the written-back environment returns the same model and key and changes nothing |
| `LlmInteraction.ResolveOpenAIExample` | tests/test_llm_interaction.py:10-15 | model "gpt-3.5-turbo" with an OpenAI key returns that model and sets that key |
| `LlmInteraction.Process.constructor` | llm_interaction.py:30-31 | the process starts from the given environment with no api key |
| `LlmInteraction.Process.ConfigureLitellm` | llm_interaction.py:8-64 | returns the resolved model, sets the api key and writes back the environment; or raises the ValueError and changes nothing |
| `LlmInteraction.AgentIdent` | llm_interaction.py:207 | the identifier has the name's length, no spaces and no upper-case letters |
| `LlmInteraction.PersonaBlock` | llm_interaction.py:206-225 | a persona's block fails iff a key the requested agent types read is missing |
| `LlmInteraction.GenerateAutogenWorkflow` | llm_interaction.py:177-277 | the accumulating builder computes `AutogenWorkflow` |
| `LlmInteraction.AppendTails` | llm_interaction.py:227-275 | the appended text is the Chat or the Sequential tail chosen by the workflow type, then the GroupChat block when "GroupChat" is requested |
| `LlmInteraction.AppendAgentBlocks` | llm_interaction.py:206-225 | the per-persona loop appends exactly the agent blocks |
| `LlmInteraction.AgentBlocksFrom` | llm_interaction.py:206-225 | the blocks of a suffix are the first persona's block followed by the blocks of the rest |
| `LlmInteraction.AgentBlocksErrIff` | llm_interaction.py:206-225 | the workflow fails iff some persona lacks a key its blocks read |
| `LlmInteraction.AgentBlocksContain` | llm_interaction.py:206-225 | every persona's block occurs in the blocks |
| `LlmInteraction.WorkflowShape` | llm_interaction.py:192-277 | the workflow starts with the fixed header; it contains the chat or sequential tail for that workflow type; it ends with the GroupChat block when GroupChat is requested |
| `LlmInteraction.WorkflowHasAgentComments` | llm_interaction.py:209-225 | for each persona the workflow holds a proxy block when the proxy type is requested and an assistant block when the assistant type is |
| `LlmInteraction.BlockHasComments` | llm_interaction.py:209-225 | a persona's block exists only when the persona has a name, and it holds the "# User Proxy Agent for name" and "# Assistant Agent for name" comment lines of the types requested |
| `LlmInteraction.DefaultAgentTypes` | llm_interaction.py:189-190 | leaving `agent_types` out is the same as asking for ["Assistant Agent"] |
| `UiComponents.UIConfig.constructor` | ui_components.py:14-22 | the dataclass defaults and, through `__post_init__`, ["json", "yaml"] when no formats are given |
| `UiComponents.UIConfig.PostInit` | ui_components.py:20-22 | supported formats become ["json", "yaml"] only when they are None; other fields unchanged |
| `UiComponents.SourceLink` | ui_components.py:113 | a link line starts with "- [" |
| `UiComponents.SourceMissing` | ui_components.py:113 | nothing is missing iff the source has a title and a url |
| `UiComponents.SourceLinks` | ui_components.py:112-115 | succeeds iff every source has title and url; one "- [title](url)" per source, in order; otherwise KeyError of title or url |
| `UiComponents.KnowledgeSourcesEmptyIff` | ui_components.py:112-118 | the text is empty iff there are no sources, and then the placeholder is shown instead |
| `UiComponents.KnowledgeSourcesLines` | ui_components.py:112-115 | with single-line links, the text splits back into the link lines |
| `UiComponents.HeaderPieces` | ui_components.py:136-145 | the header succeeds iff task and goals are present; eight pieces from "# Generated Prompt\n" to "## Personas\n" |
| `UiComponents.PersonaMissing` | ui_components.py:149-157 | nothing is missing iff the persona has all nine keys; a key reported missing is absent |
| `UiComponents.PersonaPieces` | ui_components.py:148-158 | nine lines per persona |
| `UiComponents.PersonaSections` | ui_components.py:147-158 | succeeds iff every persona has all nine keys; nine lines per persona |
| `UiComponents.SourceLines` | ui_components.py:162-163 | succeeds iff every source has title and url; one line per source |
| `UiComponents.TailPieces` | ui_components.py:165-168 | succeeds iff the conflict strategy and the instructions are present |
| `UiComponents.CreateMarkdownContent` | ui_components.py:120-170 | the list-building method computes `MarkdownContent` |
| `UiComponents.AppendPersonaSections` | ui_components.py:147-158 | the persona loop computes `PersonaSections` |
| `UiComponents.AppendSourceLines` | ui_components.py:162-163 | the source loop computes `SourceLines` |
| `UiComponents.PersonaSectionsErrFrom` | ui_components.py:147-158 | the KeyError of the first incomplete persona ends the loop |
| `UiComponents.SourceLinesErrFrom` | ui_components.py:162-163 | the KeyError of the first incomplete source ends the loop |
| `UiComponents.MarkdownFailsIff` | ui_components.py:120-170 | a KeyError iff task, goals, an incomplete persona, an incomplete source, the strategy or the instructions is missing |
| `UiComponents.PersonaSectionsShape` | ui_components.py:149-157 | persona i owns lines 9i to 9i+8, starting "### name" and ending with a blank line |
| `UiComponents.PersonaSectionsSlice` | ui_components.py:147-158 | persona i has all nine fields and owns exactly the nine lines 9i to 9i+8, in field order |
| `UiComponents.PersonaPiecesShape` | ui_components.py:149-157 | a persona's section opens with "### name" and its last line ends with a blank line |
| `UiComponents.SourceSectionShape` | ui_components.py:160-163 | the section is absent iff sources are None or empty; otherwise the heading, then one "- [title](url)\n" per source |
| `UiComponents.SourceLinesAt` | ui_components.py:163 | source line i is the link of source i and a line break |
| `UiComponents.SourceLinesAreLinks` | ui_components.py:160-163 | the Markdown's source lines are the knowledge-source text plus a final line break |
| `UiComponents.MarkdownFrame` | ui_components.py:136-170 | the Markdown starts with the title, ends with the conflict-resolution and instructions sections |
| `UiComponents.MarkdownParts` | ui_components.py:136-170 | a rendered document is the concatenation of the header, the persona sections, the source section and the tail, each of which succeeded |
| `UiComponents.HeaderOriginals` | ui_components.py:139-140 | the original task and goals lines show the values as stored, or "N/A" when the prompt lacks them |
| `AdvancedMenu.FirstMatch` | advanced_menu.py:101-111 | the first keyword of a table that occurs in the goal: none before it occurs |
| `AdvancedMenu.ToneIsFirstKeyword` | advanced_menu.py:97-114 | the tone is the first matching keyword's tone in `tone_map`, else in `complex_tone_map`, else in `non_complex_tone_map`, else "neutral" |
| `AdvancedMenu.TableToneCases` | advanced_menu.py:101-111 | one table's scan finds a tone only for the first keyword, in listed order, that occurs in the goal, and finds none exactly when no keyword occurs |
| `AdvancedMenu.TablesListed` | advanced_menu.py:41-95 | every tone in the three tables is one of `fetch_emotional_tones()` |
| `AdvancedMenu.ToneListed` | advanced_menu.py:97-114 | every classification is one of `fetch_emotional_tones()` |
| `AdvancedMenu.LowerIdempotent` | advanced_menu.py:98 | lower-casing twice is lower-casing once |
| `AdvancedMenu.ToneIgnoresCase` | advanced_menu.py:98 | lower-casing the goal first does not change the tone |
| `AdvancedMenu.WeightBounds` | advanced_menu.py:126-133 | a persona weighs between -8 and 10; a missing tone is neutral and an unknown one 0 |
| `AdvancedMenu.ScoreBounds` | advanced_menu.py:126-134 | for n personas, -8n <= score <= 10n |
| `AdvancedMenu.PredictionMonotone` | advanced_menu.py:146-153 | a higher score never predicts a worse outcome |
| `AdvancedMenu.PredictionBands` | advanced_menu.py:146-153 | above 50 high, 21..50 moderate, 1..20 low, otherwise high risk of failure |
| `AdvancedMenu.ImprovedAll` | advanced_menu.py:168-170 | same length; each persona improved in place |
| `AdvancedMenu.ImproveEmotionalTone` | advanced_menu.py:155-171 | the same array is returned, each element improved |
| `AdvancedMenu.ImprovedEffect` | advanced_menu.py:165-170 | the tone becomes positive; a positive tone is kept; other fields untouched; idempotent |
| `AdvancedMenu.WeightSign` | advanced_menu.py:126-167 | positive tones weigh at least 1, all others at most 0 |
| `AdvancedMenu.ImprovedWeight` | advanced_menu.py:126-170 | an improved persona weighs at least 1 and no less than before |
| `AdvancedMenu.ImprovedScore` | advanced_menu.py:126-171 | improving never lowers the score, which becomes at least n |
| `AdvancedMenu.ImprovedNeverFails` | advanced_menu.py:146-171 | after improvement a non-empty team is never "High risk of failure" |
| `AdvancedMenu.ChatMissing` | advanced_menu.py:182 | nothing is missing iff name, emotional tone and goals are present |
| `AdvancedMenu.Chattable` | advanced_menu.py:181-182 | the index of the first persona missing a chat key: all before it have them |
| `AdvancedMenu.ChatSession.constructor` | advanced_menu.py:180 | the log starts empty |
| `AdvancedMenu.ChatSession.Autochat` | advanced_menu.py:173-183 | the log is reset and gets one "name (tone): goals" entry per persona, in order, up to the first persona missing a key, which raises its KeyError |
| `Homepage.HandlerUrlsClean` | homepage.py:201 | None gives no URL; every URL kept is non-empty, stripped and on one line |
| `Homepage.KnowledgeSourcesShape` | homepage.py:210 | each source has keys title and url, the url verbatim, a title with no '/' that ends the url, and the whole url when it has no '/' |
| `Homepage.HelperFallbacks` | homepage.py:268-302 | a failed completion gives "No conflicts detected." and the fallback instructions, which start "Complete the task: " and contain the task and goals |
| `Homepage.GeneratedComplete` | homepage.py:209 | the personas the handler gets carry all nine required keys |
| `Homepage.CompleteNamed` | homepage.py:219 | complete personas are named |
| `Homepage.BuildPromptFields` | homepage.py:204-224 | task and goals equal the raw inputs, since no enhanced keys are ever set; names in order; `full_personas` is the list itself; the sources; the instructions |
| `Homepage.HandlerFails` | homepage.py:198-224 | the handler fails iff no model is configured, with that error |
| `Homepage.HandlerPromptRenders` | homepage.py:214-229 | every prompt the handler builds renders as Markdown without a KeyError |
| `Homepage.BuildPromptRenders` | homepage.py:53-57 | a prompt over complete personas renders |
| `Homepage.RequiredComplete` | ui_components.py:149-157 | the nine required keys are exactly what a Markdown persona section reads |
| `Homepage.DownloadKeysDistinct` | homepage.py:67-75 | buttons drawn with different counters get different keys |
| `Homepage.Session.constructor` | homepage.py:79-80 | the counter starts at 0 with no current prompt |
| `Homepage.Session.DisplayPrompt` | homepage.py:24-75 | renders the prompt, keys the buttons by the counter, and increments the counter by exactly one unless rendering raised |
| `Homepage.Session.OnGenerate` | homepage.py:226-229 | stores the prompt as the current one, then displays it |
| `Homepage.Session.ShowCurrent` | homepage.py:239-241 | at the end of every run the current prompt, if any, is displayed again, with the counter's key |
| `Homepage.Session.GenerateRun` | homepage.py:197-241 | a run with a Generate click displays the prompt twice when it renders, under the keys for counter c and c+1, which differ, and the counter moves on by two; a KeyError stops the run after one display |
| `EnhancedAgents.AgentAttempts` | agent/enhanced_agents.py:25-49 | attempts continue while they raise and `handle_error` allows (retry count below 3); the last one replied or exhausted the budget |
| `EnhancedAgents.EnhancedAgent.constructor` | agent/enhanced_agents.py:36-39 | no retries and an empty history |
| `EnhancedAgents.EnhancedAgent.ProcessMessage` | agent/enhanced_agents.py:41-49 | one history entry per attempt; the retry count grows by the retries and never exceeds 3; the reply, or the error once retries are exhausted |
| `EnhancedAgents.SummaryShape` | agent/enhanced_agents.py:154 | at most 503 characters; short content kept whole; longer content keeps its first 500 and ends "..."; idempotent |
| `EnhancedAgents.FetchErrorMarkedSuccessful` | agent/enhanced_agents.py:142-159 | the text of a failed fetch, "Error fetching URL …", begins "Error" but not "Error:", so the written test counts it as a success |
| `EnhancedAgents.FailedFetchReported` | agent/enhanced_agents.py:141-159 | for a failed request that was not cached, the analysis as written reports success, and the intended analysis, whose flag is whether a page was fetched, reports failure |
| `EnhancedAgents.SuccessFlagsDiffer` | agent/enhanced_agents.py:146-160 | for an uncached URL the written and the intended success flags disagree exactly when the request failed or the fetched page text begins "Error:"; every other entry of the two analyses is the same |
| `EnhancedAgents.UnmarkedIsErrorText` | agent/enhanced_agents.py:159 | the written test marks as failed only texts that begin "Error" |
| `EnhancedAgents.Filter` | agent/enhanced_agents.py:192 | keeps exactly the words the test accepts |
| `EnhancedAgents.PrefixesExclusive` | agent/enhanced_agents.py:192 | no word is both a web URL and a file URL (the file agent's test at line 336) |
| `EnhancedAgents.TokensExact` | agent/enhanced_agents.py:191-192 | URL tokens are exactly the words starting with "http://" or "https://", file tokens (line 336) those starting with "file:///"; the two are disjoint; each is a non-empty word without whitespace |
| `EnhancedAgents.StoreTransparent` | agent/enhanced_agents.py:116-138 | storing a URL's content never changes what a later cached fetch returns |
| `EnhancedAgents.RememberContents` | agent/enhanced_agents.py:116-144 | after a run, the cache holds the old entries unchanged plus each fetched page, cleaned; errors are never cached |
| `EnhancedAgents.ShownLinks` | agent/enhanced_agents.py:214 | at most 5 related links, a prefix of them, all when there are few |
| `EnhancedAgents.ReportStep` | agent/enhanced_agents.py:196-217 | the report grows by one section per URL |
| `EnhancedAgents.RememberStep` | agent/enhanced_agents.py:196-197 | the cache grows by one store per URL |
| `EnhancedAgents.WebForwardedExtends` | agent/enhanced_agents.py:194-222 | the forwarded message starts with the message, and is unchanged iff it has no URL token |
| `EnhancedAgents.WebResearchAgent.constructor` | agent/enhanced_agents.py:105-108 | empty cache and visited set |
| `EnhancedAgents.WebResearchAgent.FetchUrlContent` | agent/enhanced_agents.py:114-144 | with cache on, the cached content or a fresh fetch, stored when it is a page; with cache off, a fresh fetch and no store; the visited set stays the cache's keys |
| `EnhancedAgents.WebResearchAgent.AnalyzeUrlContent` | agent/enhanced_agents.py:146-185 | the analysis of the (possibly cached) content, with the source's own success flag `not content.startswith("Error:")`, and the cache updated as a cached fetch does |
| `EnhancedAgents.WebResearchAgent.ReportUrls` | agent/enhanced_agents.py:194-217 | the report text and cache after analysing each URL in turn |
| `EnhancedAgents.WebResearchAgent.ProcessMessage` | agent/enhanced_agents.py:187-222 | forwards the message with the URL analysis appended when it has URL tokens, and the cache remembers them |
| `EnhancedAgents.FreshFileErrors` | agent/enhanced_agents.py:243-283 | a readable file gives its content; every failure gives a text beginning "Error"; of those, the written test lets through exactly the "Error reading file …" texts of the other-exception failures |
| `EnhancedAgents.ColonErrors` | agent/enhanced_agents.py:258-276 | the not-found, permission, too-large and binary texts all begin "Error:" |
| `EnhancedAgents.FileErrorsReported` | agent/enhanced_agents.py:272-297 | in the intended analysis of an uncached file, the error entry is empty exactly when the file is readable; otherwise it is the failure's text, and no language is reported |
| `EnhancedAgents.FileErrorsDiffer` | agent/enhanced_agents.py:285-297 | for an uncached file the written and the intended error entries disagree exactly on the "Error reading file" failures and on readable files whose text begins "Error:" |
| `EnhancedAgents.KindOfExtensions` | agent/enhanced_agents.py:253 | a file is text iff its path ends in one of the nine extensions; ".py" is text and ".java" binary |
| `EnhancedAgents.TextEndings` | agent/enhanced_agents.py:253 | no text extension ends in "va", "pp" or "cs" |
| `EnhancedAgents.TextLanguageEndings` | agent/enhanced_agents.py:253 | a path that is both text and a language file (line 307) ends in ".py" or ".js" |
| `EnhancedAgents.LanguageOnlyPythonOrJavaScript` | agent/enhanced_agents.py:303-308 | a language is reported only for ".py" and ".js" files, never for the Java, C++ or C# extensions it lists |
| `EnhancedAgents.FileSystemAgent.constructor` | agent/enhanced_agents.py:232-235 | empty cache and metadata |
| `EnhancedAgents.FileSystemAgent.ReadFileContent` | agent/enhanced_agents.py:237-283 | a cached file is returned without I/O; otherwise the fresh read, metadata recorded when stat succeeds, content cached only for readable text files with cache on |
| `EnhancedAgents.FileSystemAgent.AnalyzeFileContent` | agent/enhanced_agents.py:285-329 | the analysis of the read content with the recorded metadata, whose kind agrees with the path; the error entry is the content exactly when it begins "Error:", as the source tests it, and a language is detected only without an error |
| `EnhancedAgents.FirstContaining` | agent/enhanced_agents.py:389-393 | the first agent whose name contains the keyword, or none does |
| `EnhancedAgents.ChatAttempts` | agent/enhanced_agents.py:396-405 | the error count goes up before the check, so the chat retries only while it stays below 3 |
| `EnhancedAgents.RetryBudgets` | agent/enhanced_agents.py:28 | always-failing calls get 4 attempts per agent, and 3 per group chat (its budget at line 402) |
| `EnhancedAgents.CoordinatedGroupChat.constructor` | agent/enhanced_agents.py:380-384 | phase "planning", no errors |
| `EnhancedAgents.CoordinatedGroupChat.SelectSpeaker` | agent/enhanced_agents.py:386-394 | planning, implementation and review pick the first agent whose name contains "assistant", "coder" or "reviewer", and raise StopIteration when none does; other phases delegate |
| `EnhancedAgents.CoordinatedGroupChat.RunChat` | agent/enhanced_agents.py:396-405 | one error counted per failed attempt; the reply, or the error once the budget is spent; the phase unchanged |
| `EnhancedAgents.PhaseWordShape` | agent/enhanced_agents.py:418 | the phase is the first whitespace-delimited word after "PHASE:", non-empty and without whitespace |
| `EnhancedAgents.CoordinatedManager.constructor` | agent/enhanced_agents.py:410-412 | no checkpoints |
| `EnhancedAgents.CoordinatedManager.InitiateRecovery` | agent/enhanced_agents.py:424-431 | restores the last checkpoint's phase and names it, or returns "Restarting conversation from beginning." and leaves the phase |
| `EnhancedAgents.CoordinatedManager.ProcessMessage` | agent/enhanced_agents.py:414-422 | a "PHASE:" marker sets the phase; a marker without a word or a failed reply recovers |
| `EnhancedAgents.SilentIsBlank` | agent/enhanced_agents.py:445 | a message is silent iff its content, "" when absent, strips to "" |
| `EnhancedAgents.SilentCount` | agent/enhanced_agents.py:443-446 | never more than the messages counted |
| `EnhancedAgents.SilentCountSnoc` | agent/enhanced_agents.py:444-446 | one more message adds one iff it is silent |
| `EnhancedAgents.SilentCountFull` | agent/enhanced_agents.py:443-446 | every message counted is silent iff all are |
| `EnhancedAgents.MonitorConversation` | agent/enhanced_agents.py:441-450 | the counting loop reports a stall iff the silent messages among the last `max_silence` reach `max_silence` |
| `EnhancedAgents.MonitorMeaning` | agent/enhanced_agents.py:441-450 | for `max_silence` >= 1: a stall iff there are at least that many messages and the last ones are all silent; for `max_silence` <= 0 always a stall |

## Left out

- LLM completions, `json.loads`, HTTP requests, BeautifulSoup, `os.stat`, `open` and `urlparse` are parameters. Their internals are not modelled.
- Streamlit widgets, page layout, `st.markdown` output and the page functions are not modelled. Only the `button_counter`, the current prompt and the chat log are kept, as plain fields.
- `homepage.chat_interaction` and `persona_testing.autochat` are left out. They rely on threads, `time.sleep` and `random.choice`.
- The Postgres storage is left out: database.py, utils.py and the two database helpers in advanced_menu.py.
- The DuckDuckGo client (search.py), page1.py's file and zip writing, and app.py are left out.
- `main.resolve_conflicts` reads from the console; the duplicated `fetch_knowledge_sources` copies and `save_prompt_to_file` are left out.
- JSON and YAML serialisation in `create_download_buttons` is left out, as are the JSON text of the personas sent to `resolve_conflicts` and the LLM message texts of `generate_instructions`.
- Strings are ASCII. `lower`, `strip`, `split` and `splitlines` follow Python's rules on ASCII characters only.
- Logging, timestamps, `datetime` metadata (`modified`, `created`), `TIMEOUT_SECONDS` and the `requests` session headers are left out.
- `EnhancedAgents.AnalyzeFile` does not model the `functions`, `classes`, `line_count` and `parse_error` entries, which come from `ast.parse` and `splitlines` of the file.
- `FileSystemAgent.process_message` is left out. Its report text is not modelled, but the tokens it reads are (`FileUrlTokens`).
- `ReviewerAssistant.review_code`, `create_progress_tracker`, `success_criteria` and the agents' termination lambdas are left out.
- `EnhancedAgents.WebResearchAgent.ProcessMessage`: the call to the superclass and the retry that resends the augmented message are left out. The method returns the message it would forward.
- `EnhancedAgents.CoordinatedManager.ProcessMessage`: the checkpoints are never written by the source, so the model takes them as they are. The superclass reply is the `reply` parameter.
- A message whose `content` is `None` is left out. Content is always text or absent.
- `SharedFunctions` takes the outcome of `configure_litellm` as a `model: Result<string>` parameter, modelled by `LlmInteraction.Resolve`. shared_functions.py:6 imports that function from utils, but utils.py defines only `clear_database`, so the module as written would fail to import (not executed). The model does not follow that import.
- `SharedFunctions.Repaired`: a JSON object is seen only through its string-valued members (`Boundary.Json`). A persona field holding a list, number or nested object counts as missing and gets its default text, where Python keeps the value.
- `SharedFunctions.RepairPersonas`: the same view of JSON objects applies; non-string fields are replaced by their defaults.
- `SharedFunctions.PersonasFromCompletion`: the same view of JSON objects applies to the parsed personas.
- `SharedFunctions.EnhanceOutcome`: a non-string `enhanced_task` or `enhanced_goals` falls back to the original text, where Python returns the value as parsed.
- The test that passes six arguments to the five-parameter `generate_prompt` is not followed; the code is.

## Findings

| source | as written | input that shows it | evidently intended | confidence | as-written member | corrected member |
|---|---|---|---|---|---|---|
| agent/enhanced_agents.py:159 | `success` is `not content.startswith("Error:")`, but a failed fetch returns "Error fetching URL …" | any URL whose request fails, giving content "Error fetching URL u: d" | a failed fetch is reported as unsuccessful | not executed | `EnhancedAgents.FetchErrorMarkedSuccessful` | `EnhancedAgents.FailedFetchReported` |
| agent/enhanced_agents.py:297 | `error` is set only for content starting "Error:", but a read failure returns "Error reading file …" | a file whose `open` raises an error other than not-found or permission, giving "Error reading file p: d" | every read error is reported as the analysis error | not executed | `EnhancedAgents.FreshFileErrors` | `EnhancedAgents.FileErrorsReported` |
