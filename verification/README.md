# agentic-frameworks-lab, modelled in Dafny

The framework-comparisons scripts of agentic-frameworks-lab build the same small agents in six
frameworks: AutoGPT-style hand-written code, CrewAI, Google ADK, LangChain/LangGraph,
LlamaIndex and the Microsoft Agent Framework. Nearly all of their work is done by a language
model behind an SDK. This project models the deterministic part around those calls, with every
model or SDK call taken as an uninterpreted function parameter:

- **Lookup tools.** `get_weather` (module `WeatherTools`, plus one module per framework copy)
  and `search_destinations` / `check_availability` (module `TravelTools`, plus one copy per
  travel planner). Each is a fixed table with a formatted fallback, and every copy is proved
  equal to the reference definition.
- **AutoGPT command registry** (`Commands`). Covers dispatch by name with the
  "Unknown command" fallback, argument binding, and the OpenAI function schema derived from the
  registry.
- **The AutoGPT `chat` round** (`AutoGptAgent`). The first request, the optional function call
  and the second request, with exact history growth and call counts across a series of queries.
- **Sequential three-step travel planners.** The shared template pipeline (`Pipeline`), used by
  `AutoGptTravel`, `LangChainTravel`, `AdkTravel` and `LlamaIndexTravel`. `AgentFrameworkTravel`
  models a shared conversation and `CrewAiTravel` models task outputs. What each proves:
  - The four pipeline instances prove the step order, and that each step writes only its own
    output key. They also prove that the itinerary prompt embeds the earlier answers verbatim.
  - `CrewAiTravel` proves the task order, and that the itinerary task is executed with the research
    and booking outputs as its context.
  - `AgentFrameworkTravel` proves that each participant answers the shared conversation so far,
    so the planner is shown the earlier answers as messages.
  - Each planner proves which answer is printed. For ADK it is the last final response, and
    for the Agent Framework the last message by "itinerary".
- **Customer-profile memory** (`ProfileStore`). The profile file is one `Option<Profile>` slot.
  Covers load-or-default, the profile renderer, the deduplicating `store_preference` of the
  LangChain assistant and the unconditional append of the others, the `"under $1000"` trigger,
  and whole-conversation persistence.
- **The four shopping-assistant loops** (`LangChainShopping`, `CrewAiShopping`, `AdkShopping`,
  `AgentFrameworkShopping`). Each models its short-term memory or its bounded window of recent
  queries (the last three for CrewAI, the last two for ADK).

Generic helpers live in `Wrappers` (Option/Result), `Lists` (Python's `xs[-n:]`, counting,
"last index such that") and `Text` (substrings, `str.join`, ASCII lower-casing, decimal
rendering).

Paths in the table are relative to the repository root.

## Model

| member | source | states |
|---|---|---|
| WeatherTools.GetWeather | framework-comparisons/01-llm-tool-calling/autogpt/weather_agent.py:39-47 | The four table cities map to their fixed readings. Every other city, and only those, gets "Weather data not available for <city>". |
| WeatherTools.GetWeatherInjective | framework-comparisons/01-llm-tool-calling/autogpt/weather_agent.py:41-47 | Two cities with the same answer are the same city: no table value coincides with a fallback text. |
| WeatherTools.LookupIsCaseSensitive | framework-comparisons/01-llm-tool-calling/autogpt/weather_agent.py:47 | The lookup is exact-key, so "seattle" and "Austin" both get the fallback text. |
| AdkWeather.GetWeather | framework-comparisons/01-llm-tool-calling/google-adk/weather_agent.py:33-51 | The dict has status "success" even for unknown cities, echoes the city unchanged, and its weather is the reference lookup. |
| AgentFrameworkWeather.GetWeather | framework-comparisons/01-llm-tool-calling/microsoft-agent-framework/weather_agent.py:27-37 | This copy of the table agrees with the reference `get_weather` on every input. |
| CrewAiWeather.GetWeather | framework-comparisons/01-llm-tool-calling/crewai/weather_agent.py:20-28 | This copy agrees with the reference `get_weather` on every input. |
| LangChainWeather.GetWeather | framework-comparisons/01-llm-tool-calling/langchain/weather_agent.py:22-31 | This copy agrees with the reference `get_weather` on every input. |
| LlamaIndexWeather.GetWeather | framework-comparisons/01-llm-tool-calling/llamaindex/weather_agent.py:19-27 | This copy agrees with the reference `get_weather` on every input. |
| Commands.Find | framework-comparisons/02-multi-agent-orchestration/autogpt/travel_planner.py:56-57 | Lookup finds nothing exactly when no entry has the name. What it finds is an entry of that name. |
| Commands.FindEntry | framework-comparisons/02-multi-agent-orchestration/autogpt/travel_planner.py:20-39 | In a registry with distinct names, looking up an entry's own name returns that entry. |
| Commands.ExecuteCommand | framework-comparisons/02-multi-agent-orchestration/autogpt/travel_planner.py:54-58 | The call succeeds exactly when the keyword arguments bind: no clash with the dispatcher's parameters, and for a registered name exactly the method's parameters. An unregistered name answers "Unknown command: <name>". A registered one answers with its method's result. |
| Commands.HandlerNeverSaysUnknown | framework-comparisons/02-multi-agent-orchestration/autogpt/travel_planner.py:41-52 | No tool's answer can be mistaken for the unknown-command message: it never starts with 'U'. |
| Commands.UnknownIffUnregistered | framework-comparisons/01-llm-tool-calling/autogpt/weather_agent.py:49-53 | The "Unknown command" answer comes back if and only if the name is not registered and the arguments do not clash with the dispatcher's parameters. |
| Commands.GetCommandsSchema | framework-comparisons/02-multi-agent-orchestration/autogpt/travel_planner.py:60-74 | One schema per registry entry, in registry order. Each carries the entry's name and description, type "object", the entry's parameters, and its required list (empty when missing). |
| Commands.AdvertisedNamesDispatch | framework-comparisons/01-llm-tool-calling/autogpt/weather_agent.py:55-69 | Every advertised function name dispatches back to the entry its schema was built from. |
| Commands.WeatherRegistryShape | framework-comparisons/01-llm-tool-calling/autogpt/weather_agent.py:27-37 | The weather registry holds exactly "get_weather", requiring "city". Its single schema's properties are the registered parameters. |
| Commands.TravelRegistryShape | framework-comparisons/02-multi-agent-orchestration/autogpt/travel_planner.py:20-39 | The travel registry holds "search_destinations" then "check_availability". Each entry's declared and required parameters match its method's signature, and the schema keeps that order. |
| Commands.RequiredArgumentsBind | framework-comparisons/02-multi-agent-orchestration/autogpt/travel_planner.py:54-58 | A call to a registered entry with exactly its required arguments runs that entry's method. |
| AutoGptAgent.Chat | framework-comparisons/02-multi-agent-orchestration/autogpt/travel_planner.py:87-140 | The request carries the system message in front of the stored history, and the system message is never stored. Without a function call there is one model call, the history gains user and assistant, and the reply is returned. With a dispatched call there are two model calls, the history gains user, function and assistant, and the final content is returned. A TypeError leaves only the user message. |
| AutoGptAgent.SessionHistory | framework-comparisons/01-llm-tool-calling/autogpt/weather_agent.py:81-144 | Across a series of chats the history is never truncated and never holds a system message. When all queries are answered there are between n and 2n model calls, and the history grew by calls + n entries. |
| AutoGptAgent.WeatherSession | framework-comparisons/01-llm-tool-calling/autogpt/weather_agent.py:155-173 | After the three demo queries on one agent, the history holds six to nine entries and opens with the first query. |
| TravelTools.SearchDestinations | framework-comparisons/02-multi-agent-orchestration/autogpt/travel_planner.py:41-48 | Paris, Tokyo and Bali get their table texts. Every other destination, and only those, gets "Information about <d>: Beautiful destination with rich culture.". |
| TravelTools.TableEntryIsNotFallback | framework-comparisons/02-multi-agent-orchestration/autogpt/travel_planner.py:43-48 | A known destination's text differs from any unknown destination's fallback text. |
| TravelTools.SearchDestinationsInjective | framework-comparisons/02-multi-agent-orchestration/autogpt/travel_planner.py:43-48 | Different destinations never get the same answer. |
| TravelTools.CheckAvailability | framework-comparisons/02-multi-agent-orchestration/autogpt/travel_planner.py:50-52 | The answer opens with "Available for <d> during ", contains the dates verbatim, and is exactly the fixed text longer than the two arguments. |
| TravelTools.CheckAvailabilityInjective | framework-comparisons/02-multi-agent-orchestration/autogpt/travel_planner.py:50-52 | With either argument fixed, the answer determines the other. |
| TravelTools.CheckAvailabilityAmbiguous | framework-comparisons/02-multi-agent-orchestration/autogpt/travel_planner.py:52 | Without that condition the sentence is ambiguous: two different argument pairs give the same answer. |
| Pipeline.Resolve | framework-comparisons/02-multi-agent-orchestration/google-adk/travel_planner.py:76-84 | Filling a template succeeds exactly when every key it references is present. Otherwise the failure names a missing referenced key. |
| Pipeline.ResolveEmbeds | framework-comparisons/02-multi-agent-orchestration/autogpt/travel_planner.py:179-180 | A filled template contains every referenced value verbatim. |
| Pipeline.RunStep | framework-comparisons/02-multi-agent-orchestration/langchain/travel_planner.py:70-75 | A step succeeds exactly when its prompt fills and its agent answers. It records the filled prompt and the answer, writes the answer under its own key, and leaves every other key unchanged. |
| Pipeline.Run | framework-comparisons/02-multi-agent-orchestration/google-adk/travel_planner.py:89-93 | A successful run makes one call per step, in step order. |
| Pipeline.RunCalls | framework-comparisons/02-multi-agent-orchestration/autogpt/travel_planner.py:172-181 | Each call's answer is the agent's answer to that call's prompt, given exactly the calls made before it. |
| Pipeline.RunContext | framework-comparisons/02-multi-agent-orchestration/langchain/travel_planner.py:70-89 | A run adds exactly the steps' output keys to the state and leaves every other key as it was. |
| Pipeline.NoForwardReferencesRun | framework-comparisons/02-multi-agent-orchestration/google-adk/travel_planner.py:76-84 | When templates read only initial keys or earlier outputs, a run never fails on a missing key. When every answer succeeds, the run succeeds. |
| Pipeline.PromptSeesContext | framework-comparisons/02-multi-agent-orchestration/langchain/travel_planner.py:84-86 | A step's prompt carries an initial value verbatim, provided no earlier step overwrote its key. |
| Pipeline.OutputsPersist | framework-comparisons/02-multi-agent-orchestration/google-adk/travel_planner.py:70-85 | With distinct output keys, the final state holds each step's answer under its key. |
| Pipeline.PromptEmbedsEarlierOutput | framework-comparisons/02-multi-agent-orchestration/autogpt/travel_planner.py:179-180 | A later prompt that references an earlier step's key carries that step's answer verbatim. |
| Pipeline.ThreeStepPrompts | framework-comparisons/02-multi-agent-orchestration/google-adk/travel_planner.py:89-93 | In a three-step run, the first prompt is filled from the initial state, the second after the first answer is written under its key, and the third after both answers are written. |
| Pipeline.ThreeStepsWellOrdered | framework-comparisons/02-multi-agent-orchestration/google-adk/travel_planner.py:76-84 | Three steps have no forward reference when each reads only the initial keys and the output keys of the steps before it. |
| Pipeline.ThreeStepFinalContext | framework-comparisons/02-multi-agent-orchestration/google-adk/travel_planner.py:70-85 | After a three-step run with distinct output keys, the state holds the initial keys plus the three output keys, each with its step's answer. |
| AutoGptTravel.Plan | framework-comparisons/02-multi-agent-orchestration/autogpt/travel_planner.py:171-186 | Research, booking and itinerary run in that order, and only an agent's answer can fail. The itinerary prompt carries both earlier answers, and the printed plan is the itinerary answer. |
| AutoGptTravel.ItineraryEmbedsAnswers | framework-comparisons/02-multi-agent-orchestration/autogpt/travel_planner.py:178-180 | The itinerary prompt contains research_output and booking_output verbatim. |
| AutoGptTravel.ResearchPrompt | framework-comparisons/02-multi-agent-orchestration/autogpt/travel_planner.py:173 | The research message is the f-string over destination and preferences. |
| AutoGptTravel.BookingPrompt | framework-comparisons/02-multi-agent-orchestration/autogpt/travel_planner.py:176 | The booking message is the f-string over destination and dates. |
| AutoGptTravel.ItineraryPrompt | framework-comparisons/02-multi-agent-orchestration/autogpt/travel_planner.py:179-180 | The itinerary message is the f-string over destination, both answers and preferences. |
| AutoGptTravel.StepsWellOrdered | framework-comparisons/02-multi-agent-orchestration/autogpt/travel_planner.py:171-181 | Each message reads only the trip and earlier answers, and every answer has its own variable. |
| AutoGptTravel.RunNeverMissesKey | framework-comparisons/02-multi-agent-orchestration/autogpt/travel_planner.py:171-181 | Only an agent's chat can stop the sequence, and when every chat answers it completes. |
| AutoGptTravel.PlanPrompts | framework-comparisons/02-multi-agent-orchestration/autogpt/travel_planner.py:173-180 | A produced plan's three messages are the script's f-strings, filled with the trip and, for the itinerary, the first two answers. |
| AutoGptTravel.ResearchCall | framework-comparisons/02-multi-agent-orchestration/autogpt/travel_planner.py:173 | The researcher is asked the research f-string over the trip. |
| AutoGptTravel.BookingCall | framework-comparisons/02-multi-agent-orchestration/autogpt/travel_planner.py:176 | The booking agent is asked the booking f-string over the trip. |
| AutoGptTravel.ItineraryCall | framework-comparisons/02-multi-agent-orchestration/autogpt/travel_planner.py:179-180 | The itinerary planner is asked the f-string holding the research answer, then the booking answer. |
| AutoGptTravel.FreshAgents | framework-comparisons/02-multi-agent-orchestration/autogpt/travel_planner.py:80-99 | Each agent starts with an empty history, so its first request is its own role's system message and its own prompt. |
| AutoGptTravel.MainSucceeds | framework-comparisons/02-multi-agent-orchestration/autogpt/travel_planner.py:143-186 | When no chat raises, `main` produces a plan. |
| LangChainTravel.SearchDestinations | framework-comparisons/02-multi-agent-orchestration/langchain/travel_planner.py:23-31 | This copy agrees with the reference tool on every input. |
| LangChainTravel.CheckAvailability | framework-comparisons/02-multi-agent-orchestration/langchain/travel_planner.py:33-36 | This copy agrees with the reference tool on every input. |
| LangChainTravel.InitialState | framework-comparisons/02-multi-agent-orchestration/langchain/travel_planner.py:121-128 | The initial state has exactly the six TravelPlanState fields, holds the trip, and has all three output fields empty. |
| LangChainTravel.Successor | framework-comparisons/02-multi-agent-orchestration/langchain/travel_planner.py:100-103 | A node has no successor exactly when no edge leaves it. A successor found is the target of an edge from it. |
| LangChainTravel.Path | framework-comparisons/02-multi-agent-orchestration/langchain/travel_planner.py:99-103 | The visited path starts at the entry, follows edges, never contains END, and is bounded by the fuel. |
| LangChainTravel.ExecutionOrder | framework-comparisons/02-multi-agent-orchestration/langchain/travel_planner.py:95-103 | The graph visits researcher, booking, itinerary, each once, then END. These are the node names in the order run. |
| LangChainTravel.Invoke | framework-comparisons/02-multi-agent-orchestration/langchain/travel_planner.py:119-128 | `app.invoke` fails only when an agent's invoke raises, and succeeds whenever every agent answers. On success there are three calls in graph order, and each call's output is its node's agent's answer to its prompt. |
| LangChainTravel.CallsAnswerPrompts | framework-comparisons/02-multi-agent-orchestration/langchain/travel_planner.py:70-89 | Each node stores its own agent's last message for its own prompt. |
| LangChainTravel.RunNeverMissesKey | framework-comparisons/02-multi-agent-orchestration/langchain/travel_planner.py:121-128 | Every field a prompt reads is in the initial state, so when every agent answers the graph runs to completion. |
| LangChainTravel.ResearchPrompt | framework-comparisons/02-multi-agent-orchestration/langchain/travel_planner.py:72 | The research node's message is the f-string over destination and preferences. |
| LangChainTravel.BookingPrompt | framework-comparisons/02-multi-agent-orchestration/langchain/travel_planner.py:79 | The booking node's message is the f-string over destination and dates. |
| LangChainTravel.ItineraryPrompt | framework-comparisons/02-multi-agent-orchestration/langchain/travel_planner.py:86 | The itinerary node's message is the f-string over destination, both outputs and preferences. |
| LangChainTravel.FinalStateFields | framework-comparisons/02-multi-agent-orchestration/langchain/travel_planner.py:70-89 | The final state has the same six fields, and destination, dates and preferences are untouched. |
| LangChainTravel.NodeOutputKeys | framework-comparisons/02-multi-agent-orchestration/langchain/travel_planner.py:74-88 | The nodes write exactly research_output, booking_output and final_plan. |
| LangChainTravel.RunKeepsTrip | framework-comparisons/02-multi-agent-orchestration/langchain/travel_planner.py:70-89 | For any way of answering, the final state has exactly the six fields and keeps destination, dates and preferences. |
| LangChainTravel.FinalPlan | framework-comparisons/02-multi-agent-orchestration/langchain/travel_planner.py:84-89 | The final_plan field, which is printed, is the itinerary agent's answer. |
| LangChainTravel.ItineraryPromptEmbeds | framework-comparisons/02-multi-agent-orchestration/langchain/travel_planner.py:84-86 | The itinerary prompt contains the research output, the booking output and the preferences verbatim. |
| LangChainTravel.ItineraryPromptEmbedsEarlier | framework-comparisons/02-multi-agent-orchestration/langchain/travel_planner.py:84-86 | The itinerary prompt contains the answer of the node whose field its template reads. |
| LangChainTravel.ItineraryPromptEmbedsPreferences | framework-comparisons/02-multi-agent-orchestration/langchain/travel_planner.py:84-86 | The itinerary prompt contains the preferences verbatim. |
| AdkTravel.SearchDestinations | framework-comparisons/02-multi-agent-orchestration/google-adk/travel_planner.py:31-38 | This copy agrees with the reference tool on every input. |
| AdkTravel.CheckAvailability | framework-comparisons/02-multi-agent-orchestration/google-adk/travel_planner.py:40-42 | This copy agrees with the reference tool on every input. |
| AdkTravel.SubAgents | framework-comparisons/02-multi-agent-orchestration/google-adk/travel_planner.py:64-93 | The sub-agents run in the order ResearchAgent, BookingAgent, ItineraryAgent. Their output keys are research_output, booking_output and final_itinerary. Their tools are search_destinations, check_availability and none. |
| AdkTravel.RunWorkflow | framework-comparisons/02-multi-agent-orchestration/google-adk/travel_planner.py:89-93 | The workflow fails only when a model call fails. On success it runs the three agents once each, in order. |
| AdkTravel.ResearchPrompt | framework-comparisons/02-multi-agent-orchestration/google-adk/travel_planner.py:68 | The research instruction has no placeholder and is the f-string as written. |
| AdkTravel.BookingPrompt | framework-comparisons/02-multi-agent-orchestration/google-adk/travel_planner.py:76 | The booking instruction's `{research_output}` is filled from state. |
| AdkTravel.ItineraryPrompt | framework-comparisons/02-multi-agent-orchestration/google-adk/travel_planner.py:84 | The itinerary instruction's two placeholders are filled from state, in order. |
| AdkTravel.SubAgentsWellOrdered | framework-comparisons/02-multi-agent-orchestration/google-adk/travel_planner.py:64-86 | Placeholders reference only keys written by earlier agents, and the three output keys are pairwise distinct. |
| AdkTravel.RunNeverMissesKey | framework-comparisons/02-multi-agent-orchestration/google-adk/travel_planner.py:76-84 | No placeholder names a missing key. Only a model failure stops the workflow, and with a model that always answers it completes. |
| AdkTravel.SharedSession | framework-comparisons/02-multi-agent-orchestration/google-adk/travel_planner.py:95-120 | In the shared session each agent answers having seen exactly the earlier agents' answers. |
| AdkTravel.ResearchCall | framework-comparisons/02-multi-agent-orchestration/google-adk/travel_planner.py:68 | The research agent runs on its f-string instruction. |
| AdkTravel.BookingCall | framework-comparisons/02-multi-agent-orchestration/google-adk/travel_planner.py:76 | The booking agent's instruction ends with the research agent's answer. |
| AdkTravel.ItineraryCall | framework-comparisons/02-multi-agent-orchestration/google-adk/travel_planner.py:84 | The itinerary instruction carries the research answer, then the booking answer. |
| AdkTravel.FinalState | framework-comparisons/02-multi-agent-orchestration/google-adk/travel_planner.py:70-85 | The session state ends with exactly the three output keys, each holding its agent's answer. |
| AdkTravel.FinalOutputSnoc | framework-comparisons/02-multi-agent-orchestration/google-adk/travel_planner.py:121-122 | One more event changes the printed text exactly when it is a final response with content. |
| AdkTravel.SelectFinalOutput | framework-comparisons/02-multi-agent-orchestration/google-adk/travel_planner.py:115-122 | The loop's result comes from the last final response with content. It is that event's first-part text: None when the part carries no text, "" when there are no parts. With no such event it stays at the initial "". |
| AdkTravel.FinalOutputIgnoresTrailing | framework-comparisons/02-multi-agent-orchestration/google-adk/travel_planner.py:116-122 | Events after the last selected one do not change the output. |
| AdkTravel.AnswerEvent | framework-comparisons/02-multi-agent-orchestration/google-adk/travel_planner.py:121-122 | An agent's final response is selected, and it shows the text of its first part, or "" when it has no parts. |
| AdkTravel.LastAnswerPrinted | framework-comparisons/02-multi-agent-orchestration/google-adk/travel_planner.py:115-122 | Whatever intermediate events come between, the printed output is what the last agent's final response shows. |
| AdkTravel.PrintsFinalItinerary | framework-comparisons/02-multi-agent-orchestration/google-adk/travel_planner.py:115-127 | When each agent's final response stored its answer (it has parts, and the answer is the join of their texts), the printed plan is the first part of the itinerary agent's response. It begins what the session stores under final_itinerary, and equals it when the response is one text part. |
| AgentFrameworkTravel.SearchDestinations | framework-comparisons/02-multi-agent-orchestration/microsoft-agent-framework/travel_planner.py:26-35 | This copy agrees with the reference tool on every input. |
| AgentFrameworkTravel.CheckAvailability | framework-comparisons/02-multi-agent-orchestration/microsoft-agent-framework/travel_planner.py:37-42 | This copy agrees with the reference tool on every input. |
| AgentFrameworkTravel.Attributed | framework-comparisons/02-multi-agent-orchestration/microsoft-agent-framework/travel_planner.py:108-109 | A participant's messages keep their role and text. A message without an author gets the participant's name, and an existing author is kept. |
| AgentFrameworkTravel.Converse | framework-comparisons/02-multi-agent-orchestration/microsoft-agent-framework/travel_planner.py:75-79 | The sequential workflow only appends to the conversation. |
| AgentFrameworkTravel.WorkflowTurns | framework-comparisons/02-multi-agent-orchestration/microsoft-agent-framework/travel_planner.py:75-97 | The researcher sees the request, the booking agent also sees the research, and the planner sees both. The final conversation is the request followed by the three answers, in participant order. |
| AgentFrameworkTravel.SelectOutputEvent | framework-comparisons/02-multi-agent-orchestration/microsoft-agent-framework/travel_planner.py:94-99 | `output_evt` ends as the last WorkflowOutputEvent of the stream, or none. |
| AgentFrameworkTravel.FindPlan | framework-comparisons/02-multi-agent-orchestration/microsoft-agent-framework/travel_planner.py:106-111 | The reversed scan returns the text of the last message whose author is "itinerary", or nothing. |
| AgentFrameworkTravel.ShowResult | framework-comparisons/02-multi-agent-orchestration/microsoft-agent-framework/travel_planner.py:101-111 | Nothing is printed exactly when the stream has no output event. Otherwise the header is printed, followed by the planner's last message if there is one. |
| AgentFrameworkTravel.PrintsItineraryAnswer | framework-comparisons/02-multi-agent-orchestration/microsoft-agent-framework/travel_planner.py:94-111 | Suppose the planner answers with at least one message and the last one carries no other author. Then the printed plan is that message, whatever events come before the output event and whatever non-output events follow it. |
| CrewAiTravel.SearchDestinations | framework-comparisons/02-multi-agent-orchestration/crewai/travel_planner.py:19-28 | This copy agrees with the reference tool on every input. |
| CrewAiTravel.CheckAvailability | framework-comparisons/02-multi-agent-orchestration/crewai/travel_planner.py:30-34 | This copy agrees with the reference tool on every input. |
| CrewAiTravel.Tasks | framework-comparisons/02-multi-agent-orchestration/crewai/travel_planner.py:76-100 | The tasks run research, booking, itinerary. Their agents are the researcher (only search_destinations), the booking agent (only check_availability) and the planner (no tools). |
| CrewAiTravel.RunTasks | framework-comparisons/02-multi-agent-orchestration/crewai/travel_planner.py:95-100 | The sequential process produces one output per task, each from its task and all the earlier outputs. |
| CrewAiTravel.OutputsDetermined | framework-comparisons/02-multi-agent-orchestration/crewai/travel_planner.py:95-103 | Any output list in which each output follows from the earlier ones is exactly what the process builds. |
| CrewAiTravel.Kickoff | framework-comparisons/02-multi-agent-orchestration/crewai/travel_planner.py:103-108 | The printed result is the itinerary output, produced from the research output and the booking output. |
| CrewAiTravel.ResearchMentionsTrip | framework-comparisons/02-multi-agent-orchestration/crewai/travel_planner.py:76-80 | The research task names the destination and the preferences. |
| CrewAiTravel.BookingMentionsTrip | framework-comparisons/02-multi-agent-orchestration/crewai/travel_planner.py:82-86 | The booking task names the destination and the dates. |
| CrewAiTravel.ItineraryMentionsTrip | framework-comparisons/02-multi-agent-orchestration/crewai/travel_planner.py:88-92 | The itinerary task names the destination and the preferences. |
| LlamaIndexTravel.SearchDestinations | framework-comparisons/02-multi-agent-orchestration/llamaindex/travel_planner.py:18-25 | This copy agrees with the reference tool on every input. |
| LlamaIndexTravel.CheckAvailability | framework-comparisons/02-multi-agent-orchestration/llamaindex/travel_planner.py:27-29 | This copy agrees with the reference tool on every input. |
| LlamaIndexTravel.Plan | framework-comparisons/02-multi-agent-orchestration/llamaindex/travel_planner.py:71-98 | The plan fails only when an agent run raises, and succeeds whenever every run answers. On success the three runs are in order, and each output is its own agent's answer to its own message alone. |
| LlamaIndexTravel.FreshContexts | framework-comparisons/02-multi-agent-orchestration/llamaindex/travel_planner.py:73-93 | With a fresh Context per run, no answer depends on an earlier run's conversation. |
| LlamaIndexTravel.StepAgents | framework-comparisons/02-multi-agent-orchestration/llamaindex/travel_planner.py:36-58 | Each step runs the agent it is named after. Only the itinerary agent has an empty tool list. |
| LlamaIndexTravel.ResearchPrompt | framework-comparisons/02-multi-agent-orchestration/llamaindex/travel_planner.py:75 | The research message is the f-string over destination and preferences. |
| LlamaIndexTravel.BookingPrompt | framework-comparisons/02-multi-agent-orchestration/llamaindex/travel_planner.py:83 | The booking message is the f-string over destination and dates. |
| LlamaIndexTravel.ItineraryPrompt | framework-comparisons/02-multi-agent-orchestration/llamaindex/travel_planner.py:91 | The itinerary message is the f-string over destination, dates, both answers and preferences. |
| LlamaIndexTravel.StepsWellOrdered | framework-comparisons/02-multi-agent-orchestration/llamaindex/travel_planner.py:71-93 | Each message reads only the trip and earlier answers, and every answer has its own variable. |
| LlamaIndexTravel.RunNeverMissesKey | framework-comparisons/02-multi-agent-orchestration/llamaindex/travel_planner.py:71-93 | Only an agent failure can stop the sequence, and with agents that always answer it completes. |
| LlamaIndexTravel.ItineraryMessage | framework-comparisons/02-multi-agent-orchestration/llamaindex/travel_planner.py:90-93 | The itinerary message is the f-string filled with the trip and the two earlier answers. |
| LlamaIndexTravel.ItineraryCall | framework-comparisons/02-multi-agent-orchestration/llamaindex/travel_planner.py:91 | For any way of answering the steps, the third prompt is that f-string filled with the trip and the first two answers. |
| LlamaIndexTravel.ItineraryMessageEmbeds | framework-comparisons/02-multi-agent-orchestration/llamaindex/travel_planner.py:91 | The itinerary message contains research_output, booking_output, the dates and the preferences verbatim. |
| LlamaIndexTravel.ItineraryTextEmbeds | framework-comparisons/02-multi-agent-orchestration/llamaindex/travel_planner.py:91 | The filled itinerary f-string contains the dates, the research, the booking and the preferences verbatim. |
| Lists.Tail | framework-comparisons/04-memory-management/crewai/shopping_assistant.py:77 | `xs[-n:]` is the last min(n, len) elements, as a suffix of xs. |
| ProfileStore.Load | framework-comparisons/04-memory-management/langchain/shopping_assistant.py:24-35 | With no file, the default Sarah profile is loaded. Loading a saved file returns what was saved, as stated by `Save`. |
| ProfileStore.Save | framework-comparisons/04-memory-management/langchain/shopping_assistant.py:37-40 | After saving p the file exists, and loading it returns p. |
| ProfileStore.SaveOverwrites | framework-comparisons/04-memory-management/langchain/shopping_assistant.py:37-40 | A later save replaces an earlier one entirely. |
| ProfileStore.Format | framework-comparisons/04-memory-management/langchain/shopping_assistant.py:45-47 | Rendering succeeds exactly when the budget history is nonempty. An empty one raises IndexError. |
| ProfileStore.FormatShowsProfile | framework-comparisons/04-memory-management/langchain/shopping_assistant.py:45-47 | The rendering shows the name, every preference, every past purchase and the latest budget. |
| ProfileStore.FormatUsesLastBudget | framework-comparisons/04-memory-management/langchain/shopping_assistant.py:47 | Earlier budget entries do not affect the rendering. |
| ProfileStore.StorePreference | framework-comparisons/04-memory-management/langchain/shopping_assistant.py:49-53 | Afterwards the preference is present, the old list is a prefix, and other fields are unchanged. A present preference changes nothing and saves nothing. A new one is appended and the profile saved. |
| ProfileStore.StorePreferenceIdempotent | framework-comparisons/04-memory-management/langchain/shopping_assistant.py:49-53 | Storing the same preference twice equals storing it once. |
| ProfileStore.StorePreferenceNoDuplicates | framework-comparisons/04-memory-management/langchain/shopping_assistant.py:51-52 | Storing never creates a duplicate: a new preference is listed once, and a present one keeps its count. |
| ProfileStore.AppendPreference | framework-comparisons/04-memory-management/crewai/shopping_assistant.py:92-94 | The preference is appended with no membership check, other fields are kept, and the saved file loads back the new profile. |
| ProfileStore.AppendPreferenceCounts | framework-comparisons/04-memory-management/google-adk/shopping_assistant.py:76-78 | Every append adds one copy, even of a preference already present. |
| ProfileStore.BudgetTrigger | framework-comparisons/04-memory-management/langchain/shopping_assistant.py:94 | The trigger fires exactly when "under $1000" occurs in the lower-cased query. |
| ProfileStore.BudgetTriggerIgnoresCase | framework-comparisons/04-memory-management/langchain/shopping_assistant.py:94 | A query and its lower-cased form trigger alike. |
| ProfileStore.Triggers | framework-comparisons/04-memory-management/langchain/shopping_assistant.py:94-95 | The number of triggering queries is at most the number of queries, and is zero exactly when none triggers. |
| ProfileStore.Remember | framework-comparisons/04-memory-management/langchain/shopping_assistant.py:93-95 | A non-triggering query leaves profile and file alone. A triggering one leaves "budget-conscious" among the preferences. Only the preferences change, and only by extension. |
| ProfileStore.RememberAll | framework-comparisons/04-memory-management/langchain/shopping_assistant.py:79-95 | Over a conversation only the preferences change, and the old list stays a prefix. |
| ProfileStore.RememberAllSnoc | framework-comparisons/04-memory-management/langchain/shopping_assistant.py:79-95 | One more query is one more update step, and it counts as a trigger exactly when it triggers. |
| ProfileStore.RememberAllPersists | framework-comparisons/04-memory-management/crewai/shopping_assistant.py:89-94 | After any conversation the file loads back the profile in memory. A conversation without a budget query writes nothing. |
| ProfileStore.RememberedAfterTrigger | framework-comparisons/04-memory-management/langchain/shopping_assistant.py:83-95 | Once a query has triggered, "budget-conscious" stays in the preferences and in every later rendering. |
| ProfileStore.RememberNewBudget | framework-comparisons/04-memory-management/langchain/shopping_assistant.py:49-53 | A budget query on a profile without "budget-conscious" appends it and saves the new profile, whichever update is used. |
| ProfileStore.AppendAllCounts | framework-comparisons/04-memory-management/microsoft-agent-framework/shopping_assistant.py:80-82 | When appending, each triggering query adds one preference and one copy of "budget-conscious", duplicates included. |
| ProfileStore.StoreAllCounts | framework-comparisons/04-memory-management/langchain/shopping_assistant.py:49-53 | When storing, "budget-conscious" is listed at most once however many queries trigger: its old count if present, else 1 if any query triggered, else 0. |
| ProfileStore.NoDollarNoTrigger | framework-comparisons/04-memory-management/langchain/shopping_assistant.py:94 | A query without "$" never triggers. |
| ProfileStore.NoDollarPiecesNoTrigger | framework-comparisons/04-memory-management/langchain/shopping_assistant.py:94 | The same holds for a query written as two dollar-free pieces. |
| ProfileStore.PhraseTrigger | framework-comparisons/04-memory-management/langchain/shopping_assistant.py:94 | A query containing the lower-case phrase triggers. |
| ProfileStore.NewPhoneIsQuiet | framework-comparisons/04-memory-management/langchain/shopping_assistant.py:73 | "I need a new phone" does not trigger. |
| ProfileStore.UsualBudgetIsQuiet | framework-comparisons/04-memory-management/langchain/shopping_assistant.py:74 | "What's my budget usually?" does not trigger. |
| ProfileStore.CameraIsQuiet | framework-comparisons/04-memory-management/langchain/shopping_assistant.py:76 | The camera question does not trigger. |
| ProfileStore.DemoTriggers | framework-comparisons/04-memory-management/langchain/shopping_assistant.py:72-77 | Of the four demo queries, only the third triggers. |
| ProfileStore.DemoTriggerCount | framework-comparisons/04-memory-management/langchain/shopping_assistant.py:72-77 | Exactly one demo query triggers. |
| ProfileStore.ThirdOfFourTriggers | framework-comparisons/04-memory-management/langchain/shopping_assistant.py:93-95 | Four queries of which only the third triggers count as one trigger. |
| ProfileStore.DemoRemembers | framework-comparisons/04-memory-management/langchain/shopping_assistant.py:72-95 | A demo session over a profile without the budget preference adds it once and saves the result, whether the script stores or appends. |
| ProfileStore.ThirdOfFourRemembers | framework-comparisons/04-memory-management/langchain/shopping_assistant.py:79-95 | Over four queries of which only the third triggers, a profile without "budget-conscious" gains it once and is saved. |
| ProfileStore.FirstRunRemembers | framework-comparisons/04-memory-management/google-adk/shopping_assistant.py:27-78 | A first run, with no file, leaves Sarah's default profile plus "budget-conscious" in memory and in the file. |
| LangChainShopping.SystemMessageShows | framework-comparisons/04-memory-management/langchain/shopping_assistant.py:65-68 | Whatever the rendered profile shows, the system message shows too. |
| LangChainShopping.Start | framework-comparisons/04-memory-management/langchain/shopping_assistant.py:43 | The session starts with the loaded profile and nothing said. |
| LangChainShopping.Turn | framework-comparisons/04-memory-management/langchain/shopping_assistant.py:83-95 | A turn fails with the rendering error exactly when the budget history is empty. Otherwise it fails exactly when the chain's invoke raises, with that error. |
| LangChainShopping.Converse | framework-comparisons/04-memory-management/langchain/shopping_assistant.py:79-95 | A failed loop made a turn, and a rendering failure means an empty budget history. With an empty budget history the first turn fails; with a model that always answers, that is the only way to fail. The long-term memory follows the queries with the storing update. Short-term memory grows by two messages per turn and keeps its earlier contents. |
| LangChainShopping.TurnRecorded | framework-comparisons/04-memory-management/langchain/shopping_assistant.py:83-91 | Turn i records the human query, then the chain's answer to the system message rendered from the profile as the earlier turns left it. |
| LangChainShopping.SessionPersists | framework-comparisons/04-memory-management/langchain/shopping_assistant.py:49-53 | After a session the file holds the profile in memory and only the preferences changed. "budget-conscious" is listed no more often than before, or at most once if it was absent. |
| LangChainShopping.LaterTurnsSeeBudget | framework-comparisons/04-memory-management/langchain/shopping_assistant.py:83-95 | Every turn after a triggering one shows "budget-conscious" to the assistant. |
| CrewAiShopping.ContextLines | framework-comparisons/04-memory-management/crewai/shopping_assistant.py:77 | Line j of the context is "Turn j+1: Customer: <query>", numbered from 1. |
| CrewAiShopping.Start | framework-comparisons/04-memory-management/crewai/shopping_assistant.py:39 | The session starts with the loaded profile and an empty buffer. |
| CrewAiShopping.Turn | framework-comparisons/04-memory-management/crewai/shopping_assistant.py:79-89 | A turn fails exactly when `kickoff` raises, with that error; the failing profile tool alone does not end it. |
| CrewAiShopping.Converse | framework-comparisons/04-memory-management/crewai/shopping_assistant.py:73-94 | A failed loop made a turn, and with a crew that always answers no turn fails. On success the buffer ends as the queries in order, so its length is the number of completed turns. There is one request per turn, and the long-term memory follows the appending update. |
| CrewAiShopping.RequestOfTurn | framework-comparisons/04-memory-management/crewai/shopping_assistant.py:76-86 | Turn i's description quotes the window before it. Its profile tool renders the profile as the earlier turns left it, or fails. |
| CrewAiShopping.WindowBeforeCurrent | framework-comparisons/04-memory-management/crewai/shopping_assistant.py:77-89 | The window holds at most three queries and ends just before the current one, which never appears in its own context. |
| CrewAiShopping.DescriptionQuotesWindow | framework-comparisons/04-memory-management/crewai/shopping_assistant.py:77-80 | Each windowed query appears in the description behind its turn number, and so does the current query. |
| CrewAiShopping.SessionPersists | framework-comparisons/04-memory-management/crewai/shopping_assistant.py:92-94 | The file holds the profile in memory, and each triggering query adds one more "budget-conscious". |
| AdkShopping.Start | framework-comparisons/04-memory-management/google-adk/shopping_assistant.py:39 | The session starts with the loaded profile and an empty buffer. |
| AdkShopping.Turn | framework-comparisons/04-memory-management/google-adk/shopping_assistant.py:62-78 | A turn fails with the rendering error exactly when the budget history is empty. Otherwise it fails exactly when `generate_content` raises, with that error. |
| AdkShopping.Converse | framework-comparisons/04-memory-management/google-adk/shopping_assistant.py:62-79 | A failed loop made a turn, and a rendering failure means an empty budget history. With an empty budget history the first turn fails; with a model that always answers, that is the only way to fail. The buffer ends as the queries in order, with one prompt per turn, and the long-term memory follows the appending update. |
| AdkShopping.PromptOfTurn | framework-comparisons/04-memory-management/google-adk/shopping_assistant.py:65-73 | Turn i's prompt renders the profile as the earlier turns left it, uses the buffer before the turn (so never the current query), and ends with the current query. |
| AdkShopping.PromptShows | framework-comparisons/04-memory-management/google-adk/shopping_assistant.py:69 | The prompt contains the rendered profile and the current query. |
| AdkShopping.PromptShowsRecent | framework-comparisons/04-memory-management/google-adk/shopping_assistant.py:69 | The prompt contains each of the last two earlier queries. |
| AdkShopping.SessionPersists | framework-comparisons/04-memory-management/google-adk/shopping_assistant.py:76-78 | The file holds the profile in memory, and each triggering query adds one more "budget-conscious". |
| AgentFrameworkShopping.Messages | framework-comparisons/04-memory-management/microsoft-agent-framework/shopping_assistant.py:68-71 | The request is a system message containing the rendered profile, followed by the user's query. |
| AgentFrameworkShopping.Start | framework-comparisons/04-memory-management/microsoft-agent-framework/shopping_assistant.py:38 | The session starts with the loaded profile and empty memory. |
| AgentFrameworkShopping.Turn | framework-comparisons/04-memory-management/microsoft-agent-framework/shopping_assistant.py:61-82 | A turn fails with the rendering error exactly when the budget history is empty. Otherwise it fails exactly when `chat.completions.create` raises, with that error. |
| AgentFrameworkShopping.Converse | framework-comparisons/04-memory-management/microsoft-agent-framework/shopping_assistant.py:61-83 | A failed loop made a turn, and a rendering failure means an empty budget history. With an empty budget history the first turn fails; with a model that always answers, that is the only way to fail. Memory gains one record per turn, and the long-term memory follows the appending update. |
| AgentFrameworkShopping.ExchangeOfTurn | framework-comparisons/04-memory-management/microsoft-agent-framework/shopping_assistant.py:64-77 | Turn i's record is the query and the reply to the request rendered from the profile as the earlier turns left it. |
| AgentFrameworkShopping.LaterTurnsSeeBudget | framework-comparisons/04-memory-management/microsoft-agent-framework/shopping_assistant.py:64-82 | Every turn after a triggering one shows "budget-conscious" in the system message. |
| AgentFrameworkShopping.SessionPersists | framework-comparisons/04-memory-management/microsoft-agent-framework/shopping_assistant.py:80-82 | The file holds the profile in memory, and each triggering query adds one more "budget-conscious", duplicates included. |

## Left out

- **Model and SDK calls.** OpenAI, Gemini, CrewAI, LangGraph, LlamaIndex and Agent Framework calls are function parameters. The models state nothing about what they answer, only how the answers are threaded and stored.
  - A tool an agent may call is listed by name on its step or task. Whether the model calls it is the oracle's business.
  - In ADK and the Agent Framework, the SDK's shared session and conversation are modelled as they are documented: state placeholders are filled from session state, and every participant sees the conversation so far.
- **Argument decoding.** `json.loads` of function-call arguments is not modelled; arguments arrive as an already-parsed map.
- **File and environment plumbing.** The file system, `os.path.exists`, `load_dotenv`, API-key checks with `exit(1)`, every `print` and banner, and `asyncio` are not modelled. Event streams are finite sequences.
- **Summarization prompts.** The summary at the end of each shopping script is a pure model call whose answer is only printed.
- **The RAG scripts.** `03-rag-implementation` is left out. Its behaviour is a FAISS retriever with OpenAI embeddings, and its one local string join follows Python set iteration order, which is unspecified.
- **JSON shape of the profile.** A profile file holding something other than the four fields is not modelled.
- Text.Lower: lower-cases ASCII letters only, where Python's `str.lower` also maps non-ASCII letters. Some of those map to ASCII (U+212A KELVIN SIGN becomes `k`, U+0130 becomes `i` plus a combining dot), but none yields any of u, n, d, e or r, and none yields a space, `$` or a digit. So the lower-cased query contains "under $1000" under Python's mapping exactly when it does under the ASCII one. The model states this only for the queries in question.
- AutoGptAgent.Chat: when the second completion is itself a function call, OpenAI gives `content = None`. Here it gives "". The same holds for the first completion's content, which is always text in the model.
- AutoGptAgent.Chat: `execute_command(command_name, **kwargs)` raising TypeError on unbindable arguments is modelled as a `Failure` that ends `chat`, with the user message already stored. Python's message text is not modelled.
- **A failing tool in CrewAI.** `get_customer_profile` raising IndexError on an empty budget history is recorded as a `Failure` in the request. The crew reports tool errors back to the agent, and what the agent does next is not modelled.
- **Rendering with an empty budget history.** In the other three assistants this crashes the script. It is modelled as a `Failure` that ends the conversation, with the long-term memory as the earlier turns left it.
- **Raising model calls.** In the LangChain, LlamaIndex and Google ADK travel planners and in all four shopping assistants, a model or SDK call that raises is a `Failure` that ends the run. The error carries the exception but not its text.
- CrewAiTravel.RunTasks: an agent executing a task always produces an output. A raising `kickoff` is not modelled, and neither is CrewAI's retry of a failed task. CrewAiTravel.Kickoff depends on it the same way.
- AgentFrameworkTravel.Converse: a participant always answers. An exception escaping `run_stream` is not modelled. AgentFrameworkTravel.Workflow and AgentFrameworkTravel.WorkflowTurns depend on it the same way.
- AutoGptAgent.Chat: the completion call always answers. An OpenAI error is not modelled, only the TypeError raised while dispatching a function call. AutoGptAgent.RunQueries and AutoGptTravel.Main depend on it the same way.
- AdkTravel.RunWorkflow: the trip's fields are treated as literal text in the instructions. ADK injects session state into the whole instruction, so a `{name}` inside a destination, dates or preferences would also be looked up in state: replaced by a stored answer, or raising KeyError when missing. For trips without braces the model is exact.
- AdkTravel.PrintsFinalItinerary: ADK leaves thought parts out of the stored join, while the model joins every part. A final response without parts stores nothing; ADK then raises KeyError at the next placeholder, or leaves final_itinerary absent. The lemma covers only runs whose answers were all stored, and AdkTravel.RunWorkflow treats every successful answer as stored.
- AdkTravel.ResearchPrompt: states the researcher's instruction for trip text taken literally, as under AdkTravel.RunWorkflow.
- AdkTravel.RunNeverMissesKey: no missing key is promised only for the placeholders the script writes. A `{name}` inside the trip's fields is not modelled, as under AdkTravel.RunWorkflow.
- AdkTravel.SelectFinalOutput: `event.is_final_response()` is taken as a field of the event, as the SDK computes it. A part without text gives `None`, which the script would print as "None"; that case is not distinguished further.
- AgentFrameworkShopping.Turn: `response.choices[0].message.content` may be None, and the script stores that None in short-term memory. Here the reply is always a string.
- AgentFrameworkTravel.Attributed: author stamping is modelled as the SDK documents it, not from its source. `if output_evt:` is taken to hold for every output event.
- LangChainTravel.Path: the graph walk takes a fuel bound. The bound of three edges is enough for the one graph the script builds, and graphs with cycles are not explored beyond it.
- **Shopping replies.** The assistant's answer in the CrewAI and Google ADK shopping scripts is only printed, so it is not kept in the session.
