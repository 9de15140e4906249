/**
  The Google ADK travel planner: a `SequentialAgent` running three `LlmAgent`s in one session.
  Each agent's instruction is an f-string, evaluated when the agent is built, that may still
  hold `{research_output}` or `{booking_output}` placeholders; ADK fills those from the session
  state when the agent runs, and stores the agent's final answer under its `output_key`.
  The script prints the text of the last final response the runner yields.
 */
module AdkTravel {
  import opened Wrappers
  import Lists
  import Pipeline
  import TravelTools

  const Destinations: map<string, string> := map[
    "Paris" := "Paris offers the Eiffel Tower, " + "Louvre Museum, and Notre-Dame. "
      + "Best time: April-June. " + "Average cost: $200/day.",
    "Tokyo" := "Tokyo features temples, " + "cherry blossoms, and modern tech. "
      + "Best time: March-May. " + "Average cost: $180/day.",
    "Bali" := "Bali has beaches, temples, " + "and rice terraces. "
      + "Best time: April-October. " + "Average cost: $100/day."
  ]

  /** The `search_destinations` tool. */
  function SearchDestinations(destination: string): (r: string)
    ensures r == TravelTools.SearchDestinations(destination)
  {
    Lists.MapGet(Destinations, destination,
      "Information about " + destination + ": Beautiful destination with rich culture.")
  }

  /** The `check_availability` tool. */
  function CheckAvailability(destination: string, dates: string): (r: string)
    ensures r == TravelTools.CheckAvailability(destination, dates)
  {
    "Available for " + destination + " during " + dates
      + ": Hotels from $100/night, Flights from $500 roundtrip."
  }

  /** The researcher's instruction: the trip is already spelled out, nothing is read from state. */
  function ResearchInstruction(trip: TravelTools.Trip): Pipeline.Template {
    [Pipeline.Lit("Research " + trip.destination + " focusing on " + trip.preferences
       + ". Provide key attractions and costs.")]
  }

  /** The booking agent's instruction ends with the `{research_output}` placeholder. */
  function BookingInstruction(trip: TravelTools.Trip): Pipeline.Template {
    [Pipeline.Lit("Check availability for " + trip.destination + " during " + trip.dates
       + ". Based on research: "),
     Pipeline.Ref("research_output")]
  }

  /** The itinerary agent's instruction reads both earlier answers from state. */
  function ItineraryInstruction(trip: TravelTools.Trip): Pipeline.Template {
    [Pipeline.Lit("Create a 7-day itinerary for " + trip.destination + " focusing on "
       + trip.preferences + ". Use research: "),
     Pipeline.Ref("research_output"),
     Pipeline.Lit(" and booking: "),
     Pipeline.Ref("booking_output")]
  }

  /** The `sub_agents` of the workflow, in order: name, `output_key`, instruction, tools. */
  function SubAgents(trip: TravelTools.Trip): (agents: seq<Pipeline.Step>)
    ensures |agents| == 3
    ensures [agents[0].name, agents[1].name, agents[2].name] == ["ResearchAgent", "BookingAgent", "ItineraryAgent"]
    ensures [agents[0].outputKey, agents[1].outputKey, agents[2].outputKey]
         == ["research_output", "booking_output", "final_itinerary"]
    ensures agents[0].tools == ["search_destinations"] && agents[1].tools == ["check_availability"]
    ensures agents[2].tools == []
  {
    [Pipeline.Step("ResearchAgent", "research_output", ResearchInstruction(trip), ["search_destinations"]),
     Pipeline.Step("BookingAgent", "booking_output", BookingInstruction(trip), ["check_availability"]),
     Pipeline.Step("ItineraryAgent", "final_itinerary", ItineraryInstruction(trip), [])]
  }

  /** The session is created without state. */
  const InitialState: Pipeline.Context := map[]

  /** The one message sent to the runner. */
  function UserMessage(trip: TravelTools.Trip): string {
    "Plan a trip to " + trip.destination
  }

  /** An `LlmAgent`'s final answer, tool rounds included: the model behind it sees the user's
      message, the agent, its filled instruction and the answers already in the session. */
  type Model<!E> = (string, Pipeline.Step, string, seq<Pipeline.Call>) -> Result<string, E>

  /** All sub-agents share one session, so each one is shown the answers before its own. */
  function Generator<E>(model: Model<E>, trip: TravelTools.Trip): Pipeline.Generator<E> {
    (s: Pipeline.Step, instruction: string, earlier: seq<Pipeline.Call>) =>
      model(UserMessage(trip), s, instruction, earlier)
  }

  /** `runner.run_async(...)` on the `SequentialAgent`: each sub-agent once, in order. A
      placeholder never names a key that is missing from state. */
  function RunWorkflow<E>(model: Model<E>, trip: TravelTools.Trip): (r: Result<Pipeline.Trace, Pipeline.RunError<E>>)
    ensures r.Failure? ==> r.error.GenerationFailed?
    ensures r.Success? ==>
      && |r.value.calls| == 3
      && [r.value.calls[0].step, r.value.calls[1].step, r.value.calls[2].step]
         == ["ResearchAgent", "BookingAgent", "ItineraryAgent"]
  {
    RunNeverMissesKey(trip, Generator(model, trip));
    Pipeline.Run(SubAgents(trip), InitialState, Generator(model, trip), [])
  }

  lemma ResearchPrompt(trip: TravelTools.Trip, ctx: Pipeline.Context)
    ensures Pipeline.Resolve(ResearchInstruction(trip), ctx)
         == Success("Research " + trip.destination + " focusing on " + trip.preferences
              + ". Provide key attractions and costs.")
  {
    var t := ResearchInstruction(trip);
    assert t[..0] == [];
  }

  lemma BookingPrompt(trip: TravelTools.Trip, ctx: Pipeline.Context)
    requires "research_output" in ctx
    ensures Pipeline.Resolve(BookingInstruction(trip), ctx)
         == Success("Check availability for " + trip.destination + " during " + trip.dates
              + ". Based on research: " + ctx["research_output"])
  {
    var t := BookingInstruction(trip);
    assert t[..1][..0] == [];
    Pipeline.ResolveSnoc(t, ctx, 1);
    assert t[..2] == t;
  }

  lemma ItineraryPrompt(trip: TravelTools.Trip, ctx: Pipeline.Context)
    requires "research_output" in ctx && "booking_output" in ctx
    ensures Pipeline.Resolve(ItineraryInstruction(trip), ctx)
         == Success("Create a 7-day itinerary for " + trip.destination + " focusing on "
              + trip.preferences + ". Use research: " + ctx["research_output"]
              + " and booking: " + ctx["booking_output"])
  {
    var t := ItineraryInstruction(trip);
    assert t[..1][..0] == [];
    Pipeline.ResolveSnoc(t, ctx, 1);
    Pipeline.ResolveSnoc(t, ctx, 2);
    Pipeline.ResolveSnoc(t, ctx, 3);
    assert t[..4] == t;
  }

  /** The state keys form a chain: the booking agent reads only the research answer, the
      itinerary agent reads only the two earlier answers, and no two agents write one key. */
  lemma SubAgentsWellOrdered(trip: TravelTools.Trip)
    ensures Pipeline.NoForwardReferences(InitialState.Keys, SubAgents(trip))
    ensures Pipeline.DistinctOutputs(SubAgents(trip))
  {
    var agents := SubAgents(trip);
    var probe := map["research_output" := "", "booking_output" := ""];
    ResearchPrompt(trip, map[]);
    BookingPrompt(trip, map["research_output" := ""]);
    ItineraryPrompt(trip, probe);
    Pipeline.ThreeStepsWellOrdered(InitialState.Keys, agents);
  }

  /** Every placeholder is filled from state, so only a model failure stops the workflow. */
  lemma RunNeverMissesKey<E>(trip: TravelTools.Trip, gen: Pipeline.Generator<E>)
    ensures var r := Pipeline.Run(SubAgents(trip), InitialState, gen, []);
      && (r.Failure? ==> r.error.GenerationFailed?)
      && ((forall s, p, h :: gen(s, p, h).Success?) ==> r.Success?)
  {
    SubAgentsWellOrdered(trip);
    Pipeline.NoForwardReferencesRun(SubAgents(trip), InitialState, gen, []);
  }

  /** The shared session: the research agent answers having seen no earlier answer, the
      booking agent having seen the research answer, the itinerary agent having seen both. */
  lemma SharedSession<E>(model: Model<E>, trip: TravelTools.Trip)
    requires RunWorkflow(model, trip).Success?
    ensures var calls := RunWorkflow(model, trip).value.calls;
      && model(UserMessage(trip), SubAgents(trip)[0], calls[0].prompt, []) == Success(calls[0].output)
      && model(UserMessage(trip), SubAgents(trip)[1], calls[1].prompt, [calls[0]]) == Success(calls[1].output)
      && model(UserMessage(trip), SubAgents(trip)[2], calls[2].prompt, [calls[0], calls[1]])
         == Success(calls[2].output)
  {
    var gen := Generator(model, trip);
    var calls := RunWorkflow(model, trip).value.calls;
    assert RunWorkflow(model, trip) == Pipeline.Run(SubAgents(trip), InitialState, gen, []);
    Pipeline.RunCalls(SubAgents(trip), InitialState, gen, [], 0);
    Pipeline.RunCalls(SubAgents(trip), InitialState, gen, [], 1);
    Pipeline.RunCalls(SubAgents(trip), InitialState, gen, [], 2);
    assert [] + calls[..1] == [calls[0]];
    assert [] + calls[..2] == [calls[0], calls[1]];
  }

  /** The research agent's instruction is its f-string as written. */
  lemma ResearchCall<E>(trip: TravelTools.Trip, gen: Pipeline.Generator<E>)
    requires Pipeline.Run(SubAgents(trip), InitialState, gen, []).Success?
    ensures Pipeline.Run(SubAgents(trip), InitialState, gen, []).value.calls[0].prompt
         == "Research " + trip.destination + " focusing on " + trip.preferences
            + ". Provide key attractions and costs."
  {
    ResearchPrompt(trip, InitialState);
  }

  /** The booking agent's instruction ends with the research answer, as stored in state. */
  lemma BookingCall<E>(trip: TravelTools.Trip, gen: Pipeline.Generator<E>)
    requires Pipeline.Run(SubAgents(trip), InitialState, gen, []).Success?
    ensures var calls := Pipeline.Run(SubAgents(trip), InitialState, gen, []).value.calls;
      calls[1].prompt == "Check availability for " + trip.destination + " during " + trip.dates
        + ". Based on research: " + calls[0].output
  {
    var agents := SubAgents(trip);
    var calls := Pipeline.Run(agents, InitialState, gen, []).value.calls;
    var (c0, ctx1) := Pipeline.RunStep(agents[0], InitialState, gen, []).value;
    var rest1 := Pipeline.Run(agents[1..], ctx1, gen, [] + [c0]);
    assert calls == [c0] + rest1.value.calls;
    assert agents[1..][0] == agents[1];
    BookingPrompt(trip, ctx1);
  }

  /** The itinerary agent's instruction carries the research answer and the booking answer,
      in that order, after its own text. */
  lemma ItineraryCall<E>(trip: TravelTools.Trip, gen: Pipeline.Generator<E>)
    requires Pipeline.Run(SubAgents(trip), InitialState, gen, []).Success?
    ensures var calls := Pipeline.Run(SubAgents(trip), InitialState, gen, []).value.calls;
      calls[2].prompt == "Create a 7-day itinerary for " + trip.destination + " focusing on "
        + trip.preferences + ". Use research: " + calls[0].output + " and booking: " + calls[1].output
  {
    var agents := SubAgents(trip);
    var calls := Pipeline.Run(agents, InitialState, gen, []).value.calls;
    var (c0, ctx1) := Pipeline.RunStep(agents[0], InitialState, gen, []).value;
    var rest1 := Pipeline.Run(agents[1..], ctx1, gen, [] + [c0]);
    assert calls == [c0] + rest1.value.calls;
    var (c1, ctx2) := Pipeline.RunStep(agents[1], ctx1, gen, [] + [c0]).value;
    var rest2 := Pipeline.Run(agents[2..], ctx2, gen, [] + [c0] + [c1]);
    assert agents[1..][0] == agents[1] && agents[1..][1..] == agents[2..];
    assert rest1.value.calls == [c1] + rest2.value.calls;
    assert agents[2..][0] == agents[2];
    assert rest2.value.calls[0] == Pipeline.RunStep(agents[2], ctx2, gen, [] + [c0] + [c1]).value.0;
    ItineraryPrompt(trip, ctx2);
  }

  /** After the workflow the session state holds exactly the three answers, each under its
      agent's `output_key`. */
  lemma FinalState<E>(model: Model<E>, trip: TravelTools.Trip)
    requires RunWorkflow(model, trip).Success?
    ensures var trace := RunWorkflow(model, trip).value;
      && trace.context.Keys == {"research_output", "booking_output", "final_itinerary"}
      && trace.context["research_output"] == trace.calls[0].output
      && trace.context["booking_output"] == trace.calls[1].output
      && trace.context["final_itinerary"] == trace.calls[2].output
  {
    var agents, gen := SubAgents(trip), Generator(model, trip);
    assert RunWorkflow(model, trip) == Pipeline.Run(agents, InitialState, gen, []);
    SubAgentsWellOrdered(trip);
    Pipeline.ThreeStepFinalContext(agents, InitialState, gen, []);
  }

  /** One part of an event's content; a function call or response part has no text. */
  datatype Part = Part(text: Option<string>)

  datatype Content = Content(parts: seq<Part>)

  /** An event the runner yields: its author, whether `is_final_response()` holds of it, and
      its content, if any. */
  datatype Event = Event(author: string, isFinalResponse: bool, content: Option<Content>)

  /** The events the loop takes notice of. */
  predicate Selected(e: Event) {
    e.isFinalResponse && e.content.Some?
  }

  /** What `final_output` becomes at a selected event: the first part's text, which is
      `None` when that part carries none, or "" when there are no parts. */
  function Shown(e: Event): Option<string>
    requires Selected(e)
  {
    var parts := e.content.value.parts;
    if |parts| == 0 then Some("") else parts[0].text
  }

  /** The printed text: what the last selected event shows, or the initial "" when no event
      is selected. */
  function FinalOutput(events: seq<Event>): Option<string> {
    match Lists.LastIndex(events, Selected)
    case None => Some("")
    case Some(i) => Shown(events[i])
  }

  /** Taking one more event changes the output exactly when that event is selected. */
  lemma FinalOutputSnoc(events: seq<Event>, e: Event)
    ensures FinalOutput(events + [e]) == if Selected(e) then Shown(e) else FinalOutput(events)
  {
    Lists.LastIndexSnoc(events, e, Selected);
    assert (events + [e])[|events|] == e;
  }

  /** The `async for` loop over the runner's events. */
  method SelectFinalOutput(events: seq<Event>) returns (finalOutput: Option<string>)
    ensures finalOutput == FinalOutput(events)
  {
    finalOutput := Some("");
    for i := 0 to |events|
      invariant finalOutput == FinalOutput(events[..i])
    {
      var event := events[i];
      FinalOutputSnoc(events[..i], event);
      assert events[..i + 1] == events[..i] + [event];
      if event.isFinalResponse && event.content.Some? {
        var parts := event.content.value.parts;
        finalOutput := if |parts| > 0 then parts[0].text else Some("");
      }
    }
    assert events[..|events|] == events;
  }

  /** Events after the last selected one do not matter. */
  lemma {:induction false} FinalOutputIgnoresTrailing(prefix: seq<Event>, e: Event, trailing: seq<Event>)
    requires Selected(e)
    requires forall i | 0 <= i < |trailing| :: !Selected(trailing[i])
    ensures FinalOutput(prefix + [e] + trailing) == Shown(e)
    decreases |trailing|
  {
    if |trailing| == 0 {
      assert prefix + [e] + trailing == prefix + [e];
      FinalOutputSnoc(prefix, e);
    } else {
      var front := trailing[..|trailing| - 1];
      var last := trailing[|trailing| - 1];
      assert prefix + [e] + trailing == (prefix + [e] + front) + [last];
      FinalOutputIgnoresTrailing(prefix, e, front);
      FinalOutputSnoc(prefix + [e] + front, last);
    }
  }

  /** The text a part contributes when ADK joins an answer: a part without text adds nothing. */
  function PartText(p: Part): string {
    p.text.GetOr("")
  }

  /** The texts of all the parts of a final response, joined with nothing between them. */
  function JoinedText(parts: seq<Part>): (r: string)
    ensures |parts| > 0 ==> PartText(parts[0]) <= r
    ensures |parts| == 1 ==> r == PartText(parts[0])
    decreases |parts|
  {
    if |parts| == 0 then "" else PartText(parts[0]) + JoinedText(parts[1..])
  }

  /** What ADK stores under an agent's `output_key` from its final response: nothing when the
      response has no parts, otherwise the joined texts. */
  function StoredAnswer(parts: seq<Part>): (r: Option<string>)
    ensures r.None? <==> |parts| == 0
    ensures r.Some? ==> PartText(parts[0]) <= r.value
    ensures |parts| == 1 ==> r == Some(PartText(parts[0]))
  {
    if |parts| == 0 then None else Some(JoinedText(parts))
  }

  /** The final response an agent's answer arrives in, carrying the given parts. */
  function AnswerEvent(call: Pipeline.Call, parts: seq<Part>): (e: Event)
    ensures Selected(e) && e.author == call.step
    ensures Shown(e) == if |parts| == 0 then Some("") else parts[0].text
  {
    Event(call.step, true, Some(Content(parts)))
  }

  /** The events of a workflow: for each call, its agent's intermediate events (tool calls,
      tool results, partial text), then the final response whose parts hold its answer. */
  function WorkflowEvents(calls: seq<Pipeline.Call>, intermediate: seq<seq<Event>>, answers: seq<seq<Part>>): seq<Event>
    requires |intermediate| == |calls| && |answers| == |calls|
    decreases |calls|
  {
    if |calls| == 0 then []
    else
      var n := |calls| - 1;
      WorkflowEvents(calls[..n], intermediate[..n], answers[..n]) + intermediate[n] + [AnswerEvent(calls[n], answers[n])]
  }

  /** Whatever intermediate events the agents produce, the loop ends on the last agent's
      final response. */
  lemma LastAnswerPrinted(calls: seq<Pipeline.Call>, intermediate: seq<seq<Event>>, answers: seq<seq<Part>>)
    requires |intermediate| == |calls| && |answers| == |calls| > 0
    ensures var parts := answers[|calls| - 1];
      FinalOutput(WorkflowEvents(calls, intermediate, answers)) == if |parts| == 0 then Some("") else parts[0].text
  {
    var n := |calls| - 1;
    FinalOutputSnoc(WorkflowEvents(calls[..n], intermediate[..n], answers[..n]) + intermediate[n],
      AnswerEvent(calls[n], answers[n]));
  }

  /** The planner prints the first part of the itinerary agent's final response, while the
      session stores the join of all its parts under `final_itinerary`: the printed text
      begins the stored one, and the two agree when the response is one text part. A run in
      which every agent's answer was stored had a final response with parts from each. */
  lemma PrintsFinalItinerary<E>(model: Model<E>, trip: TravelTools.Trip, intermediate: seq<seq<Event>>,
                                answers: seq<seq<Part>>)
    requires RunWorkflow(model, trip).Success? && |intermediate| == 3 && |answers| == 3
    requires forall i | 0 <= i < 3 :: StoredAnswer(answers[i]) == Some(RunWorkflow(model, trip).value.calls[i].output)
    ensures var trace := RunWorkflow(model, trip).value;
      var printed := FinalOutput(WorkflowEvents(trace.calls, intermediate, answers));
      && "final_itinerary" in trace.context
      && |answers[2]| > 0 && printed == answers[2][0].text
      && (printed.Some? ==> printed.value <= trace.context["final_itinerary"])
      && (|answers[2]| == 1 && answers[2][0].text.Some? ==> printed == Some(trace.context["final_itinerary"]))
  {
    FinalState(model, trip);
    LastAnswerPrinted(RunWorkflow(model, trip).value.calls, intermediate, answers);
  }
}
