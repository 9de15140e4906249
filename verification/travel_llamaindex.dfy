/**
  The LlamaIndex travel planner: three `FunctionAgent`s run one after another by hand, each
  on a `Context` of its own. The itinerary agent's message is an f-string holding the
  research and booking answers, and its answer is the plan printed.
 */
module LlamaIndexTravel {
  import opened Wrappers
  import Lists
  import Text
  import Pipeline
  import TravelTools

  const Destinations: map<string, string> := map[
    "Paris" := "Paris offers the Eiffel Tower, " + "Louvre Museum, and Notre-Dame. "
      + "Best time: April-June. " + "Average cost: $200/day.",
    "Tokyo" := "Tokyo features temples, " + "cherry blossoms, and modern tech. "
      + "Best time: March-May. " + "Average cost: $180/day.",
    "Bali" := "Bali has beaches, temples, " + "and rice terraces. "
      + "Best time: April-October. " + "Average cost: $100/day."
  ]

  /** The `search_destinations` tool. */
  function SearchDestinations(destination: string): (r: string)
    ensures r == TravelTools.SearchDestinations(destination)
  {
    Lists.MapGet(Destinations, destination,
      "Information about " + destination + ": Beautiful destination with rich culture.")
  }

  /** The `check_availability` tool. */
  function CheckAvailability(destination: string, dates: string): (r: string)
    ensures r == TravelTools.CheckAvailability(destination, dates)
  {
    "Available for " + destination + " during " + dates
      + ": Hotels from $100/night, Flights from $500 roundtrip."
  }

  /** A `FunctionAgent`: name, description, system prompt and the names of its tools. */
  datatype FunctionAgent = FunctionAgent(name: string, description: string, systemPrompt: string, tools: seq<string>)

  const ResearchAgent := FunctionAgent("ResearchAgent", "Researches destinations",
    "You are a travel researcher. " + "Provide detailed information about destinations.",
    ["search_destinations"])

  const BookingAgent := FunctionAgent("BookingAgent", "Checks availability for hotels and flights",
    "You are a booking specialist. " + "Check availability and provide recommendations.",
    ["check_availability"])

  const ItineraryAgent := FunctionAgent("ItineraryAgent", "Creates detailed travel itineraries",
    "You are an itinerary planner. " + "Create detailed day-by-day travel plans.",
    [])

  /** The `user_msg` f-strings of the three `run` calls. */
  const ResearchTemplate: Pipeline.Template := [
    Pipeline.Lit("Research "), Pipeline.Ref("destination"),
    Pipeline.Lit(" focusing on "), Pipeline.Ref("preferences"),
    Pipeline.Lit(". Provide key attractions and costs.")]

  const BookingTemplate: Pipeline.Template := [
    Pipeline.Lit("Check availability for "), Pipeline.Ref("destination"),
    Pipeline.Lit(" during "), Pipeline.Ref("dates"), Pipeline.Lit(".")]

  const ItineraryTemplate: Pipeline.Template := [
    Pipeline.Lit("Create a 7-day itinerary for "), Pipeline.Ref("destination"),
    Pipeline.Lit(" from "), Pipeline.Ref("dates"),
    Pipeline.Lit(" based on:\n\nResearch: "), Pipeline.Ref("research_output"),
    Pipeline.Lit("\n\nBooking: "), Pipeline.Ref("booking_output"),
    Pipeline.Lit("\n\nFocus on "), Pipeline.Ref("preferences"), Pipeline.Lit(".")]

  /** The three steps of `main`, named after their agents, each writing the variable its
      answer goes to. */
  const Steps: seq<Pipeline.Step> := [
    Pipeline.Step("ResearchAgent", "research_output", ResearchTemplate, ResearchAgent.tools),
    Pipeline.Step("BookingAgent", "booking_output", BookingTemplate, BookingAgent.tools),
    Pipeline.Step("ItineraryAgent", "itinerary_response", ItineraryTemplate, ItineraryAgent.tools)
  ]

  /** The local variables of `main` the messages read. */
  function InitialContext(trip: TravelTools.Trip): Pipeline.Context {
    map["destination" := trip.destination, "dates" := trip.dates, "preferences" := trip.preferences]
  }

  function AgentFor(s: Pipeline.Step): FunctionAgent {
    if s.name == "ResearchAgent" then ResearchAgent
    else if s.name == "BookingAgent" then BookingAgent
    else ItineraryAgent
  }

  /** `str(await agent.run(user_msg=..., ctx=Context(agent)))`: the agent's answer to one
      message, tool rounds included, on a context that holds nothing else, or the exception
      the run raises, which ends `main`. */
  type AgentRun<!E> = (FunctionAgent, string) -> Result<string, E>

  /** Each run gets a fresh `Context`, so an answer depends only on the agent and its message,
      never on the runs before it. */
  function Generator<E>(run: AgentRun<E>): Pipeline.Generator<E> {
    (s: Pipeline.Step, message: string, earlier: seq<Pipeline.Call>) => run(AgentFor(s), message)
  }

  /** `main`'s three steps. Every message reads only the trip and earlier answers, so only a
      failing agent run stops them; otherwise they complete, in order, and each answer is its
      own agent's answer to its own message. */
  function Plan<E>(run: AgentRun<E>, trip: TravelTools.Trip): (r: Result<Pipeline.Trace, Pipeline.RunError<E>>)
    ensures r.Failure? ==> r.error.GenerationFailed?
    ensures (forall a, m :: run(a, m).Success?) ==> r.Success?
    ensures r.Success? ==>
      && |r.value.calls| == 3
      && [r.value.calls[0].step, r.value.calls[1].step, r.value.calls[2].step]
         == ["ResearchAgent", "BookingAgent", "ItineraryAgent"]
      && forall i | 0 <= i < 3 :: run(AgentFor(Steps[i]), r.value.calls[i].prompt) == Success(r.value.calls[i].output)
  {
    RunNeverMissesKey(trip, Generator(run));
    RunsAnswer(run);
    var r := Pipeline.Run(Steps, InitialContext(trip), Generator(run), []);
    if r.Success? then
      FreshContexts(run, trip);
      r
    else
      r
  }

  /** Agent runs that always answer make a generator that always answers. */
  lemma RunsAnswer<E>(run: AgentRun<E>)
    ensures (forall a, m :: run(a, m).Success?) ==> forall s, m, h :: Generator(run)(s, m, h).Success?
  {
    if forall a, m :: run(a, m).Success? {
      forall s: Pipeline.Step, m: string, h: seq<Pipeline.Call> ensures Generator(run)(s, m, h).Success? {
        assert run(AgentFor(s), m).Success?;
      }
    }
  }

  lemma FreshContexts<E>(run: AgentRun<E>, trip: TravelTools.Trip)
    requires Pipeline.Run(Steps, InitialContext(trip), Generator(run), []).Success?
    ensures var calls := Pipeline.Run(Steps, InitialContext(trip), Generator(run), []).value.calls;
      forall i | 0 <= i < 3 :: run(AgentFor(Steps[i]), calls[i].prompt) == Success(calls[i].output)
  {
    forall i | 0 <= i < 3 {
      Pipeline.RunCalls(Steps, InitialContext(trip), Generator(run), [], i);
    }
  }

  /** Each step runs the agent it is named after; only the itinerary agent holds no tool. */
  lemma StepAgents()
    ensures forall i | 0 <= i < |Steps| :: AgentFor(Steps[i]).name == Steps[i].name
    ensures forall i | 0 <= i < |Steps| :: AgentFor(Steps[i]).tools == Steps[i].tools
    ensures Steps[2].tools == [] && |Steps[0].tools| == |Steps[1].tools| == 1
  {
    assert AgentFor(Steps[0]) == ResearchAgent;
    assert AgentFor(Steps[1]) == BookingAgent;
    assert AgentFor(Steps[2]) == ItineraryAgent;
  }

  lemma ResearchPrompt(ctx: Pipeline.Context)
    requires "destination" in ctx && "preferences" in ctx
    ensures Pipeline.Resolve(ResearchTemplate, ctx)
         == Success("Research " + ctx["destination"] + " focusing on " + ctx["preferences"]
              + ". Provide key attractions and costs.")
  {
    var t := ResearchTemplate;
    Pipeline.ResolveSnoc(t, ctx, 1);
    Pipeline.ResolveSnoc(t, ctx, 2);
    Pipeline.ResolveSnoc(t, ctx, 3);
    Pipeline.ResolveSnoc(t, ctx, 4);
    assert t[..|t|] == t;
  }

  lemma BookingPrompt(ctx: Pipeline.Context)
    requires "destination" in ctx && "dates" in ctx
    ensures Pipeline.Resolve(BookingTemplate, ctx)
         == Success("Check availability for " + ctx["destination"] + " during " + ctx["dates"] + ".")
  {
    var t := BookingTemplate;
    Pipeline.ResolveSnoc(t, ctx, 1);
    Pipeline.ResolveSnoc(t, ctx, 2);
    Pipeline.ResolveSnoc(t, ctx, 3);
    Pipeline.ResolveSnoc(t, ctx, 4);
    assert t[..|t|] == t;
  }

  lemma ItineraryPrompt(ctx: Pipeline.Context)
    requires "destination" in ctx && "dates" in ctx && "preferences" in ctx
    requires "research_output" in ctx && "booking_output" in ctx
    ensures Pipeline.Resolve(ItineraryTemplate, ctx)
         == Success("Create a 7-day itinerary for " + ctx["destination"] + " from " + ctx["dates"]
              + " based on:\n\nResearch: " + ctx["research_output"] + "\n\nBooking: " + ctx["booking_output"]
              + "\n\nFocus on " + ctx["preferences"] + ".")
  {
    var t := ItineraryTemplate;
    var a := "Create a 7-day itinerary for ";
    assert Pipeline.Resolve(t[..1], ctx) == Success(a);
    Pipeline.ResolveSnoc(t, ctx, 1);
    a := a + ctx["destination"];
    assert Pipeline.Resolve(t[..2], ctx) == Success(a);
    Pipeline.ResolveSnoc(t, ctx, 2);
    a := a + " from ";
    assert Pipeline.Resolve(t[..3], ctx) == Success(a);
    Pipeline.ResolveSnoc(t, ctx, 3);
    a := a + ctx["dates"];
    assert Pipeline.Resolve(t[..4], ctx) == Success(a);
    Pipeline.ResolveSnoc(t, ctx, 4);
    a := a + " based on:\n\nResearch: ";
    assert Pipeline.Resolve(t[..5], ctx) == Success(a);
    Pipeline.ResolveSnoc(t, ctx, 5);
    a := a + ctx["research_output"];
    assert Pipeline.Resolve(t[..6], ctx) == Success(a);
    Pipeline.ResolveSnoc(t, ctx, 6);
    a := a + "\n\nBooking: ";
    assert Pipeline.Resolve(t[..7], ctx) == Success(a);
    Pipeline.ResolveSnoc(t, ctx, 7);
    a := a + ctx["booking_output"];
    assert Pipeline.Resolve(t[..8], ctx) == Success(a);
    Pipeline.ResolveSnoc(t, ctx, 8);
    a := a + "\n\nFocus on ";
    assert Pipeline.Resolve(t[..9], ctx) == Success(a);
    Pipeline.ResolveSnoc(t, ctx, 9);
    a := a + ctx["preferences"];
    assert Pipeline.Resolve(t[..10], ctx) == Success(a);
    Pipeline.ResolveSnoc(t, ctx, 10);
    assert t[..11] == t;
  }

  /** The messages read only the trip and earlier answers, and every answer has its own name. */
  lemma StepsWellOrdered(trip: TravelTools.Trip)
    ensures Pipeline.NoForwardReferences(InitialContext(trip).Keys, Steps)
    ensures Pipeline.DistinctOutputs(Steps)
  {
    var ctx := InitialContext(trip);
    ResearchPrompt(ctx);
    BookingPrompt(ctx);
    ItineraryPrompt(ctx["research_output" := ""]["booking_output" := ""]);
    Pipeline.ThreeStepsWellOrdered(ctx.Keys, Steps);
  }

  lemma RunNeverMissesKey<E>(trip: TravelTools.Trip, gen: Pipeline.Generator<E>)
    ensures var r := Pipeline.Run(Steps, InitialContext(trip), gen, []);
      && (r.Failure? ==> r.error.GenerationFailed?)
      && ((forall s, p, h :: gen(s, p, h).Success?) ==> r.Success?)
  {
    StepsWellOrdered(trip);
    Pipeline.NoForwardReferencesRun(Steps, InitialContext(trip), gen, []);
  }

  /** The itinerary message is the f-string filled with the trip and both earlier answers. */
  lemma ItineraryMessage<E>(run: AgentRun<E>, trip: TravelTools.Trip)
    requires Plan(run, trip).Success?
    ensures var calls := Plan(run, trip).value.calls;
      calls[2].prompt == "Create a 7-day itinerary for " + trip.destination + " from " + trip.dates
        + " based on:\n\nResearch: " + calls[0].output + "\n\nBooking: " + calls[1].output
        + "\n\nFocus on " + trip.preferences + "."
  {
    assert Plan(run, trip) == Pipeline.Run(Steps, InitialContext(trip), Generator(run), []);
    ItineraryCall(trip, Generator(run));
  }

  lemma ItineraryCall<E>(trip: TravelTools.Trip, gen: Pipeline.Generator<E>)
    requires Pipeline.Run(Steps, InitialContext(trip), gen, []).Success?
    ensures var calls := Pipeline.Run(Steps, InitialContext(trip), gen, []).value.calls;
      calls[2].prompt == "Create a 7-day itinerary for " + trip.destination + " from " + trip.dates
        + " based on:\n\nResearch: " + calls[0].output + "\n\nBooking: " + calls[1].output
        + "\n\nFocus on " + trip.preferences + "."
  {
    var ctx0 := InitialContext(trip);
    var calls := Pipeline.Run(Steps, ctx0, gen, []).value.calls;
    Pipeline.ThreeStepPrompts(Steps, ctx0, gen, []);
    ItineraryPrompt(ctx0[Steps[0].outputKey := calls[0].output][Steps[1].outputKey := calls[1].output]);
  }

  /** The itinerary message with its slots filled. */
  function ItineraryText(destination: string, dates: string, research: string, booking: string, preferences: string): string {
    "Create a 7-day itinerary for " + destination + " from " + dates
      + " based on:\n\nResearch: " + research + "\n\nBooking: " + booking
      + "\n\nFocus on " + preferences + "."
  }

  /** Each filled slot but the destination appears in the message verbatim. */
  lemma ItineraryTextEmbeds(destination: string, dates: string, research: string, booking: string, preferences: string)
    ensures var m := ItineraryText(destination, dates, research, booking, preferences);
      && Text.IsSubstring(research, m) && Text.IsSubstring(booking, m)
      && Text.IsSubstring(dates, m) && Text.IsSubstring(preferences, m)
  {
    var p2 := "Create a 7-day itinerary for " + destination + " from ";
    var p3 := p2 + dates;
    var p4 := p3 + " based on:\n\nResearch: ";
    var p5 := p4 + research;
    var p6 := p5 + "\n\nBooking: ";
    var p7 := p6 + booking;
    var p8 := p7 + "\n\nFocus on ";
    var p9 := p8 + preferences;
    assert ItineraryText(destination, dates, research, booking, preferences) == p9 + ".";
    Text.SubstringAtEnd(p2, dates);
    Text.SubstringAppend(dates, p3, " based on:\n\nResearch: ");
    Text.SubstringAppend(dates, p4, research);
    Text.SubstringAtEnd(p4, research);
    Text.SubstringAppend(dates, p5, "\n\nBooking: ");
    Text.SubstringAppend(research, p5, "\n\nBooking: ");
    Text.SubstringAppend(dates, p6, booking);
    Text.SubstringAppend(research, p6, booking);
    Text.SubstringAtEnd(p6, booking);
    Text.SubstringAppend(dates, p7, "\n\nFocus on ");
    Text.SubstringAppend(research, p7, "\n\nFocus on ");
    Text.SubstringAppend(booking, p7, "\n\nFocus on ");
    Text.SubstringAppend(dates, p8, preferences);
    Text.SubstringAppend(research, p8, preferences);
    Text.SubstringAppend(booking, p8, preferences);
    Text.SubstringAtEnd(p8, preferences);
    Text.SubstringAppend(dates, p9, ".");
    Text.SubstringAppend(research, p9, ".");
    Text.SubstringAppend(booking, p9, ".");
    Text.SubstringAppend(preferences, p9, ".");
  }

  /** The itinerary message carries the research answer, the booking answer, the dates and
      the preferences verbatim. */
  lemma ItineraryMessageEmbeds<E>(run: AgentRun<E>, trip: TravelTools.Trip)
    requires Plan(run, trip).Success?
    ensures var calls := Plan(run, trip).value.calls;
      && Text.IsSubstring(calls[0].output, calls[2].prompt)
      && Text.IsSubstring(calls[1].output, calls[2].prompt)
      && Text.IsSubstring(trip.dates, calls[2].prompt)
      && Text.IsSubstring(trip.preferences, calls[2].prompt)
  {
    var calls := Plan(run, trip).value.calls;
    ItineraryMessage(run, trip);
    assert calls[2].prompt == ItineraryText(trip.destination, trip.dates, calls[0].output, calls[1].output, trip.preferences);
    ItineraryTextEmbeds(trip.destination, trip.dates, calls[0].output, calls[1].output, trip.preferences);
  }
}
