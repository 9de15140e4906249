/**
  The AutoGPT travel planner's `main`: three `SimpleAutoGPTAgent`s, orchestrated by hand, each
  chatted once with an f-string prompt; the itinerary planner's prompt is built from the first
  two answers, and its answer is the plan printed.
 */
module AutoGptTravel {
  import opened Wrappers
  import Text
  import Commands
  import AutoGptAgent
  import Pipeline
  import TravelTools

  /** The role each agent is created with, by the name of the variable holding it. */
  function Role(agent: string): string {
    if agent == "researcher" then "Travel Researcher"
    else if agent == "booking_agent" then "Booking Specialist"
    else "Itinerary Planner"
  }

  /** Every agent holds a `TravelAgentCommands` registry: the researcher and the booking agent
      share one, the itinerary planner gets its own, equal one. */
  const RegistryTools := ["search_destinations", "check_availability"]

  /** The f-string prompts of the three `chat` calls. */
  const ResearchTemplate: Pipeline.Template := [
    Pipeline.Lit("Research "), Pipeline.Ref("destination"),
    Pipeline.Lit(" focusing on "), Pipeline.Ref("preferences"), Pipeline.Lit(".")]

  const BookingTemplate: Pipeline.Template := [
    Pipeline.Lit("Check availability for "), Pipeline.Ref("destination"),
    Pipeline.Lit(" during "), Pipeline.Ref("dates"), Pipeline.Lit(".")]

  const ItineraryTemplate: Pipeline.Template := [
    Pipeline.Lit("Create a 7-day itinerary for "), Pipeline.Ref("destination"),
    Pipeline.Lit(" based on:\n\nResearch: "), Pipeline.Ref("research_output"),
    Pipeline.Lit("\n\nBooking: "), Pipeline.Ref("booking_output"),
    Pipeline.Lit("\n\nFocus on "), Pipeline.Ref("preferences"), Pipeline.Lit(".")]

  /** Each step is named after the agent's variable and writes the variable the answer goes to. */
  const Steps: seq<Pipeline.Step> := [
    Pipeline.Step("researcher", "research_output", ResearchTemplate, RegistryTools),
    Pipeline.Step("booking_agent", "booking_output", BookingTemplate, RegistryTools),
    Pipeline.Step("itinerary_planner", "itinerary_output", ItineraryTemplate, RegistryTools)
  ]

  /** The local variables of `main` the prompts read. */
  function InitialContext(trip: TravelTools.Trip): Pipeline.Context {
    map["destination" := trip.destination, "dates" := trip.dates, "preferences" := trip.preferences]
  }

  /** The agent a step chats with: created fresh in `main`, so its history is empty. */
  function AgentFor(s: Pipeline.Step): AutoGptAgent.Agent {
    AutoGptAgent.TravelAgent(Role(s.name), Commands.TravelRegistry)
  }

  /** A step's answer is what `chat` returns on its fresh agent; a TypeError while dispatching
      a function call ends the script. */
  function Generator(llm: AutoGptAgent.Llm): Pipeline.Generator<Commands.CommandError> {
    (s: Pipeline.Step, prompt: string, history: seq<Pipeline.Call>) => AutoGptAgent.Chat(AgentFor(s), llm, prompt).reply
  }

  /** The three steps of `main`, for any way of answering a prompt: research, then booking,
      then the itinerary, whose prompt carries both earlier answers verbatim and whose answer
      is the plan printed. Nothing fails but an answer. */
  function Plan<E>(trip: TravelTools.Trip, gen: Pipeline.Generator<E>): (r: Result<Pipeline.Trace, Pipeline.RunError<E>>)
    ensures r.Failure? ==> r.error.GenerationFailed?
    ensures r.Success? ==>
      var calls := r.value.calls;
      && |calls| == 3
      && [calls[0].step, calls[1].step, calls[2].step] == ["researcher", "booking_agent", "itinerary_planner"]
      && Text.IsSubstring(calls[0].output, calls[2].prompt)
      && Text.IsSubstring(calls[1].output, calls[2].prompt)
      && "itinerary_output" in r.value.context
      && r.value.context["itinerary_output"] == calls[2].output
  {
    RunNeverMissesKey(trip, gen);
    ItineraryEmbedsAnswers(trip, gen);
    Pipeline.Run(Steps, InitialContext(trip), gen, [])
  }

  /** The itinerary prompt carries both earlier answers, and the last answer is kept under
      `itinerary_output`. */
  lemma ItineraryEmbedsAnswers<E>(trip: TravelTools.Trip, gen: Pipeline.Generator<E>)
    ensures var r := Pipeline.Run(Steps, InitialContext(trip), gen, []);
      r.Success? ==>
        && Text.IsSubstring(r.value.calls[0].output, r.value.calls[2].prompt)
        && Text.IsSubstring(r.value.calls[1].output, r.value.calls[2].prompt)
        && "itinerary_output" in r.value.context
        && r.value.context["itinerary_output"] == r.value.calls[2].output
  {
    var ctx := InitialContext(trip);
    var r := Pipeline.Run(Steps, ctx, gen, []);
    assert Pipeline.DistinctOutputs(Steps);
    assert Steps[2].template[3] == Pipeline.Ref(Steps[0].outputKey);
    assert Steps[2].template[5] == Pipeline.Ref(Steps[1].outputKey);
    if r.Success? {
      Pipeline.PromptEmbedsEarlierOutput(Steps, ctx, gen, [], 0, 2, 3);
      Pipeline.PromptEmbedsEarlierOutput(Steps, ctx, gen, [], 1, 2, 5);
      Pipeline.OutputsPersist(Steps, ctx, gen, [], 2);
    }
  }

  /** `main` itself: every step chats once with its own fresh agent. */
  function Main(llm: AutoGptAgent.Llm, trip: TravelTools.Trip): Result<Pipeline.Trace, Pipeline.RunError<Commands.CommandError>> {
    Plan(trip, Generator(llm))
  }

  /** The research prompt reads the destination and the preferences. */
  lemma ResearchPrompt(ctx: Pipeline.Context)
    requires "destination" in ctx && "preferences" in ctx
    ensures Pipeline.Resolve(ResearchTemplate, ctx)
         == Success("Research " + ctx["destination"] + " focusing on " + ctx["preferences"] + ".")
  {
    var t := ResearchTemplate;
    Pipeline.ResolveSnoc(t, ctx, 1);
    Pipeline.ResolveSnoc(t, ctx, 2);
    Pipeline.ResolveSnoc(t, ctx, 3);
    Pipeline.ResolveSnoc(t, ctx, 4);
    assert t[..|t|] == t;
  }

  /** The booking prompt reads the destination and the dates. */
  lemma BookingPrompt(ctx: Pipeline.Context)
    requires "destination" in ctx && "dates" in ctx
    ensures Pipeline.Resolve(BookingTemplate, ctx)
         == Success("Check availability for " + ctx["destination"] + " during " + ctx["dates"] + ".")
  {
    var t := BookingTemplate;
    Pipeline.ResolveSnoc(t, ctx, 1);
    Pipeline.ResolveSnoc(t, ctx, 2);
    Pipeline.ResolveSnoc(t, ctx, 3);
    Pipeline.ResolveSnoc(t, ctx, 4);
    assert t[..|t|] == t;
  }

  /** The itinerary prompt reads the destination, both earlier answers and the preferences. */
  lemma ItineraryPrompt(ctx: Pipeline.Context)
    requires "destination" in ctx && "research_output" in ctx && "booking_output" in ctx && "preferences" in ctx
    ensures Pipeline.Resolve(ItineraryTemplate, ctx)
         == Success("Create a 7-day itinerary for " + ctx["destination"]
              + " based on:\n\nResearch: " + ctx["research_output"] + "\n\nBooking: " + ctx["booking_output"]
              + "\n\nFocus on " + ctx["preferences"] + ".")
  {
    var t := ItineraryTemplate;
    var a := "Create a 7-day itinerary for ";
    assert Pipeline.Resolve(t[..1], ctx) == Success(a);
    Pipeline.ResolveSnoc(t, ctx, 1);
    a := a + ctx["destination"];
    assert Pipeline.Resolve(t[..2], ctx) == Success(a);
    Pipeline.ResolveSnoc(t, ctx, 2);
    a := a + " based on:\n\nResearch: ";
    assert Pipeline.Resolve(t[..3], ctx) == Success(a);
    Pipeline.ResolveSnoc(t, ctx, 3);
    a := a + ctx["research_output"];
    assert Pipeline.Resolve(t[..4], ctx) == Success(a);
    Pipeline.ResolveSnoc(t, ctx, 4);
    a := a + "\n\nBooking: ";
    assert Pipeline.Resolve(t[..5], ctx) == Success(a);
    Pipeline.ResolveSnoc(t, ctx, 5);
    a := a + ctx["booking_output"];
    assert Pipeline.Resolve(t[..6], ctx) == Success(a);
    Pipeline.ResolveSnoc(t, ctx, 6);
    a := a + "\n\nFocus on ";
    assert Pipeline.Resolve(t[..7], ctx) == Success(a);
    Pipeline.ResolveSnoc(t, ctx, 7);
    a := a + ctx["preferences"];
    assert Pipeline.Resolve(t[..8], ctx) == Success(a);
    Pipeline.ResolveSnoc(t, ctx, 8);
    assert t[..9] == t;
  }

  /** The prompts read only the trip and earlier answers, and every answer has its own key. */
  lemma StepsWellOrdered(trip: TravelTools.Trip)
    ensures Pipeline.NoForwardReferences(InitialContext(trip).Keys, Steps)
    ensures Pipeline.DistinctOutputs(Steps)
  {
    var ctx := InitialContext(trip);
    ResearchPrompt(ctx);
    BookingPrompt(ctx);
    ItineraryPrompt(ctx["research_output" := ""]["booking_output" := ""]);
    Pipeline.ThreeStepsWellOrdered(ctx.Keys, Steps);
  }

  /** Every key a prompt reads is there when the prompt is filled. */
  lemma RunNeverMissesKey<E>(trip: TravelTools.Trip, gen: Pipeline.Generator<E>)
    ensures var r := Pipeline.Run(Steps, InitialContext(trip), gen, []);
      && (r.Failure? ==> r.error.GenerationFailed?)
      && ((forall s, p, h :: gen(s, p, h).Success?) ==> r.Success?)
  {
    StepsWellOrdered(trip);
    Pipeline.NoForwardReferencesRun(Steps, InitialContext(trip), gen, []);
  }

  /** The prompts are the script's f-strings, filled with the trip and the earlier answers. */
  lemma PlanPrompts<E>(trip: TravelTools.Trip, gen: Pipeline.Generator<E>)
    requires Plan(trip, gen).Success?
    ensures var calls := Plan(trip, gen).value.calls;
      && calls[0].prompt == "Research " + trip.destination + " focusing on " + trip.preferences + "."
      && calls[1].prompt == "Check availability for " + trip.destination + " during " + trip.dates + "."
      && calls[2].prompt == "Create a 7-day itinerary for " + trip.destination
           + " based on:\n\nResearch: " + calls[0].output + "\n\nBooking: " + calls[1].output
           + "\n\nFocus on " + trip.preferences + "."
  {
    ResearchCall(trip, gen);
    BookingCall(trip, gen);
    ItineraryCall(trip, gen);
  }

  lemma ResearchCall<E>(trip: TravelTools.Trip, gen: Pipeline.Generator<E>)
    requires Pipeline.Run(Steps, InitialContext(trip), gen, []).Success?
    ensures Pipeline.Run(Steps, InitialContext(trip), gen, []).value.calls[0].prompt
         == "Research " + trip.destination + " focusing on " + trip.preferences + "."
  {
    ResearchPrompt(InitialContext(trip));
  }

  lemma BookingCall<E>(trip: TravelTools.Trip, gen: Pipeline.Generator<E>)
    requires Pipeline.Run(Steps, InitialContext(trip), gen, []).Success?
    ensures Pipeline.Run(Steps, InitialContext(trip), gen, []).value.calls[1].prompt
         == "Check availability for " + trip.destination + " during " + trip.dates + "."
  {
    var ctx0 := InitialContext(trip);
    var (c0, ctx1) := Pipeline.RunStep(Steps[0], ctx0, gen, []).value;
    assert Steps[1..][0] == Steps[1];
    BookingPrompt(ctx1);
  }

  lemma ItineraryCall<E>(trip: TravelTools.Trip, gen: Pipeline.Generator<E>)
    requires Pipeline.Run(Steps, InitialContext(trip), gen, []).Success?
    ensures var calls := Pipeline.Run(Steps, InitialContext(trip), gen, []).value.calls;
      calls[2].prompt == "Create a 7-day itinerary for " + trip.destination
           + " based on:\n\nResearch: " + calls[0].output + "\n\nBooking: " + calls[1].output
           + "\n\nFocus on " + trip.preferences + "."
  {
    var ctx0 := InitialContext(trip);
    var calls := Pipeline.Run(Steps, ctx0, gen, []).value.calls;
    Pipeline.ThreeStepPrompts(Steps, ctx0, gen, []);
    ItineraryPrompt(ctx0[Steps[0].outputKey := calls[0].output][Steps[1].outputKey := calls[1].output]);
  }

  /** Every agent starts from an empty history, so a step's first request holds only its own
      system prompt and its own prompt: no step sees another's conversation. */
  lemma FreshAgents(s: Pipeline.Step, prompt: string)
    requires s in Steps
    ensures AgentFor(s).history == []
    ensures AutoGptAgent.FirstRequest(AgentFor(s), prompt).messages
         == [AutoGptAgent.System("You are a " + Role(s.name) + ". Use the available commands to answer questions."),
             AutoGptAgent.User(prompt)]
  {
  }

  /** When no chat raises, the plan is produced. */
  lemma MainSucceeds(llm: AutoGptAgent.Llm, trip: TravelTools.Trip)
    requires forall s: Pipeline.Step, p: string :: AutoGptAgent.Chat(AgentFor(s), llm, p).reply.Success?
    ensures Main(llm, trip).Success?
  {
    var gen := Generator(llm);
    assert forall s, p, h :: gen(s, p, h).Success?;
    RunNeverMissesKey(trip, gen);
  }
}
