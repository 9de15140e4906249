/**
  The LangChain/LangGraph travel planner: a `StateGraph` over `TravelPlanState` with three
  nodes wired researcher -> booking -> itinerary -> END. Each node asks its agent one question
  built from the state and writes the agent's last message into its own field.
 */
module LangChainTravel {
  import opened Wrappers
  import Lists
  import Text
  import Pipeline
  import TravelTools

  const Destinations: map<string, string> := map[
    "Paris" := "Paris offers the Eiffel Tower, " + "Louvre Museum, and Notre-Dame. "
      + "Best time: April-June. " + "Average cost: $200/day.",
    "Tokyo" := "Tokyo features temples, " + "cherry blossoms, and modern tech. "
      + "Best time: March-May. " + "Average cost: $180/day.",
    "Bali" := "Bali has beaches, temples, " + "and rice terraces. "
      + "Best time: April-October. " + "Average cost: $100/day."
  ]

  /** The `search_destinations` tool. */
  function SearchDestinations(destination: string): (r: string)
    ensures r == TravelTools.SearchDestinations(destination)
  {
    Lists.MapGet(Destinations, destination,
      "Information about " + destination + ": Beautiful destination with rich culture.")
  }

  /** The `check_availability` tool. */
  function CheckAvailability(destination: string, dates: string): (r: string)
    ensures r == TravelTools.CheckAvailability(destination, dates)
  {
    "Available for " + destination + " during " + dates
      + ": Hotels from $100/night, Flights from $500 roundtrip."
  }

  /** The fields of `TravelPlanState`. */
  const StateKeys: set<string> :=
    {"destination", "dates", "preferences", "research_output", "booking_output", "final_plan"}

  /** The state `app.invoke` starts from: the trip, and every output field empty. */
  function InitialState(trip: TravelTools.Trip): (state: Pipeline.Context)
    ensures state.Keys == StateKeys
    ensures state["research_output"] == state["booking_output"] == state["final_plan"] == ""
    ensures state["destination"] == trip.destination && state["dates"] == trip.dates
      && state["preferences"] == trip.preferences
  {
    map["destination" := trip.destination, "dates" := trip.dates, "preferences" := trip.preferences,
        "research_output" := "", "booking_output" := "", "final_plan" := ""]
  }

  const ResearchTemplate: Pipeline.Template := [
    Pipeline.Lit("Research "), Pipeline.Ref("destination"),
    Pipeline.Lit(" focusing on "), Pipeline.Ref("preferences"), Pipeline.Lit(".")]

  const BookingTemplate: Pipeline.Template := [
    Pipeline.Lit("Check availability for "), Pipeline.Ref("destination"),
    Pipeline.Lit(" during "), Pipeline.Ref("dates"), Pipeline.Lit(".")]

  const ItineraryTemplate: Pipeline.Template := [
    Pipeline.Lit("Create a 7-day itinerary for "), Pipeline.Ref("destination"),
    Pipeline.Lit(" based on:\nResearch: "), Pipeline.Ref("research_output"),
    Pipeline.Lit("\nBooking: "), Pipeline.Ref("booking_output"),
    Pipeline.Lit("\nPreferences: "), Pipeline.Ref("preferences")]

  /** The three nodes, by graph name, with the field each writes and the tools of its agent. */
  const Nodes: seq<Pipeline.Step> := [
    Pipeline.Step("researcher", "research_output", ResearchTemplate, ["search_destinations"]),
    Pipeline.Step("booking", "booking_output", BookingTemplate, ["check_availability"]),
    Pipeline.Step("itinerary", "final_plan", ItineraryTemplate, [])
  ]

  /** LangGraph's `END`. */
  const End := "__end__"

  const Entry := "researcher"

  const Edges: seq<(string, string)> := [("researcher", "booking"), ("booking", "itinerary"), ("itinerary", End)]

  /** The target of the first edge leaving `node`. */
  function Successor(edges: seq<(string, string)>, node: string): (r: Option<string>)
    ensures r.None? <==> forall i | 0 <= i < |edges| :: edges[i].0 != node
    ensures r.Some? ==> (node, r.value) in edges
  {
    if |edges| == 0 then None
    else if edges[0].0 == node then Some(edges[0].1)
    else
      assert forall i | 1 <= i < |edges| :: edges[i] == edges[1..][i - 1];
      Successor(edges[1..], node)
  }

  /** The nodes visited from `node` by following edges until `END`, at most `fuel` of them. */
  function Path(edges: seq<(string, string)>, node: string, fuel: nat): (path: seq<string>)
    ensures |path| <= fuel
    ensures End !in path
    ensures |path| > 0 ==> path[0] == node
    ensures forall i | 0 <= i < |path| - 1 :: (path[i], path[i + 1]) in edges
    decreases fuel
  {
    if node == End || fuel == 0 then []
    else
      match Successor(edges, node)
      case None => [node]
      case Some(next) =>
        var rest := Path(edges, next, fuel - 1);
        assert forall i | 1 <= i < |rest| + 1 :: ([node] + rest)[i] == rest[i - 1];
        [node] + rest
  }

  /** The graph runs researcher, then booking, then itinerary, each once, and then ends; this
      is the order of the nodes the planner runs. */
  lemma ExecutionOrder()
    ensures Path(Edges, Entry, |Edges|) == ["researcher", "booking", "itinerary"]
    ensures Successor(Edges, "itinerary") == Some(End)
    ensures Path(Edges, Entry, |Edges|) == [Nodes[0].name, Nodes[1].name, Nodes[2].name]
  {
    assert Edges[1..] == [("booking", "itinerary"), ("itinerary", End)];
    assert Edges[1..][1..] == [("itinerary", End)];
    assert Successor(Edges, "researcher") == Some("booking");
    assert Successor(Edges, "booking") == Some("itinerary");
    assert Successor(Edges[1..][1..], "itinerary") == Some(End);
    assert Successor(Edges[1..], "itinerary") == Some(End);
    assert Path(Edges, End, 0) == [];
    assert Path(Edges, "itinerary", 1) == ["itinerary"];
    assert Path(Edges, "booking", 2) == ["booking", "itinerary"];
  }

  /** An agent's `invoke` on one human message: the content of the last message it returns,
      or the exception the call raises, which propagates out of `app.invoke`. */
  type Agent<!E> = (string, string) -> Result<string, E>

  function Generator<E>(agent: Agent<E>): Pipeline.Generator<E> {
    (s: Pipeline.Step, prompt: string, history: seq<Pipeline.Call>) => agent(s.name, prompt)
  }

  /** `app.invoke(...)`: the three nodes in graph order, each run once. Only a failing agent
      call stops the graph, and then nothing after it runs. */
  function Invoke<E>(agent: Agent<E>, trip: TravelTools.Trip): (r: Result<Pipeline.Trace, Pipeline.RunError<E>>)
    ensures r.Failure? ==> r.error.GenerationFailed?
    ensures (forall n, p :: agent(n, p).Success?) ==> r.Success?
    ensures r.Success? ==>
      && |r.value.calls| == 3
      && [r.value.calls[0].step, r.value.calls[1].step, r.value.calls[2].step] == Path(Edges, Entry, |Edges|)
      && forall i | 0 <= i < 3 :: agent(Nodes[i].name, r.value.calls[i].prompt) == Success(r.value.calls[i].output)
  {
    RunNeverMissesKey(trip, Generator(agent));
    AgentsAnswer(agent);
    ExecutionOrder();
    var r := Pipeline.Run(Nodes, InitialState(trip), Generator(agent), []);
    if r.Success? then
      CallsAnswerPrompts(trip, agent);
      r
    else
      r
  }

  /** An agent that always answers makes a generator that always answers. */
  lemma AgentsAnswer<E>(agent: Agent<E>)
    ensures (forall n, p :: agent(n, p).Success?) ==> forall s, p, h :: Generator(agent)(s, p, h).Success?
  {
    if forall n, p :: agent(n, p).Success? {
      forall s: Pipeline.Step, p: string, h: seq<Pipeline.Call> ensures Generator(agent)(s, p, h).Success? {
        assert agent(s.name, p).Success?;
      }
    }
  }

  lemma CallsAnswerPrompts<E>(trip: TravelTools.Trip, agent: Agent<E>)
    requires Pipeline.Run(Nodes, InitialState(trip), Generator(agent), []).Success?
    ensures var calls := Pipeline.Run(Nodes, InitialState(trip), Generator(agent), []).value.calls;
      forall i | 0 <= i < 3 :: agent(Nodes[i].name, calls[i].prompt) == Success(calls[i].output)
  {
    forall i | 0 <= i < 3 {
      Pipeline.RunCalls(Nodes, InitialState(trip), Generator(agent), [], i);
    }
  }

  /** Every field a prompt reads is in the state from the start, so only an agent call can
      fail. */
  lemma RunNeverMissesKey<E>(trip: TravelTools.Trip, gen: Pipeline.Generator<E>)
    ensures var r := Pipeline.Run(Nodes, InitialState(trip), gen, []);
      && (r.Failure? ==> r.error.GenerationFailed?)
      && ((forall s, p, h :: gen(s, p, h).Success?) ==> r.Success?)
  {
    var ctx := InitialState(trip);
    ResearchPrompt(ctx);
    BookingPrompt(ctx);
    ItineraryPrompt(ctx);
    Pipeline.NoForwardReferencesRun(Nodes, ctx, gen, []);
  }

  /** The research prompt. */
  lemma ResearchPrompt(ctx: Pipeline.Context)
    requires "destination" in ctx && "preferences" in ctx
    ensures Pipeline.Resolve(ResearchTemplate, ctx)
         == Success("Research " + ctx["destination"] + " focusing on " + ctx["preferences"] + ".")
  {
    var t := ResearchTemplate;
    Pipeline.ResolveSnoc(t, ctx, 1);
    Pipeline.ResolveSnoc(t, ctx, 2);
    Pipeline.ResolveSnoc(t, ctx, 3);
    Pipeline.ResolveSnoc(t, ctx, 4);
    assert t[..|t|] == t;
  }

  /** The booking prompt. */
  lemma BookingPrompt(ctx: Pipeline.Context)
    requires "destination" in ctx && "dates" in ctx
    ensures Pipeline.Resolve(BookingTemplate, ctx)
         == Success("Check availability for " + ctx["destination"] + " during " + ctx["dates"] + ".")
  {
    var t := BookingTemplate;
    Pipeline.ResolveSnoc(t, ctx, 1);
    Pipeline.ResolveSnoc(t, ctx, 2);
    Pipeline.ResolveSnoc(t, ctx, 3);
    Pipeline.ResolveSnoc(t, ctx, 4);
    assert t[..|t|] == t;
  }

  /** The itinerary prompt. */
  lemma ItineraryPrompt(ctx: Pipeline.Context)
    requires "destination" in ctx && "research_output" in ctx && "booking_output" in ctx && "preferences" in ctx
    ensures Pipeline.Resolve(ItineraryTemplate, ctx)
         == Success("Create a 7-day itinerary for " + ctx["destination"]
              + " based on:\nResearch: " + ctx["research_output"] + "\nBooking: " + ctx["booking_output"]
              + "\nPreferences: " + ctx["preferences"])
  {
    var t := ItineraryTemplate;
    var a := "Create a 7-day itinerary for ";
    assert Pipeline.Resolve(t[..1], ctx) == Success(a);
    Pipeline.ResolveSnoc(t, ctx, 1);
    a := a + ctx["destination"];
    assert Pipeline.Resolve(t[..2], ctx) == Success(a);
    Pipeline.ResolveSnoc(t, ctx, 2);
    a := a + " based on:\nResearch: ";
    assert Pipeline.Resolve(t[..3], ctx) == Success(a);
    Pipeline.ResolveSnoc(t, ctx, 3);
    a := a + ctx["research_output"];
    assert Pipeline.Resolve(t[..4], ctx) == Success(a);
    Pipeline.ResolveSnoc(t, ctx, 4);
    a := a + "\nBooking: ";
    assert Pipeline.Resolve(t[..5], ctx) == Success(a);
    Pipeline.ResolveSnoc(t, ctx, 5);
    a := a + ctx["booking_output"];
    assert Pipeline.Resolve(t[..6], ctx) == Success(a);
    Pipeline.ResolveSnoc(t, ctx, 6);
    a := a + "\nPreferences: ";
    assert Pipeline.Resolve(t[..7], ctx) == Success(a);
    Pipeline.ResolveSnoc(t, ctx, 7);
    assert t[..8] == t;
  }

  /** The final state has the same six fields, and the trip is untouched. */
  lemma FinalStateFields<E>(agent: Agent<E>, trip: TravelTools.Trip)
    requires Invoke(agent, trip).Success?
    ensures var final := Invoke(agent, trip).value.context;
      && final.Keys == StateKeys
      && final["destination"] == trip.destination
      && final["dates"] == trip.dates
      && final["preferences"] == trip.preferences
  {
    assert Invoke(agent, trip) == Pipeline.Run(Nodes, InitialState(trip), Generator(agent), []);
    RunKeepsTrip(trip, Generator(agent));
  }

  /** Whatever the agents answer, a completed run keeps the state's fields and the trip. */
  lemma RunKeepsTrip<E>(trip: TravelTools.Trip, gen: Pipeline.Generator<E>)
    requires Pipeline.Run(Nodes, InitialState(trip), gen, []).Success?
    ensures var final := Pipeline.Run(Nodes, InitialState(trip), gen, []).value.context;
      && final.Keys == StateKeys
      && final["destination"] == trip.destination
      && final["dates"] == trip.dates
      && final["preferences"] == trip.preferences
  {
    Pipeline.RunContext(Nodes, InitialState(trip), gen, []);
    NodeOutputKeys();
  }

  /** The nodes write exactly the three output fields of the state, and never the trip. */
  lemma NodeOutputKeys()
    ensures Pipeline.OutputKeys(Nodes) == {"research_output", "booking_output", "final_plan"}
    ensures Pipeline.OutputKeys(Nodes) <= StateKeys
    ensures "destination" !in Pipeline.OutputKeys(Nodes) && "dates" !in Pipeline.OutputKeys(Nodes)
    ensures "preferences" !in Pipeline.OutputKeys(Nodes)
  {
    var keys := Pipeline.OutputKeys(Nodes);
    assert Nodes[0].outputKey in keys && Nodes[1].outputKey in keys && Nodes[2].outputKey in keys;
  }

  /** The printed `result["final_plan"]` is the itinerary agent's answer. */
  lemma FinalPlan<E>(agent: Agent<E>, trip: TravelTools.Trip)
    requires Invoke(agent, trip).Success?
    ensures var trace := Invoke(agent, trip).value;
      && "final_plan" in trace.context
      && trace.context["final_plan"] == trace.calls[2].output
  {
    var ctx, gen := InitialState(trip), Generator(agent);
    assert Invoke(agent, trip) == Pipeline.Run(Nodes, ctx, gen, []);
    assert Pipeline.DistinctOutputs(Nodes);
    Pipeline.OutputsPersist(Nodes, ctx, gen, [], 2);
  }

  /** The itinerary prompt carries the research answer, the booking answer and the preferences
      verbatim. */
  lemma ItineraryPromptEmbeds<E>(agent: Agent<E>, trip: TravelTools.Trip)
    requires Invoke(agent, trip).Success?
    ensures var calls := Invoke(agent, trip).value.calls;
      && Text.IsSubstring(calls[0].output, calls[2].prompt)
      && Text.IsSubstring(calls[1].output, calls[2].prompt)
      && Text.IsSubstring(trip.preferences, calls[2].prompt)
  {
    ItineraryPromptEmbedsEarlier(agent, trip, 0, 3);
    ItineraryPromptEmbedsEarlier(agent, trip, 1, 5);
    ItineraryPromptEmbedsPreferences(agent, trip);
  }

  /** The itinerary prompt quotes the answer of node `j` through its `t`-th piece. */
  lemma ItineraryPromptEmbedsEarlier<E>(agent: Agent<E>, trip: TravelTools.Trip, j: nat, t: nat)
    requires Invoke(agent, trip).Success?
    requires j < 2 && t < |ItineraryTemplate| && ItineraryTemplate[t] == Pipeline.Ref(Nodes[j].outputKey)
    ensures var calls := Invoke(agent, trip).value.calls;
      Text.IsSubstring(calls[j].output, calls[2].prompt)
  {
    var ctx, gen := InitialState(trip), Generator(agent);
    assert Invoke(agent, trip) == Pipeline.Run(Nodes, ctx, gen, []);
    assert Pipeline.DistinctOutputs(Nodes);
    Pipeline.PromptEmbedsEarlierOutput(Nodes, ctx, gen, [], j, 2, t);
  }

  lemma ItineraryPromptEmbedsPreferences<E>(agent: Agent<E>, trip: TravelTools.Trip)
    requires Invoke(agent, trip).Success?
    ensures var calls := Invoke(agent, trip).value.calls;
      Text.IsSubstring(trip.preferences, calls[2].prompt)
  {
    var ctx, gen := InitialState(trip), Generator(agent);
    assert Invoke(agent, trip) == Pipeline.Run(Nodes, ctx, gen, []);
    assert Nodes[2].template[7] == Pipeline.Ref("preferences");
    Pipeline.PromptSeesContext(Nodes, ctx, gen, [], 2, 7);
  }
}
