/**
  The Microsoft Agent Framework travel planner: a sequential workflow of three chat agents
  over one shared conversation. Each participant is handed every message so far and its
  answer is appended; the workflow's output event carries the whole conversation, and the
  script prints the last message the itinerary agent wrote.
 */
module AgentFrameworkTravel {
  import opened Wrappers
  import Lists
  import TravelTools

  const Destinations: map<string, string> := map[
    "Paris" := "Paris offers the Eiffel Tower, " + "Louvre Museum, and Notre-Dame. "
      + "Best time: April-June. " + "Average cost: $200/day.",
    "Tokyo" := "Tokyo features temples, " + "cherry blossoms, and modern tech. "
      + "Best time: March-May. " + "Average cost: $180/day.",
    "Bali" := "Bali has beaches, temples, " + "and rice terraces. "
      + "Best time: April-October. " + "Average cost: $100/day."
  ]

  /** The `search_destinations` tool. */
  function SearchDestinations(destination: string): (r: string)
    ensures r == TravelTools.SearchDestinations(destination)
  {
    Lists.MapGet(Destinations, destination,
      "Information about " + destination + ": Beautiful destination with rich culture.")
  }

  /** The `check_availability` tool. */
  function CheckAvailability(destination: string, dates: string): (r: string)
    ensures r == TravelTools.CheckAvailability(destination, dates)
  {
    "Available for " + destination + " during " + dates
      + ": Hotels from $100/night, Flights from $500 roundtrip."
  }

  /** An agent made by `chat_client.as_agent(...)`. */
  datatype Participant = Participant(name: string, instructions: string, tools: seq<string>)

  const Researcher := Participant("researcher",
    "You are a travel researcher. " + "Research the destination and provide key attractions and costs.",
    ["search_destinations"])

  const BookingAgent := Participant("booking",
    "You are a booking specialist. " + "Review the research and check availability for hotels and flights.",
    ["check_availability"])

  const ItineraryPlanner := Participant("itinerary",
    "You are an itinerary planner. "
      + "Create a detailed 7-day travel plan based on the research and booking information.",
    [])

  /** `SequentialBuilder().participants([...])`, in the order given. */
  const Participants := [Researcher, BookingAgent, ItineraryPlanner]

  datatype Role = User | Assistant | Tool

  /** A `ChatMessage`: its role, its `author_name` (if set) and its text. */
  datatype ChatMessage = ChatMessage(role: Role, author: Option<string>, text: string)

  /** The string handed to `run_stream`. */
  function Request(trip: TravelTools.Trip): string {
    "Plan a trip to " + trip.destination + " from " + trip.dates + ", focusing on " + trip.preferences + "."
  }

  /** A participant's run: given the conversation so far, the messages it answers with. */
  type Agent = (Participant, seq<ChatMessage>) -> seq<ChatMessage>

  /** A participant's answer as recorded: every message without an author gets the
      participant's name, and nothing else about any message changes. */
  function Attributed(name: string, messages: seq<ChatMessage>): (r: seq<ChatMessage>)
    ensures |r| == |messages|
    ensures forall i | 0 <= i < |r| ::
      && r[i].role == messages[i].role && r[i].text == messages[i].text
      && r[i].author.Some?
      && (messages[i].author.Some? ==> r[i].author == messages[i].author)
      && (messages[i].author.None? ==> r[i].author == Some(name))
  {
    seq(|messages|, i requires 0 <= i < |messages| =>
      messages[i].(author := Some(messages[i].author.GetOr(name))))
  }

  /** The sequential workflow: each participant in turn answers the whole conversation so
      far, and its answer is appended. */
  function Converse(participants: seq<Participant>, agent: Agent, conversation: seq<ChatMessage>): (r: seq<ChatMessage>)
    ensures conversation <= r
    decreases |participants|
  {
    if |participants| == 0 then conversation
    else
      var p := participants[0];
      var next := conversation + Attributed(p.name, agent(p, conversation));
      Converse(participants[1..], agent, next)
  }

  /** The conversation the workflow ends with. */
  function Workflow(agent: Agent, trip: TravelTools.Trip): seq<ChatMessage> {
    Converse(Participants, agent, [ChatMessage(User, None, Request(trip))])
  }

  /** The shared conversation, turn by turn: the researcher sees only the request, the
      booking agent the request and the research, the itinerary planner all of it; the final
      conversation is the request followed by the three answers in participant order. */
  lemma WorkflowTurns(agent: Agent, trip: TravelTools.Trip)
    ensures var c0 := [ChatMessage(User, None, Request(trip))];
      var c1 := c0 + Attributed("researcher", agent(Researcher, c0));
      var c2 := c1 + Attributed("booking", agent(BookingAgent, c1));
      var c3 := c2 + Attributed("itinerary", agent(ItineraryPlanner, c2));
      Workflow(agent, trip) == c3
  {
    var c0 := [ChatMessage(User, None, Request(trip))];
    var c1 := c0 + Attributed("researcher", agent(Researcher, c0));
    var c2 := c1 + Attributed("booking", agent(BookingAgent, c1));
    var c3 := c2 + Attributed("itinerary", agent(ItineraryPlanner, c2));
    var rest1, rest2 := [BookingAgent, ItineraryPlanner], [ItineraryPlanner];
    assert Participants[1..] == rest1 && rest1[1..] == rest2 && rest2[1..] == [];
    assert Converse(rest2, agent, c2) == Converse([], agent, c3) == c3;
    assert Converse(rest1, agent, c1) == Converse(rest2, agent, c2);
    assert Converse(Participants, agent, c0) == Converse(rest1, agent, c1);
  }

  /** An event of `run_stream`: the `WorkflowOutputEvent` carrying the conversation, or any
      other kind. */
  datatype WorkflowEvent = OutputEvent(data: seq<ChatMessage>) | OtherEvent

  predicate IsOutput(e: WorkflowEvent) {
    e.OutputEvent?
  }

  /** `output_evt` after the loop: the last output event's conversation, if any. */
  function LastOutput(events: seq<WorkflowEvent>): Option<seq<ChatMessage>> {
    match Lists.LastIndex(events, IsOutput)
    case None => None
    case Some(i) => Some(events[i].data)
  }

  /** The `async for` loop keeping the latest output event. */
  method SelectOutputEvent(events: seq<WorkflowEvent>) returns (output: Option<seq<ChatMessage>>)
    ensures output == LastOutput(events)
  {
    output := None;
    for i := 0 to |events|
      invariant output == LastOutput(events[..i])
    {
      Lists.LastIndexSnoc(events[..i], events[i], IsOutput);
      assert events[..i + 1] == events[..i] + [events[i]];
      if events[i].OutputEvent? {
        output := Some(events[i].data);
      }
    }
    assert events[..|events|] == events;
  }

  predicate ByItinerary(m: ChatMessage) {
    m.author == Some("itinerary")
  }

  /** The text of the last message the itinerary planner wrote, if any. */
  function PlanText(messages: seq<ChatMessage>): Option<string> {
    match Lists.LastIndex(messages, ByItinerary)
    case None => None
    case Some(i) => Some(messages[i].text)
  }

  /** `for msg in reversed(messages)`, stopping at the first message by "itinerary". */
  method FindPlan(messages: seq<ChatMessage>) returns (text: Option<string>)
    ensures text == PlanText(messages)
  {
    var i := |messages|;
    while i > 0
      invariant 0 <= i <= |messages|
      invariant forall j | i <= j < |messages| :: !ByItinerary(messages[j])
    {
      i := i - 1;
      if messages[i].author == Some("itinerary") {
        return Some(messages[i].text);
      }
    }
    return None;
  }

  /** What the script prints after the header lines. */
  datatype Printed = Nothing | HeaderOnly | Plan(text: string)

  function Display(events: seq<WorkflowEvent>): Printed {
    match LastOutput(events)
    case None => Nothing
    case Some(messages) =>
      match PlanText(messages)
      case None => HeaderOnly
      case Some(text) => Plan(text)
  }

  /** The end of `main`: the output event is picked, then the plan inside it. */
  method ShowResult(events: seq<WorkflowEvent>) returns (printed: Printed)
    ensures printed == Display(events)
    ensures printed == Nothing <==> forall i | 0 <= i < |events| :: !events[i].OutputEvent?
  {
    var output := SelectOutputEvent(events);
    if output.None? {
      return Nothing;
    }
    var text := FindPlan(output.value);
    printed := if text.None? then HeaderOnly else Plan(text.value);
  }

  /** When the planner answers with at least one message, and the last one is not attributed
      to someone else, the printed plan is that message: nothing after it in the conversation
      was written by the planner. */
  lemma PrintsItineraryAnswer(agent: Agent, trip: TravelTools.Trip, before: seq<WorkflowEvent>, after: seq<WorkflowEvent>)
    requires forall i | 0 <= i < |after| :: !after[i].OutputEvent?
    requires var c0 := [ChatMessage(User, None, Request(trip))];
      var c1 := c0 + Attributed("researcher", agent(Researcher, c0));
      var c2 := c1 + Attributed("booking", agent(BookingAgent, c1));
      var answer := agent(ItineraryPlanner, c2);
      |answer| > 0 && answer[|answer| - 1].author in {None, Some("itinerary")}
    ensures var c0 := [ChatMessage(User, None, Request(trip))];
      var c1 := c0 + Attributed("researcher", agent(Researcher, c0));
      var c2 := c1 + Attributed("booking", agent(BookingAgent, c1));
      var answer := agent(ItineraryPlanner, c2);
      Display(before + [OutputEvent(Workflow(agent, trip))] + after) == Plan(answer[|answer| - 1].text)
  {
    var conversation := Workflow(agent, trip);
    WorkflowTurns(agent, trip);
    var events := before + [OutputEvent(conversation)] + after;
    var k := |before|;
    assert events[k] == OutputEvent(conversation);
    assert forall j | k < j < |events| :: events[j] == after[j - k - 1];
    var last := |conversation| - 1;
    assert ByItinerary(conversation[last]);
  }
}
