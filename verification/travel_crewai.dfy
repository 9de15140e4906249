/**
  The CrewAI travel planner: three role-playing agents and three tasks under
  `Process.sequential`. Each task's agent works on the task with the outputs of all earlier
  tasks as its context, and `kickoff()` returns the output of the last task.
 */
module CrewAiTravel {
  import Lists
  import Text
  import TravelTools

  const Destinations: map<string, string> := map[
    "Paris" := "Paris offers the Eiffel Tower, " + "Louvre Museum, and Notre-Dame. "
      + "Best time: April-June. " + "Average cost: $200/day.",
    "Tokyo" := "Tokyo features temples, " + "cherry blossoms, and modern tech. "
      + "Best time: March-May. " + "Average cost: $180/day.",
    "Bali" := "Bali has beaches, temples, " + "and rice terraces. "
      + "Best time: April-October. " + "Average cost: $100/day."
  ]

  /** The `search_destinations` tool. */
  function SearchDestinations(destination: string): (r: string)
    ensures r == TravelTools.SearchDestinations(destination)
  {
    Lists.MapGet(Destinations, destination,
      "Information about " + destination + ": Beautiful destination with rich culture.")
  }

  /** The `check_availability` tool. */
  function CheckAvailability(destination: string, dates: string): (r: string)
    ensures r == TravelTools.CheckAvailability(destination, dates)
  {
    "Available for " + destination + " during " + dates
      + ": Hotels from $100/night, Flights from $500 roundtrip."
  }

  /** A CrewAI `Agent`: role, goal, backstory and the names of its tools. */
  datatype CrewAgent = CrewAgent(role: string, goal: string, backstory: string, tools: seq<string>)

  const Researcher := CrewAgent("Travel Researcher",
    "Research destinations and provide " + "detailed travel information",
    "You are an experienced travel researcher " + "who knows the best places to visit "
      + "and optimal travel times.",
    ["search_destinations"])

  const BookingAgent := CrewAgent("Booking Specialist",
    "Find and recommend the best hotels and flights",
    "You are a booking specialist with access to the best deals "
      + "on accommodations and transportation.",
    ["check_availability"])

  const ItineraryPlanner := CrewAgent("Itinerary Planner",
    "Create detailed day-by-day travel itineraries",
    "You are an expert at creating well-structured, " + "enjoyable travel itineraries "
      + "that maximize the experience.",
    [])

  /** The crew's `agents`, in the order given. */
  const Agents := [Researcher, BookingAgent, ItineraryPlanner]

  /** A CrewAI `Task`. */
  datatype Task = Task(description: string, expectedOutput: string, agent: CrewAgent)

  function ResearchTask(trip: TravelTools.Trip): Task {
    Task("Research " + trip.destination
           + " and provide key attractions, " + "best time to visit, and estimated costs. " + "Focus on "
           + trip.preferences + ".",
         "Detailed research report " + "with attractions and recommendations",
         Researcher)
  }

  function BookingTask(trip: TravelTools.Trip): Task {
    Task("Check availability and recommend " + "hotels and flights for " + trip.destination
           + " during " + trip.dates + ".",
         "Hotel and flight recommendations " + "with pricing",
         BookingAgent)
  }

  function ItineraryTask(trip: TravelTools.Trip): Task {
    Task("Create a detailed 7-day " + "itinerary for " + trip.destination
           + " incorporating the research findings " + "and booking recommendations. " + "Focus on "
           + trip.preferences + ".",
         "Complete day-by-day itinerary " + "with activities and logistics",
         ItineraryPlanner)
  }

  /** The crew's `tasks`, in the order given, which is the order they run in. */
  function Tasks(trip: TravelTools.Trip): (tasks: seq<Task>)
    ensures |tasks| == 3
    ensures tasks[0].agent == Researcher && tasks[1].agent == BookingAgent
    ensures tasks[2].agent == ItineraryPlanner
    ensures tasks[0].agent.tools == ["search_destinations"] && tasks[1].agent.tools == ["check_availability"]
    ensures tasks[2].agent.tools == []
  {
    [ResearchTask(trip), BookingTask(trip), ItineraryTask(trip)]
  }

  /** An agent carrying out a task, given the outputs of the tasks before it. */
  type Executor = (Task, seq<string>) -> string

  /** The sequential process from the point where the outputs `done` exist: every task in
      turn, each given everything produced before it. */
  function RunTasks(tasks: seq<Task>, execute: Executor, done: seq<string>): (outputs: seq<string>)
    ensures |outputs| == |done| + |tasks|
    ensures done <= outputs
    ensures forall i | 0 <= i < |tasks| ::
      outputs[|done| + i] == execute(tasks[i], outputs[..|done| + i])
    decreases |tasks|
  {
    if |tasks| == 0 then done
    else
      var next := done + [execute(tasks[0], done)];
      var outputs := RunTasks(tasks[1..], execute, next);
      assert outputs[..|done|] == done;
      assert forall i | 1 <= i < |tasks| :: tasks[i] == tasks[1..][i - 1];
      outputs
  }

  /** The outputs of a sequential crew are determined by the tasks and their agents: any
      list in which each output is what its task's agent produces from the earlier ones is
      the one the process builds. */
  lemma {:induction false} OutputsDetermined(tasks: seq<Task>, execute: Executor, outputs: seq<string>)
    requires |outputs| == |tasks|
    requires forall i | 0 <= i < |tasks| :: outputs[i] == execute(tasks[i], outputs[..i])
    ensures outputs == RunTasks(tasks, execute, [])
  {
    var built := RunTasks(tasks, execute, []);
    var k := 0;
    while k < |tasks|
      invariant 0 <= k <= |tasks|
      invariant outputs[..k] == built[..k]
    {
      assert built[k] == execute(tasks[k], built[..k]);
      assert outputs[..k + 1] == outputs[..k] + [outputs[k]];
      assert built[..k + 1] == built[..k] + [built[k]];
      k := k + 1;
    }
    assert outputs == outputs[..|tasks|] && built == built[..|tasks|];
  }

  /** `crew.kickoff()`: the result is the last task's output. */
  function Kickoff(trip: TravelTools.Trip, execute: Executor): (result: string)
    ensures var research := execute(ResearchTask(trip), []);
      var booking := execute(BookingTask(trip), [research]);
      result == execute(ItineraryTask(trip), [research, booking])
  {
    var tasks := Tasks(trip);
    var outputs := RunTasks(tasks, execute, []);
    assert outputs[0] == execute(tasks[0], outputs[..0]) && outputs[..0] == [];
    assert outputs[1] == execute(tasks[1], outputs[..1]) && outputs[..1] == [outputs[0]];
    assert outputs[2] == execute(tasks[2], outputs[..2]) && outputs[..2] == [outputs[0], outputs[1]];
    outputs[2]
  }

  /** The research task names the destination and the preferences. */
  lemma ResearchMentionsTrip(trip: TravelTools.Trip)
    ensures Text.IsSubstring(trip.destination, ResearchTask(trip).description)
    ensures Text.IsSubstring(trip.preferences, ResearchTask(trip).description)
  {
    var d, p := trip.destination, trip.preferences;
    var lead, middle := "Research ", " and provide key attractions, " + "best time to visit, and estimated costs. " + "Focus on ";
    Text.SubstringOfConcat(lead, d, middle + p + ".");
    Text.SubstringOfConcat(lead + d + middle, p, ".");
    assert lead + d + (middle + p + ".") == ResearchTask(trip).description;
    assert lead + d + middle + p + "." == ResearchTask(trip).description;
  }

  /** The booking task names the destination and the dates. */
  lemma BookingMentionsTrip(trip: TravelTools.Trip)
    ensures Text.IsSubstring(trip.destination, BookingTask(trip).description)
    ensures Text.IsSubstring(trip.dates, BookingTask(trip).description)
  {
    var d, t := trip.destination, trip.dates;
    var lead := "Check availability and recommend " + "hotels and flights for ";
    Text.SubstringOfConcat(lead, d, " during " + t + ".");
    Text.SubstringOfConcat(lead + d + " during ", t, ".");
    assert lead + d + (" during " + t + ".") == BookingTask(trip).description;
  }

  /** The itinerary task names the destination and the preferences. */
  lemma ItineraryMentionsTrip(trip: TravelTools.Trip)
    ensures Text.IsSubstring(trip.destination, ItineraryTask(trip).description)
    ensures Text.IsSubstring(trip.preferences, ItineraryTask(trip).description)
  {
    var d, p := trip.destination, trip.preferences;
    var lead := "Create a detailed 7-day " + "itinerary for ";
    var middle := " incorporating the research findings " + "and booking recommendations. " + "Focus on ";
    Text.SubstringOfConcat(lead, d, middle + p + ".");
    Text.SubstringOfConcat(lead + d + middle, p, ".");
    assert lead + d + (middle + p + ".") == ItineraryTask(trip).description;
    assert lead + d + middle + p + "." == ItineraryTask(trip).description;
  }
}
