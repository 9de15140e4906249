/**
  The CrewAI shopping assistant: each turn runs a one-task crew whose description holds the
  last three earlier queries and the current one, while the profile reaches the agent through
  the `get_customer_profile` tool. The query joins the buffer only after the crew has run, and
  every budget query appends "budget-conscious" to the stored profile.
 */
module CrewAiShopping {
  import Lists
  import Text
  import opened Wrappers
  import opened ProfileStore

  /** How many earlier queries the task description quotes. */
  const Window := 3

  /** One line of the context: `Turn j: Customer: q`. */
  function ContextLine(j: nat, query: string): string {
    "Turn " + Text.NatToString(j) + ": Customer: " + query
  }

  /** The lines for a window of queries, numbered from 1. */
  function ContextLines(window: seq<string>): (lines: seq<string>)
    ensures |lines| == |window|
    ensures forall j | 0 <= j < |window| :: lines[j] == ContextLine(j + 1, window[j])
  {
    seq(|window|, j requires 0 <= j < |window| => ContextLine(j + 1, window[j]))
  }

  /** `"\n".join(...)` over the last `Window` queries of the buffer. */
  function Context(buffer: seq<string>): string {
    Text.Join("\n", ContextLines(Lists.Tail(buffer, Window)))
  }

  function Description(context: string, query: string): string {
    "Previous conversation:\n" + context + "\n\nCurrent: " + query
      + "\n\nUse get_customer_profile tool " + "for personalized help."
  }

  /** What the shopping agent works with in one turn: the buffer and query its task
      description is built from, and what the profile tool would answer (its error, if the
      budget history is empty). */
  datatype Request = Request(buffer: seq<string>, query: string, profile: Result<string, ProfileError>)

  /** The task description of a request. */
  function TaskDescription(r: Request): string {
    Description(Context(r.buffer), r.query)
  }

  /** The script's state between turns: the profile in memory, the file, the conversation
      buffer, and the requests the agent has been given. */
  datatype Session = Session(profile: Profile, file: ProfileFile, buffer: seq<string>, requests: seq<Request>)

  function Start(file: ProfileFile): (s: Session)
    ensures Load(s.file) == s.profile
    ensures s.buffer == [] && s.requests == []
  {
    Session(Load(file), file, [], [])
  }

  /** `Crew(...).kickoff()` on the one task built for a request: the answer, which is only
      printed, or the exception the run raises. */
  type Crew<!E> = Request -> Result<string, E>

  /** One pass of the loop: a failing profile tool does not raise (the crew reports it to the
      agent), so only `kickoff` can end the script; after it the query joins the buffer and
      the preference is stored. */
  function Turn<E>(s: Session, query: string, crew: Crew<E>): (r: Result<Session, E>)
    ensures r.Success? <==> crew(Request(s.buffer, query, Format(s.profile))).Success?
    ensures r.Failure? ==> crew(Request(s.buffer, query, Format(s.profile))) == Failure(r.error)
  {
    var request := Request(s.buffer, query, Format(s.profile));
    match crew(request)
    case Failure(e) => Failure(e)
    case Success(_) =>
      var (p, file) := Remember(s.profile, s.file, query, Append);
      Success(Session(p, file, s.buffer + [query], s.requests + [request]))
  }

  /** The loop over the queries, stopping at the first turn whose crew raises: with a crew that
      always answers no turn fails, whatever the profile. On success the buffer ends with the
      queries in order, there is one request per turn, and the long-term memory evolves as
      the queries dictate. */
  function Converse<E>(s: Session, queries: seq<string>, crew: Crew<E>): (r: Result<Session, E>)
    ensures r.Failure? ==> |queries| > 0
    ensures (forall q :: crew(q).Success?) ==> r.Success?
    ensures r.Success? ==>
      && r.value.buffer == s.buffer + queries
      && |r.value.requests| == |s.requests| + |queries| && s.requests <= r.value.requests
      && (r.value.profile, r.value.file) == RememberAll(s.profile, s.file, queries, Append)
    decreases |queries|
  {
    if |queries| == 0 then Success(s)
    else
      var init, last := queries[..|queries| - 1], queries[|queries| - 1];
      match Converse(s, init, crew)
      case Failure(e) => Failure(e)
      case Success(mid) =>
        RememberAllSnoc(s.profile, s.file, init, last, Append);
        assert queries == init + [last];
        Turn(mid, last, crew)
  }

  /** `main`: the demo queries against whatever profile the file holds. */
  function Main<E>(file: ProfileFile, crew: Crew<E>): Result<Session, E> {
    Converse(Start(file), DemoQueries, crew)
  }

  /** Peeling the last query off the loop. */
  lemma ConverseSnoc<E>(s: Session, init: seq<string>, last: string, crew: Crew<E>)
    ensures Converse(s, init + [last], crew) ==
      match Converse(s, init, crew)
      case Failure(e) => Failure(e)
      case Success(mid) => Turn(mid, last, crew)
  {
    assert (init + [last])[..|init|] == init;
  }

  /** Turn `i`'s request: the description quotes the last `Window` queries before it and the
      profile tool renders the profile as the earlier turns left it. */
  lemma {:induction false} RequestOfTurn<E>(s: Session, queries: seq<string>, crew: Crew<E>, i: nat)
    requires Converse(s, queries, crew).Success? && i < |queries|
    ensures Converse(s, queries, crew).value.requests[|s.requests| + i] ==
      Request(s.buffer + queries[..i], queries[i], Format(RememberAll(s.profile, s.file, queries[..i], Append).0))
    decreases |queries|
  {
    var init, last := queries[..|queries| - 1], queries[|queries| - 1];
    assert queries == init + [last];
    ConverseSnoc(s, init, last, crew);
    if i < |init| {
      RequestOfTurn(s, init, crew, i);
      assert queries[..i] == init[..i] && queries[i] == init[i];
    } else {
      assert queries[..i] == init;
    }
  }

  /** The window never reaches the current query: it is the (at most) `Window` entries that
      end just before it. */
  lemma WindowBeforeCurrent(s: Session, queries: seq<string>, i: nat)
    requires i < |queries|
    ensures var all := s.buffer + queries;
      var window := Lists.Tail(s.buffer + queries[..i], Window);
      && |window| <= Window
      && window == all[|s.buffer| + i - |window|..|s.buffer| + i]
  {
    assert s.buffer + queries[..i] == (s.buffer + queries)[..|s.buffer| + i];
  }

  /** Each query of the window appears in the description, behind its turn number. */
  lemma DescriptionQuotesWindow(buffer: seq<string>, query: string, j: nat)
    requires j < |Lists.Tail(buffer, Window)|
    ensures var window := Lists.Tail(buffer, Window);
      Text.IsSubstring(ContextLine(j + 1, window[j]), Description(Context(buffer), query))
      && Text.IsSubstring(window[j], Description(Context(buffer), query))
      && Text.IsSubstring(query, Description(Context(buffer), query))
  {
    var window := Lists.Tail(buffer, Window);
    var lines := ContextLines(window);
    var context := Context(buffer);
    var lead, rest := "Previous conversation:\n", "\n\nCurrent: " + query
      + "\n\nUse get_customer_profile tool " + "for personalized help.";
    var description := Description(context, query);
    assert description == lead + context + rest;
    Text.JoinContainsParts("\n", lines, j);
    Text.SubstringExtend(lines[j], lead, context, rest);
    Text.SubstringOfConcat("Turn " + Text.NatToString(j + 1) + ": Customer: ", window[j], "");
    assert lines[j] == "Turn " + Text.NatToString(j + 1) + ": Customer: " + window[j] + "";
    Text.SubstringTransitive(window[j], lines[j], description);
    var head := lead + context + "\n\nCurrent: ";
    var tail := "\n\nUse get_customer_profile tool " + "for personalized help.";
    assert description == head + query + tail;
    Text.SubstringOfConcat(head, query, tail);
  }

  /** After a session, the file holds the profile in memory, only the preferences changed,
      and each budget query left one more "budget-conscious" behind, duplicates included. */
  lemma SessionPersists<E>(s: Session, queries: seq<string>, crew: Crew<E>)
    requires Load(s.file) == s.profile && Converse(s, queries, crew).Success?
    ensures var r := Converse(s, queries, crew).value;
      && Load(r.file) == r.profile
      && r.profile == s.profile.(preferences := r.profile.preferences)
      && Lists.Count(r.profile.preferences, BudgetPreference)
         == Lists.Count(s.profile.preferences, BudgetPreference) + Triggers(queries)
  {
    RememberAllPersists(s.profile, s.file, queries, Append);
    AppendAllCounts(s.profile, s.file, queries);
  }
}
