/**
  The Google ADK shopping assistant: each turn sends Gemini one prompt holding the rendered
  profile, the last two earlier queries joined by " / ", and the current query. The query
  joins the buffer after the call, and every budget query appends "budget-conscious" to the
  stored profile.
 */
module AdkShopping {
  import Lists
  import Text
  import opened Wrappers
  import opened ProfileStore

  /** How many earlier queries the prompt quotes. */
  const Window := 2

  const Intro := "You are a TechStore shopping assistant.\n\n" + "Customer profile:\n"

  const Closing := "\n\nResponse:"

  /** The part of the prompt between the profile and the current query: the recent queries
      joined by " / ". */
  function Recent(buffer: seq<string>): string {
    "\n\nRecent conversation: " + Text.Join(" / ", Lists.Tail(buffer, Window)) + "\n\nCustomer: "
  }

  /** The prompt of one turn. */
  function Prompt(profile: string, buffer: seq<string>, query: string): string {
    Intro + profile + Recent(buffer) + query + Closing
  }

  /** What one prompt is made of: the rendered profile, the buffer as it stands before the
      turn, and the current query. */
  datatype Ask = Ask(profile: string, buffer: seq<string>, query: string)

  function Render(a: Ask): string {
    Prompt(a.profile, a.buffer, a.query)
  }

  /** The script's state between turns: the profile in memory, the file, the conversation
      buffer, and what each prompt sent to the model was made of. The model's answers are only
      printed. */
  datatype Session = Session(profile: Profile, file: ProfileFile, buffer: seq<string>, prompts: seq<Ask>)

  function Start(file: ProfileFile): (s: Session)
    ensures Load(s.file) == s.profile
    ensures s.buffer == [] && s.prompts == []
  {
    Session(Load(file), file, [], [])
  }

  /** `model.generate_content(prompt).text` for the prompt `Render(a)`: the answer, which is
      only printed, or the exception the call (or reading `.text` of a blocked answer)
      raises. */
  type Model<!E> = Ask -> Result<string, E>

  /** One pass of the loop: rendering the profile raises on an empty budget history, and the
      model call may raise; only then does the query join the buffer and the preference get
      stored. */
  function Turn<E>(s: Session, query: string, model: Model<E>): (r: Result<Session, TurnError<E>>)
    ensures r == Failure(RenderFailed(EmptyBudgetHistory)) <==> |s.profile.budgetHistory| == 0
    ensures |s.profile.budgetHistory| > 0 ==>
      var answer := model(Ask(Format(s.profile).value, s.buffer, query));
      && (r.Success? <==> answer.Success?)
      && (answer.Failure? ==> r == Failure(ModelFailed(answer.error)))
  {
    match Format(s.profile)
    case Failure(e) => Failure(RenderFailed(e))
    case Success(profile) =>
      var ask := Ask(profile, s.buffer, query);
      match model(ask)
      case Failure(e) => Failure(ModelFailed(e))
      case Success(_) =>
        var (p, file) := Remember(s.profile, s.file, query, Append);
        Success(Session(p, file, s.buffer + [query], s.prompts + [ask]))
  }

  /** The loop over the queries, stopping at the first turn that raises. A non-empty
      conversation fails on its first turn when the budget history is empty; otherwise only
      the model can stop it, so with a model that always answers it succeeds exactly when the
      profile can be rendered. On success the buffer ends with the queries in order, there is
      one prompt per turn, and the long-term memory evolves as the queries dictate. */
  function Converse<E>(s: Session, queries: seq<string>, model: Model<E>): (r: Result<Session, TurnError<E>>)
    ensures |queries| > 0 && |s.profile.budgetHistory| == 0 ==> r == Failure(RenderFailed(EmptyBudgetHistory))
    ensures r.Failure? ==> |queries| > 0 && (r.error.RenderFailed? ==> |s.profile.budgetHistory| == 0)
    ensures (forall m :: model(m).Success?) ==> (r.Success? <==> |queries| == 0 || |s.profile.budgetHistory| > 0)
    ensures r.Success? ==>
      && r.value.buffer == s.buffer + queries
      && |r.value.prompts| == |s.prompts| + |queries| && s.prompts <= r.value.prompts
      && (r.value.profile, r.value.file) == RememberAll(s.profile, s.file, queries, Append)
    decreases |queries|
  {
    if |queries| == 0 then Success(s)
    else
      var init, last := queries[..|queries| - 1], queries[|queries| - 1];
      match Converse(s, init, model)
      case Failure(e) => Failure(e)
      case Success(mid) =>
        RememberAllSnoc(s.profile, s.file, init, last, Append);
        assert queries == init + [last];
        Turn(mid, last, model)
  }

  /** `main`: the demo queries against whatever profile the file holds. */
  function Main<E>(file: ProfileFile, model: Model<E>): Result<Session, TurnError<E>> {
    Converse(Start(file), DemoQueries, model)
  }

  /** Peeling the last query off the loop. */
  lemma ConverseSnoc<E>(s: Session, init: seq<string>, last: string, model: Model<E>)
    ensures Converse(s, init + [last], model) ==
      match Converse(s, init, model)
      case Failure(e) => Failure(e)
      case Success(mid) => Turn(mid, last, model)
  {
    assert (init + [last])[..|init|] == init;
  }

  /** Turn `i`'s prompt: the profile as the earlier turns left it, the buffer as it stood
      before the turn (so the current query is not among the recent ones), and the query. */
  lemma {:induction false} PromptOfTurn<E>(s: Session, queries: seq<string>, model: Model<E>, i: nat)
    requires Converse(s, queries, model).Success? && i < |queries|
    ensures var before := RememberAll(s.profile, s.file, queries[..i], Append).0;
      && Format(before).Success?
      && Converse(s, queries, model).value.prompts[|s.prompts| + i]
         == Ask(Format(before).value, s.buffer + queries[..i], queries[i])
    decreases |queries|
  {
    var init, last := queries[..|queries| - 1], queries[|queries| - 1];
    assert queries == init + [last];
    ConverseSnoc(s, init, last, model);
    var mid := Converse(s, init, model).value;
    var r := Converse(s, queries, model).value;
    assert r == Turn(mid, last, model).value;
    if i < |init| {
      PromptOfTurn(s, init, model, i);
      assert queries[..i] == init[..i] && queries[i] == init[i];
      assert r.prompts[|s.prompts| + i] == mid.prompts[|s.prompts| + i];
    } else {
      assert queries[..i] == init;
    }
  }

  /** The prompt shows the rendered profile and the current query. */
  lemma PromptShows(a: Ask)
    ensures Text.IsSubstring(a.profile, Render(a))
    ensures Text.IsSubstring(a.query, Render(a))
  {
    Text.PiecesOfConcat(Intro, a.profile, Recent(a.buffer), a.query, Closing);
  }

  /** The prompt shows each of the (at most two) recent queries. */
  lemma PromptShowsRecent(a: Ask, j: nat)
    requires j < |Lists.Tail(a.buffer, Window)|
    ensures Text.IsSubstring(Lists.Tail(a.buffer, Window)[j], Render(a))
  {
    var window := Lists.Tail(a.buffer, Window);
    Text.JoinContainsParts(" / ", window, j);
    Text.SubstringExtend(window[j], "\n\nRecent conversation: ", Text.Join(" / ", window), "\n\nCustomer: ");
    Text.PiecesOfConcat(Intro, a.profile, Recent(a.buffer), a.query, Closing);
    Text.SubstringTransitive(window[j], Recent(a.buffer), Render(a));
  }

  /** After a session, the file holds the profile in memory, only the preferences changed,
      and each budget query left one more "budget-conscious" behind, duplicates included. */
  lemma SessionPersists<E>(s: Session, queries: seq<string>, model: Model<E>)
    requires Load(s.file) == s.profile && Converse(s, queries, model).Success?
    ensures var r := Converse(s, queries, model).value;
      && Load(r.file) == r.profile
      && r.profile == s.profile.(preferences := r.profile.preferences)
      && Lists.Count(r.profile.preferences, BudgetPreference)
         == Lists.Count(s.profile.preferences, BudgetPreference) + Triggers(queries)
  {
    RememberAllPersists(s.profile, s.file, queries, Append);
    AppendAllCounts(s.profile, s.file, queries);
  }
}
