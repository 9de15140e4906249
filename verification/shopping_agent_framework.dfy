/**
  The Microsoft Agent Framework shopping assistant: each turn sends a chat completion request
  of two messages, a system message holding the rendered profile and the customer's query,
  keeps one {user, assistant} record per turn, and appends "budget-conscious" to the stored
  profile on every budget query.
 */
module AgentFrameworkShopping {
  import Lists
  import Text
  import opened Wrappers
  import opened ProfileStore

  datatype Role = System | User

  /** A `{"role": ..., "content": ...}` message of the request. */
  datatype ChatMessage = ChatMessage(role: Role, content: string)

  /** `client.chat.completions.create(...)`: the reply's content for a list of messages, or
      the exception the call raises. */
  type Client<!E> = seq<ChatMessage> -> Result<string, E>

  const Intro := "You are a TechStore shopping assistant. " + "Customer profile:\n"

  /** The request of one turn. */
  function Messages(profile: string, query: string): (m: seq<ChatMessage>)
    ensures |m| == 2 && m[0].role == System && m[1] == ChatMessage(User, query)
    ensures Text.IsSubstring(profile, m[0].content)
  {
    Text.SubstringOfConcat(Intro, profile, "");
    assert Intro + profile + "" == Intro + profile;
    [ChatMessage(System, Intro + profile), ChatMessage(User, query)]
  }

  /** One record of the short-term memory. */
  datatype Exchange = Exchange(user: string, assistant: string)

  /** The script's state between turns: the profile in memory, the file, and the short-term
      memory. */
  datatype Session = Session(profile: Profile, file: ProfileFile, memory: seq<Exchange>)

  function Start(file: ProfileFile): (s: Session)
    ensures Load(s.file) == s.profile
    ensures s.memory == []
  {
    Session(Load(file), file, [])
  }

  /** One pass of the loop: rendering the profile raises on an empty budget history, and the
      completion call may raise; only then is the exchange recorded and the preference
      stored. */
  function Turn<E>(s: Session, query: string, client: Client<E>): (r: Result<Session, TurnError<E>>)
    ensures r == Failure(RenderFailed(EmptyBudgetHistory)) <==> |s.profile.budgetHistory| == 0
    ensures |s.profile.budgetHistory| > 0 ==>
      var answer := client(Messages(Format(s.profile).value, query));
      && (r.Success? <==> answer.Success?)
      && (answer.Failure? ==> r == Failure(ModelFailed(answer.error)))
  {
    match Format(s.profile)
    case Failure(e) => Failure(RenderFailed(e))
    case Success(profile) =>
      match client(Messages(profile, query))
      case Failure(e) => Failure(ModelFailed(e))
      case Success(reply) =>
        var (p, file) := Remember(s.profile, s.file, query, Append);
        Success(Session(p, file, s.memory + [Exchange(query, reply)]))
  }

  /** The loop over the queries, stopping at the first turn that raises. A non-empty
      conversation fails on its first turn when the budget history is empty; otherwise only
      the completion call can stop it, so with a client that always answers it succeeds
      exactly when the profile can be rendered. On success the short-term memory gains exactly
      one record per turn, and the long-term memory evolves as the queries dictate. */
  function Converse<E>(s: Session, queries: seq<string>, client: Client<E>): (r: Result<Session, TurnError<E>>)
    ensures |queries| > 0 && |s.profile.budgetHistory| == 0 ==> r == Failure(RenderFailed(EmptyBudgetHistory))
    ensures r.Failure? ==> |queries| > 0 && (r.error.RenderFailed? ==> |s.profile.budgetHistory| == 0)
    ensures (forall m :: client(m).Success?) ==> (r.Success? <==> |queries| == 0 || |s.profile.budgetHistory| > 0)
    ensures r.Success? ==>
      && |r.value.memory| == |s.memory| + |queries| && s.memory <= r.value.memory
      && (r.value.profile, r.value.file) == RememberAll(s.profile, s.file, queries, Append)
    decreases |queries|
  {
    if |queries| == 0 then Success(s)
    else
      var init, last := queries[..|queries| - 1], queries[|queries| - 1];
      match Converse(s, init, client)
      case Failure(e) => Failure(e)
      case Success(mid) =>
        RememberAllSnoc(s.profile, s.file, init, last, Append);
        assert queries == init + [last];
        Turn(mid, last, client)
  }

  /** `main`: the demo queries against whatever profile the file holds. */
  function Main<E>(file: ProfileFile, client: Client<E>): Result<Session, TurnError<E>> {
    Converse(Start(file), DemoQueries, client)
  }

  /** Peeling the last query off the loop. */
  lemma ConverseSnoc<E>(s: Session, init: seq<string>, last: string, client: Client<E>)
    ensures Converse(s, init + [last], client) ==
      match Converse(s, init, client)
      case Failure(e) => Failure(e)
      case Success(mid) => Turn(mid, last, client)
  {
    assert (init + [last])[..|init|] == init;
  }

  /** Turn `i`'s record: the query, and the reply to a request rendering the profile as the
      earlier turns left it. */
  lemma {:induction false} ExchangeOfTurn<E>(s: Session, queries: seq<string>, client: Client<E>, i: nat)
    requires Converse(s, queries, client).Success? && i < |queries|
    ensures var before := RememberAll(s.profile, s.file, queries[..i], Append).0;
      && Format(before).Success?
      && client(Messages(Format(before).value, queries[i])).Success?
      && Converse(s, queries, client).value.memory[|s.memory| + i]
         == Exchange(queries[i], client(Messages(Format(before).value, queries[i])).value)
    decreases |queries|
  {
    var init, last := queries[..|queries| - 1], queries[|queries| - 1];
    assert queries == init + [last];
    ConverseSnoc(s, init, last, client);
    var mid := Converse(s, init, client).value;
    var r := Converse(s, queries, client).value;
    assert r == Turn(mid, last, client).value;
    if i < |init| {
      ExchangeOfTurn(s, init, client, i);
      assert queries[..i] == init[..i] && queries[i] == init[i];
      assert r.memory[|s.memory| + i] == mid.memory[|s.memory| + i];
    } else {
      assert queries[..i] == init;
    }
  }

  /** From the turn after a budget query on, the system message shows "budget-conscious". */
  lemma LaterTurnsSeeBudget<E>(s: Session, queries: seq<string>, client: Client<E>, k: nat, i: nat)
    requires Converse(s, queries, client).Success?
    requires k < i < |queries| && BudgetTrigger(queries[k])
    ensures var before := RememberAll(s.profile, s.file, queries[..i], Append).0;
      && Format(before).Success?
      && Text.IsSubstring(BudgetPreference, Messages(Format(before).value, queries[i])[0].content)
  {
    var before := RememberAll(s.profile, s.file, queries[..i], Append).0;
    assert queries[..i][k] == queries[k];
    RememberedAfterTrigger(s.profile, s.file, queries[..i], Append, k);
    var shown := Format(before).value;
    Text.SubstringTransitive(BudgetPreference, shown, Messages(shown, queries[i])[0].content);
  }

  /** After a session, the file holds the profile in memory, only the preferences changed,
      and each budget query left one more "budget-conscious" behind, duplicates included. */
  lemma SessionPersists<E>(s: Session, queries: seq<string>, client: Client<E>)
    requires Load(s.file) == s.profile && Converse(s, queries, client).Success?
    ensures var r := Converse(s, queries, client).value;
      && Load(r.file) == r.profile
      && r.profile == s.profile.(preferences := r.profile.preferences)
      && Lists.Count(r.profile.preferences, BudgetPreference)
         == Lists.Count(s.profile.preferences, BudgetPreference) + Triggers(queries)
  {
    RememberAllPersists(s.profile, s.file, queries, Append);
    AppendAllCounts(s.profile, s.file, queries);
  }
}
