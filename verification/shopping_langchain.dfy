/**
  The LangChain shopping assistant: each turn renders the stored profile into the system
  message of a prompt-LLM chain, records the exchange in a short-term message buffer, and
  stores "budget-conscious" (once) when the query mentions a budget under $1000.
 */
module LangChainShopping {
  import opened Wrappers
  import Lists
  import Text
  import opened ProfileStore

  /** A `HumanMessage` or an `AIMessage` of the short-term memory. */
  datatype Message = HumanMessage(content: string) | AiMessage(content: string)

  /** `assistant_prompt | llm | StrOutputParser()`: the answer to a system message and a
      human message, or the exception `invoke` raises. */
  type Chain<!E> = (string, string) -> Result<string, E>

  /** The system message of `assistant_prompt` with the rendered profile filled in. */
  function SystemMessage(profile: string): string {
    "You are a TechStore shopping assistant. " + "Customer profile:\n" + profile
      + "\n\nUse this info to provide " + "personalized recommendations."
  }

  /** The rendered profile sits verbatim inside the system message. */
  lemma SystemMessageShows(needle: string, profile: string, message: string)
    requires Text.IsSubstring(needle, profile) && message == SystemMessage(profile)
    ensures Text.IsSubstring(needle, message)
  {
    var lead := "You are a TechStore shopping assistant. " + "Customer profile:\n";
    var rest := "\n\nUse this info to provide " + "personalized recommendations.";
    assert SystemMessage(profile) == lead + profile + rest;
    Text.SubstringExtend(needle, lead, profile, rest);
  }

  /** What the script keeps between turns: the profile in memory, the profile file, the
      short-term memory, and the system messages the chain has been given so far. */
  datatype Session = Session(profile: Profile, file: ProfileFile, memory: seq<Message>, prompts: seq<string>)

  /** The state before the first turn: the profile as loaded, nothing said yet. */
  function Start(file: ProfileFile): (s: Session)
    ensures Load(s.file) == s.profile
    ensures s.memory == [] && s.prompts == []
  {
    Session(Load(file), file, [], [])
  }

  /** One pass of the loop: render the profile (which raises on an empty budget history),
      ask the chain (which may raise), remember both messages, then store the preference if
      asked for. */
  function Turn<E>(s: Session, query: string, chain: Chain<E>): (r: Result<Session, TurnError<E>>)
    ensures r == Failure(RenderFailed(EmptyBudgetHistory)) <==> |s.profile.budgetHistory| == 0
    ensures |s.profile.budgetHistory| > 0 ==>
      var answer := chain(SystemMessage(Format(s.profile).value), query);
      && (r.Success? <==> answer.Success?)
      && (answer.Failure? ==> r == Failure(ModelFailed(answer.error)))
  {
    match Format(s.profile)
    case Failure(e) => Failure(RenderFailed(e))
    case Success(profile) =>
      var system := SystemMessage(profile);
      match chain(system, query)
      case Failure(e) => Failure(ModelFailed(e))
      case Success(response) =>
        var (p, file) := Remember(s.profile, s.file, query, Store);
        Success(Session(p, file, s.memory + [HumanMessage(query), AiMessage(response)], s.prompts + [system]))
  }

  /** The loop over the queries, stopping at the first turn that raises. A non-empty
      conversation fails on its first turn when the budget history is empty; otherwise only
      the chain can stop it, so with a chain that always answers it succeeds exactly when the
      profile can be rendered. On success the long-term memory evolves as the queries dictate,
      and each turn adds two messages to the short-term memory and one system message to those
      the chain was given. */
  function Converse<E>(s: Session, queries: seq<string>, chain: Chain<E>): (r: Result<Session, TurnError<E>>)
    ensures |queries| > 0 && |s.profile.budgetHistory| == 0 ==> r == Failure(RenderFailed(EmptyBudgetHistory))
    ensures r.Failure? ==> |queries| > 0 && (r.error.RenderFailed? ==> |s.profile.budgetHistory| == 0)
    ensures (forall m, q :: chain(m, q).Success?) ==> (r.Success? <==> |queries| == 0 || |s.profile.budgetHistory| > 0)
    ensures r.Success? ==> (r.value.profile, r.value.file) == RememberAll(s.profile, s.file, queries, Store)
    ensures r.Success? ==>
      && |r.value.memory| == |s.memory| + 2 * |queries| && s.memory <= r.value.memory
      && |r.value.prompts| == |s.prompts| + |queries| && s.prompts <= r.value.prompts
    decreases |queries|
  {
    if |queries| == 0 then Success(s)
    else
      var init, last := queries[..|queries| - 1], queries[|queries| - 1];
      match Converse(s, init, chain)
      case Failure(e) => Failure(e)
      case Success(mid) =>
        RememberAllSnoc(s.profile, s.file, init, last, Store);
        assert queries == init + [last];
        Turn(mid, last, chain)
  }

  /** Peeling the last query off the loop. */
  lemma ConverseSnoc<E>(s: Session, init: seq<string>, last: string, chain: Chain<E>)
    ensures Converse(s, init + [last], chain) ==
      match Converse(s, init, chain)
      case Failure(e) => Failure(e)
      case Success(mid) => Turn(mid, last, chain)
  {
    assert (init + [last])[..|init|] == init;
  }

  /** Turn `i` of a conversation: short-term memory holds the customer's query and then the
      chain's answer to it, and the system message renders the profile as the turns before
      it left it. */
  lemma {:induction false} TurnRecorded<E>(s: Session, queries: seq<string>, chain: Chain<E>, i: nat)
    requires Converse(s, queries, chain).Success? && i < |queries|
    ensures var r := Converse(s, queries, chain).value;
      var before := RememberAll(s.profile, s.file, queries[..i], Store).0;
      && r.memory[|s.memory| + 2 * i] == HumanMessage(queries[i])
      && chain(r.prompts[|s.prompts| + i], queries[i]).Success?
      && r.memory[|s.memory| + 2 * i + 1] == AiMessage(chain(r.prompts[|s.prompts| + i], queries[i]).value)
      && Format(before).Success? && r.prompts[|s.prompts| + i] == SystemMessage(Format(before).value)
    decreases |queries|
  {
    var init, last := queries[..|queries| - 1], queries[|queries| - 1];
    assert queries == init + [last];
    ConverseSnoc(s, init, last, chain);
    var mid := Converse(s, init, chain).value;
    var r := Converse(s, queries, chain).value;
    assert r == Turn(mid, last, chain).value;
    if i < |init| {
      TurnRecorded(s, init, chain, i);
      assert queries[..i] == init[..i] && queries[i] == init[i];
    } else {
      assert queries[..i] == init;
    }
  }

  /** `main`: the demo queries against whatever profile the file holds. */
  function Main<E>(file: ProfileFile, chain: Chain<E>): Result<Session, TurnError<E>> {
    Converse(Start(file), DemoQueries, chain)
  }

  /** After a session, the file holds exactly the profile in memory (so the next run loads
      it), "budget-conscious" is listed at most once however often the budget came up, and
      everything but the preferences is as loaded. */
  lemma SessionPersists<E>(file: ProfileFile, queries: seq<string>, chain: Chain<E>)
    requires Converse(Start(file), queries, chain).Success?
    ensures var s := Converse(Start(file), queries, chain).value;
      && Load(s.file) == s.profile
      && s.profile == Load(file).(preferences := s.profile.preferences)
      && Lists.Count(s.profile.preferences, BudgetPreference) <= if BudgetPreference in Load(file).preferences then Lists.Count(Load(file).preferences, BudgetPreference) else 1
  {
    var s0 := Start(file);
    RememberAllPersists(s0.profile, s0.file, queries, Store);
    StoreAllCounts(s0.profile, s0.file, queries);
  }

  /** Every turn after one that mentioned a budget under $1000 shows the assistant the
      "budget-conscious" preference. */
  lemma LaterTurnsSeeBudget<E>(s: Session, queries: seq<string>, chain: Chain<E>, k: nat, i: nat)
    requires Converse(s, queries, chain).Success?
    requires k < i < |queries| && BudgetTrigger(queries[k])
    ensures Text.IsSubstring(BudgetPreference, Converse(s, queries, chain).value.prompts[|s.prompts| + i])
  {
    var before := RememberAll(s.profile, s.file, queries[..i], Store).0;
    assert queries[..i][k] == queries[k];
    RememberedAfterTrigger(s.profile, s.file, queries[..i], Store, k);
    TurnRecorded(s, queries, chain, i);
    SystemMessageShows(BudgetPreference, Format(before).value, Converse(s, queries, chain).value.prompts[|s.prompts| + i]);
  }
}
