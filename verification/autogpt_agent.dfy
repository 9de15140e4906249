/**
  `SimpleAutoGPTAgent.chat`, shared by the AutoGPT weather agent and the AutoGPT travel
  planner: one round of OpenAI function calling over a command registry. The model is an
  uninterpreted function from a request to a completion; the conversation history is a value
  the agent carries from one call to the next.
 */
module AutoGptAgent {
  import opened Wrappers
  import Commands

  /** One entry of `conversation_history` (or the system message sent in front of it). */
  datatype Message =
    | System(content: string)
    | User(content: string)
    | Assistant(content: string)
    | FunctionResult(name: string, content: string)

  /** One `chat.completions.create` call: the messages sent and the functions offered. */
  datatype Request = Request(messages: seq<Message>, functions: seq<Commands.Schema>)

  /** The first choice's message: text, or a function call with its decoded arguments. */
  datatype Completion = Reply(content: string) | FunctionCall(name: string, arguments: Commands.Args)

  /** The model. */
  type Llm = Request -> Completion

  datatype Agent = Agent(systemPrompt: string, commands: Commands.Registry, history: seq<Message>)

  /** What one `chat` call leaves behind: the agent afterwards, the returned text (or the
      TypeError raised while dispatching), and the requests sent, in order. */
  datatype Turn = Turn(agent: Agent, reply: Result<string, Commands.CommandError>, requests: seq<Request>)

  /** The `.content` of the final completion; a function call there carries no text. */
  function ContentOf(c: Completion): string {
    if c.Reply? then c.content else ""
  }

  /** No system message is stored in a history. */
  predicate NoSystem(history: seq<Message>) {
    forall i | 0 <= i < |history| :: !history[i].System?
  }

  /** The first request of a `chat` call: the system message, the stored history and the
      new user message, with every registered command offered as a function. */
  function FirstRequest(agent: Agent, userMessage: string): Request {
    Request([System(agent.systemPrompt)] + agent.history + [User(userMessage)],
            Commands.GetCommandsSchema(agent.commands))
  }

  /** `chat(user_message)`. */
  function Chat(agent: Agent, llm: Llm, userMessage: string): (t: Turn)
    ensures t.agent.systemPrompt == agent.systemPrompt && t.agent.commands == agent.commands
    ensures agent.history + [User(userMessage)] <= t.agent.history
    ensures NoSystem(agent.history) ==> NoSystem(t.agent.history)
    ensures 1 <= |t.requests| <= 2
    ensures t.requests[0] == FirstRequest(agent, userMessage)
    ensures |t.requests| == 2 <==> llm(t.requests[0]).FunctionCall? && t.reply.Success?
    ensures |t.requests| == 2 ==>
      && t.requests[1].functions == []
      && t.requests[1].messages == [System(agent.systemPrompt)] + t.agent.history[..|t.agent.history| - 1]
    ensures t.reply.Success? <==> |t.agent.history| == |agent.history| + |t.requests| + 1
    ensures t.reply.Failure? ==> t.agent.history == agent.history + [User(userMessage)]
    ensures t.reply.Success? ==> t.agent.history[|t.agent.history| - 1] == Assistant(t.reply.value)
    ensures llm(FirstRequest(agent, userMessage)).Reply? ==>
      && |t.requests| == 1
      && t.reply == Success(llm(FirstRequest(agent, userMessage)).content)
      && t.agent.history == agent.history + [User(userMessage), Assistant(t.reply.value)]
    ensures var call := llm(FirstRequest(agent, userMessage));
      call.FunctionCall? && Commands.ExecuteCommand(agent.commands, call.name, call.arguments).Success? ==>
        && |t.requests| == 2
        && t.reply == Success(ContentOf(llm(t.requests[1])))
        && t.agent.history == agent.history
             + [User(userMessage),
                FunctionResult(call.name, Commands.ExecuteCommand(agent.commands, call.name, call.arguments).value),
                Assistant(t.reply.value)]
  {
    var system := System(agent.systemPrompt);
    var history := agent.history + [User(userMessage)];
    var first := FirstRequest(agent, userMessage);
    match llm(first)
    case Reply(content) =>
      Turn(agent.(history := history + [Assistant(content)]), Success(content), [first])
    case FunctionCall(name, arguments) =>
      match Commands.ExecuteCommand(agent.commands, name, arguments)
      case Failure(e) =>
        Turn(agent.(history := history), Failure(e), [first])
      case Success(result) =>
        var withResult := history + [FunctionResult(name, result)];
        var second := Request([system] + withResult, []);
        var finalMessage := ContentOf(llm(second));
        assert (withResult + [Assistant(finalMessage)])[..|withResult|] == withResult;
        Turn(agent.(history := withResult + [Assistant(finalMessage)]), Success(finalMessage), [first, second])
  }

  /** What a sequence of `chat` calls on one agent leaves behind. `failure` is the TypeError
      that ended the sequence early, if any. */
  datatype Session = Session(agent: Agent, replies: seq<string>, requests: seq<Request>, failure: Option<Commands.CommandError>)

  /** `for query in queries: agent.chat(query)`, stopping at the first exception. */
  function RunQueries(agent: Agent, llm: Llm, queries: seq<string>): Session
    decreases |queries|
  {
    if |queries| == 0 then Session(agent, [], [], None)
    else
      var t := Chat(agent, llm, queries[0]);
      match t.reply
      case Failure(e) => Session(t.agent, [], t.requests, Some(e))
      case Success(reply) =>
        var rest := RunQueries(t.agent, llm, queries[1..]);
        Session(rest.agent, [reply] + rest.replies, t.requests + rest.requests, rest.failure)
  }

  /** The history is never truncated across queries, no system message enters it, and when
      every query is answered it has grown by exactly one entry more per query than there
      were model calls: two entries for a plain answer, three for one with a function call. */
  lemma {:induction false} SessionHistory(agent: Agent, llm: Llm, queries: seq<string>)
    requires NoSystem(agent.history)
    ensures var s := RunQueries(agent, llm, queries);
      && agent.history <= s.agent.history
      && NoSystem(s.agent.history)
      && s.agent.systemPrompt == agent.systemPrompt && s.agent.commands == agent.commands
      && (s.failure.None? ==>
            && |s.replies| == |queries|
            && |s.agent.history| == |agent.history| + |s.requests| + |queries|
            && |queries| <= |s.requests| <= 2 * |queries|)
    decreases |queries|
  {
    if |queries| > 0 {
      var t := Chat(agent, llm, queries[0]);
      if t.reply.Success? {
        SessionHistory(t.agent, llm, queries[1..]);
      }
    }
  }

  const WeatherSystemPrompt := "You are a helpful weather assistant. Use the available commands to answer questions."

  /** `SimpleAutoGPTAgent(api_key)` of the weather script: the weather registry, an empty history. */
  const WeatherAgent := Agent(WeatherSystemPrompt, Commands.WeatherRegistry, [])

  /** `SimpleAutoGPTAgent(api_key, role, commands)` of the travel planner. */
  function TravelAgent(role: string, commands: Commands.Registry): Agent {
    Agent("You are a " + role + ". Use the available commands to answer questions.", commands, [])
  }

  const WeatherQueries := [
    "What's the weather in San Francisco?",
    "What's the weather in New York?",
    "Tell me about the weather in Seattle and Miami"
  ]

  /** The weather script's loop: when all three queries are answered, the one agent's history
      holds between six and nine entries, opening with the first query. */
  lemma WeatherSession(llm: Llm)
    ensures var s := RunQueries(WeatherAgent, llm, WeatherQueries);
      && s.agent.systemPrompt == WeatherSystemPrompt
      && (s.failure.None? ==>
            && 6 <= |s.agent.history| <= 9
            && s.agent.history[0] == User("What's the weather in San Francisco?"))
  {
    SessionHistory(WeatherAgent, llm, WeatherQueries);
    var t := Chat(WeatherAgent, llm, WeatherQueries[0]);
    assert t.agent.history[0] == User(WeatherQueries[0]);
    var s := RunQueries(WeatherAgent, llm, WeatherQueries);
    if t.reply.Success? {
      SessionHistory(t.agent, llm, WeatherQueries[1..]);
      assert t.agent.history <= s.agent.history;
    }
  }
}
