/** The single-agent loop: a model, its tools, and the transcript between them. */
module Agents {
  import opened Wrappers
  import opened Chat

  /** A JSON value, which only travels from a model to a tool and back. */
  type Json = string

  datatype AgentError =
    | Llm(error: string)
    | SerializeToolResult(error: string)
    | MissingFinalContent
    | IterationLimitReached(limit: nat)

  datatype ChatRequest = ChatRequest(model: string, messages: seq<ChatMessage>, tools: seq<string>)

  /** One call to the model and what came back. */
  datatype Exchange = Exchange(request: ChatRequest, answer: Result<ChatMessage, string>)

  /** A model that may answer anything; `exchanges` records every call. */
  class Client {
    var exchanges: seq<Exchange>

    constructor ()
      ensures exchanges == []
    {
      exchanges := [];
    }

    method Chat(request: ChatRequest) returns (answer: Result<ChatMessage, string>)
      modifies this
      ensures exchanges == old(exchanges) + [Exchange(request, answer)]
    {
      answer := *;
      exchanges := exchanges + [Exchange(request, answer)];
    }
  }

  datatype Execution = Execution(tool: nat, arguments: Json)

  /** The tools by name, in the order they were given; `executions` records every one that ran. */
  class Toolbox {
    const names: seq<string>
    var executions: seq<Execution>

    constructor (names: seq<string>)
      ensures this.names == names && executions == []
    {
      this.names := names;
      executions := [];
    }

    method Execute(tool: nat, arguments: Json) returns (result: Result<Json, string>)
      requires tool < |names|
      modifies this
      ensures executions == old(executions) + [Execution(tool, arguments)]
    {
      result := *;
      executions := executions + [Execution(tool, arguments)];
    }
  }

  /** Where a name is first found. */
  function Position(names: seq<string>, name: string): (at: Option<nat>)
    ensures at.Some? ==> at.value < |names| && names[at.value] == name && name !in names[..at.value]
    ensures at.None? <==> name !in names
  {
    if names == [] then None
    else if names[0] == name then Some(0)
    else match Position(names[1..], name)
      case None => None
      case Some(i) =>
        assert names[..i + 1] == [names[0]] + names[1..][..i];
        Some(i + 1)
  }

  // ---- Well-formed transcripts ------------------------------------------------------------------

  /** One assistant message with tool calls, and the results that answer it. */
  datatype Round = Round(call: ChatMessage, results: seq<ChatMessage>)

  /** Every call is answered once, in order, under its own id. */
  ghost predicate Answered(round: Round) {
    && round.call.toolCalls.Some? && |round.results| == |round.call.toolCalls.value|
    && forall k :: 0 <= k < |round.results| ==> Answers(round.results[k], round.call.toolCalls.value[k])
  }

  predicate Answers(result: ChatMessage, call: ToolCall) {
    result.content.Some? && result == ToolResult(call.id, result.content.value)
  }

  function Transcript(prompt: string, rounds: seq<Round>): seq<ChatMessage> {
    if rounds == [] then [UserMessage(prompt)]
    else
      var last := rounds[|rounds| - 1];
      Transcript(prompt, rounds[..|rounds| - 1]) + [last.call] + last.results
  }

  ghost predicate WellFormed(prompt: string, messages: seq<ChatMessage>) {
    exists rounds: seq<Round> ::
      (forall i :: 0 <= i < |rounds| ==> Answered(rounds[i])) && messages == Transcript(prompt, rounds)
  }

  /** The model asked for tools, every one was answered, and the next request says exactly that and nothing else. */
  ghost predicate Continues(before: Exchange, after: Exchange) {
    && before.answer.Success?
    && exists results: seq<ChatMessage> ::
         && Answered(Round(before.answer.value, results))
         && after.request == before.request.(messages := before.request.messages + [before.answer.value] + results)
  }

  /** What one run of the agent leaves in the log of its client. */
  ghost predicate IsConversation(exchanges: seq<Exchange>, first: ChatRequest) {
    && (exchanges != [] ==> exchanges[0].request == first)
    && forall i :: 0 < i < |exchanges| ==> Continues(exchanges[i - 1], exchanges[i])
  }

  lemma {:induction false} ConversationIsWellFormed(exchanges: seq<Exchange>, first: ChatRequest, prompt: string,
                                                    i: nat)
    requires IsConversation(exchanges, first) && first.messages == [UserMessage(prompt)] && i < |exchanges|
    ensures WellFormed(prompt, exchanges[i].request.messages)
    ensures exchanges[i].request == first.(messages := exchanges[i].request.messages)
  {
    if i == 0 {
      var rounds: seq<Round> := [];
      assert exchanges[0].request.messages == Transcript(prompt, rounds);
    } else {
      ConversationIsWellFormed(exchanges, first, prompt, i - 1);
      var before, after := exchanges[i - 1], exchanges[i];
      assert Continues(before, after);
      var results :| Answered(Round(before.answer.value, results))
        && after.request == before.request.(messages := before.request.messages + [before.answer.value] + results);
      OneMoreRound(prompt, before.request.messages, Round(before.answer.value, results));
    }
  }

  lemma OneMoreRound(prompt: string, messages: seq<ChatMessage>, round: Round)
    requires WellFormed(prompt, messages) && Answered(round)
    ensures WellFormed(prompt, messages + [round.call] + round.results)
  {
    var rounds: seq<Round> :| (forall k :: 0 <= k < |rounds| ==> Answered(rounds[k]))
                              && messages == Transcript(prompt, rounds);
    var longer := rounds + [round];
    assert longer[..|rounds|] == rounds;
    assert messages + [round.call] + round.results == Transcript(prompt, longer);
  }

  /** Each request's messages are a prefix of every later one's. */
  lemma {:induction false} RequestsGrow(exchanges: seq<Exchange>, first: ChatRequest, i: nat, k: nat)
    requires IsConversation(exchanges, first) && i <= k < |exchanges|
    ensures exchanges[i].request.messages <= exchanges[k].request.messages
    ensures i < k ==> |exchanges[i].request.messages| < |exchanges[k].request.messages|
  {
    if i < k {
      RequestsGrow(exchanges, first, i, k - 1);
      assert Continues(exchanges[k - 1], exchanges[k]);
    }
  }

  // ---- The loop ---------------------------------------------------------------------------------

  /** How a run ends, read off its last exchange. */
  ghost predicate EndsAs(exchanges: seq<Exchange>, r: Result<string, AgentError>, limit: nat) {
    match r
    case Success(content) =>
      && exchanges != []
      && var last := exchanges[|exchanges| - 1].answer;
      && last.Success? && last.value.toolCalls.None? && last.value.content == Some(content)
    case Failure(Llm(error)) => exchanges != [] && exchanges[|exchanges| - 1].answer == Failure(error)
    case Failure(MissingFinalContent) =>
      && exchanges != []
      && var last := exchanges[|exchanges| - 1].answer;
      && last.Success? && last.value.toolCalls.None? && last.value.content.None?
    case Failure(SerializeToolResult(_)) => exchanges != [] && AsksForTools(exchanges[|exchanges| - 1].answer)
    case Failure(IterationLimitReached(n)) =>
      n == limit == |exchanges| && (exchanges != [] ==> AsksForTools(exchanges[|exchanges| - 1].answer))
  }

  predicate AsksForTools(answer: Result<ChatMessage, string>) {
    answer.Success? && answer.value.toolCalls.Some?
  }

  class Agent {
    const client: Client
    const tools: Toolbox
    const maxIterations: nat

    constructor (client: Client, tools: Toolbox, maxIterations: nat)
      ensures this.client == client && this.tools == tools && this.maxIterations == maxIterations
    {
      this.client := client;
      this.tools := tools;
      this.maxIterations := maxIterations;
    }

    /**
     However the tools behave, every request is a well-formed continuation of the one before, the model is called at
     most `maxIterations` times, and the result is what the last answer says.
     */
    method Run(model: string, prompt: string) returns (r: Result<string, AgentError>, ghost exchanges: seq<Exchange>)
      modifies client, tools
      ensures client.exchanges == old(client.exchanges) + exchanges
      ensures IsConversation(exchanges, ChatRequest(model, [UserMessage(prompt)], tools.names))
      ensures |exchanges| <= maxIterations && EndsAs(exchanges, r, maxIterations)
    {
      var messages := [UserMessage(prompt)];
      ghost var first := ChatRequest(model, messages, tools.names);
      exchanges := [];
      var iterations := 0;
      while true
        invariant iterations == |exchanges| <= maxIterations
        invariant client.exchanges == old(client.exchanges) + exchanges
        invariant IsConversation(exchanges, first)
        invariant exchanges == [] ==> messages == first.messages
        invariant exchanges != [] ==> AsksForTools(exchanges[|exchanges| - 1].answer)
        invariant forall answer :: exchanges != [] ==>
          Continues(exchanges[|exchanges| - 1], Exchange(ChatRequest(model, messages, tools.names), answer))
        decreases maxIterations - iterations
      {
        if iterations == maxIterations {
          return Failure(IterationLimitReached(maxIterations)), exchanges;
        }
        iterations := iterations + 1;
        var request := ChatRequest(model, messages, tools.names);
        var answer := client.Chat(request);
        exchanges := exchanges + [Exchange(request, answer)];
        if answer.Failure? {
          return Failure(Llm(answer.error)), exchanges;
        }
        var message := answer.value;
        if message.toolCalls.Some? {
          var answered, results := AnswerCalls(message);
          if answered.Failure? {
            return Failure(SerializeToolResult(answered.error)), exchanges;
          }
          messages := messages + [message] + results;
        } else if message.content.Some? {
          return Success(message.content.value), exchanges;
        } else {
          return Failure(MissingFinalContent), exchanges;
        }
      }
    }

    /** One result per tool call, in the order of the calls. */
    method AnswerCalls(message: ChatMessage) returns (r: Result<(), string>, results: seq<ChatMessage>)
      requires message.toolCalls.Some?
      modifies tools
      ensures r.Success? ==> Answered(Round(message, results))
    {
      results := [];
      var toolCalls := message.toolCalls.value;
      for i := 0 to |toolCalls|
        invariant |results| == i && forall k :: 0 <= k < i ==> Answers(results[k], toolCalls[k])
      {
        var content, _ := ExecuteToolCall(toolCalls[i]);
        if content.Failure? {
          return Failure(content.error), results;
        }
        results := results + [ToolResult(toolCalls[i].id, content.value)];
      }
      r := Success(());
    }

    /**
     A tool runs, once, exactly when the arguments are JSON and its name is known, and it is the first of that name;
     an unknown or failing tool is answered like any other.
     */
    method ExecuteToolCall(call: ToolCall) returns (content: Result<string, string>, ghost parsed: Option<Json>)
      modifies tools
      ensures tools.executions == old(tools.executions) +
              (if parsed.Some? && Position(tools.names, call.name).Some?
               then [Execution(Position(tools.names, call.name).value, parsed.value)] else [])
    {
      var arguments := ParseArguments(call.arguments);
      parsed := arguments;
      var result: Result<Json, string> := Failure("invalid JSON arguments");
      if arguments.Some? {
        var tool := Position(tools.names, call.name);
        if tool.None? {
          result := Failure("unknown tool");
        } else {
          result := tools.Execute(tool.value, arguments.value);
        }
      }
      content := Serialize(call.name, result);
    }
  }

  /** `serde_json::from_str`. */
  method ParseArguments(arguments: Arguments) returns (parsed: Option<Json>) {
    parsed := *;
  }

  /** `serde_json::to_string` of a result, or of the error object that names the tool. */
  method Serialize(tool: string, result: Result<Json, string>) returns (content: Result<string, string>) {
    content := *;
  }
}
