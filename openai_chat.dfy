/** The OpenAI conversation loop of the chat backend (backend/api/chat.py, `chat_with_openai`).
    The provider is an oracle from the request (model, history, tools, tool choice) to the
    first choice's message or an SDK exception; `json.loads` of a call's argument text is an
    oracle too, None standing for a JSONDecodeError. The loop is specified by `Loop`, a
    recursion on the rounds left, which also records every request sent. */
module OpenAIChat {
  import opened PyValues
  import opened Jgrants
  import opened Chat

  const OpenAIModel := "gpt-4-turbo-preview"
  const ToolChoice := "auto"
  const ModelTag := "openai"
  const ErrorPrefix := "OpenAI API error: "

  /** `tool_call`: its id and the function call, whose arguments are JSON text. */
  datatype ToolCall = ToolCall(id: string, name: string, arguments: string)

  /** `response.choices[0].message`. An empty `toolCalls` stands for both None and []. */
  datatype AssistantMessage = AssistantMessage(content: Option<string>, toolCalls: seq<ToolCall>)

  /** What `chat.completions.create` does: it returns the first choice's message, or raises
      (network, authentication, rate limit, no choice), `text` being the exception's text. */
  datatype Reply = Replied(message: AssistantMessage) | SdkError(text: string)

  /** An entry of the history sent to OpenAI. */
  datatype Message =
    | Caller(role: string, content: string)
    | AssistantCalls(said: Option<string>, calls: seq<ToolCall>)
    | ToolMessage(toolCallId: string, result: ToolResult)
  {
    function Role(): string {
      match this
      case Caller(role, _) => role
      case AssistantCalls(_, _) => "assistant"
      case ToolMessage(_, _) => "tool"
    }
  }

  datatype OpenAIRequest = OpenAIRequest(model: string, messages: seq<Message>, tools: seq<OpenAITool>, toolChoice: string)

  /** A whole run: its result and the requests sent, in order. */
  datatype Run = Run(result: ChatResult, sent: seq<OpenAIRequest>)

  /** `messages.copy()`, as entries of the OpenAI history. */
  function Lift(messages: seq<ChatMessage>): (h: seq<Message>)
    ensures |h| == |messages|
    ensures forall i :: 0 <= i < |messages| ==> h[i] == Caller(messages[i].role, messages[i].content)
  {
    seq(|messages|, i requires 0 <= i < |messages| => Caller(messages[i].role, messages[i].content))
  }

  function Request(history: seq<Message>, tools: seq<OpenAITool>): OpenAIRequest {
    OpenAIRequest(OpenAIModel, history, tools, ToolChoice)
  }

  /** One round's tool loop: every call, in order, has its arguments decoded and its tool run,
      and yields one tool message carrying the call's id; the first decoding error or raising
      tool ends the round with that exception. */
  function RunToolCalls(calls: seq<ToolCall>, parse: string -> Option<Json>, fetch: Request -> HttpReply)
    : Outcome<seq<Message>>
  {
    if calls == [] then Returned([])
    else
      var done :- RunToolCalls(calls[..|calls| - 1], parse, fetch);
      var call := calls[|calls| - 1];
      match parse(call.arguments)
      case None => Raised(JsonDecodeError)
      case Some(args) =>
        var result :- Execute(call.name, args, fetch);
        Returned(done + [ToolMessage(call.id, result)])
  }

  /** The loop with `fuel` rounds left: call the provider; stop with the content (or "") when
      the message asks for no tool; otherwise append the assistant message with its calls, run
      the calls appending one tool message each, and go round again. Out of rounds, fail with
      the budget message. Every exception becomes a failure tagged "openai". */
  function Loop(history: seq<Message>, fuel: nat, tools: seq<OpenAITool>,
                send: OpenAIRequest -> Reply, parse: string -> Option<Json>, fetch: Request -> HttpReply): Run
    decreases fuel
  {
    if fuel == 0 then Run(Failed(ModelTag, BudgetMessage), [])
    else
      var request := Request(history, tools);
      match send(request)
      case SdkError(e) => Run(Failed(ModelTag, ErrorPrefix + e), [request])
      case Replied(message) =>
        if message.toolCalls == [] then
          Run(Answered(ModelTag, message.content.GetOr(""), []), [request])
        else
          match RunToolCalls(message.toolCalls, parse, fetch)
          case Raised(e) => Run(Failed(ModelTag, ErrorPrefix + ErrorText(e)), [request])
          case Returned(toolMessages) =>
            var rest := Loop(history + [AssistantCalls(message.content, message.toolCalls)] + toolMessages,
                             fuel - 1, tools, send, parse, fetch);
            Run(rest.result, [request] + rest.sent)
  }

  /** `sent` followed by the requests of `run`. */
  function After(sent: seq<OpenAIRequest>, run: Run): Run {
    Run(run.result, sent + run.sent)
  }

  /** `chat_with_openai`: convert the declarations, copy the caller's history and converse.
      The ghost `sent` lists the requests made, one per provider call. */
  method ChatWithOpenAI(messages: seq<ChatMessage>, maxIterations: int, send: OpenAIRequest -> Reply,
                        parse: string -> Option<Json>, fetch: Request -> HttpReply)
    returns (r: ChatResult, ghost sent: seq<OpenAIRequest>)
    ensures r == Loop(Lift(messages), Budget(maxIterations), OpenAITools(ToolsDefinition), send, parse, fetch).result
    ensures sent == Loop(Lift(messages), Budget(maxIterations), OpenAITools(ToolsDefinition), send, parse, fetch).sent
  {
    var tools := ToOpenAITools(ToolsDefinition);
    r, sent := Converse(Lift(messages), maxIterations, tools, send, parse, fetch);
  }

  /** The `while iterations < max_iterations` loop of `chat_with_openai`, on the copied history
      `history`. */
  method Converse(history: seq<Message>, maxIterations: int, tools: seq<OpenAITool>, send: OpenAIRequest -> Reply,
                  parse: string -> Option<Json>, fetch: Request -> HttpReply)
    returns (r: ChatResult, ghost sent: seq<OpenAIRequest>)
    ensures r == Loop(history, Budget(maxIterations), tools, send, parse, fetch).result
    ensures sent == Loop(history, Budget(maxIterations), tools, send, parse, fetch).sent
  {
    var current := history;
    var iterations := 0;
    sent := [];
    ghost var spec := Loop(current, Budget(maxIterations), tools, send, parse, fetch);

    while iterations < maxIterations
      invariant 0 <= iterations <= Budget(maxIterations)
      invariant spec == After(sent, Loop(current, Budget(maxIterations) - iterations, tools, send, parse, fetch))
      decreases maxIterations - iterations
    {
      ghost var fuel := Budget(maxIterations) - iterations;
      ghost var request := Request(current, tools);
      var step := Round(current, tools, send, parse, fetch, fuel);
      if step.Finished? {
        sent := sent + [request];
        r := step.result;
        return;
      }
      ghost var rest := Loop(step.next, fuel - 1, tools, send, parse, fetch);
      assert sent + ([request] + rest.sent) == (sent + [request]) + rest.sent;
      sent := sent + [request];
      current := step.next;
      iterations := iterations + 1;
    }
    r := Failed(ModelTag, BudgetMessage);
  }

  /** One pass of the loop body: one provider call, then the answer (its content, or "" when it
      has none) when the message asks for no tool, or a failure when the call or a tool raises,
      or else the next round on the history grown by the assistant message and its tool
      messages. `fuel` is the number of rounds left, this one included. */
  method Round(current: seq<Message>, tools: seq<OpenAITool>, send: OpenAIRequest -> Reply,
               parse: string -> Option<Json>, fetch: Request -> HttpReply, ghost fuel: nat)
    returns (step: Step<Message>)
    requires fuel > 0
    ensures step.Finished? ==> Loop(current, fuel, tools, send, parse, fetch) == Run(step.result, [Request(current, tools)])
    ensures step.Continued? ==>
              Loop(current, fuel, tools, send, parse, fetch)
              == After([Request(current, tools)], Loop(step.next, fuel - 1, tools, send, parse, fetch))
  {
    var reply := send(Request(current, tools));
    if reply.SdkError? {
      return Finished(Failed(ModelTag, ErrorPrefix + reply.text));
    }
    var message := reply.message;

    if message.toolCalls == [] {
      return Finished(Answered(ModelTag, message.content.GetOr(""), []));
    }

    var round := RunCalls(message.toolCalls, parse, fetch);
    if round.Raised? {
      return Finished(Failed(ModelTag, ErrorPrefix + ErrorText(round.error)));
    }
    step := Continued(current + [AssistantCalls(message.content, message.toolCalls)] + round.value);
  }

  /** The `for tool_call in message.tool_calls` loop of one round: decode the arguments, run
      the tool, and produce its tool message. The source appends each message to the history as
      it goes; the loop returns them to be appended together, which is the same history
      whenever the round completes and makes no difference when it raises, since the history
      is discarded then. */
  method RunCalls(calls: seq<ToolCall>, parse: string -> Option<Json>, fetch: Request -> HttpReply)
    returns (out: Outcome<seq<Message>>)
    ensures out == RunToolCalls(calls, parse, fetch)
  {
    var toolCallsInfo: seq<ToolCallInfo> := [];
    var toolMessages: seq<Message> := [];
    for j := 0 to |calls|
      invariant RunToolCalls(calls[..j], parse, fetch) == Returned(toolMessages)
    {
      var toolCall := calls[j];
      assert calls[..j + 1][..j] == calls[..j];
      var toolArgs := parse(toolCall.arguments);
      if toolArgs.None? {
        CallsRaisedPrefix(calls, j + 1, parse, fetch);
        return Raised(JsonDecodeError);
      }
      var toolResult := ExecuteTool(toolCall.name, toolArgs.value, fetch);
      if toolResult.Raised? {
        CallsRaisedPrefix(calls, j + 1, parse, fetch);
        return Raised(toolResult.error);
      }
      toolCallsInfo := toolCallsInfo + [ToolCallInfo(toolCall.name, toolArgs.value, toolResult.value)];
      toolMessages := toolMessages + [ToolMessage(toolCall.id, toolResult.value)];
    }
    assert calls[..|calls|] == calls;
    out := Returned(toolMessages);
  }

  /** Once a prefix of the calls raises, the whole round raises with that same exception. */
  lemma {:induction false} CallsRaisedPrefix(calls: seq<ToolCall>, k: nat, parse: string -> Option<Json>,
                                             fetch: Request -> HttpReply)
    requires k <= |calls|
    requires RunToolCalls(calls[..k], parse, fetch).Raised?
    ensures RunToolCalls(calls, parse, fetch) == RunToolCalls(calls[..k], parse, fetch)
    decreases |calls| - k
  {
    if k < |calls| {
      assert calls[..k + 1][..k] == calls[..k];
      CallsRaisedPrefix(calls, k + 1, parse, fetch);
    } else {
      assert calls[..k] == calls;
    }
  }

  // ---------------------------------------------------------------------------------------
  // Laws of the loop

  /** The provider is called at most once per round of the budget. */
  lemma {:induction false} SentWithinBudget(history: seq<Message>, fuel: nat, tools: seq<OpenAITool>,
                                            send: OpenAIRequest -> Reply, parse: string -> Option<Json>,
                                            fetch: Request -> HttpReply)
    ensures |Loop(history, fuel, tools, send, parse, fetch).sent| <= fuel
    decreases fuel
  {
    if fuel > 0 {
      var reply := send(Request(history, tools));
      if reply.Replied? && reply.message.toolCalls != [] {
        var results := RunToolCalls(reply.message.toolCalls, parse, fetch);
        if results.Returned? {
          SentWithinBudget(history + [AssistantCalls(reply.message.content, reply.message.toolCalls)] + results.value,
                           fuel - 1, tools, send, parse, fetch);
        }
      }
    }
  }

  /** With a budget of zero or less the provider is never called. */
  lemma NoBudgetNoCall(history: seq<Message>, maxIterations: int, tools: seq<OpenAITool>,
                       send: OpenAIRequest -> Reply, parse: string -> Option<Json>, fetch: Request -> HttpReply)
    requires maxIterations <= 0
    ensures Loop(history, Budget(maxIterations), tools, send, parse, fetch) == Run(Failed(ModelTag, BudgetMessage), [])
  {
  }

  /** A provider that always asks for tools, whose calls all decode and run. */
  ghost predicate AlwaysRequestsTools(send: OpenAIRequest -> Reply, parse: string -> Option<Json>,
                                      fetch: Request -> HttpReply) {
    forall q :: send(q).Replied? && send(q).message.toolCalls != []
                && RunToolCalls(send(q).message.toolCalls, parse, fetch).Returned?
  }

  /** Against such a provider the loop uses its whole budget, one call per round, and ends with
      the budget failure. */
  lemma {:induction false} ToolsForeverExhaustBudget(history: seq<Message>, fuel: nat, tools: seq<OpenAITool>,
                                                     send: OpenAIRequest -> Reply, parse: string -> Option<Json>,
                                                     fetch: Request -> HttpReply)
    requires AlwaysRequestsTools(send, parse, fetch)
    ensures Loop(history, fuel, tools, send, parse, fetch).result == Failed(ModelTag, BudgetMessage)
    ensures |Loop(history, fuel, tools, send, parse, fetch).sent| == fuel
    decreases fuel
  {
    if fuel > 0 {
      var message := send(Request(history, tools)).message;
      var results := RunToolCalls(message.toolCalls, parse, fetch);
      ToolsForeverExhaustBudget(history + [AssistantCalls(message.content, message.toolCalls)] + results.value,
                                fuel - 1, tools, send, parse, fetch);
    }
  }

  /** A message without tool calls ends the loop at once with its content, or "" when it has
      none. */
  lemma ContentReplyEndsLoop(history: seq<Message>, fuel: nat, tools: seq<OpenAITool>,
                             send: OpenAIRequest -> Reply, parse: string -> Option<Json>, fetch: Request -> HttpReply)
    requires fuel > 0
    requires send(Request(history, tools)).Replied?
    requires send(Request(history, tools)).message.toolCalls == []
    ensures var content := send(Request(history, tools)).message.content;
            Loop(history, fuel, tools, send, parse, fetch)
            == Run(Answered(ModelTag, if content.Some? then content.value else "", []), [Request(history, tools)])
  {
  }

  /** A call whose arguments decode and whose tool, run on them, returns. */
  predicate CallRuns(call: ToolCall, parse: string -> Option<Json>, fetch: Request -> HttpReply) {
    parse(call.arguments).Some? && Execute(call.name, parse(call.arguments).value, fetch).Returned?
  }

  /** A round's calls all run or the round raises. */
  lemma {:induction false} RoundCompletes(calls: seq<ToolCall>, parse: string -> Option<Json>, fetch: Request -> HttpReply)
    ensures RunToolCalls(calls, parse, fetch).Returned? <==> forall i :: 0 <= i < |calls| ==> CallRuns(calls[i], parse, fetch)
    decreases |calls|
  {
    if calls != [] {
      var init := calls[..|calls| - 1];
      RoundCompletes(init, parse, fetch);
      if forall i :: 0 <= i < |calls| ==> CallRuns(calls[i], parse, fetch) {
        forall i | 0 <= i < |init|
          ensures CallRuns(init[i], parse, fetch)
        {
          assert init[i] == calls[i];
        }
      }
    }
  }

  /** A completed round has exactly one tool message per call, in call order, carrying that
      call's id and its tool's result on the decoded arguments. */
  lemma {:induction false} ToolMessagesCorrelate(calls: seq<ToolCall>, parse: string -> Option<Json>,
                                                 fetch: Request -> HttpReply)
    requires RunToolCalls(calls, parse, fetch).Returned?
    ensures var results := RunToolCalls(calls, parse, fetch).value;
            && |results| == |calls|
            && forall i :: 0 <= i < |calls| ==>
                 && results[i].ToolMessage?
                 && results[i].toolCallId == calls[i].id
                 && CallRuns(calls[i], parse, fetch)
                 && Execute(calls[i].name, parse(calls[i].arguments).value, fetch) == Returned(results[i].result)
    decreases |calls|
  {
    if calls != [] {
      var init := calls[..|calls| - 1];
      ToolMessagesCorrelate(init, parse, fetch);
      var last := calls[|calls| - 1];
      var before := RunToolCalls(init, parse, fetch).value;
      assert RunToolCalls(calls, parse, fetch).value
          == before + [ToolMessage(last.id, Execute(last.name, parse(last.arguments).value, fetch).value)];
    }
  }

  /** Every request goes to the same model with the same tools and tool choice, and its history
      extends the caller's: entries are only ever appended. The first request carries the
      caller's history itself. */
  lemma {:induction false} RequestsExtendHistory(history: seq<Message>, fuel: nat, tools: seq<OpenAITool>,
                                                 send: OpenAIRequest -> Reply, parse: string -> Option<Json>,
                                                 fetch: Request -> HttpReply)
    ensures var run := Loop(history, fuel, tools, send, parse, fetch);
            forall i :: 0 <= i < |run.sent| ==>
              && run.sent[i].model == OpenAIModel && run.sent[i].toolChoice == ToolChoice
              && run.sent[i].tools == tools
              && history <= run.sent[i].messages
    ensures fuel > 0 ==> var run := Loop(history, fuel, tools, send, parse, fetch);
                         |run.sent| > 0 && run.sent[0] == Request(history, tools)
    decreases fuel
  {
    if fuel > 0 {
      var reply := send(Request(history, tools));
      if reply.Replied? && reply.message.toolCalls != [] {
        var results := RunToolCalls(reply.message.toolCalls, parse, fetch);
        if results.Returned? {
          var next := history + [AssistantCalls(reply.message.content, reply.message.toolCalls)] + results.value;
          RequestsExtendHistory(next, fuel - 1, tools, send, parse, fetch);
          var run := Loop(history, fuel, tools, send, parse, fetch);
          var rest := Loop(next, fuel - 1, tools, send, parse, fetch);
          assert run.sent == [Request(history, tools)] + rest.sent;
          forall i | 0 <= i < |run.sent|
            ensures history <= run.sent[i].messages
          {
            if i > 0 {
              assert run.sent[i] == rest.sent[i - 1];
              assert history <= next;
            }
          }
        }
      }
    }
  }

  /** The roles a round appends: "assistant", then "tool" for each result. */
  predicate RoundRoles(added: seq<Message>) {
    |added| > 0 && added[0].Role() == "assistant" && forall j :: 0 < j < |added| ==> added[j].Role() == "tool"
  }

  /** Between two consecutive requests the history grows by the assistant message with its k
      calls followed by that round's k tool messages: 1 + k entries. */
  lemma {:induction false} RoundsAppendCallsAndResults(history: seq<Message>, fuel: nat, tools: seq<OpenAITool>,
                                                       send: OpenAIRequest -> Reply, parse: string -> Option<Json>,
                                                       fetch: Request -> HttpReply, i: nat)
    requires i + 1 < |Loop(history, fuel, tools, send, parse, fetch).sent|
    ensures var run := Loop(history, fuel, tools, send, parse, fetch);
            var reply := send(run.sent[i]);
            && reply.Replied? && reply.message.toolCalls != []
            && RunToolCalls(reply.message.toolCalls, parse, fetch).Returned?
            && run.sent[i + 1].messages
               == run.sent[i].messages + [AssistantCalls(reply.message.content, reply.message.toolCalls)]
                  + RunToolCalls(reply.message.toolCalls, parse, fetch).value
            && |run.sent[i + 1].messages| == |run.sent[i].messages| + 1 + |reply.message.toolCalls|
            && RoundRoles(run.sent[i + 1].messages[|run.sent[i].messages|..])
    decreases fuel
  {
    var reply := send(Request(history, tools));
    var results := RunToolCalls(reply.message.toolCalls, parse, fetch);
    var next := history + [AssistantCalls(reply.message.content, reply.message.toolCalls)] + results.value;
    var run := Loop(history, fuel, tools, send, parse, fetch);
    var rest := Loop(next, fuel - 1, tools, send, parse, fetch);
    assert run.sent == [Request(history, tools)] + rest.sent;
    if i == 0 {
      RequestsExtendHistory(next, fuel - 1, tools, send, parse, fetch);
      assert run.sent[1] == Request(next, tools);
      ToolMessagesCorrelate(reply.message.toolCalls, parse, fetch);
      assert next[|history|..] == [AssistantCalls(reply.message.content, reply.message.toolCalls)] + results.value;
    } else {
      RoundsAppendCallsAndResults(next, fuel - 1, tools, send, parse, fetch, i - 1);
      assert run.sent[i] == rest.sent[i - 1] && run.sent[i + 1] == rest.sent[i];
    }
  }

  /** The result is always tagged "openai"; an answer carries no tool calls; a failure is the
      budget message or an exception's text behind the provider prefix, and the budget
      message means every round of the budget was used. */
  lemma {:induction false} ResultIsTagged(history: seq<Message>, fuel: nat, tools: seq<OpenAITool>,
                                          send: OpenAIRequest -> Reply, parse: string -> Option<Json>,
                                          fetch: Request -> HttpReply)
    ensures var run := Loop(history, fuel, tools, send, parse, fetch);
            && run.result.model == ModelTag
            && (run.result.Answered? ==> run.result.toolCalls == [])
            && (run.result.Failed? ==> run.result.error == BudgetMessage || ErrorPrefix <= run.result.error)
            && (run.result == Failed(ModelTag, BudgetMessage) ==> |run.sent| == fuel)
    decreases fuel
  {
    if fuel > 0 {
      var reply := send(Request(history, tools));
      if reply.SdkError? {
        assert (ErrorPrefix + reply.text)[0] != BudgetMessage[0];
      } else if reply.message.toolCalls != [] {
        var results := RunToolCalls(reply.message.toolCalls, parse, fetch);
        if results.Returned? {
          ResultIsTagged(history + [AssistantCalls(reply.message.content, reply.message.toolCalls)] + results.value,
                         fuel - 1, tools, send, parse, fetch);
        } else {
          assert (ErrorPrefix + ErrorText(results.error))[0] != BudgetMessage[0];
        }
      }
    }
  }

  /** Arguments that are not JSON end the run with the decoding error, before the tool runs. */
  lemma UndecodableArgumentsFail(history: seq<Message>, fuel: nat, tools: seq<OpenAITool>,
                                 send: OpenAIRequest -> Reply, parse: string -> Option<Json>,
                                 fetch: Request -> HttpReply, call: ToolCall)
    requires fuel > 0
    requires send(Request(history, tools)) == Replied(AssistantMessage(None, [call]))
    requires parse(call.arguments).None?
    ensures Loop(history, fuel, tools, send, parse, fetch)
         == Run(Failed(ModelTag, ErrorPrefix + "JSONDecodeError"), [Request(history, tools)])
  {
    assert [call][..0] == [];
    assert RunToolCalls([call][..0], parse, fetch) == Returned([]);
    assert [call][|[call]| - 1] == call;
  }

  /** A provider that asks for one tool and then answers: two calls, the second carrying the
      caller's history followed by the assistant message and the tool's one tool message, and
      the answer as the result. */
  lemma OneToolRoundThenAnswer(history: seq<Message>, fuel: nat, tools: seq<OpenAITool>,
                               send: OpenAIRequest -> Reply, parse: string -> Option<Json>,
                               fetch: Request -> HttpReply, said: Option<string>, call: ToolCall,
                               content: Option<string>)
    requires fuel >= 2
    requires send(Request(history, tools)) == Replied(AssistantMessage(said, [call]))
    requires CallRuns(call, parse, fetch)
    requires forall q :: q != Request(history, tools) ==> send(q) == Replied(AssistantMessage(content, []))
    ensures var run := Loop(history, fuel, tools, send, parse, fetch);
            && run.result == Answered(ModelTag, content.GetOr(""), [])
            && |run.sent| == 2
            && run.sent[1].messages
               == history + [AssistantCalls(said, [call]),
                             ToolMessage(call.id, Execute(call.name, parse(call.arguments).value, fetch).value)]
  {
    assert [call][..0] == [];
    assert RunToolCalls([call][..0], parse, fetch) == Returned([]);
    assert [call][|[call]| - 1] == call;
    var message := ToolMessage(call.id, Execute(call.name, parse(call.arguments).value, fetch).value);
    var none: seq<Message> := [];
    assert none + [message] == [message];
    assert RunToolCalls([call], parse, fetch) == Returned([message]);
    var next := history + [AssistantCalls(said, [call])] + [message];
    assert next == history + [AssistantCalls(said, [call]), message];
    assert |Request(next, tools).messages| != |Request(history, tools).messages|;
  }
}
