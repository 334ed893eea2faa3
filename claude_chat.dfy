/** The Claude conversation loop of the chat backend (backend/api/chat.py, `chat_with_claude`).
    The provider is an oracle from the request (model, token limit, tools, history) to a reply
    or an SDK exception. The loop is specified by `Loop`, a recursion on the rounds left, which
    also records every request sent. */
module ClaudeChat {
  import opened PyValues
  import opened Jgrants
  import opened Chat

  const ClaudeModel := "claude-sonnet-4-5-20250929"
  const MaxTokens := 4096
  const ModelTag := "claude"
  const ErrorPrefix := "Claude API error: "

  /** A block of `response.content`: text, or a request to run a tool. */
  datatype ContentBlock =
    | TextBlock(text: string)
    | ToolUse(id: string, name: string, input: map<string, Json>)

  datatype Response = Response(stopReason: string, content: seq<ContentBlock>)

  /** What `messages.create` does: it returns a response, or raises (network, authentication,
      rate limit, malformed reply), `message` being the exception's text. */
  datatype Reply = Replied(response: Response) | SdkError(message: string)

  /** `{"type": "tool_result", "tool_use_id": ..., "content": ...}`. */
  datatype ToolResultBlock = ToolResultBlock(toolUseId: string, content: ToolResult)

  /** An entry of the history sent to Claude. */
  datatype Message =
    | Caller(role: string, content: string)
    | AssistantTurn(blocks: seq<ContentBlock>)
    | ToolResultsTurn(results: seq<ToolResultBlock>)
  {
    function Role(): string {
      match this
      case Caller(role, _) => role
      case AssistantTurn(_) => "assistant"
      case ToolResultsTurn(_) => "user"
    }
  }

  datatype ClaudeRequest = ClaudeRequest(model: string, maxTokens: nat, tools: seq<ClaudeTool>, messages: seq<Message>)

  /** A whole run: its result and the requests sent, in order. */
  datatype Run = Run(result: ChatResult, sent: seq<ClaudeRequest>)

  /** `messages.copy()`, as entries of the Claude history. */
  function Lift(messages: seq<ChatMessage>): (h: seq<Message>)
    ensures |h| == |messages|
    ensures forall i :: 0 <= i < |messages| ==> h[i] == Caller(messages[i].role, messages[i].content)
  {
    seq(|messages|, i requires 0 <= i < |messages| => Caller(messages[i].role, messages[i].content))
  }

  function Request(history: seq<Message>, tools: seq<ClaudeTool>): ClaudeRequest {
    ClaudeRequest(ClaudeModel, MaxTokens, tools, history)
  }

  /** The concatenation of the text blocks, in order. */
  function TextOf(blocks: seq<ContentBlock>): string {
    if blocks == [] then ""
    else
      var last := blocks[|blocks| - 1];
      TextOf(blocks[..|blocks| - 1]) + (if last.TextBlock? then last.text else "")
  }

  /** The tool-use blocks, in order. */
  function ToolUses(blocks: seq<ContentBlock>): (uses: seq<ContentBlock>)
    ensures forall i :: 0 <= i < |uses| ==> uses[i].ToolUse?
  {
    if blocks == [] then []
    else
      var last := blocks[|blocks| - 1];
      ToolUses(blocks[..|blocks| - 1]) + (if last.ToolUse? then [last] else [])
  }

  /** One round's tool loop: every tool-use block is run in block order and yields one result
      carrying its id; the first tool that raises ends the round with that exception. */
  function RunToolUses(blocks: seq<ContentBlock>, fetch: Request -> HttpReply): Outcome<seq<ToolResultBlock>> {
    if blocks == [] then Returned([])
    else
      var done :- RunToolUses(blocks[..|blocks| - 1], fetch);
      var last := blocks[|blocks| - 1];
      if last.ToolUse? then
        var result :- Execute(last.name, JObj(last.input), fetch);
        Returned(done + [ToolResultBlock(last.id, result)])
      else
        Returned(done)
  }

  /** The loop with `fuel` rounds left: call the provider; stop with the text when the reply is
      not a tool request; otherwise run the tools, append the assistant turn and the results
      turn, and go round again. Out of rounds, fail with the budget message. Every exception
      becomes a failure tagged "claude". */
  function Loop(history: seq<Message>, fuel: nat, tools: seq<ClaudeTool>,
                send: ClaudeRequest -> Reply, fetch: Request -> HttpReply): Run
    decreases fuel
  {
    if fuel == 0 then Run(Failed(ModelTag, BudgetMessage), [])
    else
      var request := Request(history, tools);
      match send(request)
      case SdkError(e) => Run(Failed(ModelTag, ErrorPrefix + e), [request])
      case Replied(response) =>
        if response.stopReason != "tool_use" then
          Run(Answered(ModelTag, TextOf(response.content), []), [request])
        else
          match RunToolUses(response.content, fetch)
          case Raised(e) => Run(Failed(ModelTag, ErrorPrefix + ErrorText(e)), [request])
          case Returned(results) =>
            var rest := Loop(history + [AssistantTurn(response.content), ToolResultsTurn(results)],
                             fuel - 1, tools, send, fetch);
            Run(rest.result, [request] + rest.sent)
  }

  /** `sent` followed by the requests of `run`. */
  function After(sent: seq<ClaudeRequest>, run: Run): Run {
    Run(run.result, sent + run.sent)
  }

  /** `chat_with_claude`: convert the declarations, copy the caller's history and converse.
      The ghost `sent` lists the requests made, one per provider call. */
  method ChatWithClaude(messages: seq<ChatMessage>, maxIterations: int,
                        send: ClaudeRequest -> Reply, fetch: Request -> HttpReply)
    returns (r: ChatResult, ghost sent: seq<ClaudeRequest>)
    ensures r == Loop(Lift(messages), Budget(maxIterations), ClaudeTools(ToolsDefinition), send, fetch).result
    ensures sent == Loop(Lift(messages), Budget(maxIterations), ClaudeTools(ToolsDefinition), send, fetch).sent
  {
    var tools := ToClaudeTools(ToolsDefinition);
    r, sent := Converse(Lift(messages), maxIterations, tools, send, fetch);
  }

  /** The `while iterations < max_iterations` loop of `chat_with_claude`, on the copied history
      `history`. */
  method Converse(history: seq<Message>, maxIterations: int, tools: seq<ClaudeTool>,
                  send: ClaudeRequest -> Reply, fetch: Request -> HttpReply)
    returns (r: ChatResult, ghost sent: seq<ClaudeRequest>)
    ensures r == Loop(history, Budget(maxIterations), tools, send, fetch).result
    ensures sent == Loop(history, Budget(maxIterations), tools, send, fetch).sent
  {
    var current := history;
    var iterations := 0;
    sent := [];
    ghost var spec := Loop(current, Budget(maxIterations), tools, send, fetch);

    while iterations < maxIterations
      invariant 0 <= iterations <= Budget(maxIterations)
      invariant spec == After(sent, Loop(current, Budget(maxIterations) - iterations, tools, send, fetch))
      decreases maxIterations - iterations
    {
      ghost var fuel := Budget(maxIterations) - iterations;
      ghost var request := Request(current, tools);
      var step := Round(current, tools, send, fetch, fuel);
      if step.Finished? {
        sent := sent + [request];
        r := step.result;
        return;
      }
      ghost var rest := Loop(step.next, fuel - 1, tools, send, fetch);
      assert sent + ([request] + rest.sent) == (sent + [request]) + rest.sent;
      sent := sent + [request];
      current := step.next;
      iterations := iterations + 1;
    }
    r := Failed(ModelTag, BudgetMessage);
  }

  /** One pass of the loop body: one provider call, then the answer (the text of the reply)
      when the reply is not a tool request, or a failure when the call or a tool raises, or else
      the next round on the history grown by the assistant turn and the tool-results turn.
      `fuel` is the number of rounds left, this one included. */
  method Round(current: seq<Message>, tools: seq<ClaudeTool>, send: ClaudeRequest -> Reply,
               fetch: Request -> HttpReply, ghost fuel: nat)
    returns (step: Step<Message>)
    requires fuel > 0
    ensures step.Finished? ==> Loop(current, fuel, tools, send, fetch) == Run(step.result, [Request(current, tools)])
    ensures step.Continued? ==>
              Loop(current, fuel, tools, send, fetch)
              == After([Request(current, tools)], Loop(step.next, fuel - 1, tools, send, fetch))
  {
    var reply := send(Request(current, tools));
    if reply.SdkError? {
      return Finished(Failed(ModelTag, ErrorPrefix + reply.message));
    }
    var response := reply.response;

    if response.stopReason != "tool_use" {
      var finalText := FinalText(response.content);
      return Finished(Answered(ModelTag, finalText, []));
    }

    var round := RunUses(response.content, fetch);
    if round.Raised? {
      return Finished(Failed(ModelTag, ErrorPrefix + ErrorText(round.error)));
    }
    step := Continued(current + [AssistantTurn(response.content), ToolResultsTurn(round.value)]);
  }

  /** The loop that joins the text blocks of a final reply. */
  method FinalText(blocks: seq<ContentBlock>) returns (finalText: string)
    ensures finalText == TextOf(blocks)
  {
    finalText := "";
    for j := 0 to |blocks|
      invariant finalText == TextOf(blocks[..j])
    {
      assert blocks[..j + 1][..j] == blocks[..j];
      if blocks[j].TextBlock? {
        finalText := finalText + blocks[j].text;
      }
    }
    assert blocks[..|blocks|] == blocks;
  }

  /** The `for block in response.content` loop of one round: run each tool-use block's tool
      and collect its result under the block's id. */
  method RunUses(blocks: seq<ContentBlock>, fetch: Request -> HttpReply) returns (out: Outcome<seq<ToolResultBlock>>)
    ensures out == RunToolUses(blocks, fetch)
  {
    var toolCallsInfo: seq<ToolCallInfo> := [];
    var toolResults: seq<ToolResultBlock> := [];
    for j := 0 to |blocks|
      invariant RunToolUses(blocks[..j], fetch) == Returned(toolResults)
    {
      var block := blocks[j];
      assert blocks[..j + 1][..j] == blocks[..j];
      if block.ToolUse? {
        var toolResult := ExecuteTool(block.name, JObj(block.input), fetch);
        if toolResult.Raised? {
          RaisedPrefix(blocks, j + 1, fetch);
          return Raised(toolResult.error);
        }
        toolCallsInfo := toolCallsInfo + [ToolCallInfo(block.name, JObj(block.input), toolResult.value)];
        toolResults := toolResults + [ToolResultBlock(block.id, toolResult.value)];
      }
    }
    assert blocks[..|blocks|] == blocks;
    out := Returned(toolResults);
  }

  /** Once a prefix of the blocks raises, the whole round raises with that same exception. */
  lemma {:induction false} RaisedPrefix(blocks: seq<ContentBlock>, k: nat, fetch: Request -> HttpReply)
    requires k <= |blocks|
    requires RunToolUses(blocks[..k], fetch).Raised?
    ensures RunToolUses(blocks, fetch) == RunToolUses(blocks[..k], fetch)
    decreases |blocks| - k
  {
    if k < |blocks| {
      assert blocks[..k + 1][..k] == blocks[..k];
      RaisedPrefix(blocks, k + 1, fetch);
    } else {
      assert blocks[..k] == blocks;
    }
  }

  // ---------------------------------------------------------------------------------------
  // Laws of the loop

  /** The provider is called at most once per round of the budget. */
  lemma {:induction false} SentWithinBudget(history: seq<Message>, fuel: nat, tools: seq<ClaudeTool>,
                                            send: ClaudeRequest -> Reply, fetch: Request -> HttpReply)
    ensures |Loop(history, fuel, tools, send, fetch).sent| <= fuel
    decreases fuel
  {
    if fuel > 0 {
      var reply := send(Request(history, tools));
      if reply.Replied? && reply.response.stopReason == "tool_use" {
        var results := RunToolUses(reply.response.content, fetch);
        if results.Returned? {
          SentWithinBudget(history + [AssistantTurn(reply.response.content), ToolResultsTurn(results.value)],
                           fuel - 1, tools, send, fetch);
        }
      }
    }
  }

  /** With a budget of zero or less the provider is never called. */
  lemma NoBudgetNoCall(history: seq<Message>, maxIterations: int, tools: seq<ClaudeTool>,
                       send: ClaudeRequest -> Reply, fetch: Request -> HttpReply)
    requires maxIterations <= 0
    ensures Loop(history, Budget(maxIterations), tools, send, fetch) == Run(Failed(ModelTag, BudgetMessage), [])
  {
  }

  /** A provider that always asks for tools, none of which raises. */
  ghost predicate AlwaysRequestsTools(send: ClaudeRequest -> Reply, fetch: Request -> HttpReply) {
    forall q :: send(q).Replied? && send(q).response.stopReason == "tool_use"
                && RunToolUses(send(q).response.content, fetch).Returned?
  }

  /** Against such a provider the loop uses its whole budget, one call per round, and ends with
      the budget failure. */
  lemma {:induction false} ToolsForeverExhaustBudget(history: seq<Message>, fuel: nat, tools: seq<ClaudeTool>,
                                                     send: ClaudeRequest -> Reply, fetch: Request -> HttpReply)
    requires AlwaysRequestsTools(send, fetch)
    ensures Loop(history, fuel, tools, send, fetch).result == Failed(ModelTag, BudgetMessage)
    ensures |Loop(history, fuel, tools, send, fetch).sent| == fuel
    decreases fuel
  {
    if fuel > 0 {
      var reply := send(Request(history, tools));
      var results := RunToolUses(reply.response.content, fetch);
      ToolsForeverExhaustBudget(history + [AssistantTurn(reply.response.content), ToolResultsTurn(results.value)],
                                fuel - 1, tools, send, fetch);
    }
  }

  /** A reply that is not a tool request ends the loop at once with its text. */
  lemma TextReplyEndsLoop(history: seq<Message>, fuel: nat, tools: seq<ClaudeTool>,
                          send: ClaudeRequest -> Reply, fetch: Request -> HttpReply)
    requires fuel > 0
    requires send(Request(history, tools)).Replied?
    requires send(Request(history, tools)).response.stopReason != "tool_use"
    ensures Loop(history, fuel, tools, send, fetch)
         == Run(Answered(ModelTag, TextOf(send(Request(history, tools)).response.content), []), [Request(history, tools)])
  {
  }

  /** The final text is the text blocks' text in order: the text of a reply split in two is
      the text of the first part followed by that of the second. */
  lemma {:induction false} TextOfAppend(a: seq<ContentBlock>, b: seq<ContentBlock>)
    ensures TextOf(a + b) == TextOf(a) + TextOf(b)
    decreases |b|
  {
    if b == [] {
      assert a + b == a;
    } else {
      assert (a + b)[..|a + b| - 1] == a + b[..|b| - 1];
      TextOfAppend(a, b[..|b| - 1]);
    }
  }

  /** A round's tools all run or the round raises; when they all run there is exactly one
      result per tool-use block, in block order, carrying that block's id and its tool's
      result. */
  lemma {:induction false} ToolResultsCorrelate(blocks: seq<ContentBlock>, fetch: Request -> HttpReply)
    ensures RunToolUses(blocks, fetch).Returned? <==>
              forall i :: 0 <= i < |ToolUses(blocks)| ==>
                Execute(ToolUses(blocks)[i].name, JObj(ToolUses(blocks)[i].input), fetch).Returned?
    ensures RunToolUses(blocks, fetch).Returned? ==>
              var results := RunToolUses(blocks, fetch).value;
              var uses := ToolUses(blocks);
              && |results| == |uses|
              && forall i :: 0 <= i < |uses| ==>
                   && results[i].toolUseId == uses[i].id
                   && Execute(uses[i].name, JObj(uses[i].input), fetch) == Returned(results[i].content)
    decreases |blocks|
  {
    if blocks != [] {
      var init := blocks[..|blocks| - 1];
      ToolResultsCorrelate(init, fetch);
      var last := blocks[|blocks| - 1];
      if last.ToolUse? {
        var uses, before := ToolUses(blocks), ToolUses(init);
        assert uses == before + [last];
        assert uses[|before|] == last;
        if forall i :: 0 <= i < |uses| ==> Execute(uses[i].name, JObj(uses[i].input), fetch).Returned? {
          forall i | 0 <= i < |before|
            ensures Execute(before[i].name, JObj(before[i].input), fetch).Returned?
          {
            assert uses[i] == before[i];
          }
        }
      } else {
        assert ToolUses(blocks) == ToolUses(init);
      }
    }
  }

  /** Every request goes to the same model with the same tools, and its history extends the
      caller's: entries are only ever appended. The first request carries the caller's history
      itself. */
  lemma {:induction false} RequestsExtendHistory(history: seq<Message>, fuel: nat, tools: seq<ClaudeTool>,
                                                 send: ClaudeRequest -> Reply, fetch: Request -> HttpReply)
    ensures var run := Loop(history, fuel, tools, send, fetch);
            forall i :: 0 <= i < |run.sent| ==>
              && run.sent[i].model == ClaudeModel && run.sent[i].maxTokens == MaxTokens
              && run.sent[i].tools == tools
              && history <= run.sent[i].messages
    ensures fuel > 0 ==> var run := Loop(history, fuel, tools, send, fetch);
                         |run.sent| > 0 && run.sent[0] == Request(history, tools)
    decreases fuel
  {
    if fuel > 0 {
      var reply := send(Request(history, tools));
      if reply.Replied? && reply.response.stopReason == "tool_use" {
        var results := RunToolUses(reply.response.content, fetch);
        if results.Returned? {
          var next := history + [AssistantTurn(reply.response.content), ToolResultsTurn(results.value)];
          RequestsExtendHistory(next, fuel - 1, tools, send, fetch);
          var run := Loop(history, fuel, tools, send, fetch);
          var rest := Loop(next, fuel - 1, tools, send, fetch);
          assert run.sent == [Request(history, tools)] + rest.sent;
          forall i | 0 <= i < |run.sent|
            ensures history <= run.sent[i].messages
          {
            if i > 0 {
              assert run.sent[i] == rest.sent[i - 1];
              assert history <= next;
            }
          }
        }
      }
    }
  }

  /** Between two consecutive requests the history grows by exactly two entries: the assistant
      turn holding the raw reply content, then the user turn holding that round's tool
      results. */
  lemma {:induction false} RoundsAppendTwoTurns(history: seq<Message>, fuel: nat, tools: seq<ClaudeTool>,
                                                send: ClaudeRequest -> Reply, fetch: Request -> HttpReply, i: nat)
    requires i + 1 < |Loop(history, fuel, tools, send, fetch).sent|
    ensures var run := Loop(history, fuel, tools, send, fetch);
            var reply := send(run.sent[i]);
            && reply.Replied? && reply.response.stopReason == "tool_use"
            && RunToolUses(reply.response.content, fetch).Returned?
            && run.sent[i + 1].messages
               == run.sent[i].messages + [AssistantTurn(reply.response.content),
                                          ToolResultsTurn(RunToolUses(reply.response.content, fetch).value)]
            && var n := |run.sent[i].messages|;
               run.sent[i + 1].messages[n].Role() == "assistant" && run.sent[i + 1].messages[n + 1].Role() == "user"
    decreases fuel
  {
    var reply := send(Request(history, tools));
    var results := RunToolUses(reply.response.content, fetch);
    var next := history + [AssistantTurn(reply.response.content), ToolResultsTurn(results.value)];
    var run := Loop(history, fuel, tools, send, fetch);
    var rest := Loop(next, fuel - 1, tools, send, fetch);
    assert run.sent == [Request(history, tools)] + rest.sent;
    if i == 0 {
      RequestsExtendHistory(next, fuel - 1, tools, send, fetch);
      assert run.sent[1] == Request(next, tools);
    } else {
      RoundsAppendTwoTurns(next, fuel - 1, tools, send, fetch, i - 1);
      assert run.sent[i] == rest.sent[i - 1] && run.sent[i + 1] == rest.sent[i];
    }
  }

  /** The result is always tagged "claude"; an answer carries no tool calls; a failure is the
      budget message or an exception's text behind the provider prefix, and the budget
      message means every round of the budget was used. */
  lemma {:induction false} ResultIsTagged(history: seq<Message>, fuel: nat, tools: seq<ClaudeTool>,
                                          send: ClaudeRequest -> Reply, fetch: Request -> HttpReply)
    ensures var run := Loop(history, fuel, tools, send, fetch);
            && run.result.model == ModelTag
            && (run.result.Answered? ==> run.result.toolCalls == [])
            && (run.result.Failed? ==> run.result.error == BudgetMessage || ErrorPrefix <= run.result.error)
            && (run.result == Failed(ModelTag, BudgetMessage) ==> |run.sent| == fuel)
    decreases fuel
  {
    if fuel > 0 {
      var reply := send(Request(history, tools));
      if reply.SdkError? {
        assert (ErrorPrefix + reply.message)[0] != BudgetMessage[0];
      } else if reply.response.stopReason == "tool_use" {
        var results := RunToolUses(reply.response.content, fetch);
        if results.Returned? {
          ResultIsTagged(history + [AssistantTurn(reply.response.content), ToolResultsTurn(results.value)],
                         fuel - 1, tools, send, fetch);
        } else {
          assert (ErrorPrefix + ErrorText(results.error))[0] != BudgetMessage[0];
        }
      }
    }
  }

  /** A provider that asks for one tool and then answers: exactly one round of tools, two
      calls, and the answer's text. */
  lemma OneToolRoundThenAnswer(history: seq<Message>, fuel: nat, tools: seq<ClaudeTool>,
                               send: ClaudeRequest -> Reply, fetch: Request -> HttpReply,
                               use: ContentBlock, text: string)
    requires fuel >= 2 && use.ToolUse?
    requires send(Request(history, tools)) == Replied(Response("tool_use", [use]))
    requires Execute(use.name, JObj(use.input), fetch).Returned?
    requires forall q :: q != Request(history, tools) ==> send(q) == Replied(Response("end_turn", [TextBlock(text)]))
    ensures var run := Loop(history, fuel, tools, send, fetch);
            && run.result == Answered(ModelTag, text, [])
            && |run.sent| == 2
            && run.sent[1].messages
               == history + [AssistantTurn([use]),
                             ToolResultsTurn([ToolResultBlock(use.id, Execute(use.name, JObj(use.input), fetch).value)])]
  {
    assert [use][..0] == [];
    var executed := Execute(use.name, JObj(use.input), fetch);
    assert RunToolUses([use][..0], fetch) == Returned([]);
    assert [use][|[use]| - 1] == use;
    var block := ToolResultBlock(use.id, executed.value);
    var none: seq<ToolResultBlock> := [];
    assert none + [block] == [block];
    assert RunToolUses([use], fetch) == Returned(none + [block]);
    var results := RunToolUses([use], fetch);
    var next := history + [AssistantTurn([use]), ToolResultsTurn(results.value)];
    assert |Request(next, tools).messages| != |Request(history, tools).messages|;
    var answer := [TextBlock(text)];
    assert answer[..0] == [];
    assert TextOf(answer) == text;
  }
}
