/** `chat_with_both` (backend/api/chat.py): the two conversation loops on the same history,
    each with the default budget, their outcomes gathered with exceptions turned into
    failure records. */
module FanOut {
  import opened PyValues
  import opened Jgrants
  import opened Chat
  import ClaudeChat
  import OpenAIChat

  /** What `asyncio.gather(..., return_exceptions=True)` yields for one coroutine: its
      result, or the exception it raised, as its text. */
  datatype Branch = Completed(result: ChatResult) | Crashed(text: string)

  /** `{"claude": ..., "openai": ...}`. */
  datatype Responses = Responses(claude: ChatResult, openai: ChatResult)

  /** A branch's entry: its result, or a failure with the exception's text and the branch's
      tag. */
  function Settle(branch: Branch, tag: string): ChatResult {
    match branch
    case Completed(result) => result
    case Crashed(text) => Failed(tag, text)
  }

  function Gather(claude: Branch, openai: Branch): Responses {
    Responses(Settle(claude, ClaudeChat.ModelTag), Settle(openai, OpenAIChat.ModelTag))
  }

  /** Each entry depends on its own branch only: a crash on one side leaves the other side's
      result as it was, and a crash becomes a failure tagged with its own side. */
  lemma GatherIsolatesBranches(claude: Branch, otherClaude: Branch, openai: Branch, otherOpenai: Branch)
    ensures Gather(claude, openai).claude == Gather(claude, otherOpenai).claude
    ensures Gather(claude, openai).openai == Gather(otherClaude, openai).openai
    ensures claude.Completed? ==> Gather(claude, openai).claude == claude.result
    ensures openai.Completed? ==> Gather(claude, openai).openai == openai.result
    ensures claude.Crashed? ==> Gather(claude, openai).claude == Failed("claude", claude.text)
    ensures openai.Crashed? ==> Gather(claude, openai).openai == Failed("openai", openai.text)
  {
  }

  /** `chat_with_both`. Each entry is its own loop's result with the default budget, whatever
      the other provider does, and each is tagged with its provider. */
  method ChatWithBoth(messages: seq<ChatMessage>, claudeSend: ClaudeChat.ClaudeRequest -> ClaudeChat.Reply,
                      openaiSend: OpenAIChat.OpenAIRequest -> OpenAIChat.Reply, parse: string -> Option<Json>,
                      fetch: Request -> HttpReply)
    returns (r: Responses)
    ensures r.claude == ClaudeChat.Loop(ClaudeChat.Lift(messages), DefaultMaxIterations,
                                        ClaudeTools(ToolsDefinition), claudeSend, fetch).result
    ensures r.openai == OpenAIChat.Loop(OpenAIChat.Lift(messages), DefaultMaxIterations,
                                        OpenAITools(ToolsDefinition), openaiSend, parse, fetch).result
    ensures r.claude.model == "claude" && r.openai.model == "openai"
  {
    ghost var claudeSent: seq<ClaudeChat.ClaudeRequest>;
    ghost var openaiSent: seq<OpenAIChat.OpenAIRequest>;
    var claudeResult, openaiResult;
    claudeResult, claudeSent := ClaudeChat.ChatWithClaude(messages, DefaultMaxIterations, claudeSend, fetch);
    openaiResult, openaiSent := OpenAIChat.ChatWithOpenAI(messages, DefaultMaxIterations, openaiSend, parse, fetch);
    ClaudeChat.ResultIsTagged(ClaudeChat.Lift(messages), DefaultMaxIterations, ClaudeTools(ToolsDefinition), claudeSend, fetch);
    OpenAIChat.ResultIsTagged(OpenAIChat.Lift(messages), DefaultMaxIterations, OpenAITools(ToolsDefinition),
                              openaiSend, parse, fetch);
    r := Gather(Completed(claudeResult), Completed(openaiResult));
  }
}
