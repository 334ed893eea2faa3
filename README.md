# Subsidy-search chatbot: tool layer and conversation loops

This project models the core of a chatbot that answers questions about Japanese government
subsidies through the public Jグランツ (jGrants) API. The core has three parts:

- **The jGrants adapter** (`Jgrants`).
  - A keyword search checks its arguments locally: keyword length 2–255, one of three sort
    keys, then ASC/DESC.
  - It then builds query parameters and reshapes the API's reply into a count and one renamed
    summary per hit.
  - A detail lookup by id returns one renamed record with the number of application forms.
  - Every failure is a `{"success": False, "error": ...}` record, with one exception. A search
    whose keyword is a truthy number or `True` raises a TypeError from `len`, which sits outside
    the `try` (`backend/api/jgrants.py:39`).
  - An "active" search is a fixed delegation to the keyword search.
- **The chat backend** (`Chat`, `ClaudeChat`, `OpenAIChat`, `FanOut`).
  - Three tool declarations are converted into the Claude and OpenAI wire shapes.
  - A dispatcher maps a tool name and arguments to an adapter call.
  - Two bounded conversation loops each call their provider. When the provider asks for
    tools, the loop runs them, appends the exchange to a private copy of the history and
    calls again, until a final answer or the budget of rounds runs out. Every exception
    becomes a failure tagged with the provider.
  - A fan-out runs both loops and gathers their results under the keys `claude` and `openai`.
- **The MCP server** (`McpServer`): the same tools are offered to MCP clients. Its tool-call
  handler dispatches the same way and raises on an unknown tool.

Python values are modelled as a JSON datatype with Python truthiness, `len`, `dict.get` and
subscripting (`PyValues`). A Python call either returns or raises (`Outcome`).

Everything outside the process is a function parameter, an oracle:
- the HTTP GET and its decoded JSON body (`fetch`);
- each provider's SDK call, which returns a reply or raises (`send`);
- `json.loads` of OpenAI's tool-argument text (`parse`).

"No request is made" is stated as "the result is the same for every oracle".

Each loop of the source is an imperative method. It is proved equal to a
specification function (`Jgrants.Search`, `ClaudeChat.Loop`, `OpenAIChat.Loop`), and the
laws are proved about those functions. A loop's ghost output `sent` lists the requests it made,
so the laws can talk about the number of provider calls and the history each one carried.

Both loops keep the assistant's text next to its tool calls:
- the Claude loop appends the reply's whole content block list (`backend/api/chat.py:191-194`);
- the OpenAI loop appends `message.content` with the calls (`backend/api/chat.py:267-281`).

The MCP server's search and detail functions (`jgrants_server.py:25-197`) are line-for-line
copies of the backend adapter's (`backend/api/jgrants.py:11-183`). `Jgrants.Search`,
`Jgrants.SearchSubsidies` and `Jgrants.GetSubsidyDetail` model both copies.

## Model

| member | source | states |
|---|---|---|
| Jgrants.Validate | backend/api/jgrants.py:38-55 | The checks pass iff the keyword has a length in [2, 255], the sort is one of the three keys and the order is ASC/DESC. Each message is returned exactly when the checks before it passed and its own failed (keyword, then sort, then order). A truthy keyword without a length makes `len` raise a TypeError. |
| Jgrants.ValidateOnStrings | backend/api/jgrants.py:39-55 | On string arguments the verdict is the documented cascade on lengths and values. |
| Jgrants.RequestParams | backend/api/jgrants.py:57-74 | keyword, sort and order are always sent. acceptance is sent iff it is not None, so 0 is sent. The other four filters are sent iff truthy, with their values. No other key is sent. |
| Jgrants.SummarizeAll | backend/api/jgrants.py:91-102 | Returns iff every raw item is a dict, otherwise an AttributeError. One summary per item, same length and order. |
| Jgrants.SearchSubsidies | backend/api/jgrants.py:11-115 | The imperative search (checks, conditional parameter insertion, one request, catch clauses) equals `Jgrants.Search`. It also models the MCP server's identical copy, jgrants_server.py:25-129. |
| Jgrants.ReshapeSearchReply | backend/api/jgrants.py:82-104 | The reshaping loop over `data.get("result", [])` equals the specification's reshaping of that reply. |
| Jgrants.LocalFailureMakesNoRequest | backend/api/jgrants.py:38-55 | A rejected search gives the same outcome for every HTTP oracle: its check's own message, or the `len` TypeError. |
| Jgrants.SearchRaisesOnlyOnUnsizedKeyword | backend/api/jgrants.py:39 | A search raises iff the keyword is truthy and a number or boolean. Everything after the checks is caught. |
| Jgrants.SearchFailureTaxonomy | backend/api/jgrants.py:76-115 | Every failure record of a search is one of three kinds. Either it is a check's message and no request was made, or it has the "API通信エラー: " prefix after a transport error, or it has the "予期しないエラー: " prefix after a decoded reply. |
| Jgrants.SearchSuccessShape | backend/api/jgrants.py:84-104 | A well-formed reply gives a success. Its count is metadata.resultset.count, or 0 when any level is missing. Its subsidies are the raw records renamed, one for one, in order. |
| Jgrants.SummaryKeepsOnlySourceFields | backend/api/jgrants.py:93-102 | A summary depends only on the eight source fields it renames. |
| Jgrants.TransportErrorsAreRecords | backend/api/jgrants.py:106-110 | A transport failure becomes a failure record with the "API通信エラー: " prefix for both search and detail. |
| Jgrants.GetSubsidyDetail | backend/api/jgrants.py:118-183 | An empty id gives "subsidy_idを指定してください" without any request. Otherwise the result is the caught reshaping of the one reply, and never an exception. It also models the MCP server's identical copy, jgrants_server.py:132-197. |
| Jgrants.DetailNotFound | backend/api/jgrants.py:143-147 | An absent or falsy `result` is "指定されたIDの補助金が見つかりませんでした". |
| Jgrants.DetailListOrObject | backend/api/jgrants.py:149 | A list `result` gives the same detail as its first element given alone. |
| Jgrants.DetailEmptyRecordInList | backend/api/jgrants.py:143-149 | An empty record inside a list is found with all fields None. The same empty record alone is "not found". |
| Jgrants.DetailFormFiles | backend/api/jgrants.py:168 | application_form_files is the length of the list, and 0 when the key is absent. |
| Jgrants.ShapeSearch | backend/api/jgrants.py:82-104 | The reshaping of a search reply never makes a failure record of its own: it gives a search success or raises an AttributeError or a TypeError. A body that is not a dict raises an AttributeError at the first `.get`. |
| Jgrants.CatchReply | backend/api/jgrants.py:106-115 | The two `except` clauses, shared by the detail lookup (lines 174-183). A transport failure becomes a failure record with the "API通信エラー: " prefix. An exception of the reshaping becomes one with the "予期しないエラー: " prefix. A reshaping that returns is passed on unchanged. |
| Jgrants.ShapeDetail | backend/api/jgrants.py:141-170 | The reply is "指定されたIDの補助金が見つかりませんでした" iff the body is a dict whose `result` is absent or falsy. Otherwise it is a detail success or raises an AttributeError or a TypeError. |
| Jgrants.SearchActiveSubsidies | backend/api/jgrants.py:186-207 | Equals the plain search with sort acceptance_end_datetime, order ASC, acceptance 1, the given area and no other filters. |
| Jgrants.ActiveSearchRequest | backend/api/jgrants.py:201-207 | For an acceptable keyword the active search passes the checks and sends acceptance=1, sorted by closing date, soonest first. An area is sent iff it is truthy. |
| Chat.ClaudeTools | backend/api/chat.py:132-138 | One Claude declaration per definition, in order. Name, description and schema are preserved (round trip back to the definition). |
| Chat.ToClaudeTools | backend/api/chat.py:132-138 | The conversion loop equals `ClaudeTools`. |
| Chat.OpenAITools | backend/api/chat.py:232-241 | One function tool per definition, in order, with type "function". Name, description and schema are preserved (round trip). |
| Chat.ToOpenAITools | backend/api/chat.py:232-241 | The conversion loop equals `OpenAITools`. |
| Chat.WireShapesAgree | backend/api/chat.py:132-241 | Both wire shapes carry the same name, description and schema at every position. |
| Chat.ToolNamesAreDeclared | backend/api/chat.py:22-88 | The dispatcher's three names are exactly the declared tool names. |
| Chat.ExecuteTool | backend/api/chat.py:91-113 | The imperative dispatcher equals `Chat.Execute`. |
| Chat.ExecuteUnknownTool | backend/api/chat.py:110-111 | An unknown name is the failure record "Unknown tool: <name>" for any arguments, and never raises. |
| Chat.ExecuteSearchDefaults | backend/api/chat.py:95-102 | Without sort or order, a search uses created_date and DESC, with acceptance and area read by `.get`. |
| Chat.ExecuteRaises | backend/api/chat.py:95-109 | A known tool raises iff its required argument cannot be subscripted, or a search keyword is a truthy number or boolean. |
| ClaudeChat.ChatWithClaude | backend/api/chat.py:116-213 | The result and the requests sent, in order, are those of `ClaudeChat.Loop` on the copied caller history, the budget and the converted tools. |
| ClaudeChat.Converse | backend/api/chat.py:141-206 | The while loop on a history equals `ClaudeChat.Loop` with `Budget(max_iterations)` rounds: result and requests. |
| ClaudeChat.Round | backend/api/chat.py:144-198 | One pass of the loop body makes one request. It either finishes with exactly the result `Loop` gives after that request, or continues on the history `Loop` recurses on. |
| ClaudeChat.FinalText | backend/api/chat.py:153-156 | The text-joining loop equals `ClaudeChat.TextOf`, the text of the text blocks in order. |
| ClaudeChat.RunUses | backend/api/chat.py:169-188 | The per-round tool loop equals `ClaudeChat.RunToolUses`. |
| ClaudeChat.SentWithinBudget | backend/api/chat.py:143-200 | At most `fuel` provider calls. |
| ClaudeChat.NoBudgetNoCall | backend/api/chat.py:143 | max_iterations <= 0 makes no call and fails with "最大反復回数に達しました". |
| ClaudeChat.ToolsForeverExhaustBudget | backend/api/chat.py:143-206 | A provider that always asks for tools, which never raise, gets exactly `fuel` calls, and the result is the budget failure. |
| ClaudeChat.TextReplyEndsLoop | backend/api/chat.py:152-163 | A reply whose stop_reason is not "tool_use" ends the loop after one call, with the text of its text blocks and an empty tool_calls. |
| ClaudeChat.TextOfAppend | backend/api/chat.py:153-156 | The final text is the text blocks' text concatenated in order. |
| ClaudeChat.RaisedPrefix | backend/api/chat.py:169-176 | Once a tool raises, the round raises with that exception. |
| ClaudeChat.ToolResultsCorrelate | backend/api/chat.py:169-188 | A round returns iff every tool-use block's tool returns. It then has one result per tool-use block, in block order, each carrying that block's id and its tool's result. |
| ClaudeChat.RequestsExtendHistory | backend/api/chat.py:140-198 | Every request has the same model, token limit and tools. Its history starts with the caller's messages. The first request carries exactly the caller's history. |
| ClaudeChat.RoundsAppendTwoTurns | backend/api/chat.py:190-198 | Between two consecutive requests the history grows by exactly the assistant turn with the raw content and the user turn with that round's results, so the appended roles are "assistant" then "user". |
| ClaudeChat.ResultIsTagged | backend/api/chat.py:158-213 | The result model is always "claude" and an answer has empty tool_calls. A failure is the budget message, or starts with "Claude API error: ". The budget message means every round was used. |
| ClaudeChat.OneToolRoundThenAnswer | backend/api/chat.py:143-200 | A provider that asks for one tool and then answers: two calls. The second history is the caller's plus the tool exchange, and the result is the answer. |
| OpenAIChat.ChatWithOpenAI | backend/api/chat.py:216-315 | The result and the requests sent, in order, are those of `OpenAIChat.Loop` on the copied caller history, the budget and the converted tools. |
| OpenAIChat.Converse | backend/api/chat.py:244-308 | The while loop on a history equals `OpenAIChat.Loop` with `Budget(max_iterations)` rounds: result and requests. |
| OpenAIChat.Round | backend/api/chat.py:247-300 | One pass of the loop body makes one request. It either finishes with exactly the result `Loop` gives after that request, or continues on the history `Loop` recurses on. |
| OpenAIChat.CallsRaisedPrefix | backend/api/chat.py:283-300 | Once a call fails to decode or its tool raises, the round raises with that exception. |
| OpenAIChat.RunCalls | backend/api/chat.py:283-300 | The per-round call loop equals `OpenAIChat.RunToolCalls`. |
| OpenAIChat.SentWithinBudget | backend/api/chat.py:246-302 | At most `fuel` provider calls. |
| OpenAIChat.NoBudgetNoCall | backend/api/chat.py:246 | max_iterations <= 0 makes no call and fails with the budget message. |
| OpenAIChat.ToolsForeverExhaustBudget | backend/api/chat.py:246-308 | A provider that always asks for tools, whose calls all run, gets exactly `fuel` calls, and the result is the budget failure. |
| OpenAIChat.ContentReplyEndsLoop | backend/api/chat.py:257-263 | A message without tool calls ends the loop after one call, with its content or "" when it has none. |
| OpenAIChat.RoundCompletes | backend/api/chat.py:283-300 | A round returns iff every call's arguments decode and its tool returns on them. |
| OpenAIChat.ToolMessagesCorrelate | backend/api/chat.py:283-300 | A completed round has one tool message per call, in call order, each carrying that call's id and its tool's result on the decoded arguments. |
| OpenAIChat.RequestsExtendHistory | backend/api/chat.py:243-300 | Every request has the same model, tools and tool_choice "auto". Its history starts with the caller's messages. The first request carries exactly the caller's history. |
| OpenAIChat.RoundsAppendCallsAndResults | backend/api/chat.py:267-300 | Between two consecutive requests the history grows by the assistant message with its k calls, then the k tool messages: 1 + k entries. The appended roles are "assistant" followed by k times "tool". |
| OpenAIChat.ResultIsTagged | backend/api/chat.py:258-315 | The result model is always "openai" and an answer has empty tool_calls. A failure is the budget message, or starts with "OpenAI API error: ". The budget message means every round was used. |
| OpenAIChat.OneToolRoundThenAnswer | backend/api/chat.py:246-300 | A provider that asks for one decodable, returning tool call and then answers without calls: two calls. The second history is the caller's plus the assistant message and that call's tool message, and the result is the answer's content (or ""). |
| OpenAIChat.UndecodableArgumentsFail | backend/api/chat.py:285 | Argument text that is not JSON ends the run after one call with the decoding error, under the provider prefix. |
| FanOut.GatherIsolatesBranches | backend/api/chat.py:333-355 | Each key depends only on its own branch. A crash becomes a failure with the exception's text, tagged with its own side. A completed branch is kept as it is. |
| FanOut.ChatWithBoth | backend/api/chat.py:318-355 | `claude` is the Claude loop's result and `openai` the OpenAI loop's result, each with the default budget of 5 and independent of the other provider. They are tagged "claude" and "openai". |
| McpServer.ListedToolsMatchBackend | jgrants_server.py:205-273 | Three tools with distinct names, requiring keyword, subsidy_id and keyword respectively. At each position the name, the required list and the property names are the backend's. Together the names are exactly the dispatcher's. |
| McpServer.ListedDefaults | jgrants_server.py:225-236 | Only the search tool's sort and order carry defaults, created_date and DESC, which are the handler's defaults. |
| McpServer.CallTool | jgrants_server.py:281-306 | For a known name the handler gives the backend dispatcher's outcome, wrapped as one "text" item. An unknown name raises ValueError("Unknown tool: <name>"). |
| McpServer.CallToolRaises | jgrants_server.py:281-303 | A known tool raises iff its required key is missing (a KeyError naming it) or a search keyword is a truthy number or boolean. |
| McpServer.UnknownToolRaises | jgrants_server.py:305-306 | An unknown name always raises a ValueError. The backend's dispatcher answers the same name with a failure record carrying the same message. |

## Left out

- Network, SDKs and decoding are left out. The HTTP GET (its base URL, its paths and its 30-second timeout), `raise_for_status`, `response.json()`, the Anthropic and OpenAI clients and `json.loads` are oracles. `json.loads` of a tool call's arguments is the `parse` oracle inside `OpenAIChat.RunToolCalls`, whose None is the JSONDecodeError. An HTTP error status, a timeout or an undecodable body is the oracle's `TransportError`.
- Exception texts are only partly modelled. `str(e)` is kept for KeyError (the quoted key) and for the explicit ValueError. For other Python exceptions the class name stands in for the text.
- `json.dumps` is not modelled. A tool's result text is the result record itself. The `json.loads(tool_result)` that fills `tool_calls_info` therefore gives the record back, and is not modelled as a separate step.
- The loops collect `tool_calls_info` and always return `"tool_calls": []`. The model collects the list the same way and returns the empty list, as the code does.
- Python's dynamic types are modelled at the JSON level. Floats are left out. Numbers are integers.
- Concurrency is left out. The `async` and `asyncio.gather` scheduling is not modelled. `FanOut.ChatWithBoth` runs the two loops one after the other, each with its own provider oracle. In the model neither loop lets an exception out, since each catches every exception, so the crash branch appears only in `FanOut.Gather`.
- `response.choices[0]` on a reply without choices is folded into the provider oracle's error with its text. An absent `tool_calls` (None) is modelled as an empty list.
- The MCP server's `main`, its stdio transport and server metadata (jgrants_server.py:309-330) are outside the model. So are the FastAPI routes of backend/main.py, the frontend and test_api.py.
