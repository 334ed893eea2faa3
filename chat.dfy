/** The provider-neutral part of the chat backend (backend/api/chat.py): the tool declarations,
    their conversion into the two providers' wire shapes, the tool dispatcher, and the
    message and result records shared by both conversation loops. */
module Chat {
  import opened PyValues
  import opened Jgrants

  /** One property of a parameter schema; `enumValues` is empty when the property has no
      `enum`, `default` is None when it has no `default`. */
  datatype Property = Property(
    name: string,
    kind: string,
    description: string,
    enumValues: seq<Json>,
    default: Option<Json>)

  /** A JSON schema of `"type": "object"` with its properties and required names. */
  datatype Schema = Schema(properties: seq<Property>, required: seq<string>)

  datatype ToolDefinition = ToolDefinition(name: string, description: string, parameters: Schema)

  const KeywordProperty := Property("keyword", "string", "検索キーワード（2～255文字）", [], None)
  const AcceptanceProperty := Property("acceptance", "integer", "募集中フィルタ（1: 募集中のみ, 0: 全て）", [JNum(0), JNum(1)], None)
  const TargetAreaProperty := Property("target_area", "string", "対象地域（例: 東京都、大阪府など）", [], None)

  /** `TOOLS_DEFINITION`: the three tools offered to both providers. */
  const ToolsDefinition: seq<ToolDefinition> := [
    ToolDefinition(
      "search_subsidies",
      "Jグランツで補助金を検索します。キーワードで検索し、募集中のみや地域でフィルタリングできます。",
      Schema(
        [ KeywordProperty,
          AcceptanceProperty,
          TargetAreaProperty,
          Property("sort", "string", "ソート項目", SortValues, None),
          Property("order", "string", "ソート順", OrderValues, None)],
        ["keyword"])),
    ToolDefinition(
      "get_subsidy_detail",
      "補助金IDを指定して詳細情報を取得します。補助率、概要、注意事項などの詳細が取得できます。",
      Schema([Property("subsidy_id", "string", "補助金ID（search_subsidiesで取得したID）", [], None)], ["subsidy_id"])),
    ToolDefinition(
      "search_active_subsidies",
      "現在募集中の補助金を検索します。申請期限が近い順に表示します。",
      Schema([Property("keyword", "string", "検索キーワード", [], None), TargetAreaProperty], ["keyword"]))
  ]

  const ToolNames := {"search_subsidies", "get_subsidy_detail", "search_active_subsidies"}

  // ---------------------------------------------------------------------------------------
  // Wire shapes of the declarations

  /** `{"name", "description", "input_schema"}`. */
  datatype ClaudeTool = ClaudeTool(name: string, description: string, inputSchema: Schema)

  /** `{"type": "function", "function": {"name", "description", "parameters"}}`. */
  datatype FunctionDeclaration = FunctionDeclaration(name: string, description: string, parameters: Schema)
  datatype OpenAITool = OpenAITool(kind: string, decl: FunctionDeclaration)

  function FromClaudeTool(t: ClaudeTool): ToolDefinition {
    ToolDefinition(t.name, t.description, t.inputSchema)
  }

  function FromOpenAITool(t: OpenAITool): ToolDefinition {
    ToolDefinition(t.decl.name, t.decl.description, t.decl.parameters)
  }

  /** The Claude declarations: one per definition, in order, losing nothing. */
  function ClaudeTools(defs: seq<ToolDefinition>): (tools: seq<ClaudeTool>)
    ensures |tools| == |defs|
    ensures forall i :: 0 <= i < |defs| ==> FromClaudeTool(tools[i]) == defs[i]
  {
    seq(|defs|, i requires 0 <= i < |defs| => ClaudeTool(defs[i].name, defs[i].description, defs[i].parameters))
  }

  /** The OpenAI declarations: one function tool per definition, in order, losing nothing. */
  function OpenAITools(defs: seq<ToolDefinition>): (tools: seq<OpenAITool>)
    ensures |tools| == |defs|
    ensures forall i :: 0 <= i < |defs| ==> tools[i].kind == "function" && FromOpenAITool(tools[i]) == defs[i]
  {
    seq(|defs|, i requires 0 <= i < |defs| =>
      OpenAITool("function", FunctionDeclaration(defs[i].name, defs[i].description, defs[i].parameters)))
  }

  /** The conversion loop of `chat_with_claude`. */
  method ToClaudeTools(defs: seq<ToolDefinition>) returns (tools: seq<ClaudeTool>)
    ensures tools == ClaudeTools(defs)
  {
    tools := [];
    for i := 0 to |defs|
      invariant tools == ClaudeTools(defs[..i])
    {
      tools := tools + [ClaudeTool(defs[i].name, defs[i].description, defs[i].parameters)];
    }
    assert defs[..|defs|] == defs;
  }

  /** The conversion loop of `chat_with_openai`. */
  method ToOpenAITools(defs: seq<ToolDefinition>) returns (tools: seq<OpenAITool>)
    ensures tools == OpenAITools(defs)
  {
    tools := [];
    for i := 0 to |defs|
      invariant tools == OpenAITools(defs[..i])
    {
      tools := tools + [OpenAITool("function", FunctionDeclaration(defs[i].name, defs[i].description, defs[i].parameters))];
    }
    assert defs[..|defs|] == defs;
  }

  /** Both wire shapes carry the same name, description and schema at every position. */
  lemma WireShapesAgree(defs: seq<ToolDefinition>)
    ensures |ClaudeTools(defs)| == |OpenAITools(defs)|
    ensures forall i :: 0 <= i < |defs| ==>
              ClaudeTools(defs)[i].name == OpenAITools(defs)[i].decl.name
              && ClaudeTools(defs)[i].description == OpenAITools(defs)[i].decl.description
              && ClaudeTools(defs)[i].inputSchema == OpenAITools(defs)[i].decl.parameters
  {
    forall i | 0 <= i < |defs|
      ensures ClaudeTools(defs)[i].name == OpenAITools(defs)[i].decl.name
    {
      assert FromClaudeTool(ClaudeTools(defs)[i]) == defs[i] == FromOpenAITool(OpenAITools(defs)[i]);
    }
  }

  // ---------------------------------------------------------------------------------------
  // Tool dispatch

  /** `execute_tool`: dispatch by name. A required argument is read with `args[k]`, which
      raises when it is missing or when the arguments are not a dict; an unknown name is a
      failure record and touches no argument. The result stands for its JSON text. */
  function Execute(name: string, args: Json, fetch: Request -> HttpReply): Outcome<ToolResult> {
    if name == "search_subsidies" then
      var keyword :- Subscript(args, "keyword");
      var m := args.fields;
      Search(SearchArgs(keyword, GetOr(m, "sort", JStr("created_date")), GetOr(m, "order", JStr("DESC")),
                        Get(m, "acceptance"), Get(m, "target_area"), JNull, JNull, JNull), fetch)
    else if name == "get_subsidy_detail" then
      var id :- Subscript(args, "subsidy_id");
      Returned(GetSubsidyDetail(id, fetch))
    else if name == "search_active_subsidies" then
      var keyword :- Subscript(args, "keyword");
      Search(ActiveArgs(keyword, Get(args.fields, "target_area")), fetch)
    else
      Returned(Failure("Unknown tool: " + name))
  }

  method ExecuteTool(name: string, args: Json, fetch: Request -> HttpReply) returns (out: Outcome<ToolResult>)
    ensures out == Execute(name, args, fetch)
  {
    if name == "search_subsidies" {
      var keyword := Subscript(args, "keyword");
      if keyword.Raised? {
        return Raised(keyword.error);
      }
      var m := args.fields;
      out := SearchSubsidies(
        SearchArgs(keyword.value, GetOr(m, "sort", JStr("created_date")), GetOr(m, "order", JStr("DESC")),
                   Get(m, "acceptance"), Get(m, "target_area"), JNull, JNull, JNull),
        fetch);
    } else if name == "get_subsidy_detail" {
      var id := Subscript(args, "subsidy_id");
      if id.Raised? {
        return Raised(id.error);
      }
      out := Returned(GetSubsidyDetail(id.value, fetch));
    } else if name == "search_active_subsidies" {
      var keyword := Subscript(args, "keyword");
      if keyword.Raised? {
        return Raised(keyword.error);
      }
      out := SearchActiveSubsidies(keyword.value, Get(args.fields, "target_area"), fetch);
    } else {
      out := Returned(Failure("Unknown tool: " + name));
    }
  }

  /** The dispatcher knows exactly the declared tools. */
  lemma ToolNamesAreDeclared()
    ensures ToolNames == set i | 0 <= i < |ToolsDefinition| :: ToolsDefinition[i].name
  {
    var declared := set i | 0 <= i < |ToolsDefinition| :: ToolsDefinition[i].name;
    assert ToolsDefinition[0].name in declared;
    assert ToolsDefinition[1].name in declared;
    assert ToolsDefinition[2].name in declared;
  }

  /** An unknown tool is a failure record naming it, for any arguments; it never raises. */
  lemma ExecuteUnknownTool(name: string, args: Json, fetch: Request -> HttpReply)
    requires name !in ToolNames
    ensures Execute(name, args, fetch) == Returned(Failure("Unknown tool: " + name))
  {
  }

  /** A search call with no sort and no order searches by creation date, newest first, with
      the optional filters read with `.get`. */
  lemma ExecuteSearchDefaults(m: map<string, Json>, fetch: Request -> HttpReply)
    requires "keyword" in m && "sort" !in m && "order" !in m
    ensures Execute("search_subsidies", JObj(m), fetch)
         == Search(SearchArgs(m["keyword"], JStr("created_date"), JStr("DESC"), Get(m, "acceptance"),
                              Get(m, "target_area"), JNull, JNull, JNull), fetch)
  {
  }

  /** A known tool raises exactly when its required argument cannot be read, or a search
      keyword is a number or boolean that is not falsy (its `len` raises). */
  lemma ExecuteRaises(name: string, args: Json, fetch: Request -> HttpReply)
    requires name in ToolNames
    ensures var key := if name == "get_subsidy_detail" then "subsidy_id" else "keyword";
            Execute(name, args, fetch).Raised? <==>
              || !(args.JObj? && key in args.fields)
              || (key == "keyword" && Truthy(args.fields[key]) && (args.fields[key].JBool? || args.fields[key].JNum?))
  {
    var key := if name == "get_subsidy_detail" then "subsidy_id" else "keyword";
    if args.JObj? && key in args.fields && name != "get_subsidy_detail" {
      var m := args.fields;
      if name == "search_subsidies" {
        SearchRaisesOnlyOnUnsizedKeyword(
          SearchArgs(m[key], GetOr(m, "sort", JStr("created_date")), GetOr(m, "order", JStr("DESC")),
                     Get(m, "acceptance"), Get(m, "target_area"), JNull, JNull, JNull), fetch);
      } else {
        SearchRaisesOnlyOnUnsizedKeyword(ActiveArgs(m[key], Get(m, "target_area")), fetch);
      }
    }
  }

  // ---------------------------------------------------------------------------------------
  // Records shared by the two conversation loops

  /** A caller's message: `{"role": ..., "content": ...}`. */
  datatype ChatMessage = ChatMessage(role: string, content: string)

  /** One entry of the `tool_calls_info` list the loops collect. */
  datatype ToolCallInfo = ToolCallInfo(name: string, arguments: Json, result: ToolResult)

  /** The outcome of one conversation loop:
      `{"success": True, "model", "response", "tool_calls"}` or
      `{"success": False, "error", "model"}`. */
  datatype ChatResult =
    | Answered(model: string, response: string, toolCalls: seq<ToolCallInfo>)
    | Failed(model: string, error: string)

  /** What one pass of a conversation loop's body leads to: the loop's result, or the next
      round on the grown history. */
  datatype Step<M> = Finished(result: ChatResult) | Continued(next: seq<M>)

  const BudgetMessage := "最大反復回数に達しました"
  const DefaultMaxIterations := 5

  /** The number of rounds `while iterations < max_iterations` allows. */
  function Budget(maxIterations: int): nat {
    if maxIterations < 0 then 0 else maxIterations
  }
}
