/** The MCP server (jgrants_server.py): its tool list and its tool-call handler. Its search
    and detail functions are line-for-line copies of those of backend/api/jgrants.py and are
    modelled by `Jgrants.Search` and `Jgrants.GetSubsidyDetail`. */
module McpServer {
  import opened PyValues
  import opened Jgrants
  import opened Chat

  /** `Tool(name, description, inputSchema)`. */
  datatype McpTool = McpTool(name: string, description: string, inputSchema: Schema)

  /** `TextContent(type="text", text=...)`; the text stands for the result's JSON text. */
  datatype TextContent = TextContent(kind: string, text: ToolResult)

  /** `handle_list_tools`: the backend's three declarations, except that sort and order carry
      their defaults and the active search is described as a convenience function. */
  const ListedTools: seq<McpTool> := [
    McpTool(
      "search_subsidies",
      "Jグランツで補助金を検索します。キーワードで検索し、募集中のみや地域でフィルタリングできます。",
      Schema(
        [ KeywordProperty,
          AcceptanceProperty,
          TargetAreaProperty,
          Property("sort", "string", "ソート項目", SortValues, Some(JStr("created_date"))),
          Property("order", "string", "ソート順", OrderValues, Some(JStr("DESC")))],
        ["keyword"])),
    McpTool(
      "get_subsidy_detail",
      "補助金IDを指定して詳細情報を取得します。補助率、概要、注意事項などの詳細が取得できます。",
      Schema([Property("subsidy_id", "string", "補助金ID（search_subsidiesで取得したID）", [], None)], ["subsidy_id"])),
    McpTool(
      "search_active_subsidies",
      "現在募集中の補助金を検索します（便利関数）。申請期限が近い順に表示します。",
      Schema([Property("keyword", "string", "検索キーワード", [], None), TargetAreaProperty], ["keyword"]))
  ]

  function PropertyNames(s: Schema): seq<string> {
    seq(|s.properties|, i requires 0 <= i < |s.properties| => s.properties[i].name)
  }

  /** Three tools with distinct names, each requiring exactly its key argument; at every
      position the name, the required list and the property names are the backend's. */
  lemma ListedToolsMatchBackend()
    ensures |ListedTools| == |ToolsDefinition| == 3
    ensures forall i, j :: 0 <= i < j < |ListedTools| ==> ListedTools[i].name != ListedTools[j].name
    ensures ListedTools[0].inputSchema.required == ["keyword"]
    ensures ListedTools[1].inputSchema.required == ["subsidy_id"]
    ensures ListedTools[2].inputSchema.required == ["keyword"]
    ensures forall i :: 0 <= i < |ListedTools| ==>
              && ListedTools[i].name == ToolsDefinition[i].name
              && ListedTools[i].inputSchema.required == ToolsDefinition[i].parameters.required
              && PropertyNames(ListedTools[i].inputSchema) == PropertyNames(ToolsDefinition[i].parameters)
    ensures (set i | 0 <= i < |ListedTools| :: ListedTools[i].name) == ToolNames
  {
    ToolNamesAreDeclared();
    assert PropertyNames(ListedTools[0].inputSchema) == ["keyword", "acceptance", "target_area", "sort", "order"];
    assert PropertyNames(ToolsDefinition[0].parameters) == ["keyword", "acceptance", "target_area", "sort", "order"];
    assert PropertyNames(ListedTools[1].inputSchema) == PropertyNames(ToolsDefinition[1].parameters);
    assert PropertyNames(ListedTools[2].inputSchema) == PropertyNames(ToolsDefinition[2].parameters);
    var listed := set i | 0 <= i < |ListedTools| :: ListedTools[i].name;
    assert ListedTools[0].name in listed && ListedTools[1].name in listed && ListedTools[2].name in listed;
  }

  /** Only the sort and order properties of the search tool carry a default, and these are
      the defaults the handler applies. */
  lemma ListedDefaults()
    ensures forall i, k :: 0 <= i < |ListedTools| && 0 <= k < |ListedTools[i].inputSchema.properties| ==>
              var p := ListedTools[i].inputSchema.properties[k];
              p.default.Some? <==> i == 0 && (p.name == "sort" || p.name == "order")
    ensures ListedTools[0].inputSchema.properties[3].default == Some(JStr("created_date"))
    ensures ListedTools[0].inputSchema.properties[4].default == Some(JStr("DESC"))
  {
  }

  /** `[TextContent(type="text", text=json.dumps(result))]`. */
  function Wrap(result: ToolResult): seq<TextContent> {
    [TextContent("text", result)]
  }

  /** `handle_call_tool`: the same dispatch and defaults as the backend's `execute_tool`, with
      the result wrapped as one text item; a missing required argument raises KeyError, and an
      unknown name raises ValueError instead of producing a failure record. */
  function CallTool(name: string, arguments: map<string, Json>, fetch: Request -> HttpReply)
    : (r: Outcome<seq<TextContent>>)
    ensures name in ToolNames ==>
              r == match Execute(name, JObj(arguments), fetch)
                   case Returned(result) => Returned(Wrap(result))
                   case Raised(e) => Raised(e)
    ensures name !in ToolNames ==> r == Raised(ValueError("Unknown tool: " + name))
    ensures r.Returned? ==> |r.value| == 1 && r.value[0].kind == "text"
  {
    if name == "search_subsidies" then
      var keyword :- Subscript(JObj(arguments), "keyword");
      var result :- Search(SearchArgs(keyword, GetOr(arguments, "sort", JStr("created_date")),
                                      GetOr(arguments, "order", JStr("DESC")), Get(arguments, "acceptance"),
                                      Get(arguments, "target_area"), JNull, JNull, JNull), fetch);
      Returned(Wrap(result))
    else if name == "get_subsidy_detail" then
      var id :- Subscript(JObj(arguments), "subsidy_id");
      Returned(Wrap(GetSubsidyDetail(id, fetch)))
    else if name == "search_active_subsidies" then
      var keyword :- Subscript(JObj(arguments), "keyword");
      var result :- Search(SearchArgs(keyword, JStr("acceptance_end_datetime"), JStr("ASC"), JNum(1),
                                      Get(arguments, "target_area"), JNull, JNull, JNull), fetch);
      Returned(Wrap(result))
    else
      Raised(ValueError("Unknown tool: " + name))
  }

  /** A known tool raises exactly when its required key is missing (a KeyError naming it) or a
      search keyword is a non-zero number or true (its `len` raises). */
  lemma CallToolRaises(name: string, arguments: map<string, Json>, fetch: Request -> HttpReply)
    requires name in ToolNames
    ensures var key := if name == "get_subsidy_detail" then "subsidy_id" else "keyword";
            && (CallTool(name, arguments, fetch).Raised? <==>
                  || key !in arguments
                  || (key == "keyword" && Truthy(arguments[key]) && (arguments[key].JBool? || arguments[key].JNum?)))
            && (key !in arguments ==> CallTool(name, arguments, fetch) == Raised(KeyError(key)))
  {
    ExecuteRaises(name, JObj(arguments), fetch);
  }

  /** An unknown tool raises whatever the arguments, and the backend's dispatcher answers the
      same name with a failure record instead. */
  lemma UnknownToolRaises(name: string, arguments: map<string, Json>, fetch: Request -> HttpReply)
    requires name !in ToolNames
    ensures CallTool(name, arguments, fetch).Raised?
    ensures CallTool(name, arguments, fetch).error.ValueError?
    ensures Execute(name, JObj(arguments), fetch) == Returned(Failure(CallTool(name, arguments, fetch).error.message))
  {
  }
}
