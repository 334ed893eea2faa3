/** The subsidy-search adapter of the chat backend (backend/api/jgrants.py): local validation,
    request parameters, the HTTP round trip as an oracle, and the reshaping of the reply into
    the result record the tools return. */
module Jgrants {
  import opened PyValues

  const KeywordMessage := "keywordは2～255文字で指定してください"
  const SortMessage := "sortはcreated_date, acceptance_start_datetime, acceptance_end_datetimeのいずれかを指定してください"
  const OrderMessage := "orderはASCまたはDESCを指定してください"
  const MissingIdMessage := "subsidy_idを指定してください"
  const NotFoundMessage := "指定されたIDの補助金が見つかりませんでした"
  const CommErrorPrefix := "API通信エラー: "
  const UnexpectedErrorPrefix := "予期しないエラー: "

  const SortValues: seq<Json> :=
    [JStr("created_date"), JStr("acceptance_start_datetime"), JStr("acceptance_end_datetime")]
  const OrderValues: seq<Json> := [JStr("ASC"), JStr("DESC")]

  /** The keyword arguments of `search_subsidies`, as whatever values the caller passed. */
  datatype SearchArgs = SearchArgs(
    keyword: Json,
    sort: Json,
    order: Json,
    acceptance: Json,
    targetAreaSearch: Json,
    targetNumberOfEmployees: Json,
    usePurpose: Json,
    industry: Json)

  /** The arguments `search_active_subsidies` passes on: currently open programmes, the ones
      closing soonest first. */
  function ActiveArgs(keyword: Json, targetArea: Json): SearchArgs {
    SearchArgs(keyword, JStr("acceptance_end_datetime"), JStr("ASC"), JNum(1), targetArea, JNull, JNull, JNull)
  }

  /** The two GET requests the adapter issues: the search endpoint with query parameters, and
      the lookup of one programme by id. */
  datatype Request = SubsidiesQuery(params: map<string, Json>) | SubsidyById(id: Json)

  /** What the HTTP round trip gives: a transport failure (a requests exception, which covers
      timeouts, connection failures and non-2xx statuses) or the decoded JSON body. */
  datatype HttpReply = TransportError(detail: string) | Body(data: Json)

  /** One search hit, with the fields renamed as the adapter presents them. */
  datatype Summary = Summary(
    id: Json,
    name: Json,
    title: Json,
    targetArea: Json,
    subsidyMaxLimit: Json,
    acceptanceStart: Json,
    acceptanceEnd: Json,
    targetEmployees: Json)

  /** One programme's details; `applicationFormFiles` is the number of attached forms. */
  datatype Detail = Detail(
    id: Json,
    name: Json,
    title: Json,
    targetArea: Json,
    subsidyMaxLimit: Json,
    subsidyRate: Json,
    acceptanceStart: Json,
    acceptanceEnd: Json,
    targetEmployees: Json,
    purpose: Json,
    outline: Json,
    note: Json,
    grantGuidelineUrl: Json,
    applicationFormFiles: nat)

  /** The result dict of an adapter call: `{"error": e, "success": False}`, or a success
      carrying search hits or one programme's details. */
  datatype ToolResult =
    | Failure(error: string)
    | SearchSuccess(count: Json, subsidies: seq<Summary>)
    | DetailSuccess(subsidy: Detail)

  /** The verdict of the local checks that precede any request. */
  datatype Check = Pass | Reject(message: string) | Crash(error: PyError)

  /** A keyword the length check accepts: something with a length between 2 and 255. */
  predicate KeywordOk(keyword: Json) {
    Len(keyword).Returned? && 2 <= Len(keyword).value <= 255
  }

  /** The checks of `search_subsidies`, in their order: keyword, then sort, then order. A keyword
      that is truthy but has no length (a non-zero number, `True`) makes `len` raise. */
  function Validate(a: SearchArgs): (c: Check)
    ensures c.Pass? <==> KeywordOk(a.keyword) && a.sort in SortValues && a.order in OrderValues
    ensures c.Crash? <==> Truthy(a.keyword) && Len(a.keyword).Raised?
    ensures c.Crash? ==> c.error == TypeError
    ensures c == Reject(KeywordMessage) <==> !KeywordOk(a.keyword) && !c.Crash?
    ensures c == Reject(SortMessage) <==> KeywordOk(a.keyword) && a.sort !in SortValues
    ensures c == Reject(OrderMessage) <==>
              KeywordOk(a.keyword) && a.sort in SortValues && a.order !in OrderValues
  {
    if !Truthy(a.keyword) then Reject(KeywordMessage)
    else
      match Len(a.keyword)
      case Raised(e) => Crash(e)
      case Returned(n) =>
        if n < 2 || n > 255 then Reject(KeywordMessage)
        else if a.sort !in SortValues then Reject(SortMessage)
        else if a.order !in OrderValues then Reject(OrderMessage)
        else Pass
  }

  /** The query parameters of a search: keyword, sort and order always; `acceptance` whenever
      it is not None (so 0 is sent); the other filters only when non-empty. */
  function RequestParams(a: SearchArgs): (p: map<string, Json>)
    ensures "keyword" in p && p["keyword"] == a.keyword
    ensures "sort" in p && p["sort"] == a.sort
    ensures "order" in p && p["order"] == a.order
    ensures "acceptance" in p <==> a.acceptance != JNull
    ensures "acceptance" in p ==> p["acceptance"] == a.acceptance
    ensures "target_area_search" in p <==> Truthy(a.targetAreaSearch)
    ensures "target_area_search" in p ==> p["target_area_search"] == a.targetAreaSearch
    ensures "target_number_of_employees" in p <==> Truthy(a.targetNumberOfEmployees)
    ensures "target_number_of_employees" in p ==> p["target_number_of_employees"] == a.targetNumberOfEmployees
    ensures "use_purpose" in p <==> Truthy(a.usePurpose)
    ensures "use_purpose" in p ==> p["use_purpose"] == a.usePurpose
    ensures "industry" in p <==> Truthy(a.industry)
    ensures "industry" in p ==> p["industry"] == a.industry
    ensures p.Keys <= {"keyword", "sort", "order", "acceptance", "target_area_search",
                       "target_number_of_employees", "use_purpose", "industry"}
  {
    var p := map["keyword" := a.keyword, "sort" := a.sort, "order" := a.order];
    var p := if a.acceptance != JNull then p["acceptance" := a.acceptance] else p;
    var p := if Truthy(a.targetAreaSearch) then p["target_area_search" := a.targetAreaSearch] else p;
    var p := if Truthy(a.targetNumberOfEmployees) then p["target_number_of_employees" := a.targetNumberOfEmployees] else p;
    var p := if Truthy(a.usePurpose) then p["use_purpose" := a.usePurpose] else p;
    if Truthy(a.industry) then p["industry" := a.industry] else p
  }

  /** The renaming of one raw search record. */
  function Summarize(raw: map<string, Json>): Summary {
    Summary(
      Get(raw, "id"),
      Get(raw, "name"),
      Get(raw, "title"),
      Get(raw, "target_area_search"),
      Get(raw, "subsidy_max_limit"),
      Get(raw, "acceptance_start_datetime"),
      Get(raw, "acceptance_end_datetime"),
      Get(raw, "target_number_of_employees"))
  }

  /** The raw fields a summary is made of. */
  const SummarySourceKeys := {"id", "name", "title", "target_area_search", "subsidy_max_limit",
                              "acceptance_start_datetime", "acceptance_end_datetime",
                              "target_number_of_employees"}

  /** What `for subsidy in v` hands to the reshaping loop. A list gives its elements. Iterating
      a non-empty dict or string yields strings, whose `.get` raises; other values are not
      iterable. */
  function ResultItems(v: Json): Outcome<seq<Json>> {
    match v
    case JArr(a) => Returned(a)
    case JObj(m) => if m == map[] then Returned([]) else Raised(AttributeError)
    case JStr(s) => if s == "" then Returned([]) else Raised(AttributeError)
    case _ => Raised(TypeError)
  }

  /** The reshaping loop: one summary per raw record, in order; `.get` on the first record that
      is not a dict raises. */
  function SummarizeAll(items: seq<Json>): (r: Outcome<seq<Summary>>)
    ensures r.Returned? <==> forall i :: 0 <= i < |items| ==> items[i].JObj?
    ensures r.Raised? ==> r.error == AttributeError
    ensures r.Returned? ==> |r.value| == |items|
    ensures r.Returned? ==> forall i :: 0 <= i < |items| ==> r.value[i] == Summarize(items[i].fields)
  {
    if items == [] then Returned([])
    else
      var done :- SummarizeAll(items[..|items| - 1]);
      var last := items[|items| - 1];
      if last.JObj? then Returned(done + [Summarize(last.fields)]) else Raised(AttributeError)
  }

  /** The body of the search's `try` after the request: the count under metadata.resultset
      (0 when absent) and the reshaped records (none when `result` is absent). It never makes
      a failure record of its own: it gives a search success or raises, and a body that is not
      a dict raises at the first `.get`. */
  function ShapeSearch(data: Json): (r: Outcome<ToolResult>)
    ensures r.Returned? ==> r.value.SearchSuccess?
    ensures r.Raised? ==> r.error == AttributeError || r.error == TypeError
    ensures !data.JObj? ==> r == Raised(AttributeError)
  {
    if !data.JObj? then Raised(AttributeError)
    else
      var meta := GetOr(data.fields, "metadata", JObj(map[]));
      var resultset :- Lookup(meta, "resultset", JObj(map[]));
      var count :- Lookup(resultset, "count", JNum(0));
      var items := GetOr(data.fields, "result", JArr([]));
      var raw :- ResultItems(items);
      var subsidies :- SummarizeAll(raw);
      Returned(SearchSuccess(count, subsidies))
  }

  /** The two `except` clauses: a transport failure and any other exception become failure
      records with their own prefixes, and a reshaping that returns is passed on unchanged. */
  function CatchReply(reply: HttpReply, shape: Json -> Outcome<ToolResult>): (r: ToolResult)
    ensures reply.TransportError? ==> r.Failure? && CommErrorPrefix <= r.error
    ensures reply.Body? && shape(reply.data).Raised? ==> r.Failure? && UnexpectedErrorPrefix <= r.error
    ensures reply.Body? && shape(reply.data).Returned? ==> r == shape(reply.data).value
  {
    match reply
    case TransportError(d) => Failure(CommErrorPrefix + d)
    case Body(data) =>
      match shape(data)
      case Raised(e) => Failure(UnexpectedErrorPrefix + ErrorText(e))
      case Returned(r) => r
  }

  /** `search_subsidies`. A rejected argument gives a failure record without a request; a
      keyword whose `len` raises propagates the exception; otherwise the outcome is the
      reshaped reply to the one request. */
  function Search(a: SearchArgs, fetch: Request -> HttpReply): Outcome<ToolResult> {
    match Validate(a)
    case Crash(e) => Raised(e)
    case Reject(m) => Returned(Failure(m))
    case Pass => Returned(CatchReply(fetch(SubsidiesQuery(RequestParams(a))), ShapeSearch))
  }

  /** `len(subsidy.get("application_form_files", []))` when that value is truthy, else 0. */
  function FormFileCount(subsidy: map<string, Json>): Outcome<nat> {
    var files := Get(subsidy, "application_form_files");
    if Truthy(files) then Len(files) else Returned(0)
  }

  function DetailOf(s: map<string, Json>, files: nat): Detail {
    Detail(
      Get(s, "id"),
      Get(s, "name"),
      Get(s, "title"),
      Get(s, "target_area_search"),
      Get(s, "subsidy_max_limit"),
      Get(s, "subsidy_rate"),
      Get(s, "acceptance_start_datetime"),
      Get(s, "acceptance_end_datetime"),
      Get(s, "target_number_of_employees"),
      Get(s, "purpose"),
      Get(s, "outline"),
      Get(s, "note"),
      Get(s, "grant_guideline_url"),
      files)
  }

  /** The body of the detail lookup's `try` after the request: an empty or absent `result` is
      "not found"; a list result stands for its first element. Its only failure record is
      "not found", and only the `.get` on a non-dict and the `len` of the forms can raise. */
  function ShapeDetail(data: Json): (r: Outcome<ToolResult>)
    ensures r == Returned(Failure(NotFoundMessage)) <==> data.JObj? && !Truthy(Get(data.fields, "result"))
    ensures r.Returned? ==> r.value.DetailSuccess? || r.value == Failure(NotFoundMessage)
    ensures r.Raised? ==> r.error == AttributeError || r.error == TypeError
  {
    var result :- Lookup(data, "result", JNull);
    if !Truthy(result) then Returned(Failure(NotFoundMessage))
    else
      var subsidy := if result.JArr? then result.items[0] else result;
      if !subsidy.JObj? then Raised(AttributeError)
      else
        var files :- FormFileCount(subsidy.fields);
        Returned(DetailSuccess(DetailOf(subsidy.fields, files)))
  }

  /** `get_subsidy_detail`: an empty id fails before any request; nothing is raised. */
  function GetSubsidyDetail(id: Json, fetch: Request -> HttpReply): (r: ToolResult)
    ensures !Truthy(id) ==> r == Failure(MissingIdMessage)
    ensures Truthy(id) ==> r == CatchReply(fetch(SubsidyById(id)), ShapeDetail)
  {
    if !Truthy(id) then Failure(MissingIdMessage)
    else CatchReply(fetch(SubsidyById(id)), ShapeDetail)
  }

  /** `search_subsidies`, with the parameters built by conditional insertion and the hits
      collected by the loop, as the source does it. */
  method SearchSubsidies(a: SearchArgs, fetch: Request -> HttpReply) returns (r: Outcome<ToolResult>)
    ensures r == Search(a, fetch)
  {
    if !Truthy(a.keyword) {
      return Returned(Failure(KeywordMessage));
    }
    var n := Len(a.keyword);
    if n.Raised? {
      return Raised(n.error);
    }
    if n.value < 2 || n.value > 255 {
      return Returned(Failure(KeywordMessage));
    }
    if a.sort !in SortValues {
      return Returned(Failure(SortMessage));
    }
    if a.order !in OrderValues {
      return Returned(Failure(OrderMessage));
    }

    var params := map["keyword" := a.keyword, "sort" := a.sort, "order" := a.order];
    if a.acceptance != JNull {
      params := params["acceptance" := a.acceptance];
    }
    if Truthy(a.targetAreaSearch) {
      params := params["target_area_search" := a.targetAreaSearch];
    }
    if Truthy(a.targetNumberOfEmployees) {
      params := params["target_number_of_employees" := a.targetNumberOfEmployees];
    }
    if Truthy(a.usePurpose) {
      params := params["use_purpose" := a.usePurpose];
    }
    if Truthy(a.industry) {
      params := params["industry" := a.industry];
    }
    assert params == RequestParams(a);

    var reply := fetch(SubsidiesQuery(params));
    match reply
    case TransportError(d) =>
      r := Returned(Failure(CommErrorPrefix + d));
    case Body(data) =>
      var shaped := ReshapeSearchReply(data);
      r := Returned(shaped);
  }

  /** The reshaping inside the search's `try`, with the loop that fills `subsidies`. */
  method ReshapeSearchReply(data: Json) returns (r: ToolResult)
    ensures r == CatchReply(Body(data), ShapeSearch)
  {
    var meta := Lookup(data, "metadata", JObj(map[]));
    if meta.Raised? {
      return Failure(UnexpectedErrorPrefix + ErrorText(meta.error));
    }
    var resultset := Lookup(meta.value, "resultset", JObj(map[]));
    if resultset.Raised? {
      return Failure(UnexpectedErrorPrefix + ErrorText(resultset.error));
    }
    var count := Lookup(resultset.value, "count", JNum(0));
    if count.Raised? {
      return Failure(UnexpectedErrorPrefix + ErrorText(count.error));
    }
    // `data` is a dict here, since its first `.get` did not raise.
    var items := GetOr(data.fields, "result", JArr([]));
    var raw := ResultItems(items);
    if raw.Raised? {
      return Failure(UnexpectedErrorPrefix + ErrorText(raw.error));
    }
    var records := raw.value;
    var subsidies: seq<Summary> := [];
    var i := 0;
    while i < |records|
      invariant 0 <= i <= |records|
      invariant SummarizeAll(records[..i]) == Returned(subsidies)
    {
      var subsidy := records[i];
      if !subsidy.JObj? {
        return Failure(UnexpectedErrorPrefix + ErrorText(AttributeError));
      }
      assert records[..i + 1][..i] == records[..i];
      subsidies := subsidies + [Summarize(subsidy.fields)];
      i := i + 1;
    }
    assert records[..i] == records;
    r := SearchSuccess(count.value, subsidies);
  }

  /** `search_active_subsidies`: a fixed delegation to the plain search. */
  method SearchActiveSubsidies(keyword: Json, targetArea: Json, fetch: Request -> HttpReply)
    returns (r: Outcome<ToolResult>)
    ensures r == Search(SearchArgs(keyword, JStr("acceptance_end_datetime"), JStr("ASC"), JNum(1),
                                   targetArea, JNull, JNull, JNull), fetch)
  {
    r := SearchSubsidies(ActiveArgs(keyword, targetArea), fetch);
  }

  // ---------------------------------------------------------------------------------------
  // Laws of the adapter

  /** On plain strings the checks are the documented ones: keyword length in [2, 255], then
      the three sort keys, then ASC/DESC. */
  lemma ValidateOnStrings(a: SearchArgs, k: string, s: string, o: string)
    requires a.keyword == JStr(k) && a.sort == JStr(s) && a.order == JStr(o)
    ensures Validate(a) ==
              if |k| < 2 || |k| > 255 then Reject(KeywordMessage)
              else if s !in {"created_date", "acceptance_start_datetime", "acceptance_end_datetime"} then Reject(SortMessage)
              else if o !in {"ASC", "DESC"} then Reject(OrderMessage)
              else Pass
  {
    assert JStr(s) in SortValues <==> s in {"created_date", "acceptance_start_datetime", "acceptance_end_datetime"};
    assert JStr(o) in OrderValues <==> o in {"ASC", "DESC"};
  }

  /** A search the checks reject makes no request: its outcome is the same whatever the HTTP
      oracle would answer, and it is the check's own message (or the `len` exception). */
  lemma LocalFailureMakesNoRequest(a: SearchArgs, fetch1: Request -> HttpReply, fetch2: Request -> HttpReply)
    requires !Validate(a).Pass?
    ensures Search(a, fetch1) == Search(a, fetch2)
    ensures Validate(a).Reject? ==> Search(a, fetch1) == Returned(Failure(Validate(a).message))
    ensures Validate(a).Crash? ==> Search(a, fetch1) == Raised(TypeError)
  {
  }

  /** The only exception a search lets out is the TypeError of `len` on a truthy keyword
      without a length; everything after the checks is caught. */
  lemma SearchRaisesOnlyOnUnsizedKeyword(a: SearchArgs, fetch: Request -> HttpReply)
    ensures Search(a, fetch).Raised? <==> Truthy(a.keyword) && (a.keyword.JBool? || a.keyword.JNum?)
  {
  }

  /** The reshaping after the request never yields a failure record of its own: every failure
      of a search is a check's message, a transport error or an unexpected error, each
      recognisable by its text. */
  lemma SearchFailureTaxonomy(a: SearchArgs, fetch: Request -> HttpReply, e: string)
    requires Search(a, fetch) == Returned(Failure(e))
    ensures || (e in {KeywordMessage, SortMessage, OrderMessage} && !Validate(a).Pass?)
            || (Validate(a).Pass? && CommErrorPrefix <= e
                && fetch(SubsidiesQuery(RequestParams(a))).TransportError?)
            || (Validate(a).Pass? && UnexpectedErrorPrefix <= e
                && fetch(SubsidiesQuery(RequestParams(a))).Body?)
  {
    if Validate(a).Pass? {
      match fetch(SubsidiesQuery(RequestParams(a)))
      case TransportError(d) =>
      case Body(data) =>
    }
  }

  /** The count under metadata.resultset, and 0 when any level is absent. */
  function ReplyCount(d: map<string, Json>): Json
    requires "metadata" in d ==> d["metadata"].JObj?
    requires "metadata" in d && "resultset" in d["metadata"].fields ==> d["metadata"].fields["resultset"].JObj?
  {
    if "metadata" !in d then JNum(0)
    else
      var meta := d["metadata"].fields;
      if "resultset" !in meta then JNum(0)
      else GetOr(meta["resultset"].fields, "count", JNum(0))
  }

  /** A well-formed reply becomes a success whose count is the reply's count and whose
      subsidies are the raw records, renamed, one for one and in the same order. */
  lemma SearchSuccessShape(d: map<string, Json>, items: seq<Json>)
    requires "metadata" in d ==> d["metadata"].JObj?
    requires "metadata" in d && "resultset" in d["metadata"].fields ==> d["metadata"].fields["resultset"].JObj?
    requires GetOr(d, "result", JArr([])) == JArr(items)
    requires forall i :: 0 <= i < |items| ==> items[i].JObj?
    ensures ShapeSearch(JObj(d)).Returned?
    ensures ShapeSearch(JObj(d)).value.SearchSuccess?
    ensures ShapeSearch(JObj(d)).value.count == ReplyCount(d)
    ensures |ShapeSearch(JObj(d)).value.subsidies| == |items|
    ensures forall i :: 0 <= i < |items| ==>
              ShapeSearch(JObj(d)).value.subsidies[i] == Summarize(items[i].fields)
  {
    var r := SummarizeAll(items);
    assert r.Returned?;
  }

  /** A summary depends on the eight source fields only; everything else in a raw record is
      dropped. */
  lemma SummaryKeepsOnlySourceFields(raw1: map<string, Json>, raw2: map<string, Json>)
    requires forall k :: k in SummarySourceKeys ==> Get(raw1, k) == Get(raw2, k)
    ensures Summarize(raw1) == Summarize(raw2)
  {
    assert "id" in SummarySourceKeys && "name" in SummarySourceKeys && "title" in SummarySourceKeys;
    assert "target_area_search" in SummarySourceKeys && "subsidy_max_limit" in SummarySourceKeys;
    assert "acceptance_start_datetime" in SummarySourceKeys && "acceptance_end_datetime" in SummarySourceKeys;
    assert "target_number_of_employees" in SummarySourceKeys;
  }

  /** The active search always passes the checks for an acceptable keyword, and then sends
      acceptance=1, sorted by closing date, soonest first. */
  lemma ActiveSearchRequest(keyword: Json, targetArea: Json)
    requires KeywordOk(keyword)
    ensures Validate(ActiveArgs(keyword, targetArea)).Pass?
    ensures var p := RequestParams(ActiveArgs(keyword, targetArea));
            p["acceptance"] == JNum(1) && p["sort"] == JStr("acceptance_end_datetime") && p["order"] == JStr("ASC")
            && ("target_area_search" in p <==> Truthy(targetArea))
  {
  }

  /** An absent or empty `result` is "not found", a failure distinct from transport errors. */
  lemma DetailNotFound(d: map<string, Json>)
    requires !Truthy(Get(d, "result"))
    ensures ShapeDetail(JObj(d)) == Returned(Failure(NotFoundMessage))
  {
  }

  /** A list `result` stands for its first element: the detail is the same as for a reply
      holding that record alone. */
  lemma DetailListOrObject(d: map<string, Json>, first: map<string, Json>, rest: seq<Json>)
    requires first != map[]
    ensures ShapeDetail(JObj(d["result" := JArr([JObj(first)] + rest)]))
         == ShapeDetail(JObj(d["result" := JObj(first)]))
  {
  }

  /** The one place where the two shapes differ: an empty record inside a list is found (with
      every field None), while the same empty record on its own is "not found". */
  lemma DetailEmptyRecordInList()
    ensures ShapeDetail(JObj(map["result" := JArr([JObj(map[])])])).value.DetailSuccess?
    ensures ShapeDetail(JObj(map["result" := JObj(map[])])) == Returned(Failure(NotFoundMessage))
  {
  }

  /** The number of application forms is the length of the list, and 0 when there is none. */
  lemma DetailFormFiles(s: map<string, Json>, files: seq<Json>)
    requires s != map[]
    ensures var r := ShapeDetail(JObj(map["result" := JObj(s["application_form_files" := JArr(files)])]));
            r.Returned? && r.value.DetailSuccess? && r.value.subsidy.applicationFormFiles == |files|
    ensures "application_form_files" !in s ==>
              var r := ShapeDetail(JObj(map["result" := JObj(s)]));
              r.Returned? && r.value.DetailSuccess? && r.value.subsidy.applicationFormFiles == 0
  {
    assert s["application_form_files" := JArr(files)] != map[] by {
      assert "application_form_files" in s["application_form_files" := JArr(files)];
    }
    var k :| k in s;
  }

  /** Transport failures become failure records with their prefix on both operations. */
  lemma TransportErrorsAreRecords(a: SearchArgs, id: Json, fetch: Request -> HttpReply, detail: string)
    requires forall q :: fetch(q) == TransportError(detail)
    ensures Validate(a).Pass? ==> Search(a, fetch) == Returned(Failure(CommErrorPrefix + detail))
    ensures Truthy(id) ==> GetSubsidyDetail(id, fetch) == Failure(CommErrorPrefix + detail)
  {
  }
}
