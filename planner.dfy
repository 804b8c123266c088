/** The plan-execution part of `query_mcp_server` in the web front end: the
    language model's plan is taken as given (or as a parse failure), each
    planned tool call goes to the MCP client in order, every outcome is
    recorded, and the outcomes are rendered for the answer-writing step.
    The MCP client's `call_tool`, its session and both language-model calls
    are inputs. */
module Planner {
  import opened Wrappers
  import opened Text
  import opened Json

  /** What one `client.call_tool` produced: its text, or the text of the exception. */
  datatype CallOutcome = Returned(text: string) | Raised(message: string)

  /** The arguments of one `client.call_tool(tool_name, parameters)` made. */
  datatype Request = Request(tool: Json, parameters: Json)

  /** One element of `results`: the dict with keys tool, parameters, result or
      error, and reasoning. */
  datatype Entry = Entry(tool: Json, parameters: Json, outcome: CallOutcome, reasoning: Json)

  /** How the MCP session went: `openError` is an exception raised creating
      the client (`Client(server_url)`) or entering `async with client`;
      `closeError` one raised leaving it. */
  datatype Session = Session(openError: Option<string>, closeError: Option<string>)

  /** The dict `query_mcp_server` returns: `{"error": ...}`, or the answer with
      ai_analysis, tool_results, final_answer and server_type. */
  datatype Response =
    | Failure(error: string)
    | Answer(aiAnalysis: Json, toolResults: seq<Entry>, finalAnswer: string, serverType: string)

  /** `client.call_tool(name, parameters)` made as the `k`-th call of the
      session: the result text, or the exception text. The position lets the
      same request succeed early and fail later, as when the connection drops. */
  type ToolCaller = (nat, Json, Json) -> Result<string, string>

  const NotJsonError: string := "AI response was not valid JSON"
  const ConnectErrorPrefix: string := "Failed to connect to MCP server: "
  const ResultSeparator: string := "\n\n"

  /** CPython's text for calling `.get` on a value that is not a dict. */
  function NoAttributeGet(j: Json): string {
    "'" + TypeName(j) + "' object has no attribute 'get'"
  }

  /** CPython's text for iterating over a value that is not iterable. */
  function NotIterable(j: Json): string {
    "'" + TypeName(j) + "' object is not iterable"
  }

  // ---------------------------------------------------------------------
  // Reading the plan
  // ---------------------------------------------------------------------

  /** `for tool_call in ai_plan.get("tool_calls", [])`: the values the loop
      visits, or the text of the exception raised before the first visit
      can reach a `.get` on a dict. Iterating a str or a dict yields str
      values, on which `.get` fails at once. */
  function ToolCalls(plan: Json): (r: Result<seq<Json>, string>)
    ensures !plan.JObj? ==> r == Err(NoAttributeGet(plan))
    ensures plan.JObj? && "tool_calls" !in plan.fields ==> r == Ok([])
    ensures plan.JObj? && "tool_calls" in plan.fields && plan.fields["tool_calls"].JArr? ==>
      r == Ok(plan.fields["tool_calls"].items)
  {
    if !plan.JObj? then Err(NoAttributeGet(plan))
    else
      match Get(plan.fields, "tool_calls", JArr([]))
      case JArr(items) => Ok(items)
      case JStr(s) => if s == "" then Ok([]) else Err(NoAttributeGet(JStr(s[..1])))
      case JObj(m) => if m == map[] then Ok([]) else Err(NoAttributeGet(JStr("")))
      case other => Err(NotIterable(other))
  }

  /** Every planned call is a dict, so the loop goes through the whole plan. */
  predicate AllObjects(calls: seq<Json>) {
    forall k :: 0 <= k < |calls| ==> calls[k].JObj?
  }

  /** Position `k` holds the first planned call that is not a dict. */
  predicate FirstMalformed(calls: seq<Json>, k: int) {
    0 <= k < |calls| && !calls[k].JObj? && forall j :: 0 <= j < k ==> calls[j].JObj?
  }

  /** The number of planned calls the loop reaches before one that is not a
      dict: the whole plan exactly when every call is a dict, and otherwise
      the position of the first malformed one. */
  function DictPrefix(calls: seq<Json>): (n: nat)
    ensures n <= |calls|
    ensures n == |calls| <==> AllObjects(calls)
    ensures n < |calls| ==> FirstMalformed(calls, n)
  {
    if calls == [] || !calls[0].JObj? then 0
    else
      var n := DictPrefix(calls[1..]);
      assert forall k :: 1 <= k < |calls| ==> calls[k] == calls[1..][k - 1];
      1 + n
  }

  /** `tool_call.get("tool")` and `tool_call.get("parameters", {})`. */
  function RequestOf(call: map<string, Json>): (q: Request)
    ensures "tool" in call ==> q.tool == call["tool"]
    ensures "tool" !in call ==> q.tool == JNull
    ensures "parameters" in call ==> q.parameters == call["parameters"]
    ensures "parameters" !in call ==> q.parameters == JObj(map[])
  {
    Request(Get(call, "tool", JNull), Get(call, "parameters", JObj(map[])))
  }

  /** `attempted` is the list of requests for the first `|attempted|` planned
      calls, in plan order, each a dict. */
  predicate RequestsFor(calls: seq<Json>, attempted: seq<Request>) {
    |attempted| <= |calls| &&
    forall k :: 0 <= k < |attempted| ==> calls[k].JObj? && attempted[k] == RequestOf(calls[k].fields)
  }

  // ---------------------------------------------------------------------
  // One planned call
  // ---------------------------------------------------------------------

  /** The entry recorded for one planned call (a dict) made as the `k`-th
      call: the tool name, the parameters defaulting to `{}`, the reasoning
      defaulting to `""`, and either the call's result text or its exception
      text. */
  function EntryOf(k: nat, call: map<string, Json>, callTool: ToolCaller): (e: Entry)
    ensures Request(e.tool, e.parameters) == RequestOf(call)
    ensures "reasoning" in call ==> e.reasoning == call["reasoning"]
    ensures "reasoning" !in call ==> e.reasoning == JStr("")
    ensures e.outcome.Returned? <==> callTool(k, e.tool, e.parameters).Ok?
    ensures e.outcome.Returned? ==> e.outcome.text == callTool(k, e.tool, e.parameters).value
    ensures e.outcome.Raised? ==> e.outcome.message == callTool(k, e.tool, e.parameters).error
  {
    var tool := Get(call, "tool", JNull);
    var parameters := Get(call, "parameters", JObj(map[]));
    var outcome := match callTool(k, tool, parameters)
      case Ok(text) => Returned(text)
      case Err(message) => Raised(message);
    Entry(tool, parameters, outcome, Get(call, "reasoning", JStr("")))
  }

  /** `results` records every planned call, in plan order, the `k`-th entry
      from the `k`-th call. */
  predicate RecordsPlan(calls: seq<Json>, callTool: ToolCaller, results: seq<Entry>)
    requires AllObjects(calls)
  {
    |results| == |calls| && forall k :: 0 <= k < |calls| ==> results[k] == EntryOf(k, calls[k].fields, callTool)
  }

  // ---------------------------------------------------------------------
  // The loop
  // ---------------------------------------------------------------------

  /** The `for tool_call in ...` loop inside `async with client`. A failing
      call is recorded and the loop goes on; a planned call that is not a dict
      raises outside the per-call `try`, which ends the loop with that error.
      `attempted` lists the `call_tool` requests made, in the order made. */
  method ExecutePlan(calls: seq<Json>, callTool: ToolCaller)
    returns (r: Result<seq<Entry>, string>, attempted: seq<Request>)
    ensures RequestsFor(calls, attempted) && |attempted| == DictPrefix(calls)
    ensures r.Ok? <==> AllObjects(calls)
    ensures r.Ok? ==> RecordsPlan(calls, callTool, r.value)
    ensures r.Err? ==> FirstMalformed(calls, |attempted|) && r.error == NoAttributeGet(calls[|attempted|])
  {
    var results: seq<Entry> := [];
    attempted := [];
    for i := 0 to |calls|
      invariant |results| == i && RequestsFor(calls, attempted) && |attempted| == i
      invariant forall k :: 0 <= k < i ==> results[k] == EntryOf(k, calls[k].fields, callTool)
    {
      if !calls[i].JObj? {
        return Err(NoAttributeGet(calls[i])), attempted;
      }
      var toolCall := calls[i].fields;
      var toolName := Get(toolCall, "tool", JNull);
      var parameters := Get(toolCall, "parameters", JObj(map[]));
      var reasoning := Get(toolCall, "reasoning", JStr(""));
      attempted := attempted + [Request(toolName, parameters)];
      match callTool(i, toolName, parameters) {
        case Ok(text) =>
          results := results + [Entry(toolName, parameters, Returned(text), reasoning)];
        case Err(message) =>
          results := results + [Entry(toolName, parameters, Raised(message), reasoning)];
      }
    }
    return Ok(results), attempted;
  }

  // ---------------------------------------------------------------------
  // Rendering the outcomes
  // ---------------------------------------------------------------------

  /** Python's `str()` of a tool name inside an f-string. Only None, bools,
      strs and ints are spelled as Python does. */
  function ShowTool(j: Json): string {
    match j
    case JNull => "None"
    case JBool(b) => if b then "True" else "False"
    case JInt(i) => if i < 0 then "-" + Digits(-i) else Digits(i)
    case JStr(s) => s
    case _ => "<" + TypeName(j) + ">"
  }

  /** `r.get('result', r.get('error', 'No result'))`. Every entry carries one of
      the two keys, so the `'No result'` default is never reached. */
  function OutcomeText(o: CallOutcome): string {
    match o
    case Returned(text) => text
    case Raised(message) => message
  }

  /** `f"Tool: {r['tool']}\nResult: {...}"` for one entry. */
  function Block(e: Entry): string {
    "Tool: " + ShowTool(e.tool) + "\nResult: " + OutcomeText(e.outcome)
  }

  function Blocks(results: seq<Entry>): (bs: seq<string>)
    ensures |bs| == |results| && forall k :: 0 <= k < |results| ==> bs[k] == Block(results[k])
  {
    seq(|results|, k requires 0 <= k < |results| => Block(results[k]))
  }

  /** `results_text = "\n\n".join(...)`. */
  function ResultsText(results: seq<Entry>): string {
    Join(Blocks(results), ResultSeparator)
  }

  /** The rendering keeps plan order: the text for `a + b` is that for `a`,
      the separator, then that for `b`. */
  lemma ResultsTextConcat(a: seq<Entry>, b: seq<Entry>)
    requires a != [] && b != []
    ensures ResultsText(a + b) == ResultsText(a) + ResultSeparator + ResultsText(b)
  {
    assert Blocks(a + b) == Blocks(a) + Blocks(b);
    JoinSplit(Blocks(a), Blocks(b), ResultSeparator);
  }

  /** No outcome renders the text of the other kind: a result shows its text,
      an error its message, and the block names the tool first. */
  lemma ResultsTextOfOne(e: Entry)
    ensures ResultsText([e]) == "Tool: " + ShowTool(e.tool) + "\nResult: " +
      (if e.outcome.Returned? then e.outcome.text else e.outcome.message)
  {
    assert Blocks([e]) == [Block(e)];
  }

  // ---------------------------------------------------------------------
  // Front-end choices
  // ---------------------------------------------------------------------

  /** `"Local" if server_url.endswith(".py") else "Cloud"`. */
  function ServerType(serverUrl: string): (t: string)
    ensures t == "Local" || t == "Cloud"
  {
    if EndsWith(serverUrl, ".py") then "Local" else "Cloud"
  }

  /** The local server is chosen exactly for a URL that is some text followed by `.py`. */
  lemma ServerTypeLocalIff(serverUrl: string)
    ensures ServerType(serverUrl) == "Local" <==> exists p: string :: p + ".py" == serverUrl
  {
    EndsWithIffConcat(serverUrl, ".py");
  }

  /** `custom_question if custom_question.strip() else user_question`. */
  function FinalQuestion(custom: string, selected: string): (q: string)
    ensures (exists i :: 0 <= i < |custom| && !IsSpace(custom[i])) ==> q == custom
    ensures (forall i :: 0 <= i < |custom| ==> IsSpace(custom[i])) ==> q == selected
  {
    StripEmptyIffBlank(custom);
    if Strip(custom) != "" then custom else selected
  }

  // ---------------------------------------------------------------------
  // query_mcp_server
  // ---------------------------------------------------------------------

  /** `query_mcp_server(question, server_url, api_key)` after the planning
      request: `plan` is `json.loads` of the model's reply (None when it is not
      valid JSON), `session` says whether creating, opening and closing the MCP
      client raised, `callTool` is the session's `call_tool`, and `synthesize`
      is the answer-writing request given the question and `results_text`.
      `attempted` lists the `call_tool` requests made, in the order made. */
  method QueryMcpServer(question: string, serverUrl: string, plan: Option<Json>, session: Session,
                        callTool: ToolCaller, synthesize: (string, string) -> string)
    returns (resp: Response, attempted: seq<Request>)
    ensures plan.None? ==> resp == Failure(NotJsonError) && attempted == []
    ensures plan.Some? && session.openError.Some? ==>
      resp == Failure(ConnectErrorPrefix + session.openError.value) && attempted == []
    ensures plan.Some? && session.openError.None? && ToolCalls(plan.value).Err? ==> attempted == []
    ensures plan.Some? && session.openError.None? && ToolCalls(plan.value).Ok? ==>
      var calls := ToolCalls(plan.value).value;
      RequestsFor(calls, attempted) && |attempted| == DictPrefix(calls)
    ensures plan.Some? && session.openError.None? && session.closeError.Some? ==>
      resp == Failure(ConnectErrorPrefix + session.closeError.value)
    ensures plan.Some? && session == Session(None, None) && ToolCalls(plan.value).Err? ==>
      resp == Failure(ConnectErrorPrefix + ToolCalls(plan.value).error)
    ensures plan.Some? && session == Session(None, None) && ToolCalls(plan.value).Ok? ==>
      var calls := ToolCalls(plan.value).value;
      && (resp.Answer? <==> AllObjects(calls))
      && (resp.Failure? ==>
            FirstMalformed(calls, |attempted|) &&
            resp.error == ConnectErrorPrefix + NoAttributeGet(calls[|attempted|]))
      && (resp.Answer? ==>
            && resp.aiAnalysis == plan.value
            && RecordsPlan(calls, callTool, resp.toolResults)
            && resp.finalAnswer == synthesize(question, ResultsText(resp.toolResults))
            && resp.serverType == ServerType(serverUrl))
  {
    attempted := [];
    if plan.None? {
      return Failure(NotJsonError), attempted;
    }
    var aiPlan := plan.value;
    if session.openError.Some? {
      return Failure(ConnectErrorPrefix + session.openError.value), attempted;
    }
    var executed: Result<seq<Entry>, string>;
    match ToolCalls(aiPlan) {
      case Err(message) => executed := Err(message);
      case Ok(calls) => executed, attempted := ExecutePlan(calls, callTool);
    }
    if session.closeError.Some? {
      return Failure(ConnectErrorPrefix + session.closeError.value), attempted;
    }
    if executed.Err? {
      return Failure(ConnectErrorPrefix + executed.error), attempted;
    }
    var results := executed.value;
    var resultsText := ResultsText(results);
    var finalAnswer := synthesize(question, resultsText);
    return Answer(aiPlan, results, finalAnswer, ServerType(serverUrl)), attempted;
  }
}
