/** The Langflow client of the Python server (server/research.py): build the
    run URL, merge the caller's tweaks over the defaults, shape the payload
    and headers, and post. The POST itself is not modelled; its outcome is
    an input. */
module Langflow {

  import opened Results
  import opened Json

  /** The environment variables the server reads. */
  datatype Env = Env(
    baseApiUrl: Option<string>,
    langflowId: Option<string>,
    flowId: Option<string>,
    applicationToken: Option<string>,
    langflowEndpoint: Option<string>,
    tavilyApiKey: Option<string>)

  /** How an optional string renders inside an f-string: unset is `None`. */
  function PyStr(v: Option<string>): string {
    match v
    case Some(s) => s
    case None => "None"
  }

  /** Python truthiness of an optional string. */
  predicate PyTruthyStr(v: Option<string>) {
    v.Some? && |v.value| > 0
  }

  const MissingTokenMessage := "APPLICATION_TOKEN must be set in .env file"

  /** Importing the module: refused unless the token is set and non-empty. */
  function Import(env: Env): (r: Result<Env, string>)
    ensures r.Success? <==> PyTruthyStr(env.applicationToken)
    ensures r.Success? ==> r.value == env
    ensures r.Failure? ==> r.error == MissingTokenMessage
  {
    if PyTruthyStr(env.applicationToken) then Success(env) else Failure(MissingTokenMessage)
  }

  const RunPath := "/api/v1/run/"

  /** `f"{BASE_API_URL}/lf/{LANGFLOW_ID}/api/v1/run/{endpoint}"`. */
  function ApiUrl(env: Env, endpoint: Option<string>): (r: string)
    ensures var head := PyStr(env.baseApiUrl) + "/lf/" + PyStr(env.langflowId);
      && |head| + |RunPath| + |PyStr(endpoint)| == |r|
      && r[..|head|] == head
      && r[|head|..|head| + |RunPath|] == RunPath
      && r[|head| + |RunPath|..] == PyStr(endpoint)
  {
    var head := PyStr(env.baseApiUrl) + "/lf/" + PyStr(env.langflowId);
    var r := head + RunPath + PyStr(endpoint);
    assert r[|head|..|head| + |RunPath|] == RunPath;
    r
  }

  const PromptComponent := "Prompt-IeW7V"
  const SearchComponent := "TavilySearchComponent-xDlkf"

  const PromptTemplate :=
    "\n\nRESEARCH PLAN: {previous_response}\n\nUse Tavily Search to investigate the queries and analyze the findings.\n"
    + "Focus on academic and reliable sources.\n\nSteps:\n1. Search using provided queries\n2. Analyze search results\n"
    + "3. Verify source credibility\n4. Extract key findings\n\nFormat findings as:\n\nSEARCH RESULTS:\n"
    + "[Key findings from searches]\n\nSOURCE ANALYSIS:\n[Credibility assessment]\n\nMAIN INSIGHTS:\n"
    + "[Critical discoveries]\n\nEVIDENCE QUALITY:\n[Evaluation of findings]"

  /** `DEFAULT_TWEAKS`: settings for the flow's prompt and search components.
      The search API key is whatever the environment holds (null if unset). */
  function DefaultTweaks(env: Env): (r: map<string, Json>)
    ensures r.Keys == {PromptComponent, SearchComponent}
    ensures r[SearchComponent].JObj? && "api_key" in r[SearchComponent].fields
    ensures r[SearchComponent].fields["api_key"] == (if env.tavilyApiKey.Some? then JStr(env.tavilyApiKey.value) else JNull)
    ensures r[PromptComponent].JObj? && "template" in r[PromptComponent].fields
  {
    map[
      PromptComponent := JObj(map[
        "previous_response" := JStr(""),
        "template" := JStr(PromptTemplate),
        "tool_placeholder" := JStr("")]),
      SearchComponent := JObj(map[
        "api_key" := (match env.tavilyApiKey case Some(k) => JStr(k) case None => JNull),
        "include_answer" := JBool(true),
        "include_images" := JBool(true),
        "max_results" := JNum(5),
        "search_depth" := JStr("advanced"),
        "topic" := JStr("general")])]
  }

  /** `final_tweaks = DEFAULT_TWEAKS.copy(); if tweaks: final_tweaks.update(tweaks)`.
      A falsy value keeps the defaults; an object overrides them key by key,
      each caller value replacing the default wholesale; any other truthy
      value makes `update` raise (`None` here, the raise being the caller's
      to report). The defaults themselves are a value and never change. */
  function MergeTweaks(defaults: map<string, Json>, tweaks: Json): (r: Option<map<string, Json>>)
    ensures !PyTruthy(tweaks) ==> r == Some(defaults)
    ensures PyTruthy(tweaks) && !tweaks.JObj? ==> r.None?
    ensures tweaks.JObj? ==> r.Some?
    ensures tweaks.JObj? ==>
      && r.value.Keys == defaults.Keys + tweaks.fields.Keys
      && (forall k :: k in tweaks.fields ==> r.value[k] == tweaks.fields[k])
      && (forall k :: k in defaults && k !in tweaks.fields ==> r.value[k] == defaults[k])
  {
    if !PyTruthy(tweaks) then Some(defaults)
    else if tweaks.JObj? then Some(defaults + tweaks.fields)
    else None
  }

  /** Overriding is shallow: a caller's component settings replace the
      default ones entirely, dropping default keys the caller left out. */
  lemma MergeIsShallow(env: Env, template: string)
    ensures var caller := JObj(map[PromptComponent := JObj(map["template" := JStr(template)])]);
      var merged := MergeTweaks(DefaultTweaks(env), caller);
      && merged.Some?
      && merged.value[PromptComponent] == JObj(map["template" := JStr(template)])
      && "previous_response" !in merged.value[PromptComponent].fields
      && merged.value[SearchComponent] == DefaultTweaks(env)[SearchComponent]
  {
  }

  /** The arguments of one `run_flow` call. */
  datatype FlowCall = FlowCall(
    message: Json,
    endpoint: Option<string>,
    outputType: string,
    inputType: string,
    tweaks: Json,
    applicationToken: Option<string>)

  /** A call that relies on every default parameter. */
  function DefaultCall(env: Env, message: Json): (c: FlowCall)
    ensures c.endpoint == env.flowId && c.outputType == "chat" && c.inputType == "chat"
    ensures c.tweaks == JNull && c.applicationToken.None?
  {
    FlowCall(message, env.flowId, "chat", "chat", JNull, None)
  }

  /** The request body: exactly four fields. */
  function Payload(call: FlowCall, tweaks: map<string, Json>): (p: Json)
    ensures p.JObj? && p.fields.Keys == {"input_value", "output_type", "input_type", "tweaks"}
    ensures p.fields["input_value"] == call.message
    ensures p.fields["output_type"] == JStr(call.outputType) && p.fields["input_type"] == JStr(call.inputType)
    ensures p.fields["tweaks"] == JObj(tweaks)
  {
    JObj(map[
      "input_value" := call.message,
      "output_type" := JStr(call.outputType),
      "input_type" := JStr(call.inputType),
      "tweaks" := JObj(tweaks)])
  }

  /** Request headers: none without a token, otherwise a bearer token and a
      JSON content type. */
  function Headers(token: Option<string>): (h: Option<map<string, string>>)
    ensures h.None? <==> !PyTruthyStr(token)
    ensures h.Some? ==>
      && h.value.Keys == {"Authorization", "Content-Type"}
      && h.value["Authorization"] == "Bearer " + token.value
      && h.value["Content-Type"] == "application/json"
  {
    if PyTruthyStr(token) then
      Some(map["Authorization" := "Bearer " + token.value, "Content-Type" := "application/json"])
    else None
  }

  /** What `requests.post(...)` followed by `raise_for_status()` and `.json()`
      produced: a decoded body, or a `RequestException` (connection failure,
      error status, undecodable body) with its `str(e)`. */
  datatype PostOutcome = Responded(body: Json) | RequestFailed(description: string)

  datatype FlowRequest = FlowRequest(url: string, payload: Json, headers: Option<map<string, string>>)

  /** One `run_flow` call: the request sent (none when the tweaks could not
      be merged) and the result, `Failure` carrying `str(e)` of what it
      raises. */
  datatype FlowRun = FlowRun(sent: Option<FlowRequest>, result: Result<Json, string>)

  const ApiErrorPrefix := "Langflow API error: "

  /** `run_flow`. `updateError` is `str(e)` of the error `dict.update`
      raises on a truthy non-object; it escapes unwrapped, since the merge
      happens before the `try`. A request failure is re-raised with the
      `Langflow API error: ` prefix. */
  function RunFlow(env: Env, call: FlowCall, post: PostOutcome, updateError: string): (r: FlowRun)
    ensures r.sent.Some? <==> MergeTweaks(DefaultTweaks(env), call.tweaks).Some?
    ensures r.sent.Some? ==>
      var merged := MergeTweaks(DefaultTweaks(env), call.tweaks).value;
      r.sent.value == FlowRequest(ApiUrl(env, call.endpoint), Payload(call, merged), Headers(call.applicationToken))
    ensures r.sent.None? ==> r.result == Failure(updateError)
    ensures r.sent.Some? ==>
      (r.result.Success? <==> post.Responded?)
      && (post.Responded? ==> r.result.value == post.body)
      && (post.RequestFailed? ==> r.result.error == ApiErrorPrefix + post.description)
  {
    match MergeTweaks(DefaultTweaks(env), call.tweaks)
    case None => FlowRun(None, Failure(updateError))
    case Some(merged) =>
      var request := FlowRequest(ApiUrl(env, call.endpoint), Payload(call, merged), Headers(call.applicationToken));
      match post
      case Responded(body) => FlowRun(Some(request), Success(body))
      case RequestFailed(d) => FlowRun(Some(request), Failure(ApiErrorPrefix + d))
  }

  /** Without caller tweaks the payload carries exactly the defaults. */
  lemma NoTweaksMeansDefaults(env: Env, call: FlowCall, post: PostOutcome, updateError: string)
    requires call.tweaks == JNull || call.tweaks == JObj(map[])
    ensures var r := RunFlow(env, call, post, updateError);
      r.sent.Some? && r.sent.value.payload.fields["tweaks"] == JObj(DefaultTweaks(env))
  {
  }

  /** `run_flow(message)` alone: it posts to the configured flow with the
      default tweaks, `chat` types and no headers. */
  lemma DefaultCallRequest(env: Env, message: Json, post: PostOutcome, updateError: string)
    ensures var r := RunFlow(env, DefaultCall(env, message), post, updateError);
      && r.sent.Some?
      && r.sent.value.url == ApiUrl(env, env.flowId)
      && r.sent.value.payload == JObj(map[
           "input_value" := message,
           "output_type" := JStr("chat"),
           "input_type" := JStr("chat"),
           "tweaks" := JObj(DefaultTweaks(env))])
      && r.sent.value.headers.None?
  {
    var p := Payload(DefaultCall(env, message), DefaultTweaks(env));
    assert p.fields.Keys == {"input_value", "output_type", "input_type", "tweaks"};
  }
}
