/** The `/chat` route of the Python server (server/app.py): validate the
    query, call `run_flow`, and shape every outcome into a status code and a
    JSON body. */
module ChatServer {

  import opened Results
  import opened Json
  import opened Langflow

  /** What the route answers with: a JSON reply, or an exception raised
      outside the handler's `try` (Flask's generic error page). */
  datatype Answer = Reply(code: int, body: Json) | Unhandled

  /** The route's reply together with the Langflow request it made, if any. */
  datatype Handled = Handled(answer: Answer, sent: Option<FlowRequest>)

  const QueryRequiredMessage := "Research query is required"

  function ErrorBody(message: string): Json {
    JObj(map["status" := JStr("error"), "message" := JStr(message)])
  }

  function SuccessBody(data: Json): Json {
    JObj(map["status" := JStr("success"), "data" := data])
  }

  /** The `data` field of a successful reply: a result object's `result`
      entry, or the whole result otherwise. */
  function Unwrap(result: Json): (d: Json)
    ensures result.JObj? && "result" in result.fields ==> d == result.fields["result"]
    ensures !(result.JObj? && "result" in result.fields) ==> d == result
  {
    match Field(result, "result")
    case Some(v) => v
    case None => result
  }

  /** The `run_flow` call the route makes for a query and tweaks. */
  function CallFor(env: Env, query: Json, tweaks: Json): (c: FlowCall)
    ensures c.message == query && c.tweaks == tweaks
    ensures c.endpoint == env.langflowEndpoint && c.applicationToken == env.applicationToken
    ensures c.outputType == "chat" && c.inputType == "chat"
  {
    FlowCall(query, env.langflowEndpoint, "chat", "chat", tweaks, env.applicationToken)
  }

  /** `research()` on a request body. A missing `query` is `''` and missing
      `tweaks` is `None`; a falsy query is refused with 400 before
      `run_flow` runs; any exception from `run_flow` becomes 500 with its
      text. A body that is not a JSON object makes `data.get` raise. */
  function Research(env: Env, data: Json, post: PostOutcome, updateError: string): (r: Handled)
    ensures !data.JObj? ==> r == Handled(Unhandled, None)
    ensures data.JObj? ==> r.answer.Reply?
    ensures data.JObj? && !PyTruthy(Field(data, "query").GetOr(JStr(""))) ==>
      r == Handled(Reply(400, ErrorBody(QueryRequiredMessage)), None)
    ensures data.JObj? && PyTruthy(Field(data, "query").GetOr(JStr(""))) ==>
      var run := RunFlow(env, CallFor(env, Field(data, "query").value, Field(data, "tweaks").GetOr(JNull)), post, updateError);
      && r.sent == run.sent
      && (run.result.Success? ==> r.answer == Reply(200, SuccessBody(Unwrap(run.result.value))))
      && (run.result.Failure? ==> r.answer == Reply(500, ErrorBody(run.result.error)))
  {
    if !data.JObj? then Handled(Unhandled, None)
    else
      var query := Field(data, "query").GetOr(JStr(""));
      var tweaks := Field(data, "tweaks").GetOr(JNull);
      if !PyTruthy(query) then Handled(Reply(400, ErrorBody(QueryRequiredMessage)), None)
      else
        var run := RunFlow(env, CallFor(env, query, tweaks), post, updateError);
        match run.result
        case Success(result) => Handled(Reply(200, SuccessBody(Unwrap(result))), run.sent)
        case Failure(e) => Handled(Reply(500, ErrorBody(e)), run.sent)
  }

  /** The reply's status field reads `success` exactly when the query was
      truthy and `run_flow` returned; every reply is 200, 400 or 500. */
  lemma SuccessExactly(env: Env, data: Json, post: PostOutcome, updateError: string)
    requires data.JObj?
    ensures var r := Research(env, data, post, updateError);
      var ok := PyTruthy(Field(data, "query").GetOr(JStr("")))
        && RunFlow(env, CallFor(env, Field(data, "query").value, Field(data, "tweaks").GetOr(JNull)), post, updateError).result.Success?;
      && r.answer.Reply?
      && (r.answer.code == 200 || r.answer.code == 400 || r.answer.code == 500)
      && (Field(r.answer.body, "status") == Some(JStr("success")) <==> ok)
      && (Field(r.answer.body, "status") == Some(JStr("error")) <==> !ok)
      && (ok <==> r.answer.code == 200)
  {
  }

  /** A request without a query never reaches Langflow. */
  lemma MissingQueryRefused(env: Env, data: Json, post: PostOutcome, updateError: string)
    requires data.JObj? && "query" !in data.fields
    ensures Research(env, data, post, updateError) == Handled(Reply(400, ErrorBody(QueryRequiredMessage)), None)
  {
  }

  /** Once both modules have imported, the token is set, so every request
      the route sends carries a bearer token. */
  lemma RequestsAreAuthorized(env: Env, data: Json, post: PostOutcome, updateError: string)
    requires Import(env).Success?
    ensures var r := Research(env, data, post, updateError);
      r.sent.Some? ==>
        (r.sent.value.headers.Some?
         && r.sent.value.headers.value["Authorization"] == "Bearer " + env.applicationToken.value)
  {
  }

  /** A Langflow failure reaches the client as a 500 whose message carries
      the `Langflow API error: ` prefix. */
  lemma LangflowFailureReported(env: Env, query: string, description: string, updateError: string)
    requires |query| > 0
    ensures Research(env, JObj(map["query" := JStr(query)]), RequestFailed(description), updateError).answer
            == Reply(500, ErrorBody(ApiErrorPrefix + description))
  {
  }
}
