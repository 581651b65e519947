/** The web-results tool (client/convex/agents/tools/fetchWebResults.ts):
    whatever the reply parses to is returned as is; every failure becomes
    one fixed error. There is no fallback value. */
module FetchWebResults {

  import opened Results
  import opened Json
  import opened Chat
  import opened ToolInput
  import PlanTask

  /** The search prompt: the topic sits on a line of its own. */
  const Prompt := Around(SearchIntro, "\n", "\n", SearchOutro)

  const SearchIntro := "\nYou are a web search expert. Fetch web results for the following topic:"
  const SearchOutro := "\nReturn only the web results in a JSON array format. Do not include any additional text or explanation."

  const FailedMessage := "Failed to fetch web results"

  /** The one message sent to the model: the search prompt with the topic
      verbatim on a line of its own. */
  function Request(topic: string): (r: seq<Message>)
    ensures |r| == 1 && r[0].role == "user"
    ensures r[0].content == Fill(Prompt, topic)
    ensures var c, n := r[0].content, |SearchIntro| + 1;
      && n + |topic| + 1 <= |c|
      && c[n - 1..n] == "\n"
      && c[n..n + |topic|] == topic
      && c[n + |topic|..n + |topic| + 1] == "\n"
  {
    FillAround(SearchIntro, "\n", "\n", SearchOutro, topic);
    UserTurn(Fill(Prompt, topic))
  }

  /** `execute`: the parsed reply, unchecked (it need not be an array), or the
      fixed error whether the call or the parse failed. The original error
      is dropped. */
  function Execute(topic: string, reply: Reply): (r: Result<Json, string>)
    ensures r.Success? <==> reply.Replied? && reply.decoded.Parsed?
    ensures r.Success? ==> r.value == reply.decoded.value
    ensures r.Failure? ==> r.error == FailedMessage
  {
    match reply
    case Replied(_, Parsed(v)) => Success(v)
    case _ => Failure(FailedMessage)
  }

  /** The tool as the runner invokes it: arguments are checked first. */
  function Run(args: Json, reply: Reply): (r: Result<Json, ToolError>)
    ensures CheckArgs(args).Failure? ==> r.Failure? && r.error == InvalidToolInput
    ensures CheckArgs(args).Success? ==>
      (r.Success? <==> reply.Replied? && reply.decoded.Parsed?)
    ensures CheckArgs(args).Success? && r.Failure? ==> r.error == ToolFailed(FailedMessage)
    ensures r.Success? ==> reply.Replied? && reply.decoded == Parsed(r.value)
  {
    match CheckArgs(args)
    case Failure(e) => Failure(e)
    case Success(topic) =>
      match Execute(topic, reply)
      case Success(v) => Success(v)
      case Failure(m) => Failure(ToolFailed(m))
  }

  /** The two tools' policies side by side, on the same reply: where this
      tool fails, the planning tool falls back; where the planning tool
      accepts a list, this tool returns that same list as JSON. */
  lemma FailFastVersusFallback(topic: string, reply: Reply)
    ensures Execute(topic, reply).Failure? ==> PlanTask.Execute(topic, reply) == PlanTask.Fallback(topic)
    ensures PlanTask.Accepted(reply) ==>
      Execute(topic, reply) == Success(PlanTask.Encode(PlanTask.Execute(topic, reply)))
  {
  }
}
