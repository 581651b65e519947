/** The argument schema both research tools declare,
    `z.object({ topic: z.string().min(1, "Topic cannot be empty") })`,
    which the tool runner checks before `execute` is called. */
module ToolInput {

  import opened Results
  import opened Json

  /** Why a tool call did not produce a value. */
  datatype ToolError =
    | InvalidToolInput          // the arguments failed the schema; `execute` never ran
    | ToolFailed(message: string)  // `execute` threw

  /** The topic, when the arguments are an object whose `topic` is a
      non-empty string (other keys are ignored). */
  function CheckArgs(args: Json): (r: Result<string, ToolError>)
    ensures r.Success? <==> exists t :: |t| >= 1 && Field(args, "topic") == Some(JStr(t))
    ensures r.Success? ==> Field(args, "topic") == Some(JStr(r.value)) && |r.value| >= 1
    ensures r.Failure? ==> r.error == InvalidToolInput
  {
    match Field(args, "topic")
    case Some(JStr(t)) => if |t| >= 1 then Success(t) else Failure(InvalidToolInput)
    case _ => Failure(InvalidToolInput)
  }

  /** The arguments a caller passes for a given topic. */
  function TopicArgs(topic: string): Json {
    JObj(map["topic" := JStr(topic)])
  }

  /** Exactly the empty topic is refused. */
  lemma CheckTopicArgs(topic: string)
    ensures CheckArgs(TopicArgs(topic)).Success? <==> |topic| > 0
    ensures |topic| > 0 ==> CheckArgs(TopicArgs(topic)) == Success(topic)
  {
  }
}
