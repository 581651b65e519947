/** The planning tool (client/convex/agents/tools/planTask.ts): ask the model
    for a JSON array of subtasks, accept it only if it is an array of
    non-empty strings, and otherwise fall back to five generic subtasks built
    from the topic. It never fails once its arguments are accepted. */
module PlanTask {

  import opened Results
  import opened Json
  import opened Chat
  import opened ToolInput

  /** The planning prompt: the topic goes between the quotes of its
      `Query:` line. */
  const Prompt := Around(PlanIntro, QueryOpen, QueryClose, PlanOutro)

  const PlanIntro :=
    "\nYou are a research planning expert. Break down the following research query into 3-5 specific, distinct, and actionable subtasks. Each subtask should:\n"
    + "- Focus on a unique aspect of the query.\n"
    + "- Be clear, concise, and actionable (e.g., start with a verb like \"Identify\", \"Analyze\", \"Search\").\n"
    + "- Contribute to a comprehensive research report when combined.\n"
    + "- Avoid overlap with other subtasks.\n\n"

  const PlanOutro :=
    "\n\nReturn a JSON array of subtasks, where each subtask is a string describing a specific research task. For example:\n"
    + "[\"Identify key challenges in X\", \"Search for recent studies on Y\", \"Analyze the impact of Z\"]\n\n"
    + "Ensure the subtasks are tailored to the query's context and domain.\n"

  const QueryOpen := "Query: \""
  const QueryClose := "\""

  /** The one message sent to the model for a topic: the planning prompt,
      with the topic between the quotes of its `Query:` line. */
  function Request(topic: string): (r: seq<Message>)
    ensures |r| == 1 && r[0].role == "user"
    ensures r[0].content == Fill(Prompt, topic)
    ensures var c, n := r[0].content, |PlanIntro| + |QueryOpen|;
      && n + |topic| + |QueryClose| <= |c|
      && c[n - |QueryOpen|..n] == QueryOpen
      && c[n..n + |topic|] == topic
      && c[n + |topic|..n + |topic| + |QueryClose|] == QueryClose
  {
    FillAround(PlanIntro, QueryOpen, QueryClose, PlanOutro, topic);
    UserTurn(Fill(Prompt, topic))
  }

  /** `subtaskSchema.parse`: the strings of an array whose every element is a
      non-empty string; nothing for any other value. The array's length is
      not bounded. */
  function ValidateSubtasks(v: Json): (r: Option<seq<string>>)
    ensures r.Some? <==> v.JArr? && forall i :: 0 <= i < |v.items| ==> v.items[i].JStr? && |v.items[i].s| > 0
    ensures r.Some? ==> |r.value| == |v.items| && forall i :: 0 <= i < |r.value| ==> v.items[i] == JStr(r.value[i])
  {
    if v.JArr? then NonEmptyStrings(v.items) else None
  }

  function NonEmptyStrings(items: seq<Json>): (r: Option<seq<string>>)
    ensures r.Some? <==> forall i :: 0 <= i < |items| ==> items[i].JStr? && |items[i].s| > 0
    ensures r.Some? ==> |r.value| == |items| && forall i :: 0 <= i < |items| ==> items[i] == JStr(r.value[i])
    decreases |items|
  {
    if |items| == 0 then Some([])
    else match items[0]
      case JStr(s) =>
        if |s| == 0 then None
        else
          var rest := NonEmptyStrings(items[1..]);
          if rest.None? then None else Some([s] + rest.value)
      case _ => None
  }

  /** The JSON array of strings a list of subtasks is written as. */
  function Encode(xs: seq<string>): (v: Json)
    ensures v.JArr? && |v.items| == |xs|
    ensures forall i :: 0 <= i < |xs| ==> v.items[i] == JStr(xs[i])
  {
    JArr(seq(|xs|, i requires 0 <= i < |xs| => JStr(xs[i])))
  }

  /** A list of non-empty strings passes the schema unchanged: same elements,
      same order, duplicates kept. */
  lemma ValidateEncode(xs: seq<string>)
    requires forall i :: 0 <= i < |xs| ==> |xs[i]| > 0
    ensures ValidateSubtasks(Encode(xs)) == Some(xs)
  {
    var r := ValidateSubtasks(Encode(xs));
    assert r.Some?;
    assert forall i :: 0 <= i < |xs| ==> JStr(r.value[i]) == JStr(xs[i]);
    assert r.value == xs;
  }

  const Verbs := ["Define", "Identify", "Search", "Compare", "Summarize"]

  function Quoted(topic: string): string {
    "\"" + topic + "\""
  }

  /** The five subtasks returned when anything goes wrong: one per verb in
      `Verbs`, in that order, each ending in the quoted topic. */
  function Fallback(topic: string): (r: seq<string>)
    ensures |r| == 5
    ensures forall i :: 0 <= i < 5 ==>
      && |Verbs[i]| + |Quoted(topic)| <= |r[i]|
      && r[i][..|Verbs[i]|] == Verbs[i]
      && r[i][|r[i]| - |Quoted(topic)|..] == Quoted(topic)
  {
    LeadsStartWithVerbs();
    var q := Quoted(topic);
    seq(5, i requires 0 <= i < 5 => Leads[i] + q)
  }

  /** The fixed text before the quoted topic in each fallback subtask. */
  const Leads := [
    Verbs[0] + " key concepts and terms in the query: ",
    Verbs[1] + " relevant domains or disciplines for ",
    Verbs[2] + " for recent literature or data related to ",
    Verbs[3] + " different approaches or findings for ",
    Verbs[4] + " potential implications or conclusions for "]

  lemma LeadsStartWithVerbs()
    ensures |Leads| == |Verbs| == 5
    ensures forall i :: 0 <= i < 5 ==> |Verbs[i]| <= |Leads[i]| && Leads[i][..|Verbs[i]|] == Verbs[i]
  {
  }

  /** The fallback itself satisfies the schema. */
  lemma FallbackIsValid(topic: string)
    ensures ValidateSubtasks(Encode(Fallback(topic))) == Some(Fallback(topic))
  {
    ValidateEncode(Fallback(topic));
  }

  /** The topic sits between the quotes after any lead-in text. */
  lemma QuotedReadBack(lead: string, topic: string)
    ensures var x := lead + Quoted(topic);
      |lead| + 2 <= |x| && x[|lead| + 1..|x| - 1] == topic
  {
    var x := lead + Quoted(topic);
    assert x[|lead| + 1..|x| - 1] == topic;
  }

  /** Different topics give different fallbacks: the topic can be read back. */
  lemma FallbackInjective(a: string, b: string)
    requires Fallback(a) == Fallback(b)
    ensures a == b
  {
    var lead := Leads[0];
    assert Fallback(a)[0] == lead + Quoted(a);
    assert Fallback(b)[0] == lead + Quoted(b);
    QuotedReadBack(lead, a);
    QuotedReadBack(lead, b);
  }

  /** The model's reply was usable: non-empty text decoding to a valid list. */
  predicate Accepted(reply: Reply) {
    && reply.Replied?
    && |reply.text| > 0
    && reply.decoded.Parsed?
    && ValidateSubtasks(reply.decoded.value).Some?
  }

  /** `execute`: the validated list when the reply is usable, the fallback
      in every other case (failed call, empty text, text that is not JSON,
      a value that is not an array of non-empty strings). */
  function Execute(topic: string, reply: Reply): (r: seq<string>)
    ensures Accepted(reply) ==> Encode(r) == reply.decoded.value
    ensures !Accepted(reply) ==> r == Fallback(topic)
  {
    if Accepted(reply) then
      var xs := ValidateSubtasks(reply.decoded.value).value;
      assert Encode(xs) == reply.decoded.value;
      xs
    else Fallback(topic)
  }

  /** The tool as the runner invokes it: arguments are checked first; once
      they pass, the call always succeeds. */
  function Run(args: Json, reply: Reply): (r: Result<seq<string>, ToolError>)
    ensures r.Failure? <==> CheckArgs(args).Failure?
    ensures r.Failure? ==> r.error == InvalidToolInput
    ensures r.Success? ==> r.value == Execute(CheckArgs(args).value, reply)
  {
    match CheckArgs(args)
    case Success(topic) => Success(Execute(topic, reply))
    case Failure(e) => Failure(e)
  }

  /** A model that answers with a JSON array of non-empty strings is taken at
      its word: those strings, in that order, without deduplication. */
  lemma VerbatimPlan(topic: string, text: string, xs: seq<string>)
    requires |text| > 0
    requires forall i :: 0 <= i < |xs| ==> |xs[i]| > 0
    ensures Execute(topic, Replied(text, Parsed(Encode(xs)))) == xs
  {
    ValidateEncode(xs);
  }

  /** An empty array passes the schema, so the plan can be empty. */
  lemma EmptyPlanAccepted(topic: string, text: string)
    requires |text| > 0
    ensures Execute(topic, Replied(text, Parsed(JArr([])))) == []
  {
  }

  /** Each way a reply can be unusable yields the fallback. */
  lemma FallbackCases(topic: string, text: string, v: Json, error: string, i: nat)
    ensures Execute(topic, CallFailed(error)) == Fallback(topic)
    ensures Execute(topic, Replied("", Parsed(v))) == Fallback(topic)
    ensures Execute(topic, Replied(text, NotJson(error))) == Fallback(topic)
    ensures !v.JArr? ==> Execute(topic, Replied(text, Parsed(v))) == Fallback(topic)
    ensures v.JArr? && i < |v.items| && !v.items[i].JStr? ==> Execute(topic, Replied(text, Parsed(v))) == Fallback(topic)
    ensures v.JArr? && i < |v.items| && v.items[i] == JStr("") ==> Execute(topic, Replied(text, Parsed(v))) == Fallback(topic)
  {
  }

  /** The only way to get no subtasks is a model that returned `[]`. */
  lemma EmptyOnlyFromEmptyArray(topic: string, reply: Reply)
    requires Execute(topic, reply) == []
    ensures reply.Replied? && reply.decoded == Parsed(JArr([]))
  {
  }
}
