/** The research workflow's handler (client/convex/workflow.ts): run the
    planner action, then turn its parsed reply into sub-queries. The fan-out
    over sub-queries is commented out in the handler and is not modelled. */
module Workflow {

  import opened Results
  import opened Json
  import opened Text
  import opened Chat
  import Agent
  import opened SubtaskSplit

  /** `Array.isArray(subtasks) && typeof subtasks[0] === "string"`. */
  predicate StartsWithString(subtasks: Json) {
    subtasks.JArr? && |subtasks.items| > 0 && subtasks.items[0].JStr?
  }

  /** The sub-queries the handler derives from the planner's parsed reply:
      only a leading string element is split; anything else gives none. */
  function SubQueries(subtasks: Json): (r: seq<string>)
    ensures !StartsWithString(subtasks) ==> r == []
    ensures StartsWithString(subtasks) ==> r == Subtasks(subtasks.items[0].s)
    ensures forall i :: 0 <= i < |r| ==> |r[i]| > 0 && Trimmed(r[i])
  {
    if StartsWithString(subtasks) then Subtasks(subtasks.items[0].s) else []
  }

  /** The whole handler: a planner action that throws fails the workflow;
      otherwise the sub-queries are returned. What the caller sees of the
      action's error is whatever `fetchAction` rethrows for it, which the
      framework decides: `relay` stands for that mapping. */
  function ResearchWorkflow(query: string, thread: Result<string, string>, reply: Reply, relay: string -> string): (r: Result<seq<string>, string>)
    ensures r.Failure? <==> Agent.RunSubTaskAgent(query, thread, reply).result.Failure?
    ensures r.Failure? ==> r.error == relay(Agent.RunSubTaskAgent(query, thread, reply).result.error)
    ensures r.Success? ==> reply.Replied? && reply.decoded.Parsed? && r.value == SubQueries(reply.decoded.value)
  {
    match Agent.RunSubTaskAgent(query, thread, reply).result
    case Failure(e) => Failure(relay(e))
    case Success(v) => Success(SubQueries(v.subtasks))
  }

  /** Elements after the first never contribute. */
  lemma OnlyFirstElementSplit(first: string, rest: seq<Json>)
    ensures SubQueries(JArr([JStr(first)] + rest)) == Subtasks(first)
  {
  }

  /** A planner that answers with a JSON array of four one-line subtasks
      yields only the first of them. */
  lemma FourSubtasksKeepFirst(query: string, id: string, text: string, xs: seq<string>, relay: string -> string)
    requires |xs| == 4
    requires forall i :: 0 <= i < 4 ==> NoSeparatorIn(xs[i]) && !AllSpace(xs[i])
    ensures ResearchWorkflow(query, Success(id), Replied(text, Parsed(JArr(seq(4, i requires 0 <= i < 4 => JStr(xs[i]))))), relay)
            == Success([Trim(xs[0])])
  {
    var v := JArr(seq(4, i requires 0 <= i < 4 => JStr(xs[i])));
    PlannedValue(query, id, text, v, relay);
    assert StartsWithString(v) && v.items[0].s == xs[0];
    SubtasksNoSeparator(xs[0]);
  }

  lemma TwoItems(a: string, sep: string, b: string)
    requires NoSeparatorIn(a + "\n") && IsSeparator(sep) && NoSeparatorIn(b)
    requires !AllSpace(a) && !AllSpace(b)
    ensures Subtasks(a + sep + b) == [Trim(a), Trim(b)]
  {
    SubtasksAtFirstSeparator(a, sep, b);
    SubtasksNoSeparator(b);
    TrimBlank(a);
    assert NonEmpty([Trim(a)]) == [Trim(a)];
  }

  /** A parsed planner reply reaches the splitter unchanged. */
  lemma PlannedValue(query: string, id: string, text: string, v: Json, relay: string -> string)
    ensures ResearchWorkflow(query, Success(id), Replied(text, Parsed(v)), relay) == Success(SubQueries(v))
  {
    var run := Agent.RunSubTaskAgent(query, Success(id), Replied(text, Parsed(v)));
    assert run.result.Success?;
  }

  /** A planner reply that is not JSON fails the whole workflow; there is
      no fallback plan at this level. */
  lemma UnparseablePlanFails(query: string, id: string, text: string, error: string, relay: string -> string)
    ensures ResearchWorkflow(query, Success(id), Replied(text, NotJson(error)), relay)
            == Failure(relay(Agent.FailurePrefix + error))
  {
  }

  /** A plan given as one numbered string is split into its items. */
  lemma NumberedPlanSplit(query: string, id: string, text: string, a: string, sep: string, b: string, relay: string -> string)
    requires NoSeparatorIn(a + "\n") && IsSeparator(sep) && NoSeparatorIn(b)
    requires !AllSpace(a) && !AllSpace(b)
    ensures ResearchWorkflow(query, Success(id), Replied(text, Parsed(JArr([JStr(a + sep + b)]))), relay)
            == Success([Trim(a), Trim(b)])
  {
    var v := JArr([JStr(a + sep + b)]);
    PlannedValue(query, id, text, v, relay);
    assert SubQueries(v) == Subtasks(a + sep + b);
    TwoItems(a, sep, b);
  }
}
