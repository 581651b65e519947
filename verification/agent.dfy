/** The role agents and the two Convex actions built on them
    (client/convex/agent.ts). Thread creation and the model call are not
    modelled; their outcomes are inputs. */
module Agent {

  import opened Results
  import opened Json
  import opened Chat

  datatype Role = Planner | Researcher | Analyst | Synthesizer

  /** The opening sentence of each role's preamble, which names the role. */
  function Title(role: Role): string {
    match role
    case Planner => "You are a Research Planner."
    case Researcher => "You are a Research Agent."
    case Analyst => "You are an Analysis Agent."
    case Synthesizer => "You are a Synthesis Agent."
  }

  /** What each role is told to do after its opening sentence, including the
      line break and indentation the template literals carry. */
  function Duties(role: Role): string {
    match role
    case Planner =>
      " Your task is to break down the research topic into clear, actionable subtasks. \n"
      + "    Output should be a JSON array of subtasks with descriptions."
    case Researcher =>
      " Your task is to conduct in-depth research on the given subtask.\n"
      + "    Provide detailed, well-structured information with relevant sources."
    case Analyst =>
      " Your task is to analyze the research findings, \n"
      + "    identify patterns, and provide meaningful insights."
    case Synthesizer =>
      " Your task is to combine all research findings into a \n"
      + "    comprehensive, well-structured final report."
  }

  /** `p` is a prefix of `p + q`. */
  lemma OpensWith(p: string, q: string)
    ensures |p| <= |p + q| && (p + q)[..|p|] == p
  {
    assert (p + q)[..|p|] == p;
  }

  /** A prefix of a prefix is a prefix. */
  lemma PrefixOfPrefix(c: string, i: string, t: string)
    requires |i| <= |c| && c[..|i|] == i
    requires |t| <= |i| && i[..|t|] == t
    ensures |t| <= |c| && c[..|t|] == t
  {
    assert c[..|t|] == c[..|i|][..|t|];
  }

  /** The fixed instruction preamble of each role: its opening sentence,
      then its duties. */
  function Instructions(role: Role): (r: string)
    ensures |Title(role)| <= |r| && r[..|Title(role)|] == Title(role)
  {
    OpensWith(Title(role), Duties(role));
    Title(role) + Duties(role)
  }

  const InputMarker := "\n\nInput: "

  /** The message `runAgent` sends: one user turn holding the role's preamble,
      unchanged, then the input after a fixed marker. */
  function RunAgent(role: Role, input: string): (r: seq<Message>)
    ensures |r| == 1 && r[0].role == "user"
    ensures |Instructions(role)| + |InputMarker| <= |r[0].content|
    ensures r[0].content[..|Instructions(role)|] == Instructions(role)
    ensures r[0].content[|Instructions(role)| + |InputMarker|..] == input
    ensures r[0].content == Instructions(role) + InputMarker + input
  {
    var c := Instructions(role) + InputMarker + input;
    assert c[|Instructions(role)| + |InputMarker|..] == input;
    UserTurn(c)
  }

  /** The four preambles differ within their opening sentence. */
  lemma TitlesDiffer(a: Role, b: Role) returns (k: nat)
    requires a != b
    ensures k < |Title(a)| && k < |Title(b)| && Title(a)[k] != Title(b)[k]
  {
    if a.Analyst? || b.Analyst? {
      k := 9;
    } else if a.Synthesizer? || b.Synthesizer? {
      k := 10;
    } else {
      k := 19;
    }
  }

  /** Every message a role sends opens with that role's title. */
  lemma OpensWithTitle(role: Role, input: string)
    ensures var c := RunAgent(role, input)[0].content;
      |Title(role)| <= |c| && c[..|Title(role)|] == Title(role)
  {
    var c, i, t := RunAgent(role, input)[0].content, Instructions(role), Title(role);
    PrefixOfPrefix(c, i, t);
  }

  /** Two strings that both open with `p` and `q` agree wherever both are defined. */
  lemma SharedPrefix(c: string, p: string, q: string, k: nat)
    requires |p| <= |c| && c[..|p|] == p
    requires |q| <= |c| && c[..|q|] == q
    requires k < |p| && k < |q|
    ensures p[k] == q[k]
  {
    assert p[k] == c[..|p|][k] == c[k] == c[..|q|][k];
  }

  /** Messages of different roles differ. */
  lemma SameContentSameRole(a: Role, x: string, b: Role, y: string)
    requires RunAgent(a, x)[0].content == RunAgent(b, y)[0].content
    ensures a == b
  {
    if a != b {
      var k := TitlesDiffer(a, b);
      OpensWithTitle(a, x);
      OpensWithTitle(b, y);
      SharedPrefix(RunAgent(a, x)[0].content, Title(a), Title(b), k);
      assert false;
    }
  }

  /** The message sent determines both the role and the input. */
  lemma RunAgentInjective(a: Role, x: string, b: Role, y: string)
    requires RunAgent(a, x) == RunAgent(b, y)
    ensures a == b && x == y
  {
    var c := RunAgent(a, x)[0].content;
    assert c == RunAgent(b, y)[0].content;
    SameContentSameRole(a, x, b, y);
    var n := |Instructions(a)| + |InputMarker|;
    assert x == c[n..];
    assert y == c[n..];
  }

  /** `String.prototype.split(",")`: the comma-free runs of `s`, in order. */
  function SplitComma(s: string): (r: seq<string>)
    ensures |r| >= 1
    decreases |s|
  {
    if |s| == 0 then [""]
    else
      var rest := SplitComma(s[1..]);
      if s[0] == ',' then [""] + rest
      else [[s[0]] + rest[0]] + rest[1..]
  }

  /** Splitting text with no comma gives the text alone. */
  lemma {:induction false} SplitNoComma(a: string)
    requires forall i :: 0 <= i < |a| ==> a[i] != ','
    ensures SplitComma(a) == [a]
    decreases |a|
  {
    if |a| > 0 {
      SplitNoComma(a[1..]);
      assert [a[0]] + a[1..] == a;
    }
  }

  /** Splitting at the first comma. */
  lemma {:induction false} SplitAtComma(a: string, b: string)
    requires forall i :: 0 <= i < |a| ==> a[i] != ','
    ensures SplitComma(a + "," + b) == [a] + SplitComma(b)
    decreases |a|
  {
    if |a| == 0 {
      assert a + "," + b == [','] + b;
      assert (a + "," + b)[1..] == b;
    } else {
      SplitAtComma(a[1..], b);
      assert (a + "," + b)[1..] == a[1..] + "," + b;
      assert [a[0]] + a[1..] == a;
    }
  }

  /** The researcher's input can be read back into the sub-queries when
      there is at least one and none contains a comma. */
  lemma {:induction false} JoinCommaRoundTrip(xs: seq<string>)
    requires |xs| >= 1
    requires forall k, i :: 0 <= k < |xs| && 0 <= i < |xs[k]| ==> xs[k][i] != ','
    ensures SplitComma(JoinComma(xs)) == xs
    decreases |xs|
  {
    if |xs| == 1 {
      SplitNoComma(xs[0]);
    } else {
      JoinCommaRoundTrip(xs[1..]);
      SplitAtComma(xs[0], JoinComma(xs[1..]));
      assert [xs[0]] + xs[1..] == xs;
    }
  }

  /** No sub-queries and one empty sub-query give the same input, so the
      round trip needs at least one sub-query. */
  lemma JoinCommaLosesEmpty()
    ensures JoinComma([]) == JoinComma([""])
  {
  }

  /** `${xs}` for an array of strings: the elements joined with commas. */
  function JoinComma(xs: seq<string>): (r: string)
    ensures |xs| == 1 ==> r == xs[0]
    ensures |xs| == 0 ==> r == ""
    decreases |xs|
  {
    if |xs| == 0 then ""
    else if |xs| == 1 then xs[0]
    else xs[0] + "," + JoinComma(xs[1..])
  }

  const FailurePrefix := "Research workflow failed: "

  /** What an action returns: the new thread's id and the parsed reply. */
  datatype ActionValue = ActionValue(threadId: string, subtasks: Json)

  /** One run of an action: the requests it sent, and its result (`Failure`
      being the Error it throws). */
  datatype ActionRun = ActionRun(sent: seq<seq<Message>>, result: Result<ActionValue, string>)

  /** The shared body of both actions: create a thread, run one role once,
      `JSON.parse` the text, and wrap any exception as
      `Research workflow failed: <String(error)>`. The parsed value's shape
      is not checked. */
  function RunAction(role: Role, input: string, thread: Result<string, string>, reply: Reply): (r: ActionRun)
    ensures |r.sent| <= 1
    ensures |r.sent| == 1 <==> thread.Success?
    ensures |r.sent| == 1 ==> r.sent[0] == RunAgent(role, input)
    ensures r.result.Success? <==> thread.Success? && reply.Replied? && reply.decoded.Parsed?
    ensures r.result.Success? ==>
      thread.Success? && reply.Replied? && r.result.value == ActionValue(thread.value, reply.decoded.value)
    ensures r.result.Failure? ==>
      && |FailurePrefix| <= |r.result.error|
      && r.result.error[..|FailurePrefix|] == FailurePrefix
      && r.result.error[|FailurePrefix|..] ==
           (if thread.Failure? then thread.error
            else if reply.CallFailed? then reply.description
            else reply.decoded.error)
  {
    match thread
    case Failure(e) => ActionRun([], Failure(FailurePrefix + e))
    case Success(id) =>
      var sent := [RunAgent(role, input)];
      match reply
      case CallFailed(e) => ActionRun(sent, Failure(FailurePrefix + e))
      case Replied(_, NotJson(e)) => ActionRun(sent, Failure(FailurePrefix + e))
      case Replied(_, Parsed(v)) => ActionRun(sent, Success(ActionValue(id, v)))
  }

  /** `runSubTaskAgent`: the planner role on the query. */
  function RunSubTaskAgent(query: string, thread: Result<string, string>, reply: Reply): (r: ActionRun)
    ensures |r.sent| <= 1
    ensures |r.sent| == 1 <==> thread.Success?
    ensures |r.sent| == 1 ==> r.sent[0] == RunAgent(Planner, query)
    ensures r.result.Success? <==> thread.Success? && reply.Replied? && reply.decoded.Parsed?
    ensures r.result.Success? ==>
      thread.Success? && reply.Replied? && r.result.value == ActionValue(thread.value, reply.decoded.value)
    ensures r.result.Failure? ==>
      && |FailurePrefix| <= |r.result.error|
      && r.result.error[..|FailurePrefix|] == FailurePrefix
      && r.result.error[|FailurePrefix|..] ==
           (if thread.Failure? then thread.error
            else if reply.CallFailed? then reply.description
            else reply.decoded.error)
  {
    RunAction(Planner, query, thread, reply)
  }

  /** `searchWebAgent`: the researcher role, run once on the whole list of
      sub-queries rather than once per sub-query. */
  function SearchWebAgent(subQueries: seq<string>, thread: Result<string, string>, reply: Reply): (r: ActionRun)
    ensures |r.sent| <= 1
    ensures |r.sent| == 1 <==> thread.Success?
    ensures |r.sent| == 1 ==> r.sent[0] == RunAgent(Researcher, JoinComma(subQueries))
    ensures r.result.Success? <==> thread.Success? && reply.Replied? && reply.decoded.Parsed?
    ensures r.result.Success? ==>
      thread.Success? && reply.Replied? && r.result.value == ActionValue(thread.value, reply.decoded.value)
    ensures r.result.Failure? ==>
      && |FailurePrefix| <= |r.result.error|
      && r.result.error[..|FailurePrefix|] == FailurePrefix
      && r.result.error[|FailurePrefix|..] ==
           (if thread.Failure? then thread.error
            else if reply.CallFailed? then reply.description
            else reply.decoded.error)
  {
    RunAction(Researcher, JoinComma(subQueries), thread, reply)
  }

  /** Unlike the planning tool, the planner action has no fallback: a reply
      that is not JSON fails the action. */
  lemma NoPlannerFallback(query: string, id: string, text: string, error: string)
    ensures RunSubTaskAgent(query, Success(id), Replied(text, NotJson(error))).result
            == Failure(FailurePrefix + error)
  {
  }
}
