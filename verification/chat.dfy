/** The single capability every tool and agent uses: send chat messages to
    the language model and get text back. The call is not modelled; its
    outcome is an input to each operation. */
module Chat {

  import opened Json

  /** One chat turn as sent to the model. */
  datatype Message = Message(role: string, content: string)

  /** What a model call produced: an exception (with its `String(error)`
      text), or reply text together with what `JSON.parse` makes of it. */
  datatype Reply =
    | CallFailed(description: string)
    | Replied(text: string, decoded: Decoded)

  /** A single user turn, the only shape of request this core sends. */
  function UserTurn(content: string): (r: seq<Message>)
    ensures |r| == 1 && r[0].role == "user" && r[0].content == content
  {
    [Message("user", content)]
  }

  /** A prompt with one hole, filled by string interpolation. */
  datatype Template = Template(head: string, tail: string)

  /** The prompt for `x`: the fixed head, `x` verbatim, the fixed tail. */
  function Fill(t: Template, x: string): (r: string)
    ensures |r| == |t.head| + |x| + |t.tail|
    ensures r[..|t.head|] == t.head && r[|t.head| + |x|..] == t.tail
    ensures r[|t.head|..|t.head| + |x|] == x
  {
    t.head + x + t.tail
  }

  /** A template whose hole sits right after `open` and right before `close`. */
  function Around(intro: string, open: string, close: string, outro: string): (t: Template)
    ensures t.head == intro + open && t.tail == close + outro
  {
    Template(intro + open, close + outro)
  }

  /** Filling such a template puts `x` between `open` and `close`. */
  lemma FillAround(intro: string, open: string, close: string, outro: string, x: string)
    ensures var c, n := Fill(Around(intro, open, close, outro), x), |intro| + |open|;
      && |c| == n + |x| + |close| + |outro|
      && c[n - |open|..n] == open
      && c[n..n + |x|] == x
      && c[n + |x|..n + |x| + |close|] == close
  {
    var c, n := Fill(Around(intro, open, close, outro), x), |intro| + |open|;
    assert c[n - |open|..n] == c[..n][n - |open|..];
    assert c[n + |x|..n + |x| + |close|] == c[n + |x|..][..|close|];
  }

  /** The prompt determines what was interpolated into it. */
  lemma FillInjective(t: Template, x: string, y: string)
    requires Fill(t, x) == Fill(t, y)
    ensures x == y
  {
    assert |x| == |y|;
    assert x == Fill(t, x)[|t.head|..|t.head| + |x|];
  }
}
