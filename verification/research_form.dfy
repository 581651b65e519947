/** The submit handler of the research form
    (client/src/components/ResearchForm.tsx). The POST to `/chat` is not
    performed: its outcome is an input, and the handler's behaviour is the
    list of callbacks it fires, in order, plus the request it would send. */
module ResearchForm {

  import opened Results
  import opened Json
  import opened Text
  import opened Stages

  /** One callback invocation made by the handler. */
  datatype Event =
    | ResearchStarted                 // onResearchStart()
    | StageChanged(stage: Stage)      // onStageChange(stage)
    | ResearchCompleted(data: Json)   // onResearchComplete(response.data)
    | ResearchFailed(message: string) // onError(message)

  /** What the POST to `/chat` came back with. */
  datatype HttpOutcome =
    | Answered(body: Json)   // 2xx response; `body` is `response.data`
    | Rejected(body: Json)   // non-2xx response; axios throws, carrying the body
    | NoResponse             // network failure; the thrown error has no response

  const DefaultServerError := "An error occurred during research"
  const DefaultConnectError := "Failed to connect to the research service"

  /** `body.message` when it is a non-empty string (`||` skips falsy ones). */
  function MessageOf(body: Json): (r: Option<string>)
    ensures r.Some? ==> |r.value| > 0 && Field(body, "message") == Some(JStr(r.value))
    ensures r.None? ==> forall m :: |m| > 0 ==> Field(body, "message") != Some(JStr(m))
  {
    match Field(body, "message")
    case Some(JStr(m)) => if |m| > 0 then Some(m) else None
    case _ => None
  }

  /** `body.status === 'success'`. */
  predicate IsSuccess(body: Json) {
    Field(body, "status") == Some(JStr("success"))
  }

  /** The callback fired once the request has settled. A `null` 2xx body
      makes reading `.status` throw a TypeError, which the catch block treats
      like a failed connection. */
  function Settle(outcome: HttpOutcome): (e: Event)
    ensures e.ResearchCompleted? <==> outcome.Answered? && IsSuccess(outcome.body)
    ensures e.ResearchCompleted? ==> e.data == outcome.body
    ensures outcome.NoResponse? ==> e == ResearchFailed(DefaultConnectError)
    ensures outcome == Answered(JNull) ==> e == ResearchFailed(DefaultConnectError)
    ensures outcome.Rejected? ==>
      e == ResearchFailed(MessageOf(outcome.body).GetOr(DefaultConnectError))
    ensures outcome.Answered? && outcome.body != JNull && !IsSuccess(outcome.body) ==>
      e == ResearchFailed(MessageOf(outcome.body).GetOr(DefaultServerError))
  {
    match outcome
    case Answered(body) =>
      if body == JNull then ResearchFailed(DefaultConnectError)
      else if IsSuccess(body) then ResearchCompleted(body)
      else ResearchFailed(MessageOf(body).GetOr(DefaultServerError))
    case Rejected(body) => ResearchFailed(MessageOf(body).GetOr(DefaultConnectError))
    case NoResponse => ResearchFailed(DefaultConnectError)
  }

  /** What one submission does: the callbacks, and the query sent, if any. */
  datatype Submission = Submission(events: seq<Event>, query: Option<string>)

  /** `handleSubmit` for the current topic and the request's outcome. */
  function HandleSubmit(topic: string, outcome: HttpOutcome): (r: Submission)
    ensures AllSpace(topic) <==> r.events == []
    ensures AllSpace(topic) <==> r.query.None?
    ensures !AllSpace(topic) ==>
      && |r.events| == 3
      && r.events[0] == ResearchStarted
      && r.events[1] == StageChanged(Planning)
      && r.events[2] == Settle(outcome)
      && r.query == Some(Trim(topic))
      && |Trim(topic)| > 0 && Trimmed(Trim(topic))
    ensures forall i :: 0 <= i < |r.events| && r.events[i].StageChanged? ==> r.events[i].stage == Planning
  {
    TrimBlank(topic);
    if |Trim(topic)| == 0 then Submission([], None)
    else Submission([ResearchStarted, StageChanged(Planning), Settle(outcome)], Some(Trim(topic)))
  }
}

