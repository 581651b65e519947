/** The page component's state (client/src/app/page.tsx) and its four
    handlers, as a transition system driven by the form's callbacks. */
module Home {

  import opened Results
  import opened Json
  import opened Text
  import opened Stages
  import ResearchForm
  import Progress

  /** `researchResult`, `isLoading`, `currentStage`, `error`, `researchTopic`. */
  datatype State = State(result: Option<Json>, loading: bool, stage: Option<Stage>, error: string, topic: string)

  const Initial := State(None, false, None, "", "")

  /** The page starts idle and coherent, so its first submission is covered
      by `SubmitLifecycle`; neither panel is shown yet. */
  lemma InitialState()
    ensures Initial.result.None? && !Initial.loading && Initial.stage.None? && Initial.error == ""
    ensures Coherent(Initial) && !ShowsProgress(Initial) && !ShowsSummary(Initial)
  {
  }

  /** `handleResearchStart`: clears the result and starts loading at
      `planning`; an earlier error message stays. */
  function Start(st: State): (r: State)
    ensures r.result.None? && r.loading && r.stage == Some(Planning)
    ensures r.error == st.error && r.topic == st.topic
  {
    st.(result := None, loading := true, stage := Some(Planning))
  }

  /** `handleResearchComplete`: stores the response and stops loading. */
  function Complete(st: State, response: Json): (r: State)
    ensures r.result == Some(response) && !r.loading && r.stage.None?
    ensures r.error == st.error && r.topic == st.topic
  {
    st.(result := Some(response), loading := false, stage := None)
  }

  /** `handleStageChange`: takes any stage, with no ordering check. */
  function ChangeStage(st: State, stage: Option<Stage>): (r: State)
    ensures r.stage == stage
    ensures r.result == st.result && r.loading == st.loading && r.error == st.error && r.topic == st.topic
  {
    st.(stage := stage)
  }

  /** `handleError`: stores the message and stops loading; the result stays. */
  function Fail(st: State, message: string): (r: State)
    ensures r.error == message && !r.loading && r.stage.None?
    ensures r.result == st.result && r.topic == st.topic
  {
    st.(error := message, loading := false, stage := None)
  }

  /** A form callback delivered to its handler. */
  function Apply(st: State, e: ResearchForm.Event): State {
    match e
    case ResearchStarted => Start(st)
    case StageChanged(s) => ChangeStage(st, Some(s))
    case ResearchCompleted(data) => Complete(st, data)
    case ResearchFailed(m) => Fail(st, m)
  }

  function ApplyAll(st: State, events: seq<ResearchForm.Event>): State
    decreases |events|
  {
    if |events| == 0 then st else ApplyAll(Apply(st, events[0]), events[1..])
  }

  /** The progress panel replaces the result panel exactly while loading,
      which on a coherent page is exactly while a stage is set. */
  function ShowsProgress(st: State): (b: bool)
    ensures Coherent(st) ==> (b <==> st.stage.Some?)
  {
    st.loading
  }

  /** The summary and download panel: not loading, and a result present.
      It never sits beside the progress panel, and it needs a result to
      name the download after. */
  function ShowsSummary(st: State): (b: bool)
    ensures b ==> !ShowsProgress(st) && st.result.Some?
    ensures Coherent(st) && st.stage.None? && st.result.Some? ==> b
  {
    !st.loading && st.result.Some?
  }

  /** The value handed to the progress panel as its current stage. */
  function ProgressInput(st: State): (r: Option<string>)
    ensures r.Some? <==> st.stage.Some?
    ensures r.Some? ==> FromId(r.value) == st.stage
  {
    match st.stage
    case Some(s) => IdRoundTrip(s); Some(Id(s))
    case None => None
  }

  /** A stage is shown exactly while loading. */
  predicate Coherent(st: State) {
    st.loading <==> st.stage.Some?
  }

  /** Every callback the form fires keeps the page coherent, provided a stage
      change only arrives while loading (the form sends it right after start). */
  lemma ApplyKeepsCoherent(st: State, e: ResearchForm.Event)
    requires Coherent(st)
    requires e.StageChanged? ==> st.loading
    ensures Coherent(Apply(st, e))
  {
  }

  /** One submission, from an idle page: the callbacks leave the page idle,
      holding the response on success and the message otherwise, while the
      progress panel showed `planning` with nothing completed. Only
      `planning` is ever shown. */
  lemma {:induction false} SubmitLifecycle(st: State, topic: string, outcome: ResearchForm.HttpOutcome)
    requires Coherent(st) && !st.loading
    ensures var sub := ResearchForm.HandleSubmit(topic, outcome);
      var fin := ApplyAll(st, sub.events);
      && Coherent(fin)
      && !fin.loading
      && (AllSpace(topic) ==> fin == st)
      && (!AllSpace(topic) ==>
            var mid := ApplyAll(st, sub.events[..2]);
            && ShowsProgress(mid)
            && mid.stage == Some(Planning)
            && Progress.UpdateCompleted(Progress.InitialCompleted, ProgressInput(mid)) == []
            && (sub.events[2].ResearchCompleted? ==>
                  fin.result == Some(sub.events[2].data) && fin.error == st.error && ShowsSummary(fin))
            && (sub.events[2].ResearchFailed? ==>
                  fin.result.None? && fin.error == sub.events[2].message && !ShowsSummary(fin)))
  {
    var sub := ResearchForm.HandleSubmit(topic, outcome);
    var ev := sub.events;
    if !AllSpace(topic) {
      var s1 := Apply(st, ev[0]);
      var s2 := Apply(s1, ev[1]);
      var s3 := Apply(s2, ev[2]);
      assert ApplyAll(s3, ev[3..]) == s3;
      assert ApplyAll(s2, ev[2..]) == s3;
      assert ApplyAll(s1, ev[1..]) == s3;
      assert ev[..2][1..] == [ev[1]];
      assert ApplyAll(s2, ev[..2][2..]) == s2;
      assert ApplyAll(s1, ev[..2][1..]) == s2;
    }
  }
}
