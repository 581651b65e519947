/** The progress panel (client/src/components/ResearchProgress.tsx): which
    stages it marks complete and which one it shows as active. The current
    stage arrives as the raw string the page passes, since TypeScript's types
    are erased at run time. */
module Progress {

  import opened Results
  import opened Stages

  /** The completed list before the first effect runs. */
  const InitialCompleted: seq<Stage> := []

  /** `stages.findIndex(stage => stage.id === current)`, searching from `from`. */
  function FindIndex(current: string, from: nat := 0): (i: int)
    requires from <= |Table|
    ensures i == -1 || from <= i < |Table|
    ensures i >= 0 ==> Id(Table[i].id) == current
    ensures i >= 0 ==> forall k :: from <= k < i ==> Id(Table[k].id) != current
    ensures i == -1 <==> forall k :: from <= k < |Table| ==> Id(Table[k].id) != current
    decreases |Table| - from
  {
    if from == |Table| then -1
    else if Id(Table[from].id) == current then from
    else FindIndex(current, from + 1)
  }

  /** The end index `Array.prototype.slice(0, end)` uses: a negative `end`
      counts back from the length, and the result is clamped to `[0, len]`. */
  function SliceEnd(len: nat, end: int): (e: nat)
    ensures e <= len
    ensures 0 <= end <= len ==> e == end
    ensures end < 0 && -end <= len ==> e == len + end
    ensures end > len ==> e == len
    ensures end + len < 0 ==> e == 0
  {
    if end < 0 then (if len + end < 0 then 0 else len + end)
    else if end > len then len
    else end
  }

  function Ids(infos: seq<StageInfo>): (r: seq<Stage>)
    ensures |r| == |infos|
    ensures forall i :: 0 <= i < |infos| ==> r[i] == infos[i].id
  {
    seq(|infos|, i requires 0 <= i < |infos| => infos[i].id)
  }

  /** The effect run when the current stage changes: a falsy current stage
      (`null` or the empty string) leaves the list as it was; otherwise it
      becomes the ids of the table entries before the matched index. */
  function UpdateCompleted(completed: seq<Stage>, current: Option<string>): (r: seq<Stage>)
    ensures current.None? || current.value == "" ==> r == completed
    ensures current.Some? && FromId(current.value).Some? ==>
      var s := FromId(current.value).value;
      && s !in r
      && (forall t :: t in r <==> Before(t, s))
      && (forall i, j :: 0 <= i < j < |r| ==> Before(r[i], r[j]))
    ensures current.Some? && current.value != "" && FromId(current.value).None? ==>
      r == [Planning, Researching]
  {
    if current.None? || current.value == "" then completed
    else
      var idx := FindIndex(current.value);
      assert FromId(current.value).Some? ==> idx == IndexOf(FromId(current.value).value);
      Ids(Table[..SliceEnd(|Table|, idx)])
  }

  /** How the panel draws one table entry. */
  datatype StageView = StageView(id: Stage, number: nat, active: bool, complete: bool, steps: seq<string>)

  function View(info: StageInfo, number: nat, current: Option<string>, completed: seq<Stage>): StageView {
    var active := current == Some(Id(info.id));
    StageView(info.id, number, active, info.id in completed, if active then info.steps else [])
  }

  /** The panel: one view per table entry, numbered from 1 in table order,
      sub-steps listed for the active entry only. */
  function Render(current: Option<string>, completed: seq<Stage>): (r: seq<StageView>)
    ensures |r| == |Table|
    ensures forall i :: 0 <= i < |r| ==> r[i].id == Table[i].id && r[i].number == i + 1
    ensures forall i :: 0 <= i < |r| ==>
      (r[i].active <==> current == Some(Id(Table[i].id))) && (r[i].complete <==> Table[i].id in completed)
    ensures forall i :: 0 <= i < |r| ==> (|r[i].steps| > 0 <==> r[i].active)
    ensures forall i :: 0 <= i < |r| ==> r[i].steps == (if r[i].active then Table[i].steps else [])
    ensures forall i, j :: 0 <= i < j < |r| ==> !(r[i].active && r[j].active)
  {
    TableShape();
    seq(|Table|, i requires 0 <= i < |Table| => View(Table[i], i + 1, current, completed))
  }

  /** Once the effect has run for the current stage, no entry is drawn both
      active and complete. */
  lemma ActiveNeverComplete(completed: seq<Stage>, current: Option<string>)
    ensures var views := Render(current, UpdateCompleted(completed, current));
      current.Some? && current.value != "" ==>
        forall i :: 0 <= i < |views| ==> !(views[i].active && views[i].complete)
  {
    var done := UpdateCompleted(completed, current);
    var views := Render(current, done);
    if current.Some? && current.value != "" {
      forall i | 0 <= i < |views| && views[i].active
        ensures !views[i].complete
      {
        IdRoundTrip(Table[i].id);
      }
    }
  }

  /** Planning completes nothing; Finalizing completes the two stages before it. */
  lemma CompletedAtEnds(completed: seq<Stage>)
    ensures UpdateCompleted(completed, Some(Id(Planning))) == []
    ensures UpdateCompleted(completed, Some(Id(Finalizing))) == [Planning, Researching]
  {
  }

  /** The panel starts with nothing completed: its first render shows no
      entry complete, and an effect run without a stage keeps it that way. */
  lemma FirstRenderNothingComplete(current: Option<string>)
    ensures forall v :: v in Render(current, InitialCompleted) ==> !v.complete
    ensures current.None? || current == Some("") ==> UpdateCompleted(InitialCompleted, current) == []
  {
  }
}
