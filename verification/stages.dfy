/** The research stages and their static display table
    (client/src/lib/stages.ts). */
module Stages {

  import opened Results

  datatype Stage = Planning | Researching | Finalizing

  /** The string value of the `Stage` enum member. */
  function Id(s: Stage): string {
    match s
    case Planning => "planning"
    case Researching => "researching"
    case Finalizing => "finalizing"
  }

  /** Reads a stage back from its string value; `None` for any other string. */
  function FromId(v: string): (r: Option<Stage>)
    ensures r.Some? ==> Id(r.value) == v
    ensures r.None? ==> forall s: Stage :: Id(s) != v
  {
    if v == "planning" then Some(Planning)
    else if v == "researching" then Some(Researching)
    else if v == "finalizing" then Some(Finalizing)
    else None
  }

  lemma IdRoundTrip(s: Stage)
    ensures FromId(Id(s)) == Some(s)
  {
  }

  lemma IdInjective(s: Stage, t: Stage)
    ensures Id(s) == Id(t) <==> s == t
  {
  }

  /** One entry of the `stages` table. */
  datatype StageInfo = StageInfo(id: Stage, name: string, description: string, steps: seq<string>)

  const Table: seq<StageInfo> := [
    StageInfo(Planning, "Planning Research",
      "Analyzing the topic and creating research strategy",
      ["Understanding the topic", "Identifying key areas", "Planning approach"]),
    StageInfo(Researching, "Conducting Research",
      "Gathering information from various sources",
      ["Searching databases", "Analyzing sources", "Collecting data"]),
    StageInfo(Finalizing, "Finalizing Report",
      "Compiling and structuring the final report",
      ["Organizing findings", "Writing report", "Final review"])
  ]

  /** The table lists the three stages in order, each with three sub-steps. */
  lemma TableShape()
    ensures |Table| == 3
    ensures Table[0].id == Planning && Table[1].id == Researching && Table[2].id == Finalizing
    ensures forall i :: 0 <= i < |Table| ==> |Table[i].steps| == 3
  {
  }

  /** No stage appears twice in the table. */
  lemma TableIdsDistinct()
    ensures forall i, j :: 0 <= i < j < |Table| ==> Table[i].id != Table[j].id
  {
  }

  /** The position of a stage in the table; every stage has one. */
  function IndexOf(s: Stage): (i: nat)
    ensures i < |Table| && Table[i].id == s
    ensures forall j :: 0 <= j < |Table| && Table[j].id == s ==> j == i
  {
    match s
    case Planning => 0
    case Researching => 1
    case Finalizing => 2
  }

  /** `a` comes strictly before `b` in the table. */
  predicate Before(a: Stage, b: Stage) {
    IndexOf(a) < IndexOf(b)
  }
}
