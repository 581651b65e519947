# Deep Research Agent — a Dafny model of its core

Deep Research Agent takes a research topic typed into a web page and returns a
structured report. The system has two halves:

- The **Next.js client** has a form. It posts the trimmed topic to a Flask
  server, shows a three-stage progress panel while it waits, then offers the
  report for download under a name derived from the topic.
- The **Convex back end** holds role agents, and an orchestrating agent that
  registers five tools. Two of them are modelled:
  - a planning tool that always produces subtasks, falling back to five
    generic ones;
  - a web-results tool that fails fast.

  A workflow splits a numbered plan into sub-queries.
- The **Python server** (`/chat`) validates the query. It merges caller tweaks
  over the Langflow defaults, posts to Langflow, and shapes every outcome into
  a JSON reply.

This project models those pieces as pure functions over immutable data and
proves what each one promises. Every model call, HTTP request and JSON parse is
an input to the model, not something it performs:

- A model reply is `Chat.Reply`: either the call failed, or it returned text
  together with what that text decodes to.
- An HTTP outcome is `ResearchForm.HttpOutcome` or `Langflow.PostOutcome`.

Modules, one per source concept:

| module | file | models |
|---|---|---|
| `Results`, `Json` | results.dfy, json.dfy | option/result wrappers; JSON values, Python truthiness |
| `Text` | text.dfy | the JavaScript white-space class, `trim()`, ASCII `toLowerCase()` |
| `Stages` | stages.dfy | the stage enum and the stage table |
| `Progress` | progress.dfy | the progress panel: completed stages, active stage, rendering |
| `Home` | home.dfy | the page's state and its four handlers, as a transition system |
| `DownloadName` | download_name.dfy | the report's download file name |
| `ResearchForm` | research_form.dfy | the submit handler: the callbacks it fires and the query it sends |
| `Chat`, `ToolInput` | chat.dfy, tool_input.dfy | chat messages and prompt templates; the tools' argument schema |
| `PlanTask`, `FetchWebResults` | plan_task.dfy, fetch_web_results.dfy | the two model tools |
| `Agent` | agent.dfy | role preambles, `runAgent`, and the two Convex actions |
| `SubtaskSplit`, `Workflow` | subtask_split.dfy, workflow.dfy | the regex split `/\n\d+\.\s/`, trim and filter; the workflow handler |
| `Langflow`, `ChatServer` | langflow.dfy, chat_server.dfy | `run_flow` in research.py; the `/chat` route in app.py |

Where the code does less than its own texts suggest, the model follows the
code:

- **Empty plans are accepted.** The planning tool's description and prompt ask
  for 3-5 subtasks (client/convex/agents/tools/planTask.ts:12, :24), but its
  schema does not bound the array's length. An empty array passes
  (`PlanTask.EmptyPlanAccepted`), and nothing guarantees three to five.
- **Only the planning stage is ever shown.** The stage table lists
  `researching` and `finalizing` (client/src/lib/stages.ts:7-26), but the form
  only ever reports `planning` (client/src/components/ResearchForm.tsx:55).
  The page moves from no stage to `planning` and back to no stage
  (`ResearchForm.HandleSubmit`, `Home.SubmitLifecycle`).
- **Only the first plan element is split.** The planner returns an array of
  subtasks, but the workflow splits just its first element
  (client/convex/workflow.ts:12-16). An array of four one-line subtasks yields
  one sub-query (`Workflow.FourSubtasksKeepFirst`).
- **The planner action has no fallback.** Unlike the planning tool, a non-JSON
  planner reply fails the workflow (`Agent.NoPlannerFallback`,
  `Workflow.UnparseablePlanFails`).
- **No parallel searches.** The per-sub-query search is commented out
  (client/convex/workflow.ts:19-22). The orchestrating agent's `maxRetries: 5`
  (client/convex/agents/mainAgent.ts:35) configures the agent library, which
  is not part of this model.

## Model

| member | source | states |
|---|---|---|
| Text.Trim | client/convex/workflow.ts:15 | the result has no white space at either end, is empty exactly when the input is all white space, and is otherwise the input's factor from its first non-space character that leaves only white space after it |
| Text.TrimUnique | client/convex/workflow.ts:15 | any cut of the input with white space outside and non-space characters at both ends is the cut `trim` makes |
| Text.TrimFixpoint | client/convex/workflow.ts:15 | trimming leaves a string unchanged exactly when it has no white space at either end |
| Text.TrimIdempotent | client/src/components/ResearchForm.tsx:47-58 | trimming twice is trimming once, so the query sent is already trimmed |
| Text.TrimBlank | client/src/components/ResearchForm.tsx:47-49 | the trimmed topic is empty (falsy) exactly when the topic is all white space |
| Text.Lower | client/src/app/page.tsx:102 | lower-casing keeps the length and every non-letter, maps each upper-case letter to the letter 32 code points above it, and leaves no upper-case letter |
| Text.LowerConcat | client/src/app/page.tsx:102 | `toLowerCase()` of a concatenation is the concatenation of the lower-cased parts |
| Stages.FromId | client/src/lib/stages.ts:1-5 | a string names a stage exactly when it is one of the three enum values, and names that stage |
| Stages.IdRoundTrip | client/src/lib/stages.ts:1-5 | reading back a stage's id gives the stage |
| Stages.IdInjective | client/src/lib/stages.ts:1-5 | distinct stages have distinct ids |
| Stages.TableShape | client/src/lib/stages.ts:7-26 | the table lists planning, researching, finalizing in that order, each with three sub-steps |
| Stages.TableIdsDistinct | client/src/lib/stages.ts:9-21 | no two table entries share an id |
| Stages.IndexOf | client/src/lib/stages.ts:7-26 | every stage sits at exactly one table position |
| Progress.FindIndex | client/src/components/ResearchProgress.tsx:14 | the first table position whose id equals the current stage, or -1 exactly when none does |
| Progress.SliceEnd | client/src/components/ResearchProgress.tsx:15-16 | `slice`'s end bound: kept when within the length, counted back from the length when negative, always clamped to the length |
| Progress.UpdateCompleted | client/src/components/ResearchProgress.tsx:12-20 | a falsy stage leaves the completed list alone; a known stage completes exactly the stages before it, in table order, and not itself; an unknown non-empty string completes the first two stages |
| Progress.Render | client/src/components/ResearchProgress.tsx:32-107 | one view per table entry, numbered from 1; an entry is active exactly when it is the current stage and complete exactly when listed; the active entry lists its own table entry's steps and every other entry none; at most one entry is active |
| Progress.ActiveNeverComplete | client/src/components/ResearchProgress.tsx:13-34 | once the effect has run for a stage, no entry is drawn both active and complete |
| Progress.CompletedAtEnds | client/src/components/ResearchProgress.tsx:14-17 | planning completes nothing, finalizing completes planning and researching |
| Progress.FirstRenderNothingComplete | client/src/components/ResearchProgress.tsx:10-20 | the completed list starts empty: the first render shows no entry complete, and an effect without a stage keeps the list empty |
| Home.InitialState | client/src/app/page.tsx:25-29 | the page starts with no result, not loading, no stage and no error; it is coherent and shows neither panel, so the first submission meets the conditions of `SubmitLifecycle` |
| Home.Start | client/src/app/page.tsx:37-41 | starting clears the result, sets loading and the planning stage, and keeps the error and topic |
| Home.Complete | client/src/app/page.tsx:31-35 | completing stores the response, stops loading, clears the stage, keeps the error |
| Home.ChangeStage | client/src/app/page.tsx:43-45 | a stage change sets the stage, whatever it is, and nothing else |
| Home.Fail | client/src/app/page.tsx:47-51 | a failure stores the message, stops loading, clears the stage, keeps the last result |
| Home.ProgressInput | client/src/app/page.tsx:120-121 | the progress panel receives a stage id exactly when the page has a stage, and the id reads back as that stage |
| Home.ShowsProgress | client/src/app/page.tsx:119-123 | the progress panel shows, on a page that keeps its invariant, exactly while a stage is set |
| Home.ShowsSummary | client/src/app/page.tsx:84 | the summary panel never shows beside the progress panel and always has a result; on a coherent page it shows whenever no stage is set and a result is stored |
| Home.ApplyKeepsCoherent | client/src/app/page.tsx:31-81 | each form callback, delivered to the handler it is wired to (`Home.Apply`), keeps "loading exactly when a stage is set", given stage changes arrive only while loading |
| Home.SubmitLifecycle | client/src/app/page.tsx:31-82 | one submission from an idle page ends idle; a blank topic changes nothing; otherwise the panel showed planning with nothing completed, and the page ends with the response and summary on success or the message and no summary on failure |
| DownloadName.CollapseSpaces | client/src/app/page.tsx:102 | replacing white-space runs with `-` leaves no white space and never lengthens the text |
| DownloadName.CollapseNoSpace | client/src/app/page.tsx:102 | text without white space is unchanged |
| DownloadName.CollapseRun | client/src/app/page.tsx:102 | a non-empty run of white space becomes a single `-` |
| DownloadName.CollapseConcat | client/src/app/page.tsx:102 | runs are replaced independently on either side of a boundary that does not split a run |
| DownloadName.CollapseKeepsLower | client/src/app/page.tsx:102 | replacing runs adds no upper-case letter to lower-cased text |
| DownloadName.Slug | client/src/app/page.tsx:102 | the slug has at most 30 characters, no white space and no upper-case letter; which lower-case letter each capital becomes is pinned by `SlugLowersWord` and `SlugJoinsWords` |
| DownloadName.FileName | client/src/app/page.tsx:102 | the name is `research-`, the slug, `.md`, between 12 and 42 characters, with no white space |
| DownloadName.SlugLowersWord | client/src/app/page.tsx:102 | a topic of at most 30 characters without white space becomes exactly its lower-case form |
| DownloadName.SlugOfPlainTopic | client/src/app/page.tsx:102 | a short lower-case topic without white space is its own slug |
| DownloadName.SlugJoinsWords | client/src/app/page.tsx:102 | within the first 30 characters, a white-space run between two words becomes one `-` and both words are lower-cased, each capital becoming its own small letter |
| DownloadName.CollapseJoin | client/src/app/page.tsx:102 | `replace(/\s+/g, '-')` turns a white-space run between two words without white space into exactly one `-`, leaving both words as they are |
| DownloadName.LowerSplitsWords | client/src/app/page.tsx:102 | `toLowerCase()` lower-cases words and white-space runs separately and keeps words free of white space and runs made only of white space |
| DownloadName.SlugIgnoresTail | client/src/app/page.tsx:102 | characters past the thirtieth never affect the name |
| ResearchForm.MessageOf | client/src/components/ResearchForm.tsx:64-69 | a body's message is used exactly when it is a non-empty string |
| ResearchForm.Settle | client/src/components/ResearchForm.tsx:61-70 | completion exactly for a 2xx body whose status is `success`, carrying that body; otherwise the body's message or the server-error default for other 2xx bodies, the message or the connect default for rejections, the connect default for no response or a null body |
| ResearchForm.HandleSubmit | client/src/components/ResearchForm.tsx:44-71 | a blank topic fires nothing and sends nothing; otherwise exactly start, planning, then the settling callback `Settle` picks for the outcome, sending the trimmed non-empty topic; planning is the only stage reported |
| Chat.Fill | client/convex/agents/tools/planTask.ts:23-36 | the prompt is the fixed head, the value verbatim, the fixed tail |
| Chat.FillInjective | client/convex/agents/tools/planTask.ts:30 | the prompt determines the value interpolated into it |
| Chat.FillAround | client/convex/agents/tools/planTask.ts:30 | a value interpolated between two delimiters sits right after the opening one and right before the closing one |
| ToolInput.CheckArgs | client/convex/agents/tools/planTask.ts:13-15 | arguments pass exactly when `topic` is a non-empty string, which is returned; anything else is an input error |
| ToolInput.CheckTopicArgs | client/convex/agents/tools/fetchWebResults.ts:9-11 | exactly the empty topic is refused |
| PlanTask.Request | client/convex/agents/tools/planTask.ts:18-39 | one user message holding the planning prompt, with the topic verbatim between the quotes of the `Query:` line |
| PlanTask.ValidateSubtasks | client/convex/agents/tools/planTask.ts:6-8 | a value passes exactly when it is an array whose every element is a non-empty string, and yields those strings in order |
| PlanTask.ValidateEncode | client/convex/agents/tools/planTask.ts:47-49 | a list of non-empty strings written as JSON validates back to itself |
| PlanTask.Fallback | client/convex/agents/tools/planTask.ts:56-62 | five subtasks, led by Define, Identify, Search, Compare, Summarize, each ending in the quoted topic |
| PlanTask.FallbackIsValid | client/convex/agents/tools/planTask.ts:6-8 | the fallback list itself passes the schema |
| PlanTask.FallbackInjective | client/convex/agents/tools/planTask.ts:56-62 | different topics give different fallbacks |
| PlanTask.Execute | client/convex/agents/tools/planTask.ts:16-64 | a non-empty reply that validates is returned as is; every other reply gives the fallback |
| PlanTask.Run | client/convex/agents/tools/planTask.ts:10-16 | the tool fails only on invalid arguments, with an input error |
| PlanTask.VerbatimPlan | client/convex/agents/tools/planTask.ts:47-49 | a reply that is a JSON array of non-empty strings is taken verbatim, order and duplicates kept |
| PlanTask.EmptyPlanAccepted | client/convex/agents/tools/planTask.ts:6-8 | an empty array passes, giving an empty plan |
| PlanTask.FallbackCases | client/convex/agents/tools/planTask.ts:41-63 | a failed call, empty text, unparseable text, a non-array, a non-string element or an empty string element each give the fallback |
| PlanTask.EmptyOnlyFromEmptyArray | client/convex/agents/tools/planTask.ts:41-62 | an empty plan arises only from a reply that parsed to `[]` |
| FetchWebResults.Request | client/convex/agents/tools/fetchWebResults.ts:14-26 | one user message holding the search prompt, with the topic verbatim on a line of its own |
| FetchWebResults.Execute | client/convex/agents/tools/fetchWebResults.ts:12-34 | succeeds exactly on a reply that parsed, returning the parsed value unchecked; otherwise the fixed failure message |
| FetchWebResults.Run | client/convex/agents/tools/fetchWebResults.ts:9-12 | invalid arguments are an input error; valid ones succeed exactly when the reply parsed and otherwise fail with the fixed message |
| FetchWebResults.FailFastVersusFallback | client/convex/agents/tools/fetchWebResults.ts:28-32 | where this tool fails the planning tool falls back, and where the planning tool accepts a list this tool returns the same list |
| Agent.Instructions | client/convex/agent.ts:19-36 | each role's preamble opens with the sentence naming that role |
| Agent.OpensWithTitle | client/convex/agent.ts:19-45 | every message a role sends opens with the sentence naming that role |
| Agent.RunAgent | client/convex/agent.ts:38-45 | one user message: the role's preamble, the input marker, then the input verbatim |
| Agent.TitlesDiffer | client/convex/agent.ts:19-36 | the four roles' opening sentences differ at a named position |
| Agent.SameContentSameRole | client/convex/agent.ts:38-45 | two roles never send the same message |
| Agent.RunAgentInjective | client/convex/agent.ts:38-45 | the message sent determines both the role and the input |
| Agent.RunAction | client/convex/agent.ts:47-65 | one request exactly when the thread was created; success exactly when the reply parsed, returning the thread id and parsed value; any failure is the fixed prefix followed by the underlying error |
| Agent.RunSubTaskAgent | client/convex/agent.ts:47-65 | the planner role runs on the query once exactly when the thread was created, and never otherwise; success exactly when thread and parse succeed, carrying the thread id and the parsed reply; a failure is `Research workflow failed: ` followed by the thread, call or parse error |
| Agent.SearchWebAgent | client/convex/agent.ts:67-87 | the researcher role runs once exactly when the thread was created, on the comma-joined sub-queries, not once per sub-query; success carries the thread id and the parsed reply, and a failure is the prefix followed by the thread, call or parse error |
| Agent.JoinComma | client/convex/agent.ts:42 | interpolating an array joins its elements with commas: no elements give empty text and one element gives itself |
| Agent.JoinCommaRoundTrip | client/convex/agent.ts:42 | for the array that `searchWebAgent` passes as input (agent.ts line 74), splitting the researcher's input at commas gives back the sub-queries when there is at least one and none contains a comma |
| Agent.JoinCommaLosesEmpty | client/convex/agent.ts:42 | no sub-queries and a single empty sub-query send the same input |
| Agent.NoPlannerFallback | client/convex/agent.ts:50-63 | a planner reply that is not JSON fails the action with the prefixed parse error |
| SubtaskSplit.SepEnd | client/convex/workflow.ts:14 | a match found at a position ends at least four characters later, within the text |
| SubtaskSplit.SepEndSound | client/convex/workflow.ts:14 | what the matcher finds is a separator (newline, digits, dot, white space) |
| SubtaskSplit.SepEndComplete | client/convex/workflow.ts:14 | every separator starting at a position is what the matcher finds there |
| SubtaskSplit.Scan | client/convex/workflow.ts:14 | the leftmost-match scan yields exactly one more piece than separators |
| SubtaskSplit.ScanCutsAtSeparators | client/convex/workflow.ts:14 | the scan yields one more piece than separators, and every separator it cuts at is a real match of the pattern |
| SubtaskSplit.ScanPiecesClean | client/convex/workflow.ts:14 | no piece the scan yields contains a match of the pattern |
| SubtaskSplit.ScanLosesNothing | client/convex/workflow.ts:14 | interleaving the pieces with the separators rebuilds the scanned text exactly |
| SubtaskSplit.Split | client/convex/workflow.ts:14 | splitting yields one more piece than separators, every separator is a real match, no piece contains one, and interleaving them rebuilds the text |
| SubtaskSplit.SplitNoSeparator | client/convex/workflow.ts:14 | text without a separator splits into itself |
| SubtaskSplit.SplitAtFirstSeparator | client/convex/workflow.ts:14 | text is cut at its first separator and the rest is split in turn |
| SubtaskSplit.NonEmpty | client/convex/workflow.ts:16 | the filter keeps exactly the non-empty strings |
| SubtaskSplit.Clean | client/convex/workflow.ts:15-16 | trimming then dropping empties leaves only non-empty trimmed strings, never more than there were pieces |
| SubtaskSplit.CleanConcat | client/convex/workflow.ts:15-16 | cleaning works piece by piece: the first piece's trimmed text, if not empty, comes before the cleaned rest |
| SubtaskSplit.NonEmptyConcat | client/convex/workflow.ts:16 | filtering distributes over concatenation, so order is kept |
| SubtaskSplit.Subtasks | client/convex/workflow.ts:14-16 | every sub-query is non-empty and trimmed, and there are at most one more than the separators |
| SubtaskSplit.SubtasksNoSeparator | client/convex/workflow.ts:14-16 | a single-item plan gives its trimmed text, or nothing if blank |
| SubtaskSplit.SubtasksAtFirstSeparator | client/convex/workflow.ts:14-16 | the text before the first separator is the first sub-query, if not blank, followed by those of the rest |
| SubtaskSplit.LeadingNumberKept | client/convex/workflow.ts:14-16 | the first item keeps its leading number, since the pattern needs a newline before the digits |
| Workflow.SubQueries | client/convex/workflow.ts:11-17 | sub-queries come only from a leading string element, non-empty and trimmed; any other value gives none |
| Workflow.ResearchWorkflow | client/convex/workflow.ts:8-26 | the workflow fails exactly when the planner action fails, with what `fetchAction` makes of the action's error, and otherwise returns the sub-queries of the parsed reply |
| Workflow.OnlyFirstElementSplit | client/convex/workflow.ts:12-13 | elements after the first never contribute |
| Workflow.FourSubtasksKeepFirst | client/convex/workflow.ts:9-17 | a planner array of four one-line subtasks yields only the first, trimmed |
| Workflow.UnparseablePlanFails | client/convex/workflow.ts:9 | an unparseable planner reply fails the workflow |
| Workflow.NumberedPlanSplit | client/convex/workflow.ts:12-16 | one numbered string of two items yields both items, trimmed |
| Langflow.Import | server/research.py:27-28 | the module loads exactly when the token is set and non-empty, and otherwise raises the fixed message |
| Json.PyTruthy | server/app.py:28 | a decoded value is falsy exactly when it is `None`, `False`, zero, or the empty string, list or dict |
| Langflow.ApiUrl | server/research.py:37 | the URL is base, `/lf/`, Langflow id, `/api/v1/run/`, endpoint, with unset values rendered `None` |
| Langflow.DefaultTweaks | server/research.py:11-25 | defaults exist for exactly the prompt and search components; the search key is the environment's, or null |
| Langflow.MergeTweaks | server/research.py:39-41 | falsy tweaks keep the defaults; an object overrides them key by key; any other truthy value is refused |
| Langflow.MergeIsShallow | server/research.py:39-41 | a caller's component settings replace the default ones wholesale, and other components keep their defaults |
| Langflow.DefaultCall | server/research.py:30-35 | the default call uses the flow id, `chat` input and output, no tweaks and no token |
| Langflow.DefaultCallRequest | server/research.py:30-52 | `run_flow` called with only a message posts to the configured flow's URL a body of the message, `chat` output and input types and exactly the default tweaks, with no headers |
| Langflow.Payload | server/research.py:43-48 | the request body has exactly the message, output type, input type and merged tweaks |
| Langflow.Headers | server/research.py:50-52 | no headers without a truthy token; otherwise exactly a bearer authorization and a JSON content type |
| Langflow.RunFlow | server/research.py:30-63 | a request is sent exactly when the tweaks merge, to the built URL with the built body and headers; the result is the response body, the request error with the API-error prefix, or the merge error unwrapped |
| Langflow.NoTweaksMeansDefaults | server/research.py:39-41 | without caller tweaks the payload carries exactly the defaults |
| ChatServer.Unwrap | server/app.py:44-53 | the reply's data is the result's `result` entry when it has one, else the whole result |
| ChatServer.CallFor | server/app.py:35-42 | the route calls `run_flow` with the query, the tweaks, the configured endpoint and token, and `chat` types |
| ChatServer.Research | server/app.py:22-59 | a non-object body is unhandled; a falsy query gets 400 with nothing sent; otherwise 200 with the unwrapped result, or 500 with the error text |
| ChatServer.SuccessExactly | server/app.py:28-59 | every reply is 200, 400 or 500, and reads `success` exactly when the query was truthy and `run_flow` returned, which is exactly when the code is 200 |
| ChatServer.MissingQueryRefused | server/app.py:25-32 | a request without a query never reaches Langflow |
| ChatServer.RequestsAreAuthorized | server/app.py:9-12 | once the token check passes, every request sent carries the bearer token |
| ChatServer.LangflowFailureReported | server/app.py:55-59 | a Langflow failure reaches the client as 500 with the API-error prefix |

## Left out

- Model calls, thread creation, HTTP requests and `JSON.parse`/`response.json()` are not performed: their outcomes are inputs, and a parse is given as its decoded value or error text.
- JSON numbers are integers only; floating point and JSON key order are not modelled.
- Text.Lower: covers ASCII letters only; JavaScript's full Unicode case mapping is not modelled.
- DownloadName.Slug: `slice(0, 30)` is counted in Unicode scalar values, not UTF-16 code units, so it differs for characters outside the Basic Multilingual Plane.
- ResearchForm.MessageOf: a truthy `message` that is not a string (a number, an object) is treated as absent, where the form would pass it to the error handler as is.
- Langflow.MergeTweaks: any truthy non-object is refused, though Python's `dict.update` also accepts a list of key/value pairs; the error text is an input.
- The order in which `.env` is loaded relative to importing research.py is not modelled; the environment is one value read by both modules.
- ChatServer.Research: a request body that is not a JSON object is one `Unhandled` answer; Flask's own status codes for it are not modelled.
- Logging and printing (`console.log`, `console.error`, `print`) have no effect on results and are left out.
- React effect timing and rendering order are not modelled: the progress panel's completed list is computed for the stage it is given.
- The disabled input and submit button while loading are not modelled; a second submission during loading is simply not considered.
- InvalidToolInput carries no text; the tool runner's wrapping of schema errors is code outside this model.
- Three of the five tools mainAgent.ts registers are not modelled: `summarizeDocTool` (summarizeDoc.ts is not part of this model), `queryMemoryTool` and `generateReportTool`.
- mainAgent.ts itself (the orchestrator's instructions and settings), route.ts, ReportsList.tsx and ResearchResult.tsx are context, not part of this model.
- Workflow.ResearchWorkflow: the text of a failure is what Convex's `fetchAction` rethrows for the action's error (it may add a request id or redact a server error), so it is a parameter `relay` and the model does not promise it equals the action's own message.
- The search fan-out over sub-queries is commented out in workflow.ts and is not modelled.
