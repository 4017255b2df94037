# Imaging-pipeline demo: session state and report generation, modelled in Dafny

The application draws a diagram of a medical-imaging pipeline. Two of the diagram's
nodes do something when clicked. The "CV worker" node installs a serialized mock
analysis result. The "LLM orchestrator" node asks a remote text-generation endpoint
for a draft report based on that analysis. Everything else in `src/App.tsx` is
drawing.

This project models the two pieces of logic behind those clicks:

- **Report client** (`report_client.dfy`, module `ReportClient`). `generateDraftReport`
  makes at most 3 calls to the endpoint. Every failed call except the last is
  followed by a sleep, which starts at 1000 ms and doubles each time. The function
  always settles with a string. Within the first 3 calls, it returns the text of the
  first call whose reply has an ok status and a non-empty
  `candidates[0].content.parts[0].text`. If no such call occurs, it returns the fixed
  sentence `Error: Could not generate report. Please try again.` Each call is replaced by the
  next element of a sequence of `Attempt` outcomes. The outcomes are a network error,
  or a reply with a status and a body parsed down to `candidates[0].content.parts[0].text`.
  The sleeps are returned as a list of durations. `GenerateDraftReport` keeps the
  source's `while (retries > 0)` loop, and its result equals the closed-form
  `Expected` function. Lemmas about `Expected` state the attempt bound, the delay
  schedule, the sentinel and the success cases.
- **Session** (`session.dfy`, module `Session`). The five `useState` fields are the
  fields of the class `AppSession`. Each handler is a method that assigns those
  fields. Each method's postcondition ties the new snapshot to a step function on
  `Snapshot` values. The report request is asynchronous, so it is split in two:
  `StartReport` (the guard and the first two assignments) and `CompleteReport` (the
  last two). Any other event may happen between them. An `Event` trace with
  `Replay` makes that interleaving explicit. Lemmas over traces show that the session
  invariant holds and that at most one generation is outstanding.

`values.dfy` (module `Values`) holds `Option` and JavaScript truthiness for optional
strings. Truthiness is what `!aiResults` and `!content` test.

The code has no staleness guard. `CompleteReport` stores the report even when a newer
analysis was installed after the request started, and `StaleCompletionOverwrites` proves
it.

## Model

| member | source | states |
|---|---|---|
| ReportClient.AttemptText | src/App.tsx:260-271 | An attempt yields text exactly when the status is ok (200-299), `candidates[0].content.parts[0]` exists and its `text` is truthy. The text yielded is then that field. A status that is not ok is a failure. A missing or empty `candidates`, `content` or `parts` is a failure, and so is a missing or empty `text`. |
| ReportClient.ReplyWithTextRoundTrip | src/App.tsx:264-268 | Reading the text back from a well-formed reply returns the text that was put in. The exception is the empty text, which reads as a failed attempt. |
| ReportClient.Backoff | src/App.tsx:278-279 | The k sleeps taken are 1000 * 2^i ms for i < k. Each sleep doubles the one before, starting from 1000. |
| ReportClient.FirstSuccess | src/App.tsx:252-271 | Returns the index of the first attempt that yields text, or the length when none does. Every earlier attempt failed. |
| ReportClient.Expected | src/App.tsx:250-281 | A generation makes between 1 and 3 calls. It sleeps exactly once fewer than it calls. Its result is never the empty string. |
| ReportClient.GenerateDraftReport | src/App.tsx:236-282 | The retry loop returns exactly the report, sleeps and call count of `Expected` for any endpoint outcomes. |
| ReportClient.SuccessAt | src/App.tsx:265-268 | Suppose attempt k is the first to yield text. Then that text is returned after k + 1 calls and the first k backoff sleeps. |
| ReportClient.AllFailed | src/App.tsx:274-276 | If all 3 attempts fail, the sentinel is returned after 3 calls. |
| ReportClient.SustainedFailure | src/App.tsx:250-279 | On sustained failure the sleeps are exactly [1000, 2000]. No sleep follows the last failure. The result is the sentinel and 3 calls are made. |
| ReportClient.FirstAttemptSucceeds | src/App.tsx:267-268 | Text on the first attempt is returned unchanged, with no retry and no sleep. |
| ReportClient.SuccessAfterFailures | src/App.tsx:265-279 | With k failures before the first text, that text is returned after k + 1 calls. Exactly k sleeps are taken, the i-th lasting 1000 * 2^i ms. |
| ReportClient.TwoFailuresThenText | src/App.tsx:250-279 | Two failures followed by text return that text after sleeps of [1000, 2000] and 3 calls. |
| ReportClient.ReportIsTextOrSentinel | src/App.tsx:267-276 | The result is either the sentinel or the text of one of the attempts made. When no attempt yields text, the result is the sentinel. |
| ReportClient.LaterOutcomesIgnored | src/App.tsx:267-268 | Outcomes after the last call made have no effect. Once text is returned, no further attempt is made. |
| Session.AppSession.constructor | src/App.tsx:221-225 | The session starts with no analysis, no report, not busy, the modal closed and empty modal content. |
| Session.AppSession.HandleCvWorkerClick | src/App.tsx:299-300 | The new state is the old state with the analysis replaced and the report cleared. |
| Session.AppSession.StartReport | src/App.tsx:304-307 | With a truthy analysis and no request in flight, the method sets busy, clears the report and returns the analysis text for the generator. Otherwise it changes nothing and returns no payload. |
| Session.AppSession.CompleteReport | src/App.tsx:311-312 | Stores the report and clears the busy flag. There is no check against the current analysis. |
| Session.AppSession.OpenModal | src/App.tsx:228-232 | Falsy content leaves the state unchanged. Otherwise the title and content are stored and the modal opens. |
| Session.AppSession.CloseModal | src/App.tsx:233 | Only the open flag changes, to false. |
| Session.AppSession.HandleLlmOrchestratorClick | src/App.tsx:303-313 | A request with no interleaved event starts only if the guard holds. It then ends with the generated report stored and the busy flag cleared, having slept exactly the generator's delays. A refused request changes nothing. |
| Session.InitialConsistent | src/App.tsx:221-225 | The initial session satisfies the session invariant. |
| Session.ApplyPreservesConsistent | src/App.tsx:228-312 | Every handler and every settling keeps the invariant. While busy, an analysis exists and no report is shown. An open modal never shows empty content. |
| Session.ReplayPreservesConsistent | src/App.tsx:228-312 | Any sequence of events from a consistent session keeps the invariant. |
| Session.RejectedRequestIsNoOp | src/App.tsx:304 | A request with no truthy analysis changes no state and starts no generation. The same holds for a request made while one is in flight. |
| Session.AcceptedRequestLifecycle | src/App.tsx:306-312 | An accepted request sets busy and clears the report, keeps the analysis and starts one generation. Settling then stores the text and clears busy. |
| Session.RunAnalysisReplaces | src/App.tsx:299-300 | Running analysis replaces the analysis and clears the report whatever the prior state. The busy flag and the modal are untouched. |
| Session.StaleCompletionOverwrites | src/App.tsx:309-311 | An analysis run while a request is in flight keeps the session busy, so a second request is refused. The pending settling then stores its report beside the newer analysis. |
| Session.OpenModalIgnoresFalsy | src/App.tsx:229-231 | Empty or absent content leaves everything unchanged. Truthy content opens the modal with exactly that title and content. |
| Session.CloseModalKeepsContent | src/App.tsx:233 | Closing clears the open flag, keeps the content and changes nothing else. |
| Session.BusyUntilSettled | src/App.tsx:306-312 | Once busy, the session stays busy under any events until a generation settles. |
| Session.AtMostOneInFlight | src/App.tsx:304-306 | Until a generation settles, any sequence of events starts at most one generation, and none if one is already in flight. |
| Session.AnalysisThenRead | src/App.tsx:299-300 | Starting from the initial session, running analysis gives that analysis and no report. |
| Session.RequestAfterTwoFailures | src/App.tsx:303-313 | A request whose generator fails twice and then returns text ends idle, with that text as the report, after two backoff sleeps. |

## Left out

- Drawing: the `Modal`, `FlowchartNode` and `Arrow` components and the JSX tree are stateless presentation with floating-point geometry.
- HTTP and JSON: `fetch`, `response.json()`, the request payload with its fixed system prompt and `"AI Analysis Results: "` prefix, the URL and the key. Each call is an `Attempt` value, so the payload handed to the generator does not influence the modelled outcomes.
- A non-string `text` field: JavaScript would return a truthy non-string value as it is. The model treats `text` as an optional string.
- A `candidates[0]` that is present but `null`: the model's candidate always exists when the list is non-empty. Only its `content` and `parts` may be missing.
- ReportClient.GenerateDraftReport: requires at least 3 outcomes. The environment must answer every call it could make. A call that never settles is not modelled.
- Session.AppSession.HandleLlmOrchestratorClick: requires at least 3 outcomes, even when the guard refuses the request, for the same reason: the environment must answer every call the generator could make.
- Timers: `setTimeout` is not modelled. Delays are recorded as millisecond values, not waited for.
- Logging: `console.error` is a side effect with no bearing on state.
- The mock analysis contents: `handleCvWorkerClick` serializes a fixed object. The model takes the serialized string as the `artifact` parameter.
- React runtime: re-render scheduling and stale closures are not modelled. The asynchronous handler is two separate steps, and any event may fall between them in a `Replay` trace.
