# Problem sagas: a Dafny model

This project models the problem-solving workflow of a course platform. A
student's solution to a problem of a learning path is fetched, validated
against the problem's tests with a one-minute timeout, classified on its
"frozen" cells, checked and submitted. The workflow lives in
`src/containers/Problem/sagas.js`. It is a set of redux-saga generators, each
handling one request action by yielding effects: `put` (dispatch an action),
`call` (call the path service), `race` (a call against a delay) and `take`
(wait for a signal).

The model has four modules:

- `Js` (js.dfy) covers the JavaScript semantics the sagas depend on:
  - the values they pass around (undefined, null, strings, opaque objects);
  - `typeof` and truthiness;
  - `Array.prototype.join()` with its comma separator;
  - `String.prototype.trim()` with the ECMAScript white-space set;
  - the start index of `Array.prototype.slice(start)`.
- `ProblemModel` (problem_model.dfy) defines the entities:
  - the path problem (`type`, `frozen`, `solutionJSON`) and solution files;
  - validator results: `cells` as an array of cells or null/undefined elements, `cells` as a string, or anything else;
  - the outcomes of service calls (`Ok(value)` or `Err(message)`, where an error carries `err.message`);
  - the three-way outcome of the validation race;
  - the dispatched actions, the yielded effects, the message texts and `ONE_MINUTE`.
- `FrozenWindow` (frozen_window.dfy) holds the classification of a validator result.
  - `ScanFrozenWindow` is the `forEach` loop over `cells.slice(-frozen)`. It ends with true, false or the TypeError of a null or undefined element.
  - Its contract ties it to the recursive function `Scan`. The lemmas beside it state when `Scan` is true or throws, and what the window is.
- `ProblemSagas` (sagas.dfy) holds the five handlers. Each is a method that yields its effects, in order, into an `EffectLog`.
  - Every method is proved to yield exactly the trace defined by its trace function: `InitTrace`, `SolveUpdateTrace`, `RefreshTrace`, `CheckTrace` or `SubmitTrace`.
  - Long handlers are split into phase methods, one per stretch of the generator.
- `SagaProperties` (saga_properties.dfy) proves what the traces promise:
  - the payload a refresh resolves, the order of its dispatches and its verdicts;
  - its failure paths, and that it dispatches exactly one outcome;
  - the shapes of the init, solve-update, check and submit traces;
  - that every failure is dispatched last but one, followed by a notification of its own message.

Collaborators are inputs.
- `Services` gives the outcome of each path-service call as a function of its arguments.
- Whether the one-minute timer wins the race is the boolean `timerFirst`.
- The uid in the store and the authorization flag are parameters.
- So is the uid present after the login signal.

## Model

| member | source | states |
|---|---|---|
| Js.TypeOf | src/containers/Problem/sagas.js:104 | definition of `typeof` for the modelled values; `typeof null` is "object" |
| Js.Truthy | src/containers/Problem/sagas.js:116 | definition of JavaScript truthiness for the modelled values |
| Js.ObjectTypedValues | src/containers/Problem/sagas.js:102-116 | `typeof` is "object" exactly for null and objects; null is the only falsy object; truthy values are objects and non-empty strings |
| Js.TrimStart | src/containers/Problem/sagas.js:155 | the result is a suffix of s; every dropped character is white space; the result does not start with white space |
| Js.TrimEnd | src/containers/Problem/sagas.js:155 | the result is a prefix of s; every dropped character is white space; the result does not end with white space |
| Js.Trim | src/containers/Problem/sagas.js:155 | definition of `trim()` as dropping leading, then trailing, white space |
| Js.TrimEmptyIff | src/containers/Problem/sagas.js:155 | `trim()` is empty exactly when every character is white space; a non-empty result starts and ends with a visible character |
| Js.Join | src/containers/Problem/sagas.js:155 | definition of `join()`: the parts separated by commas |
| Js.JoinVisible | src/containers/Problem/sagas.js:155 | `join()` has a visible character exactly when there are two or more parts (the comma), or one part with a visible character |
| Js.JoinTrimEmptyIff | src/containers/Problem/sagas.js:155 | `join().trim()` is empty exactly when there are no parts, or a single all-white-space part |
| Js.SliceStart | src/containers/Problem/sagas.js:153 | the start index of `slice` lies within the array |
| Js.SliceFromEnd | src/containers/Problem/sagas.js:153 | `slice(-n)` keeps the last n elements for 0 < n <= len; it keeps the whole array for n == 0 or n >= len; it drops the first -n elements for n < 0 |
| ProblemModel.Race | src/containers/Problem/sagas.js:137-149 | the race times out exactly when the timer is first; otherwise it resolves exactly when the validator returns, with its result, and is rejected with the validator's message |
| FrozenWindow.CellFails | src/containers/Problem/sagas.js:155 | definition of a failing cell: its outputs are present and their `join().trim()` is non-empty |
| FrozenWindow.SlotFails | src/containers/Problem/sagas.js:155 | definition of a failing element: a cell, not null or undefined, that fails |
| FrozenWindow.MissingCellMessage | src/containers/Problem/sagas.js:155 | definition of the TypeError message of reading `outputs` of null or of undefined |
| FrozenWindow.Window | src/containers/Problem/sagas.js:153 | definition of `cells.slice(-frozen)` |
| FrozenWindow.WindowFails | src/containers/Problem/sagas.js:150-157 | definition of "some element of the window is a failing cell" |
| FrozenWindow.ScanBy | src/containers/Problem/sagas.js:153-156 | definition of the scan for a given failure test: false on the empty window; the TypeError for a missing first element; true for a failing first cell; otherwise the scan of the rest |
| FrozenWindow.Scan | src/containers/Problem/sagas.js:153-156 | definition of the scan of lines 153-156, with `CellFails` as the failure test |
| FrozenWindow.Classify | src/containers/Problem/sagas.js:150-157 | definition of the verdict: no cells, not inspected; non-empty string cells, the TypeError of the missing `forEach`; array cells, taken from the scan of the window |
| FrozenWindow.WindowStart | src/containers/Problem/sagas.js:153 | the window starts within the cells |
| FrozenWindow.ScanFrozenWindow | src/containers/Problem/sagas.js:151-157 | the loop ends with the outcome of `Scan` on `cells.slice(-frozen)`: true, false, or the TypeError of a null or undefined element |
| FrozenWindow.ScanTrueIff | src/containers/Problem/sagas.js:153-156 | the scan is true exactly when some cell fails and no element before it is missing |
| FrozenWindow.ScanThrowsIff | src/containers/Problem/sagas.js:153-156 | the scan throws exactly when some element is missing and no cell before it fails; the message is that element's TypeError |
| FrozenWindow.ShiftBefore | src/containers/Problem/sagas.js:153-156 | after a passing first cell, "missing before k" and "failing before k" shift by one |
| FrozenWindow.PresentCellsScan | src/containers/Problem/sagas.js:153-156 | with no missing element the scan never throws, and it is true exactly when some cell fails |
| FrozenWindow.ClassifyCells | src/containers/Problem/sagas.js:150-157 | a result with array cells is failing exactly when a cell of the window fails before any missing element of the window; it throws exactly when a missing element comes before any failing cell of the window |
| FrozenWindow.ClassifyPresentCells | src/containers/Problem/sagas.js:150-157 | with no missing element, a result is failing exactly when a cell of `cells.slice(-frozen)` fails, and passing otherwise |
| FrozenWindow.CellFailsIff | src/containers/Problem/sagas.js:155 | a cell fails exactly when its outputs are present and there are two or more, or there is one with a visible character |
| FrozenWindow.WholeArrayInspected | src/containers/Problem/sagas.js:153 | with frozen 0 or frozen >= the number of cells, every cell is inspected |
| FrozenWindow.TrailingCellsInspected | src/containers/Problem/sagas.js:153 | with 0 < frozen <= the number of cells, exactly the last frozen cells are inspected |
| FrozenWindow.NegativeFrozenSkipsLeadingCells | src/containers/Problem/sagas.js:153 | a negative frozen inspects all but the first -frozen cells |
| FrozenWindow.CellsBeforeWindowIgnored | src/containers/Problem/sagas.js:153-157 | cells put before the window never change the verdict |
| FrozenWindow.BlankCellsPass | src/containers/Problem/sagas.js:151-157 | cells whose outputs are absent, empty or a single white-space string pass for every frozen |
| FrozenWindow.TrailingErrorFails | src/containers/Problem/sagas.js:150-169 | frozen 2 over outputs "", "", "Error: failed": failing |
| FrozenWindow.LeadingErrorIgnored | src/containers/Problem/sagas.js:150-169 | frozen 2 over outputs "Error", "", "": passing, because the failing cell is outside the window |
| FrozenWindow.MissingCellShortCircuit | src/containers/Problem/sagas.js:153-156 | a null element after a failing cell is never read, so the result is failing; a null element outside the window is ignored, so the result is passing |
| FrozenWindow.MissingCellThrows | src/containers/Problem/sagas.js:153-156 | a null element before a failing cell throws the null TypeError; an undefined element after a passing cell throws the undefined TypeError |
| FrozenWindow.JoinCommaCounts | src/containers/Problem/sagas.js:155 | outputs `["", ""]` fail because of the comma; `[]`, `[""]`, `["   "]` and absent outputs do not |
| ProblemSagas.InitUid | src/containers/Problem/sagas.js:44-48 | definition of the uid: the store's when truthy, else the one after the login |
| ProblemSagas.LoginWait | src/containers/Problem/sagas.js:45-48 | definition of the login wait: one `take` exactly when there is no uid |
| ProblemSagas.GapiWait | src/containers/Problem/sagas.js:54-56 | definition of the authorization wait: one `take` exactly when not authorized |
| ProblemSagas.InitFailure | src/containers/Problem/sagas.js:83-86 | definition of the init `catch`: `problemInitFail` with the ids and the message, then its notification |
| ProblemSagas.InitCompletion | src/containers/Problem/sagas.js:69-86 | definition of the effects after the problem fetch |
| ProblemSagas.InitPrelude | src/containers/Problem/sagas.js:44-62 | definition of the effects up to and including the problem fetch |
| ProblemSagas.InitTrace | src/containers/Problem/sagas.js:42-87 | definition of the init trace: the prelude, then the completion for the uid |
| ProblemSagas.ProblemInitRequestHandler | src/containers/Problem/sagas.js:42-87 | its effects are exactly the init trace: the login wait, the null init success, the authorization wait, the problem fetch, and then the completion |
| ProblemSagas.AwaitLogin | src/containers/Problem/sagas.js:44-48 | waits for the login only without a uid; the uid is the store's if truthy, else the one after the login |
| ProblemSagas.AwaitGapiAuthorization | src/containers/Problem/sagas.js:52-56 | waits for the authorization signal only when not yet authorized |
| ProblemSagas.InitAfterFetch | src/containers/Problem/sagas.js:58-86 | a fetch error or a missing problem gives the failure; otherwise: the non-null init success, the stored-solution call, and a refresh success if a solution is stored or the failure if the call throws |
| ProblemSagas.CatchInit | src/containers/Problem/sagas.js:83-86 | `problemInitFail` with the message, then its notification |
| ProblemSagas.SolveUpdateTrace | src/containers/Problem/sagas.js:89-93 | definition of the solve-update trace: the `getFileId` call, then the refresh request when it returns |
| ProblemSagas.ProblemSolveUpdateHandler | src/containers/Problem/sagas.js:89-93 | calls `getFileId` and dispatches the refresh request with the resolved id; an error escapes uncaught, exactly when `getFileId` throws, with its message |
| ProblemSagas.ShortCircuits | src/containers/Problem/sagas.js:102-105 | definition of the inline short-circuit: an inline problem and a `fileId` whose `typeof` is not "object" |
| ProblemSagas.ResolveCalls | src/containers/Problem/sagas.js:115-133 | definition of the calls made to resolve `pathSolution`: `fetchFile` for a non-empty string, none for an object, `fetchSolutionFile` for a falsy id |
| ProblemSagas.ResolveSolution | src/containers/Problem/sagas.js:115-133 | definition of `pathSolution` or the message of the error raised while resolving it or reading its `json` |
| ProblemSagas.RefreshFailure | src/containers/Problem/sagas.js:176-179 | definition of the refresh `catch`: `problemSolutionRefreshFail` with the message, then its notification |
| ProblemSagas.VerdictEffects | src/containers/Problem/sagas.js:150-169 | definition of the verdict's dispatches: the failing pair, "Solution is valid", or nothing |
| ProblemSagas.RaceCompletion | src/containers/Problem/sagas.js:147-175 | definition of the effects after the race: the failure on timeout, rejection or a throwing scan; otherwise the verdict's dispatches and then the success |
| ProblemSagas.ValidationTrace | src/containers/Problem/sagas.js:132-175 | definition of the effects once `pathSolution` is known |
| ProblemSagas.ResolvedTrace | src/containers/Problem/sagas.js:132-179 | definition of the effects once the resolution ends: the failure, or the validation |
| ProblemSagas.RefreshTrace | src/containers/Problem/sagas.js:95-180 | definition of the refresh trace: the short-circuit success, or fetching, the resolving calls and the resolved trace |
| ProblemSagas.ProblemSolutionRefreshRequestHandler | src/containers/Problem/sagas.js:95-180 | its effects are exactly the refresh trace: the inline short-circuit, or the fetching notification, the resolving calls and then the failure or the validation |
| ProblemSagas.ResolvePathSolution | src/containers/Problem/sagas.js:115-133 | makes the calls that resolve `pathSolution` and returns it: a fetched string, an object itself, or the stored solution. A failing fetch gives an error, and so does a null stored solution |
| ProblemSagas.FinishRefresh | src/containers/Problem/sagas.js:132-179 | a failed resolution goes to the catch; a resolved solution is validated |
| ProblemSagas.ValidatePathSolution | src/containers/Problem/sagas.js:132-175 | dispatches the JSON and "Checking your solution", races the validator against the minute, then completes |
| ProblemSagas.CompleteRace | src/containers/Problem/sagas.js:147-179 | a timeout, a rejection or a throwing scan gives the failure with its message; otherwise the verdict's effects and then the refresh success carrying the id and the whole result |
| ProblemSagas.ReportVerdict | src/containers/Problem/sagas.js:150-169 | a result with cells is scanned: failing gives `calculatedWrong` plus the failing notification, passing gives "Solution is valid"; other results give nothing. It returns the TypeError of a throwing scan, exactly when the verdict throws, having dispatched nothing |
| ProblemSagas.CatchRefresh | src/containers/Problem/sagas.js:176-179 | `problemSolutionRefreshFail` with the message, then its notification |
| ProblemSagas.CheckTrace | src/containers/Problem/sagas.js:182-209 | definition of the check trace: "Checking solution", the validator call, and "Solution is valid" or the fail and its notification |
| ProblemSagas.ProblemCheckSolutionRequestHandler | src/containers/Problem/sagas.js:182-209 | its effects are exactly the check trace |
| ProblemSagas.SubmitTrace | src/containers/Problem/sagas.js:211-243 | definition of the submit trace: the submit call, then the success and "Solution is valid!" or the fail and its notification |
| ProblemSagas.ProblemSolutionSubmitRequestHandler | src/containers/Problem/sagas.js:211-243 | its effects are exactly the submit trace |
| SagaProperties.RefreshError | src/containers/Problem/sagas.js:114-179 | definition of the refresh's failure message, read off the service outcomes: the resolution error, the timeout, the rejection or the scan's TypeError; none otherwise |
| SagaProperties.InlineShortCircuit | src/containers/Problem/sagas.js:102-111 | an inline problem short-circuits exactly for an undefined or string `fileId`. The trace is then the single refresh success with `solutionJSON`; the trace has one effect exactly then; every other refresh starts by notifying "Fetching your solution" |
| SagaProperties.InlineNullFileIdFetchesStored | src/containers/Problem/sagas.js:102-130 | an inline problem with a null `fileId` is not short-circuited: after the fetching notification it calls `fetchSolutionFile(problemId, uid)` |
| SagaProperties.StringFileIdFetched | src/containers/Problem/sagas.js:116-146 | a non-empty string `fileId` is fetched with `fetchFile`; the fetched JSON is dispatched and validated with id `fileId` |
| SagaProperties.ObjectFileIdUsedDirectly | src/containers/Problem/sagas.js:116-146 | an object `fileId` is both id and JSON; nothing is fetched before it is dispatched and validated |
| SagaProperties.FalsyFileIdUsesStoredSolution | src/containers/Problem/sagas.js:124-146 | a falsy `fileId` that does not short-circuit validates the stored solution of `fetchSolutionFile(problemId, uid)`, with its id and JSON |
| SagaProperties.RefreshValidatedTrace | src/containers/Problem/sagas.js:114-175 | a resolved validation whose scan does not throw yields, in order: fetching, the resolving calls, the JSON, checking, the race, the verdict's effects, and the refresh success with id and result |
| SagaProperties.RefreshScanThrows | src/containers/Problem/sagas.js:150-156 | a resolved validation whose scan throws yields fetching, the resolving calls, the JSON, checking and the race, and then the failure with the TypeError's message; that message is the refresh's error |
| SagaProperties.VerdictDispatches | src/containers/Problem/sagas.js:159-168 | `calculatedWrong` and the failing notification are dispatched exactly for a failing window; "Solution is valid" exactly for a passing one; nothing for a result without cells or a throwing scan |
| SagaProperties.RefreshUninspected | src/containers/Problem/sagas.js:150-175 | a result without cells is followed directly by the refresh success carrying it, with no `calculatedWrong` and no pass or fail notification |
| SagaProperties.CalculatedWrongIff | src/containers/Problem/sagas.js:150-169 | `calculatedWrong` is dispatched exactly when the refresh is not short-circuited, resolves, the validator wins the race, and the window fails |
| SagaProperties.RefreshFails | src/containers/Problem/sagas.js:114-179 | a failing refresh (resolution error, timeout, rejection or throwing scan) ends with `problemSolutionRefreshFail(problemId, message)` and that message's notification. It has exactly one outcome, and no refresh success or `calculatedWrong` |
| SagaProperties.RefreshSucceeds | src/containers/Problem/sagas.js:102-175 | a refresh that does not fail ends with the refresh success, has exactly one outcome and dispatches no failure |
| SagaProperties.RefreshOutcomeOnce | src/containers/Problem/sagas.js:95-180 | every refresh dispatches exactly one success or fail; a failure is last but one and is followed by the notification of its message |
| SagaProperties.RefreshTimesOut | src/containers/Problem/sagas.js:137-149 | a timeout fails with "Solution processing timed out" whatever the validator does, after the JSON, checking and the race |
| SagaProperties.RefreshFetchFails | src/containers/Problem/sagas.js:115-130 | a resolution error fails right after the resolving calls, with no JSON dispatched and no validation |
| SagaProperties.NullStoredSolutionFails | src/containers/Problem/sagas.js:124-133 | a null stored solution makes the refresh fail with the TypeError of reading its `json` |
| SagaProperties.InitPreludeOrder | src/containers/Problem/sagas.js:44-62 | only login waits come before the null `problemInitSuccess`; no call comes before `fetchPathProblem`; a wait happens exactly when there is no uid, or no authorization |
| SagaProperties.InitMissingProblem | src/containers/Problem/sagas.js:69-71 | a missing problem fails with "Missing path problem" right after the fetch; there is no non-null init success and no stored-solution fetch |
| SagaProperties.InitStoredSolution | src/containers/Problem/sagas.js:73-82 | after the non-null init success the stored solution is fetched with the uid; a stored solution follows as a refresh success, and with none the trace ends there |
| SagaProperties.InitFailsAfterSuccess | src/containers/Problem/sagas.js:73-86 | a throwing stored-solution fetch ends the trace with the non-null success, the call, `problemInitFail` and the notification |
| SagaProperties.InitFailureNotified | src/containers/Problem/sagas.js:42-87 | in every init trace a failure is last but one and is followed by the notification of its message |
| SagaProperties.SolveUpdateRequestsRefresh | src/containers/Problem/sagas.js:89-93 | the solve-update trace by cases: the refresh request carries the resolved file id; when `getFileId` throws nothing is dispatched |
| SagaProperties.CheckOutcome | src/containers/Problem/sagas.js:188-208 | "Checking solution", the call, then "Solution is valid", or the fail with the ids, the solution and the message plus that message's notification. The fail is dispatched exactly when the validator throws |
| SagaProperties.CheckIgnoresResult | src/containers/Problem/sagas.js:190-197 | two validators that both return, whatever they return, give the same check trace |
| SagaProperties.SubmitOutcome | src/containers/Problem/sagas.js:212-242 | the call, then the success with the ids and payload plus "Solution is valid!", or the fail with the same ids, the payload and the message plus its notification. Each is dispatched exactly in its case |

## Left out

- The `select` reads of the store (lines 44, 47, 52, 96-100, 183-187, 213-217) are parameters.
  - The fallback `state.problem.pathProblem || state.assignments.dialog.pathProblem` is not modelled.
  - A null problem makes line 102 throw outside the `try`. The model always has a problem.
- `take` is a suspension. It is one `Take` effect, and the uid present after the login is a parameter.
- The timing of `race` and `delay(ONE_MINUTE)` is not modelled; which side wins is the input `timerFirst`.
- `takeLatest` and `throttle` (lines 245-274) are not modelled: they cancel and rate-limit concurrent handlers.
- The path service and Firebase are abstract: each call's outcome is a function of its arguments.
- JavaScript values are limited to undefined, null, strings and opaque objects. Numbers and booleans are not modelled.
- Validator cells are modelled as arrays of cells, with null or undefined elements, or as a string. Outputs that are not strings or not arrays are not modelled, and neither are cells given as an object that has a `slice` method.
- A hole of a sparse `cells` array, which `forEach` skips, is not modelled.
- A result's fields other than `cells` are one opaque JSON text (`otherFields`). They travel with the result into the refresh success, and nothing reads them.
- A non-integer `frozen` is not modelled; an absent one behaves like 0.
- `ProblemSagas.ResolvePathSolution`: `fetchSolutionFile` returning null or undefined gives one fixed TypeError message. The exact text depends on the JavaScript engine.
- `FrozenWindow.MissingCellMessage`: the TypeErrors of reading `outputs` of a null or undefined element, and of calling the missing `forEach` of a string's slice, are fixed texts. The exact texts depend on the JavaScript engine.

## Behaviours kept

Three behaviours of the source are easy to miss, and the model keeps them:

- `frozen = 0` inspects every cell (`slice(-0)` is `slice(0)`), not none.
- A cell's outputs are an array joined with commas, so `["", ""]` fails.
- A result without cells is dispatched with no "Solution is valid" notification.

Two more concern results the scan cannot read:

- A null or undefined element of the window makes the scan throw, and the refresh fail with the TypeError's message, unless a failing cell came before it: `solutionFailed || …` then reads no further element.
- `cells` given as a non-empty string passes the `cells.slice` test of line 150, but its slice is a string with no `forEach`, so the refresh fails with that TypeError.
