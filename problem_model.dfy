/**
 The entities the problem sagas work on: the problem definition, the cells of
 a validated notebook, the outcomes of the path service's calls, the actions
 the sagas dispatch with `put`, and the effects a saga yields.
 */
module ProblemModel {
  import opened Js

  datatype Option<+T> = None | Some(value: T)

  /** A call into the path service either returns a value or throws an Error
      whose `message` is carried along. */
  datatype Outcome<+T> = Ok(value: T) | Err(message: string)

  /** Timeout of the validation race, `ONE_MINUTE` in milliseconds. */
  const OneMinute: nat := 60000

  const JupyterInline := "jupyterInline"

  const MissingProblemMessage := "Missing path problem"
  const TimedOutMessage := "Solution processing timed out"
  const FetchingMessage := "Fetching your solution"
  const CheckingMessage := "Checking your solution"
  const FailingMessage := "Failing - Your solution did not pass the provided tests."
  const ValidMessage := "Solution is valid"
  const CheckSolutionMessage := "Checking solution"
  const SubmittedMessage := "Solution is valid!"
  /** The message of the TypeError thrown when the stored solution fetched for
      a refresh is null and its `json` field is read. */
  const NullSolutionMessage := "Cannot read properties of null (reading 'json')"
  /** The TypeError of reading `outputs` of a null or undefined cell. */
  const NullCellMessage := "Cannot read properties of null (reading 'outputs')"
  const UndefinedCellMessage := "Cannot read properties of undefined (reading 'outputs')"
  /** The TypeError of calling `forEach` on the slice of a string. */
  const NoForEachMessage := "solution.cells.slice(...).forEach is not a function"

  /** The fields of a path problem that the sagas read: its `type`, its
      `frozen` count and, for inline problems, its `solutionJSON`. */
  datatype PathProblem = PathProblem(problemType: string, frozen: int, solutionJSON: Value)

  /** A notebook cell of a validated solution: its `outputs` is absent or the
      list of its outputs. */
  datatype Cell = Cell(outputs: Option<seq<string>>)

  /** An element of the `cells` array: a cell, or a null or undefined
      element, whose `outputs` cannot be read. */
  datatype Slot = Present(cell: Cell) | Missing(isNull: bool)

  /** What the validator resolves with:
      - a result whose `cells` is an array, with the JSON text of its other fields;
      - a result whose `cells` is a string: a non-empty one has a `slice`
        method but its slice has no `forEach`, an empty one is falsy;
      - any other value (null, undefined, an object without truthy `cells`). */
  datatype ValidationResult =
    | Cells(cells: seq<Slot>, otherFields: string)
    | TextCells(text: string)
    | Opaque(raw: Value)

  /** A solution as the refresh works with it: `{ id, json }`. */
  datatype SolutionFile = SolutionFile(id: Value, json: Value)

  /** How `race({ solution: call(validateSolution, ...), timedOut: delay(ONE_MINUTE) })` ends. */
  datatype RaceOutcome = Resolved(result: ValidationResult) | Rejected(reason: string) | TimedOut

  /** The race: when the timer fires first the validator's outcome is ignored. */
  function Race(validation: Outcome<ValidationResult>, timerFirst: bool): (r: RaceOutcome)
    ensures r.TimedOut? <==> timerFirst
    ensures !timerFirst ==> (r.Resolved? <==> validation.Ok?)
    ensures r.Resolved? ==> r.result == validation.value
    ensures r.Rejected? ==> validation == Err(r.reason)
  {
    if timerFirst then TimedOut
    else match validation
      case Ok(v) => Resolved(v)
      case Err(m) => Rejected(m)
  }

  /** The path service as the sagas see it: each call's outcome as a function
      of its arguments. */
  datatype Services = Services(
    fetchPathProblem: (string, string) -> Outcome<Option<PathProblem>>,
    fetchSolutionFile: (string, Value) -> Outcome<Option<SolutionFile>>,
    fetchFile: string -> Outcome<Value>,
    validateSolution: (Value, PathProblem, Value, Value) -> Outcome<ValidationResult>,
    submitSolution: (Value, PathProblem, Value) -> Outcome<Value>,
    getFileId: Value -> Outcome<Value>)

  /** A call of the path service, with its arguments. */
  datatype ServiceCall =
    | FetchPathProblem(pathId: string, problemId: string)
    | FetchSolutionFile(problemId: string, uid: Value)
    | FetchFile(fileRef: string)
    | ValidateSolution(uid: Value, problem: PathProblem, fileId: Value, json: Value)
    | SubmitSolution(uid: Value, problem: PathProblem, payload: Value)
    | GetFileId(ref: Value)

  /** The payload of `problemSolutionRefreshSuccess`. */
  datatype SolutionRecord =
    | InlineSolution(json: Value)                             // { json: pathProblem.solutionJSON }
    | ValidatedSolution(id: Value, result: ValidationResult)  // { id: pathSolution.id, json: solution }
    | StoredSolution(file: SolutionFile)                      // the stored solution as fetched

  /** The actions the sagas dispatch. */
  datatype Action =
    | ProblemInitSuccess(pathId: string, problemId: string, pathProblem: Option<PathProblem>)
    | ProblemInitFail(pathId: string, problemId: string, reason: string)
    | ProblemSolutionRefreshRequest(problemId: string, fileId: Value)
    | ProblemSolutionProvidedSuccess(problemId: string, json: Value)
    | ProblemSolutionCalculatedWrong
    | ProblemSolutionRefreshSuccess(problemId: string, record: SolutionRecord)
    | ProblemSolutionRefreshFail(problemId: string, reason: string)
    | ProblemCheckSolutionFail(problemId: string, fileId: Value, solution: Value, reason: string)
    | ProblemSolutionSubmitSuccess(pathId: string, problemId: string, payload: Value)
    | ProblemSolutionSubmitFail(pathId: string, problemId: string, payload: Value, reason: string)
    | NotificationShow(message: string)

  /** The failure actions a `catch` block dispatches, each carrying `err.message`. */
  predicate IsFailure(a: Action)
  {
    a.ProblemInitFail? || a.ProblemSolutionRefreshFail? || a.ProblemCheckSolutionFail? || a.ProblemSolutionSubmitFail?
  }

  /** The signals a saga waits for with `take`. */
  datatype Signal = Login | GapiAuthorized

  /** The effects a saga yields, in order: `put`, `call`,
      `race` of a call against `delay(ms)`, and `take`. */
  datatype Effect =
    | Put(action: Action)
    | Call(service: ServiceCall)
    | RaceWithDelay(raced: ServiceCall, ms: nat)
    | Take(signal: Signal)
}
