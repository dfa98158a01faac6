/**
 The request handlers of src/containers/Problem/sagas.js. Each handler is a
 method that yields its effects, in order, into an `EffectLog`; the outcome
 of every path-service call is taken from `Services`, and whether the
 validation race is won by the timer is the argument `timerFirst`. Each
 method is proved to yield exactly the trace its trace function defines;
 the properties of the traces are proved in module SagaProperties.
 */
module ProblemSagas {
  import opened Js
  import opened ProblemModel
  import opened FrozenWindow

  lemma AppendAssoc(a: seq<Effect>, b: seq<Effect>, c: seq<Effect>)
    ensures (a + b) + c == a + (b + c)
  {
  }

  /** The effects a saga has yielded so far. */
  class EffectLog {
    var effects: seq<Effect>

    constructor ()
      ensures effects == []
    {
      effects := [];
    }

    method Yield(e: Effect)
      modifies this
      ensures effects == old(effects) + [e]
    {
      effects := effects + [e];
    }
  }

  // ---------------------------------------------------------------------
  // problemInitRequestHandler (lines 42-87)

  /** The uid the init handler works with: the one in the store, or else the
      one present after the login signal. */
  function InitUid(uidAtStart: Value, uidAfterLogin: Value): Value
  {
    if Truthy(uidAtStart) then uidAtStart else uidAfterLogin
  }

  /** The `catch` block of the init handler. */
  function InitFailure(pathId: string, problemId: string, message: string): seq<Effect>
  {
    [Put(ProblemInitFail(pathId, problemId, message)), Put(NotificationShow(message))]
  }

  /** `take("@@reactReduxFirebase/LOGIN")` when there is no uid yet (lines 45-48). */
  function LoginWait(uidAtStart: Value): seq<Effect>
  {
    if Truthy(uidAtStart) then [] else [Take(Login)]
  }

  /** `take(PATH_GAPI_AUTHORIZED)` when not yet authorized (lines 54-56). */
  function GapiWait(gapiAuthorized: bool): seq<Effect>
  {
    if gapiAuthorized then [] else [Take(GapiAuthorized)]
  }

  /** The effects after the fetch of the path problem (lines 69-86). */
  function InitCompletion(env: Services, pathId: string, problemId: string, uid: Value): seq<Effect>
  {
    match env.fetchPathProblem(pathId, problemId)
    case Err(m) => InitFailure(pathId, problemId, m)
    case Ok(None) => InitFailure(pathId, problemId, MissingProblemMessage)
    case Ok(Some(problem)) =>
      [Put(ProblemInitSuccess(pathId, problemId, Some(problem))),
       Call(FetchSolutionFile(problemId, uid))]
      + match env.fetchSolutionFile(problemId, uid)
        case Err(m) => InitFailure(pathId, problemId, m)
        case Ok(None) => []
        case Ok(Some(file)) => [Put(ProblemSolutionRefreshSuccess(problemId, StoredSolution(file)))]
  }

  /** The effects up to and including the call of `fetchPathProblem` (lines 44-62). */
  function InitPrelude(pathId: string, problemId: string, uidAtStart: Value, gapiAuthorized: bool): seq<Effect>
  {
    LoginWait(uidAtStart)
    + [Put(ProblemInitSuccess(pathId, problemId, None))]
    + GapiWait(gapiAuthorized)
    + [Call(FetchPathProblem(pathId, problemId))]
  }

  function InitTrace(env: Services, pathId: string, problemId: string,
                     uidAtStart: Value, uidAfterLogin: Value, gapiAuthorized: bool): seq<Effect>
  {
    InitPrelude(pathId, problemId, uidAtStart, gapiAuthorized)
    + InitCompletion(env, pathId, problemId, InitUid(uidAtStart, uidAfterLogin))
  }

  method ProblemInitRequestHandler(log: EffectLog, env: Services, pathId: string, problemId: string,
                                   uidAtStart: Value, uidAfterLogin: Value, gapiAuthorized: bool)
    modifies log
    ensures log.effects == old(log.effects) + InitTrace(env, pathId, problemId, uidAtStart, uidAfterLogin, gapiAuthorized)
  {
    ghost var start := log.effects;
    var uid := AwaitLogin(log, uidAtStart, uidAfterLogin);
    log.Yield(Put(ProblemInitSuccess(pathId, problemId, None)));
    AwaitGapiAuthorization(log, gapiAuthorized);
    log.Yield(Call(FetchPathProblem(pathId, problemId)));
    ghost var l, p, g, c := LoginWait(uidAtStart), [Put(ProblemInitSuccess(pathId, problemId, None))],
                            GapiWait(gapiAuthorized), [Call(FetchPathProblem(pathId, problemId))];
    AppendAssoc(start, l, p);
    AppendAssoc(start, l + p, g);
    AppendAssoc(start, l + p + g, c);
    assert log.effects == start + InitPrelude(pathId, problemId, uidAtStart, gapiAuthorized);
    InitAfterFetch(log, env, pathId, problemId, uid);
    AppendAssoc(start, InitPrelude(pathId, problemId, uidAtStart, gapiAuthorized),
                InitCompletion(env, pathId, problemId, uid));
  }

  method AwaitLogin(log: EffectLog, uidAtStart: Value, uidAfterLogin: Value) returns (uid: Value)
    modifies log
    ensures log.effects == old(log.effects) + LoginWait(uidAtStart)
    ensures uid == InitUid(uidAtStart, uidAfterLogin)
  {
    uid := uidAtStart;
    if !Truthy(uid) {
      log.Yield(Take(Login));
      uid := uidAfterLogin;
    }
  }

  method AwaitGapiAuthorization(log: EffectLog, gapiAuthorized: bool)
    modifies log
    ensures log.effects == old(log.effects) + GapiWait(gapiAuthorized)
  {
    if !gapiAuthorized {
      log.Yield(Take(GapiAuthorized));
    }
  }

  /** Lines 58-86, after the call of `fetchPathProblem` has been yielded. */
  method InitAfterFetch(log: EffectLog, env: Services, pathId: string, problemId: string, uid: Value)
    modifies log
    ensures log.effects == old(log.effects) + InitCompletion(env, pathId, problemId, uid)
  {
    var pathProblem := env.fetchPathProblem(pathId, problemId);
    if pathProblem.Err? {
      CatchInit(log, pathId, problemId, pathProblem.message);
      return;
    }
    if pathProblem.value.None? {
      CatchInit(log, pathId, problemId, MissingProblemMessage);
      return;
    }
    log.Yield(Put(ProblemInitSuccess(pathId, problemId, pathProblem.value)));
    log.Yield(Call(FetchSolutionFile(problemId, uid)));
    var solution := env.fetchSolutionFile(problemId, uid);
    if solution.Err? {
      CatchInit(log, pathId, problemId, solution.message);
      return;
    }
    if solution.value.Some? {
      log.Yield(Put(ProblemSolutionRefreshSuccess(problemId, StoredSolution(solution.value.value))));
    }
  }

  method CatchInit(log: EffectLog, pathId: string, problemId: string, message: string)
    modifies log
    ensures log.effects == old(log.effects) + InitFailure(pathId, problemId, message)
  {
    log.Yield(Put(ProblemInitFail(pathId, problemId, message)));
    log.Yield(Put(NotificationShow(message)));
  }

  // ---------------------------------------------------------------------
  // problemSolveUpdateHandler (lines 89-93)

  function SolveUpdateTrace(env: Services, problemId: string, fileRef: Value): seq<Effect>
  {
    [Call(GetFileId(fileRef))]
    + match env.getFileId(fileRef)
      case Ok(fileId) => [Put(ProblemSolutionRefreshRequest(problemId, fileId))]
      case Err(_) => []
  }

  /** The handler has no `catch`: a failing `getFileId` ends it with the error,
      returned as `uncaught`. */
  method ProblemSolveUpdateHandler(log: EffectLog, env: Services, problemId: string, fileRef: Value)
    returns (uncaught: Option<string>)
    modifies log
    ensures log.effects == old(log.effects) + SolveUpdateTrace(env, problemId, fileRef)
    ensures uncaught.Some? <==> env.getFileId(fileRef).Err?
    ensures uncaught.Some? ==> uncaught.value == env.getFileId(fileRef).message
  {
    log.Yield(Call(GetFileId(fileRef)));
    var fileId := env.getFileId(fileRef);
    if fileId.Err? {
      return Some(fileId.message);
    }
    log.Yield(Put(ProblemSolutionRefreshRequest(problemId, fileId.value)));
    return None;
  }

  // ---------------------------------------------------------------------
  // problemSolutionRefreshRequestHandler (lines 95-180)

  /** `pathProblem.type === "jupyterInline" && typeof fileId !== "object"` */
  predicate ShortCircuits(problem: PathProblem, fileId: Value)
  {
    problem.problemType == JupyterInline && TypeOf(fileId) != "object"
  }

  /** The calls made to resolve `pathSolution` (lines 116-130). */
  function ResolveCalls(uid: Value, problemId: string, fileId: Value): seq<Effect>
  {
    if Truthy(fileId) then
      (if fileId.Str? then [Call(FetchFile(fileId.s))] else [])
    else [Call(FetchSolutionFile(problemId, uid))]
  }

  /** `pathSolution` (lines 116-130), or the message of the error that
      resolving it, or reading its `json` at line 133, throws. */
  function ResolveSolution(env: Services, uid: Value, problemId: string, fileId: Value): Outcome<SolutionFile>
  {
    if Truthy(fileId) then
      if fileId.Str? then
        match env.fetchFile(fileId.s)
        case Ok(json) => Ok(SolutionFile(fileId, json))
        case Err(m) => Err(m)
      else Ok(SolutionFile(fileId, fileId))
    else
      match env.fetchSolutionFile(problemId, uid)
      case Err(m) => Err(m)
      case Ok(None) => Err(NullSolutionMessage)
      case Ok(Some(file)) => Ok(file)
  }

  /** The `catch` block of the refresh handler. */
  function RefreshFailure(problemId: string, message: string): seq<Effect>
  {
    [Put(ProblemSolutionRefreshFail(problemId, message)), Put(NotificationShow(message))]
  }

  /** What the refresh dispatches for each verdict (lines 159-168); a scan
      that throws dispatches nothing before the `catch`. */
  function VerdictEffects(verdict: Verdict): seq<Effect>
  {
    match verdict
    case NotInspected => []
    case Failing => [Put(ProblemSolutionCalculatedWrong), Put(NotificationShow(FailingMessage))]
    case Passing => [Put(NotificationShow(ValidMessage))]
    case Throws(_) => []
  }

  /** The effects once the validation race is over (lines 147-175). */
  function RaceCompletion(problemId: string, id: Value, raced: RaceOutcome, frozen: int): seq<Effect>
  {
    match raced
    case TimedOut => RefreshFailure(problemId, TimedOutMessage)
    case Rejected(m) => RefreshFailure(problemId, m)
    case Resolved(solution) =>
      match Classify(solution, frozen)
      case Throws(m) => RefreshFailure(problemId, m)
      case verdict =>
        VerdictEffects(verdict)
        + [Put(ProblemSolutionRefreshSuccess(problemId, ValidatedSolution(id, solution)))]
  }

  /** The effects after `pathSolution` is known (lines 132-175). */
  function ValidationTrace(env: Services, uid: Value, problem: PathProblem, problemId: string,
                           ps: SolutionFile, timerFirst: bool): seq<Effect>
  {
    [Put(ProblemSolutionProvidedSuccess(problemId, ps.json)),
     Put(NotificationShow(CheckingMessage)),
     RaceWithDelay(ValidateSolution(uid, problem, ps.id, ps.json), OneMinute)]
    + RaceCompletion(problemId, ps.id, Race(env.validateSolution(uid, problem, ps.id, ps.json), timerFirst), problem.frozen)
  }

  /** The effects once `pathSolution` is resolved, or its resolution failed
      (lines 132-179). */
  function ResolvedTrace(env: Services, uid: Value, problem: PathProblem, problemId: string,
                         resolved: Outcome<SolutionFile>, timerFirst: bool): seq<Effect>
  {
    match resolved
    case Err(m) => RefreshFailure(problemId, m)
    case Ok(ps) => ValidationTrace(env, uid, problem, problemId, ps, timerFirst)
  }

  function RefreshTrace(env: Services, uid: Value, problem: PathProblem, problemId: string,
                        fileId: Value, timerFirst: bool): seq<Effect>
  {
    if ShortCircuits(problem, fileId) then
      [Put(ProblemSolutionRefreshSuccess(problemId, InlineSolution(problem.solutionJSON)))]
    else
      [Put(NotificationShow(FetchingMessage))]
      + ResolveCalls(uid, problemId, fileId)
      + ResolvedTrace(env, uid, problem, problemId, ResolveSolution(env, uid, problemId, fileId), timerFirst)
  }

  method ProblemSolutionRefreshRequestHandler(log: EffectLog, env: Services, uid: Value, problem: PathProblem,
                                              problemId: string, fileId: Value, timerFirst: bool)
    modifies log
    ensures log.effects == old(log.effects) + RefreshTrace(env, uid, problem, problemId, fileId, timerFirst)
  {
    if problem.problemType == JupyterInline && TypeOf(fileId) != "object" {
      log.Yield(Put(ProblemSolutionRefreshSuccess(problemId, InlineSolution(problem.solutionJSON))));
      return;
    }
    ghost var start := log.effects;
    log.Yield(Put(NotificationShow(FetchingMessage)));
    var pathSolution := ResolvePathSolution(log, env, uid, problemId, fileId);
    ghost var fetching, calls := [Put(NotificationShow(FetchingMessage))], ResolveCalls(uid, problemId, fileId);
    AppendAssoc(start, fetching, calls);
    FinishRefresh(log, env, uid, problem, problemId, pathSolution, timerFirst);
    AppendAssoc(start, fetching + calls, ResolvedTrace(env, uid, problem, problemId, pathSolution, timerFirst));
  }

  /** The `catch` of a failed resolution, or the validation of the resolved solution. */
  method FinishRefresh(log: EffectLog, env: Services, uid: Value, problem: PathProblem, problemId: string,
                       pathSolution: Outcome<SolutionFile>, timerFirst: bool)
    modifies log
    ensures log.effects == old(log.effects) + ResolvedTrace(env, uid, problem, problemId, pathSolution, timerFirst)
  {
    if pathSolution.Err? {
      CatchRefresh(log, problemId, pathSolution.message);
    } else {
      ValidatePathSolution(log, env, uid, problem, problemId, pathSolution.value, timerFirst);
    }
  }

  /** Lines 115-130 and the read of `pathSolution.json` at line 133. */
  method ResolvePathSolution(log: EffectLog, env: Services, uid: Value, problemId: string, fileId: Value)
    returns (pathSolution: Outcome<SolutionFile>)
    modifies log
    ensures log.effects == old(log.effects) + ResolveCalls(uid, problemId, fileId)
    ensures pathSolution == ResolveSolution(env, uid, problemId, fileId)
  {
    if Truthy(fileId) {
      var json := fileId;
      if fileId.Str? {
        log.Yield(Call(FetchFile(fileId.s)));
        var fetched := env.fetchFile(fileId.s);
        if fetched.Err? {
          return Err(fetched.message);
        }
        json := fetched.value;
      }
      pathSolution := Ok(SolutionFile(fileId, json));
    } else {
      log.Yield(Call(FetchSolutionFile(problemId, uid)));
      var stored := env.fetchSolutionFile(problemId, uid);
      if stored.Err? {
        return Err(stored.message);
      }
      if stored.value.None? {
        return Err(NullSolutionMessage);
      }
      pathSolution := Ok(stored.value.value);
    }
  }

  /** Lines 132-175, once `pathSolution` is known. */
  method ValidatePathSolution(log: EffectLog, env: Services, uid: Value, problem: PathProblem,
                              problemId: string, pathSolution: SolutionFile, timerFirst: bool)
    modifies log
    ensures log.effects == old(log.effects) + ValidationTrace(env, uid, problem, problemId, pathSolution, timerFirst)
  {
    log.Yield(Put(ProblemSolutionProvidedSuccess(problemId, pathSolution.json)));
    log.Yield(Put(NotificationShow(CheckingMessage)));
    log.Yield(RaceWithDelay(ValidateSolution(uid, problem, pathSolution.id, pathSolution.json), OneMinute));
    ghost var checking := [Put(ProblemSolutionProvidedSuccess(problemId, pathSolution.json)),
                           Put(NotificationShow(CheckingMessage)),
                           RaceWithDelay(ValidateSolution(uid, problem, pathSolution.id, pathSolution.json), OneMinute)];
    assert log.effects == old(log.effects) + checking;
    var raced := Race(env.validateSolution(uid, problem, pathSolution.id, pathSolution.json), timerFirst);
    CompleteRace(log, problemId, pathSolution.id, raced, problem.frozen);
    AppendAssoc(old(log.effects), checking, RaceCompletion(problemId, pathSolution.id, raced, problem.frozen));
  }

  /** Lines 147-175: the timeout, the classification and the final dispatch. */
  method CompleteRace(log: EffectLog, problemId: string, id: Value, raced: RaceOutcome, frozen: int)
    modifies log
    ensures log.effects == old(log.effects) + RaceCompletion(problemId, id, raced, frozen)
  {
    if raced.TimedOut? {
      CatchRefresh(log, problemId, TimedOutMessage);
      return;
    }
    if raced.Rejected? {
      CatchRefresh(log, problemId, raced.reason);
      return;
    }
    var solution := raced.result;
    ghost var start := log.effects;
    var thrown := ReportVerdict(log, solution, frozen);
    if thrown.Some? {
      assert log.effects == start;
      CatchRefresh(log, problemId, thrown.value);
      return;
    }
    log.Yield(Put(ProblemSolutionRefreshSuccess(problemId, ValidatedSolution(id, solution))));
    AppendAssoc(start, VerdictEffects(Classify(solution, frozen)),
                [Put(ProblemSolutionRefreshSuccess(problemId, ValidatedSolution(id, solution)))]);
  }

  /** Lines 150-169: a result with `cells` is scanned and its verdict
      notified; `thrown` is the message of a TypeError raised by the scan. */
  method ReportVerdict(log: EffectLog, solution: ValidationResult, frozen: int) returns (thrown: Option<string>)
    modifies log
    ensures thrown == if Classify(solution, frozen).Throws? then Some(Classify(solution, frozen).message) else None
    ensures log.effects == old(log.effects) + VerdictEffects(Classify(solution, frozen))
  {
    thrown := None;
    if solution.TextCells? && solution.text != "" {
      return Some(NoForEachMessage);
    }
    if solution.Cells? {
      var scanned := ScanFrozenWindow(solution.cells, frozen);
      if scanned.Err? {
        return Some(scanned.message);
      }
      var solutionFailed := scanned.value;
      ghost var verdict := Classify(solution, frozen);
      assert verdict == if solutionFailed then Failing else Passing;
      if solutionFailed {
        log.Yield(Put(ProblemSolutionCalculatedWrong));
        log.Yield(Put(NotificationShow(FailingMessage)));
      } else {
        log.Yield(Put(NotificationShow(ValidMessage)));
      }
      assert log.effects == old(log.effects) + VerdictEffects(verdict);
    }
  }

  method CatchRefresh(log: EffectLog, problemId: string, message: string)
    modifies log
    ensures log.effects == old(log.effects) + RefreshFailure(problemId, message)
  {
    log.Yield(Put(ProblemSolutionRefreshFail(problemId, message)));
    log.Yield(Put(NotificationShow(message)));
  }

  // ---------------------------------------------------------------------
  // problemCheckSolutionRequestHandler (lines 182-209)

  function CheckTrace(env: Services, uid: Value, problem: PathProblem, problemId: string,
                      fileId: Value, solution: Value): seq<Effect>
  {
    [Put(NotificationShow(CheckSolutionMessage)), Call(ValidateSolution(uid, problem, fileId, solution))]
    + match env.validateSolution(uid, problem, fileId, solution)
      case Ok(_) => [Put(NotificationShow(ValidMessage))]
      case Err(m) => [Put(ProblemCheckSolutionFail(problemId, fileId, solution, m)), Put(NotificationShow(m))]
  }

  method ProblemCheckSolutionRequestHandler(log: EffectLog, env: Services, uid: Value, problem: PathProblem,
                                            problemId: string, fileId: Value, solution: Value)
    modifies log
    ensures log.effects == old(log.effects) + CheckTrace(env, uid, problem, problemId, fileId, solution)
  {
    log.Yield(Put(NotificationShow(CheckSolutionMessage)));
    log.Yield(Call(ValidateSolution(uid, problem, fileId, solution)));
    var validated := env.validateSolution(uid, problem, fileId, solution);
    if validated.Err? {
      log.Yield(Put(ProblemCheckSolutionFail(problemId, fileId, solution, validated.message)));
      log.Yield(Put(NotificationShow(validated.message)));
      return;
    }
    log.Yield(Put(NotificationShow(ValidMessage)));
  }

  // ---------------------------------------------------------------------
  // problemSolutionSubmitRequestHandler (lines 211-243)

  function SubmitTrace(env: Services, uid: Value, problem: PathProblem, pathId: string,
                       problemId: string, payload: Value): seq<Effect>
  {
    [Call(SubmitSolution(uid, problem, payload))]
    + match env.submitSolution(uid, problem, payload)
      case Ok(_) =>
        [Put(ProblemSolutionSubmitSuccess(pathId, problemId, payload)), Put(NotificationShow(SubmittedMessage))]
      case Err(m) =>
        [Put(ProblemSolutionSubmitFail(pathId, problemId, payload, m)), Put(NotificationShow(m))]
  }

  method ProblemSolutionSubmitRequestHandler(log: EffectLog, env: Services, uid: Value, problem: PathProblem,
                                             pathId: string, problemId: string, payload: Value)
    modifies log
    ensures log.effects == old(log.effects) + SubmitTrace(env, uid, problem, pathId, problemId, payload)
  {
    log.Yield(Call(SubmitSolution(uid, problem, payload)));
    var submitted := env.submitSolution(uid, problem, payload);
    if submitted.Err? {
      log.Yield(Put(ProblemSolutionSubmitFail(pathId, problemId, payload, submitted.message)));
      log.Yield(Put(NotificationShow(submitted.message)));
      return;
    }
    log.Yield(Put(ProblemSolutionSubmitSuccess(pathId, problemId, payload)));
    log.Yield(Put(NotificationShow(SubmittedMessage)));
  }
}
