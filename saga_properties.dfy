/**
 What the traces of the problem sagas promise: the payload a refresh
 resolves, the order of its dispatches, its failure paths, and the fixed
 shapes of the init, solve-update, check and submit traces.
 */
module SagaProperties {
  import opened Js
  import opened ProblemModel
  import opened FrozenWindow
  import opened ProblemSagas

  // ---------------------------------------------------------------------
  // Counting and locating dispatches

  /** A dispatch that ends a refresh: `problemSolutionRefreshSuccess` or
      `problemSolutionRefreshFail`. */
  predicate IsRefreshOutcome(e: Effect)
  {
    e.Put? && (e.action.ProblemSolutionRefreshSuccess? || e.action.ProblemSolutionRefreshFail?)
  }

  /** The number of refresh outcomes dispatched in t. */
  function RefreshOutcomes(t: seq<Effect>): nat
  {
    if t == [] then 0 else (if IsRefreshOutcome(t[0]) then 1 else 0) + RefreshOutcomes(t[1..])
  }

  lemma {:induction false} RefreshOutcomesAppend(a: seq<Effect>, b: seq<Effect>)
    ensures RefreshOutcomes(a + b) == RefreshOutcomes(a) + RefreshOutcomes(b)
  {
    if a == [] {
      assert a + b == b;
    } else {
      assert (a + b)[1..] == a[1..] + b;
      RefreshOutcomesAppend(a[1..], b);
    }
  }

  /** No failure action is dispatched in t. */
  predicate NoFailures(t: seq<Effect>)
  {
    forall i :: 0 <= i < |t| && t[i].Put? ==> !IsFailure(t[i].action)
  }

  /** Every failure action dispatched in t is the last but one effect, and it
      is followed by a notification of the same message: the shape every
      `catch` block of the sagas gives a trace. */
  predicate FailureNotifiedLast(t: seq<Effect>)
  {
    forall i :: 0 <= i < |t| && t[i].Put? && IsFailure(t[i].action) ==>
      i == |t| - 2 && t[i + 1] == Put(NotificationShow(t[i].action.reason))
  }

  lemma NotifiedFailureAtEnd(a: seq<Effect>, f: Action)
    requires NoFailures(a) && IsFailure(f)
    ensures FailureNotifiedLast(a + [Put(f), Put(NotificationShow(f.reason))])
  {
    var t := a + [Put(f), Put(NotificationShow(f.reason))];
    forall i | 0 <= i < |t| && t[i].Put? && IsFailure(t[i].action)
      ensures i == |t| - 2 && t[i + 1] == Put(NotificationShow(t[i].action.reason))
    {
    }
  }

  lemma NoFailuresAppend(a: seq<Effect>, b: seq<Effect>)
    requires NoFailures(a) && NoFailures(b)
    ensures NoFailures(a + b)
  {
    forall i | 0 <= i < |a + b| && (a + b)[i].Put?
      ensures !IsFailure((a + b)[i].action)
    {
      if i < |a| {
        assert (a + b)[i] == a[i];
      } else {
        assert (a + b)[i] == b[i - |a|];
      }
    }
  }

  // ---------------------------------------------------------------------
  // problemSolutionRefreshRequestHandler

  /** The message the refresh's `catch` block reports, or None when the
      refresh dispatches a success: the outcome read off the service
      outcomes independently of the trace. */
  function RefreshError(env: Services, uid: Value, problem: PathProblem, problemId: string,
                        fileId: Value, timerFirst: bool): Option<string>
  {
    if ShortCircuits(problem, fileId) then None
    else match ResolveSolution(env, uid, problemId, fileId)
      case Err(m) => Some(m)
      case Ok(ps) =>
        match Race(env.validateSolution(uid, problem, ps.id, ps.json), timerFirst)
        case TimedOut => Some(TimedOutMessage)
        case Rejected(m) => Some(m)
        case Resolved(result) =>
          match Classify(result, problem.frozen)
          case Throws(m) => Some(m)
          case _ => None
  }

  /** Lines 102-111: an inline problem with a `fileId` whose `typeof` is not
      "object" (undefined or a string) dispatches its stored JSON and nothing
      else; every other refresh starts by notifying "Fetching your solution"
      and yields three effects or more. `null` is an object, so an inline
      problem refreshed with a null `fileId` is fetched. */
  lemma InlineShortCircuit(env: Services, uid: Value, problem: PathProblem, problemId: string,
                           fileId: Value, timerFirst: bool)
    ensures ShortCircuits(problem, fileId) <==>
              problem.problemType == JupyterInline && (fileId.Undefined? || fileId.Str?)
    ensures var t := RefreshTrace(env, uid, problem, problemId, fileId, timerFirst);
            ShortCircuits(problem, fileId) ==>
              t == [Put(ProblemSolutionRefreshSuccess(problemId, InlineSolution(problem.solutionJSON)))]
    ensures var t := RefreshTrace(env, uid, problem, problemId, fileId, timerFirst);
            |t| == 1 <==> ShortCircuits(problem, fileId)
    ensures var t := RefreshTrace(env, uid, problem, problemId, fileId, timerFirst);
            !ShortCircuits(problem, fileId) ==> t[0] == Put(NotificationShow(FetchingMessage))
  {
    ObjectTypedValues(fileId);
    if !ShortCircuits(problem, fileId) {
      var resolved := ResolveSolution(env, uid, problemId, fileId);
      var rest := ResolvedTrace(env, uid, problem, problemId, resolved, timerFirst);
      assert |rest| >= 2 by {
        match resolved
        case Err(m) =>
        case Ok(ps) =>
      }
    }
  }

  /** An inline problem refreshed with `fileId` null takes the falsy branch of
      line 116 and fetches the stored solution. */
  lemma InlineNullFileIdFetchesStored(env: Services, uid: Value, problem: PathProblem, problemId: string,
                                      timerFirst: bool)
    requires problem.problemType == JupyterInline
    ensures var t := RefreshTrace(env, uid, problem, problemId, Null, timerFirst);
            |t| >= 2 && t[..2] == [Put(NotificationShow(FetchingMessage)), Call(FetchSolutionFile(problemId, uid))]
  {
    ObjectTypedValues(Null);
    assert !ShortCircuits(problem, Null) && !Truthy(Null);
    var resolved := ResolveSolution(env, uid, problemId, Null);
    var rest := ResolvedTrace(env, uid, problem, problemId, resolved, timerFirst);
    var t := RefreshTrace(env, uid, problem, problemId, Null, timerFirst);
    assert t == [Put(NotificationShow(FetchingMessage)), Call(FetchSolutionFile(problemId, uid))] + rest;
  }

  /** Lines 116-125: a non-empty string `fileId` is fetched with `fetchFile`;
      the fetched JSON is dispatched and validated under the id `fileId`. */
  lemma StringFileIdFetched(env: Services, uid: Value, problem: PathProblem, problemId: string,
                            s: string, json: Value, timerFirst: bool)
    requires problem.problemType != JupyterInline && s != ""
    requires env.fetchFile(s) == Ok(json)
    ensures var t := RefreshTrace(env, uid, problem, problemId, Str(s), timerFirst);
            |t| >= 5 &&
            t[..5] == [Put(NotificationShow(FetchingMessage)), Call(FetchFile(s)),
                       Put(ProblemSolutionProvidedSuccess(problemId, json)), Put(NotificationShow(CheckingMessage)),
                       RaceWithDelay(ValidateSolution(uid, problem, Str(s), json), OneMinute)]
  {
    var ps := SolutionFile(Str(s), json);
    assert ResolveSolution(env, uid, problemId, Str(s)) == Ok(ps);
    var t := RefreshTrace(env, uid, problem, problemId, Str(s), timerFirst);
    var head := [Put(NotificationShow(FetchingMessage)), Call(FetchFile(s))];
    var checking := [Put(ProblemSolutionProvidedSuccess(problemId, json)), Put(NotificationShow(CheckingMessage)),
                     RaceWithDelay(ValidateSolution(uid, problem, Str(s), json), OneMinute)];
    var rest := RaceCompletion(problemId, ps.id, Race(env.validateSolution(uid, problem, ps.id, ps.json), timerFirst), problem.frozen);
    assert t == head + (checking + rest);
    assert (head + (checking + rest))[..5] == head + checking;
  }

  /** Lines 116-122: any other truthy `fileId` (an object) is the solution's
      JSON itself, and its own id; nothing is fetched. */
  lemma ObjectFileIdUsedDirectly(env: Services, uid: Value, problem: PathProblem, problemId: string,
                                 literal: string, timerFirst: bool)
    ensures var fileId := Obj(literal);
            var t := RefreshTrace(env, uid, problem, problemId, fileId, timerFirst);
            |t| >= 4 &&
            t[..4] == [Put(NotificationShow(FetchingMessage)),
                       Put(ProblemSolutionProvidedSuccess(problemId, fileId)), Put(NotificationShow(CheckingMessage)),
                       RaceWithDelay(ValidateSolution(uid, problem, fileId, fileId), OneMinute)]
  {
    var fileId := Obj(literal);
    var ps := SolutionFile(fileId, fileId);
    var t := RefreshTrace(env, uid, problem, problemId, fileId, timerFirst);
    var head := [Put(NotificationShow(FetchingMessage))];
    var checking := [Put(ProblemSolutionProvidedSuccess(problemId, fileId)), Put(NotificationShow(CheckingMessage)),
                     RaceWithDelay(ValidateSolution(uid, problem, fileId, fileId), OneMinute)];
    var rest := RaceCompletion(problemId, ps.id, Race(env.validateSolution(uid, problem, ps.id, ps.json), timerFirst), problem.frozen);
    assert t == head + [] + (checking + rest);
    assert (head + [] + (checking + rest))[..4] == head + checking;
  }

  /** Lines 126-130: a falsy `fileId` (undefined, null or "") that does not
      short-circuit makes the refresh use the stored solution of
      `fetchSolutionFile(problemId, uid)`, with that solution's own id and JSON. */
  lemma FalsyFileIdUsesStoredSolution(env: Services, uid: Value, problem: PathProblem, problemId: string,
                                      fileId: Value, file: SolutionFile, timerFirst: bool)
    requires !Truthy(fileId) && !ShortCircuits(problem, fileId)
    requires env.fetchSolutionFile(problemId, uid) == Ok(Some(file))
    ensures var t := RefreshTrace(env, uid, problem, problemId, fileId, timerFirst);
            |t| >= 5 &&
            t[..5] == [Put(NotificationShow(FetchingMessage)), Call(FetchSolutionFile(problemId, uid)),
                       Put(ProblemSolutionProvidedSuccess(problemId, file.json)), Put(NotificationShow(CheckingMessage)),
                       RaceWithDelay(ValidateSolution(uid, problem, file.id, file.json), OneMinute)]
  {
    assert ResolveSolution(env, uid, problemId, fileId) == Ok(file);
    var t := RefreshTrace(env, uid, problem, problemId, fileId, timerFirst);
    var head := [Put(NotificationShow(FetchingMessage)), Call(FetchSolutionFile(problemId, uid))];
    var checking := [Put(ProblemSolutionProvidedSuccess(problemId, file.json)), Put(NotificationShow(CheckingMessage)),
                     RaceWithDelay(ValidateSolution(uid, problem, file.id, file.json), OneMinute)];
    var rest := RaceCompletion(problemId, file.id, Race(env.validateSolution(uid, problem, file.id, file.json), timerFirst), problem.frozen);
    assert t == head + (checking + rest);
    assert (head + (checking + rest))[..5] == head + checking;
  }

  /** A refresh whose validation resolves dispatches, in order: "Fetching your
      solution", the resolved JSON, "Checking your solution", the effects of
      the verdict on the frozen window, and the refresh success carrying the
      solution's id and the validator's result (lines 114-175). */
  lemma RefreshValidatedTrace(env: Services, uid: Value, problem: PathProblem, problemId: string,
                              fileId: Value, timerFirst: bool, ps: SolutionFile, result: ValidationResult)
    requires !ShortCircuits(problem, fileId)
    requires ResolveSolution(env, uid, problemId, fileId) == Ok(ps)
    requires !timerFirst && env.validateSolution(uid, problem, ps.id, ps.json) == Ok(result)
    requires !Classify(result, problem.frozen).Throws?
    ensures RefreshTrace(env, uid, problem, problemId, fileId, timerFirst) ==
              [Put(NotificationShow(FetchingMessage))]
              + ResolveCalls(uid, problemId, fileId)
              + [Put(ProblemSolutionProvidedSuccess(problemId, ps.json)),
                 Put(NotificationShow(CheckingMessage)),
                 RaceWithDelay(ValidateSolution(uid, problem, ps.id, ps.json), OneMinute)]
              + VerdictEffects(Classify(result, problem.frozen))
              + [Put(ProblemSolutionRefreshSuccess(problemId, ValidatedSolution(ps.id, result)))]
    ensures RefreshError(env, uid, problem, problemId, fileId, timerFirst) == None
  {
    var head := [Put(NotificationShow(FetchingMessage))] + ResolveCalls(uid, problemId, fileId);
    var checking := [Put(ProblemSolutionProvidedSuccess(problemId, ps.json)),
                     Put(NotificationShow(CheckingMessage)),
                     RaceWithDelay(ValidateSolution(uid, problem, ps.id, ps.json), OneMinute)];
    var verdict := VerdictEffects(Classify(result, problem.frozen));
    var success := [Put(ProblemSolutionRefreshSuccess(problemId, ValidatedSolution(ps.id, result)))];
    assert RefreshTrace(env, uid, problem, problemId, fileId, timerFirst) == head + (checking + (verdict + success));
    AppendAssoc(checking, verdict, success);
    AppendAssoc(head, checking + verdict, success);
    AppendAssoc(head, checking, verdict);
  }

  /** Lines 150-156 and 176-178: when the scan of the window throws (a null
      or undefined element read before any cell fails, or `cells` a string
      whose slice has no `forEach`), the race's result is never dispatched:
      the refresh fails with the TypeError's message right after the race,
      with no verdict notification. */
  lemma RefreshScanThrows(env: Services, uid: Value, problem: PathProblem, problemId: string,
                          fileId: Value, timerFirst: bool, ps: SolutionFile, result: ValidationResult)
    requires !ShortCircuits(problem, fileId)
    requires ResolveSolution(env, uid, problemId, fileId) == Ok(ps)
    requires !timerFirst && env.validateSolution(uid, problem, ps.id, ps.json) == Ok(result)
    requires Classify(result, problem.frozen).Throws?
    ensures var m := Classify(result, problem.frozen).message;
            RefreshTrace(env, uid, problem, problemId, fileId, timerFirst) ==
              [Put(NotificationShow(FetchingMessage))]
              + ResolveCalls(uid, problemId, fileId)
              + [Put(ProblemSolutionProvidedSuccess(problemId, ps.json)),
                 Put(NotificationShow(CheckingMessage)),
                 RaceWithDelay(ValidateSolution(uid, problem, ps.id, ps.json), OneMinute)]
              + RefreshFailure(problemId, m)
    ensures RefreshError(env, uid, problem, problemId, fileId, timerFirst) == Some(Classify(result, problem.frozen).message)
  {
    var m := Classify(result, problem.frozen).message;
    var head := [Put(NotificationShow(FetchingMessage))] + ResolveCalls(uid, problemId, fileId);
    var checking := [Put(ProblemSolutionProvidedSuccess(problemId, ps.json)),
                     Put(NotificationShow(CheckingMessage)),
                     RaceWithDelay(ValidateSolution(uid, problem, ps.id, ps.json), OneMinute)];
    assert RefreshTrace(env, uid, problem, problemId, fileId, timerFirst) == head + (checking + RefreshFailure(problemId, m));
    AppendAssoc(head, checking, RefreshFailure(problemId, m));
  }

  /** The verdict's dispatches, just before the final refresh success: a
      failing window gives `problemSolutionCalculatedWrong` and the "Failing"
      notification, a passing one "Solution is valid", and a result without
      cells nothing at all, and neither does a scan that throws. */
  lemma VerdictDispatches(verdict: Verdict)
    ensures Put(ProblemSolutionCalculatedWrong) in VerdictEffects(verdict) <==> verdict == Failing
    ensures Put(NotificationShow(FailingMessage)) in VerdictEffects(verdict) <==> verdict == Failing
    ensures Put(NotificationShow(ValidMessage)) in VerdictEffects(verdict) <==> verdict == Passing
    ensures verdict == Failing ==>
              VerdictEffects(verdict) == [Put(ProblemSolutionCalculatedWrong), Put(NotificationShow(FailingMessage))]
    ensures VerdictEffects(verdict) == [] <==> verdict == NotInspected || verdict.Throws?
  {
  }

  /** Lines 150 and 170-175: when the validator resolves with something that
      has no `cells`, the success is dispatched right after the race, with no
      `problemSolutionCalculatedWrong` and no pass or fail notification. */
  lemma RefreshUninspected(env: Services, uid: Value, problem: PathProblem, problemId: string,
                           fileId: Value, timerFirst: bool, ps: SolutionFile, raw: Value)
    requires !ShortCircuits(problem, fileId)
    requires ResolveSolution(env, uid, problemId, fileId) == Ok(ps)
    requires !timerFirst && env.validateSolution(uid, problem, ps.id, ps.json) == Ok(Opaque(raw))
    ensures var t := RefreshTrace(env, uid, problem, problemId, fileId, timerFirst);
            && |t| >= 2
            && t[|t| - 2] == RaceWithDelay(ValidateSolution(uid, problem, ps.id, ps.json), OneMinute)
            && t[|t| - 1] == Put(ProblemSolutionRefreshSuccess(problemId, ValidatedSolution(ps.id, Opaque(raw))))
            && Put(ProblemSolutionCalculatedWrong) !in t
            && Put(NotificationShow(FailingMessage)) !in t
            && Put(NotificationShow(ValidMessage)) !in t
  {
    RefreshValidatedTrace(env, uid, problem, problemId, fileId, timerFirst, ps, Opaque(raw));
    var calls := ResolveCalls(uid, problemId, fileId);
    assert forall e :: e in calls ==> e.Call?;
  }

  /** `problemSolutionCalculatedWrong` is dispatched exactly when the
      validation resolves within the minute with cells whose frozen window
      has a failing cell. */
  lemma CalculatedWrongIff(env: Services, uid: Value, problem: PathProblem, problemId: string,
                           fileId: Value, timerFirst: bool)
    ensures var t := RefreshTrace(env, uid, problem, problemId, fileId, timerFirst);
            var resolved := ResolveSolution(env, uid, problemId, fileId);
            Put(ProblemSolutionCalculatedWrong) in t <==>
              && !ShortCircuits(problem, fileId)
              && resolved.Ok?
              && var raced := Race(env.validateSolution(uid, problem, resolved.value.id, resolved.value.json), timerFirst);
                 raced.Resolved? && Classify(raced.result, problem.frozen) == Failing
  {
    var t := RefreshTrace(env, uid, problem, problemId, fileId, timerFirst);
    if !ShortCircuits(problem, fileId) {
      var resolved := ResolveSolution(env, uid, problemId, fileId);
      var calls := ResolveCalls(uid, problemId, fileId);
      assert forall e :: e in calls ==> e.Call?;
      match resolved
      case Err(m) =>
        assert t == [Put(NotificationShow(FetchingMessage))] + calls + RefreshFailure(problemId, m);
      case Ok(ps) =>
        var raced := Race(env.validateSolution(uid, problem, ps.id, ps.json), timerFirst);
        var checking := [Put(ProblemSolutionProvidedSuccess(problemId, ps.json)),
                         Put(NotificationShow(CheckingMessage)),
                         RaceWithDelay(ValidateSolution(uid, problem, ps.id, ps.json), OneMinute)];
        assert t == [Put(NotificationShow(FetchingMessage))] + calls + (checking + RaceCompletion(problemId, ps.id, raced, problem.frozen));
        if raced.Resolved? {
          VerdictDispatches(Classify(raced.result, problem.frozen));
        }
    }
  }

  /** Nothing in t ends a refresh, reports a failure or marks the attempt
      wrong: the effects a refresh yields before its outcome. */
  predicate Quiet(t: seq<Effect>)
  {
    forall i :: 0 <= i < |t| ==>
      !IsRefreshOutcome(t[i]) && (t[i].Put? ==> !IsFailure(t[i].action) && t[i] != Put(ProblemSolutionCalculatedWrong))
  }

  lemma {:induction false} NoOutcomes(t: seq<Effect>)
    requires forall i :: 0 <= i < |t| ==> !IsRefreshOutcome(t[i])
    ensures RefreshOutcomes(t) == 0
  {
    if t != [] {
      assert forall i :: 0 <= i < |t[1..]| ==> t[1..][i] == t[i + 1];
      NoOutcomes(t[1..]);
    }
  }

  lemma QuietAppend(a: seq<Effect>, b: seq<Effect>)
    requires Quiet(a) && Quiet(b)
    ensures Quiet(a + b)
  {
    forall i | 0 <= i < |a + b|
      ensures !IsRefreshOutcome((a + b)[i]) && ((a + b)[i].Put? ==> !IsFailure((a + b)[i].action) && (a + b)[i] != Put(ProblemSolutionCalculatedWrong))
    {
      if i < |a| {
        assert (a + b)[i] == a[i];
      } else {
        assert (a + b)[i] == b[i - |a|];
      }
    }
  }

  /** What a refresh yields before its outcome: the "Fetching" notification
      and the resolving calls, and once resolved the dispatch of the JSON, the
      "Checking" notification and the race. */
  lemma QuietPrefixes(uid: Value, problem: PathProblem, problemId: string, fileId: Value, ps: SolutionFile)
    ensures Quiet([Put(NotificationShow(FetchingMessage))] + ResolveCalls(uid, problemId, fileId))
    ensures Quiet([Put(ProblemSolutionProvidedSuccess(problemId, ps.json)),
                   Put(NotificationShow(CheckingMessage)),
                   RaceWithDelay(ValidateSolution(uid, problem, ps.id, ps.json), OneMinute)])
  {
    QuietAppend([Put(NotificationShow(FetchingMessage))], ResolveCalls(uid, problemId, fileId));
  }

  /** A refresh failure yielded after a quiet prefix. */
  lemma FailureAtEnd(a: seq<Effect>, f: Action)
    requires Quiet(a) && f.ProblemSolutionRefreshFail?
    ensures var t := a + [Put(f), Put(NotificationShow(f.reason))];
            && RefreshOutcomes(t) == 1
            && FailureNotifiedLast(t)
            && Put(ProblemSolutionCalculatedWrong) !in t
            && (forall i :: 0 <= i < |t| && t[i].Put? ==> !t[i].action.ProblemSolutionRefreshSuccess?)
  {
    var tail := [Put(f), Put(NotificationShow(f.reason))];
    var t := a + tail;
    NotifiedFailureAtEnd(a, f);
    NoOutcomes(a);
    RefreshOutcomesAppend(a, tail);
    assert RefreshOutcomes(tail) == 1 by {
      assert tail[1..][1..] == [];
      assert RefreshOutcomes(tail[1..]) == 0;
    }
    forall i | 0 <= i < |t| ensures t[i] != Put(ProblemSolutionCalculatedWrong) &&
                                    (t[i].Put? ==> !t[i].action.ProblemSolutionRefreshSuccess?) {
      if i < |a| {
        assert t[i] == a[i];
      }
    }
  }

  /** A refresh success yielded after a quiet prefix and the verdict's dispatches. */
  lemma SuccessAtEnd(a: seq<Effect>, verdict: Verdict, s: Action)
    requires Quiet(a) && s.ProblemSolutionRefreshSuccess?
    ensures var t := a + VerdictEffects(verdict) + [Put(s)];
            && RefreshOutcomes(t) == 1
            && NoFailures(t)
            && t[|t| - 1] == Put(s)
  {
    var v := VerdictEffects(verdict);
    var t := a + v + [Put(s)];
    NoOutcomes(a);
    NoOutcomes(v);
    RefreshOutcomesAppend(a, v);
    RefreshOutcomesAppend(a + v, [Put(s)]);
    assert RefreshOutcomes([Put(s)]) == 1 by {
      assert [Put(s)][1..] == [];
    }
    forall i | 0 <= i < |t| && t[i].Put? ensures !IsFailure(t[i].action) {
      if i < |a| {
        assert t[i] == a[i];
      } else if i < |a| + |v| {
        assert t[i] == v[i - |a|];
      }
    }
  }

  /** Lines 137-156 and 176-178: a refresh that fails (the solution cannot be
      fetched, the validator rejects, the minute runs out, or the scan of the
      window throws) ends with
      `problemSolutionRefreshFail(problemId, message)` followed by a
      notification of the same message, and dispatches neither a refresh
      success nor `problemSolutionCalculatedWrong`. */
  lemma RefreshFails(env: Services, uid: Value, problem: PathProblem, problemId: string,
                     fileId: Value, timerFirst: bool)
    requires RefreshError(env, uid, problem, problemId, fileId, timerFirst).Some?
    ensures var t := RefreshTrace(env, uid, problem, problemId, fileId, timerFirst);
            var m := RefreshError(env, uid, problem, problemId, fileId, timerFirst).value;
            && |t| >= 2
            && t[|t| - 2..] == RefreshFailure(problemId, m)
            && RefreshOutcomes(t) == 1
            && FailureNotifiedLast(t)
            && Put(ProblemSolutionCalculatedWrong) !in t
            && (forall i :: 0 <= i < |t| && t[i].Put? ==> !t[i].action.ProblemSolutionRefreshSuccess?)
  {
    var t := RefreshTrace(env, uid, problem, problemId, fileId, timerFirst);
    var m := RefreshError(env, uid, problem, problemId, fileId, timerFirst).value;
    var head := [Put(NotificationShow(FetchingMessage))] + ResolveCalls(uid, problemId, fileId);
    var resolved := ResolveSolution(env, uid, problemId, fileId);
    if resolved.Err? {
      QuietPrefixes(uid, problem, problemId, fileId, SolutionFile(Undefined, Undefined));
      assert t == head + RefreshFailure(problemId, m);
      FailureAtEnd(head, ProblemSolutionRefreshFail(problemId, m));
    } else {
      var ps := resolved.value;
      var checking := [Put(ProblemSolutionProvidedSuccess(problemId, ps.json)),
                       Put(NotificationShow(CheckingMessage)),
                       RaceWithDelay(ValidateSolution(uid, problem, ps.id, ps.json), OneMinute)];
      QuietPrefixes(uid, problem, problemId, fileId, ps);
      QuietAppend(head, checking);
      assert t == head + (checking + RefreshFailure(problemId, m));
      AppendAssoc(head, checking, RefreshFailure(problemId, m));
      FailureAtEnd(head + checking, ProblemSolutionRefreshFail(problemId, m));
    }
  }

  /** A refresh that does not fail ends with the refresh success and
      dispatches no failure. */
  lemma RefreshSucceeds(env: Services, uid: Value, problem: PathProblem, problemId: string,
                        fileId: Value, timerFirst: bool)
    requires RefreshError(env, uid, problem, problemId, fileId, timerFirst).None?
    ensures var t := RefreshTrace(env, uid, problem, problemId, fileId, timerFirst);
            && |t| >= 1
            && t[|t| - 1].Put? && t[|t| - 1].action.ProblemSolutionRefreshSuccess?
            && RefreshOutcomes(t) == 1
            && NoFailures(t)
  {
    var t := RefreshTrace(env, uid, problem, problemId, fileId, timerFirst);
    if ShortCircuits(problem, fileId) {
      assert RefreshOutcomes(t) == 1 by {
        assert t[1..] == [];
      }
      return;
    }
    var head := [Put(NotificationShow(FetchingMessage))] + ResolveCalls(uid, problemId, fileId);
    var ps := ResolveSolution(env, uid, problemId, fileId).value;
    var checking := [Put(ProblemSolutionProvidedSuccess(problemId, ps.json)),
                     Put(NotificationShow(CheckingMessage)),
                     RaceWithDelay(ValidateSolution(uid, problem, ps.id, ps.json), OneMinute)];
    var result := Race(env.validateSolution(uid, problem, ps.id, ps.json), timerFirst).result;
    var verdict := Classify(result, problem.frozen);
    assert !verdict.Throws?;
    var success := ProblemSolutionRefreshSuccess(problemId, ValidatedSolution(ps.id, result));
    QuietPrefixes(uid, problem, problemId, fileId, ps);
    QuietAppend(head, checking);
    assert t == head + (checking + (VerdictEffects(verdict) + [Put(success)]));
    AppendAssoc(head, checking, VerdictEffects(verdict) + [Put(success)]);
    AppendAssoc(head + checking, VerdictEffects(verdict), [Put(success)]);
    SuccessAtEnd(head + checking, verdict, success);
  }

  /** Every refresh dispatches exactly one outcome, and a failure only as
      its last dispatch but one, followed by a notification of its message. */
  lemma RefreshOutcomeOnce(env: Services, uid: Value, problem: PathProblem, problemId: string,
                           fileId: Value, timerFirst: bool)
    ensures var t := RefreshTrace(env, uid, problem, problemId, fileId, timerFirst);
            RefreshOutcomes(t) == 1 && FailureNotifiedLast(t)
  {
    if RefreshError(env, uid, problem, problemId, fileId, timerFirst).Some? {
      RefreshFails(env, uid, problem, problemId, fileId, timerFirst);
    } else {
      RefreshSucceeds(env, uid, problem, problemId, fileId, timerFirst);
    }
  }

  /** Lines 143-149: when the minute runs out first the refresh fails with
      "Solution processing timed out", whatever the validator does; the JSON
      and the "Checking" notification were dispatched before. */
  lemma RefreshTimesOut(env: Services, uid: Value, problem: PathProblem, problemId: string,
                        fileId: Value, ps: SolutionFile)
    requires !ShortCircuits(problem, fileId)
    requires ResolveSolution(env, uid, problemId, fileId) == Ok(ps)
    ensures RefreshError(env, uid, problem, problemId, fileId, true) == Some(TimedOutMessage)
    ensures RefreshTrace(env, uid, problem, problemId, fileId, true) ==
              [Put(NotificationShow(FetchingMessage))]
              + ResolveCalls(uid, problemId, fileId)
              + [Put(ProblemSolutionProvidedSuccess(problemId, ps.json)),
                 Put(NotificationShow(CheckingMessage)),
                 RaceWithDelay(ValidateSolution(uid, problem, ps.id, ps.json), OneMinute)]
              + RefreshFailure(problemId, TimedOutMessage)
  {
    var head := [Put(NotificationShow(FetchingMessage))] + ResolveCalls(uid, problemId, fileId);
    var checking := [Put(ProblemSolutionProvidedSuccess(problemId, ps.json)),
                     Put(NotificationShow(CheckingMessage)),
                     RaceWithDelay(ValidateSolution(uid, problem, ps.id, ps.json), OneMinute)];
    AppendAssoc(head, checking, RefreshFailure(problemId, TimedOutMessage));
  }

  /** Lines 115-130 and 176-178: when the solution cannot be resolved the
      refresh fails with the error's message right after the resolving calls;
      no JSON is dispatched and the validator is never called. A stored
      solution that is null fails when its `json` is read. */
  lemma RefreshFetchFails(env: Services, uid: Value, problem: PathProblem, problemId: string,
                          fileId: Value, timerFirst: bool, m: string)
    requires !ShortCircuits(problem, fileId)
    requires ResolveSolution(env, uid, problemId, fileId) == Err(m)
    ensures RefreshTrace(env, uid, problem, problemId, fileId, timerFirst) ==
              [Put(NotificationShow(FetchingMessage))] + ResolveCalls(uid, problemId, fileId) + RefreshFailure(problemId, m)
    ensures var t := RefreshTrace(env, uid, problem, problemId, fileId, timerFirst);
            forall i :: 0 <= i < |t| ==> !t[i].RaceWithDelay? && !(t[i].Put? && t[i].action.ProblemSolutionProvidedSuccess?)
  {
    var t := RefreshTrace(env, uid, problem, problemId, fileId, timerFirst);
    var calls := ResolveCalls(uid, problemId, fileId);
    forall i | 0 <= i < |t| ensures !t[i].RaceWithDelay? && !(t[i].Put? && t[i].action.ProblemSolutionProvidedSuccess?) {
      if 1 <= i < 1 + |calls| {
        assert t[i] == calls[i - 1];
      }
    }
  }

  lemma NullStoredSolutionFails(env: Services, uid: Value, problem: PathProblem, problemId: string,
                                fileId: Value, timerFirst: bool)
    requires !Truthy(fileId) && !ShortCircuits(problem, fileId)
    requires env.fetchSolutionFile(problemId, uid) == Ok(None)
    ensures RefreshError(env, uid, problem, problemId, fileId, timerFirst) == Some(NullSolutionMessage)
  {
  }

  // ---------------------------------------------------------------------
  // problemInitRequestHandler

  /** Lines 44-62: the handler waits for the login only without a uid and for
      the authorization only without it, dispatches the interim
      `problemInitSuccess(pathId, problemId, null)` right after the login wait,
      and makes no call before fetching the path problem. */
  lemma InitPreludeOrder(env: Services, pathId: string, problemId: string,
                         uidAtStart: Value, uidAfterLogin: Value, gapiAuthorized: bool)
    ensures var t := InitTrace(env, pathId, problemId, uidAtStart, uidAfterLogin, gapiAuthorized);
            var n := |LoginWait(uidAtStart)|;
            var f := n + 1 + |GapiWait(gapiAuthorized)|;
            && f < |t|
            && (forall i :: 0 <= i < n ==> t[i] == Take(Login))
            && t[n] == Put(ProblemInitSuccess(pathId, problemId, None))
            && t[f] == Call(FetchPathProblem(pathId, problemId))
            && (forall i :: 0 <= i < f ==> !t[i].Call?)
    ensures var t := InitTrace(env, pathId, problemId, uidAtStart, uidAfterLogin, gapiAuthorized);
            (Take(Login) in t <==> !Truthy(uidAtStart)) && (Take(GapiAuthorized) in t <==> !gapiAuthorized)
  {
    var t := InitTrace(env, pathId, problemId, uidAtStart, uidAfterLogin, gapiAuthorized);
    var prelude := InitPrelude(pathId, problemId, uidAtStart, gapiAuthorized);
    var rest := InitCompletion(env, pathId, problemId, InitUid(uidAtStart, uidAfterLogin));
    assert forall e :: e in rest ==> !e.Take? by {
      match env.fetchPathProblem(pathId, problemId)
      case Err(m) =>
      case Ok(None) =>
      case Ok(Some(problem)) =>
    }
    assert t == prelude + rest;
    assert forall i :: 0 <= i < |prelude| ==> t[i] == prelude[i];
  }

  /** Lines 69-71 and 83-86: a path problem that is missing fails the init
      with "Missing path problem" right after the fetch; no non-null
      `problemInitSuccess` is dispatched and no solution is fetched. */
  lemma InitMissingProblem(env: Services, pathId: string, problemId: string,
                           uidAtStart: Value, uidAfterLogin: Value, gapiAuthorized: bool)
    requires env.fetchPathProblem(pathId, problemId) == Ok(None)
    ensures var t := InitTrace(env, pathId, problemId, uidAtStart, uidAfterLogin, gapiAuthorized);
            && t == InitPrelude(pathId, problemId, uidAtStart, gapiAuthorized)
                    + InitFailure(pathId, problemId, MissingProblemMessage)
            && (forall i :: 0 <= i < |t| && t[i].Put? && t[i].action.ProblemInitSuccess? ==> t[i].action.pathProblem.None?)
            && (forall i :: 0 <= i < |t| ==> !(t[i].Call? && t[i].service.FetchSolutionFile?))
  {
  }

  /** Lines 73-82: once the problem is fetched, the non-null
      `problemInitSuccess` is dispatched and the stored solution is fetched
      with the uid of the store, or the one present after the login; a stored
      solution is then dispatched as a refresh success, and none means the
      init ends there. */
  lemma InitStoredSolution(env: Services, pathId: string, problemId: string,
                           uidAtStart: Value, uidAfterLogin: Value, gapiAuthorized: bool, problem: PathProblem)
    requires env.fetchPathProblem(pathId, problemId) == Ok(Some(problem))
    ensures var uid := if Truthy(uidAtStart) then uidAtStart else uidAfterLogin;
            var loaded := [Put(ProblemInitSuccess(pathId, problemId, Some(problem))), Call(FetchSolutionFile(problemId, uid))];
            var t := InitTrace(env, pathId, problemId, uidAtStart, uidAfterLogin, gapiAuthorized);
            var prelude := InitPrelude(pathId, problemId, uidAtStart, gapiAuthorized);
            && (env.fetchSolutionFile(problemId, uid).Ok? && env.fetchSolutionFile(problemId, uid).value.Some? ==>
                  t == prelude + loaded
                       + [Put(ProblemSolutionRefreshSuccess(problemId, StoredSolution(env.fetchSolutionFile(problemId, uid).value.value)))])
            && (env.fetchSolutionFile(problemId, uid) == Ok(None) ==> t == prelude + loaded)
  {
  }

  /** Lines 73-86: when fetching the stored solution throws, the init fails
      after its non-null success was already dispatched, so the trace holds
      both. */
  lemma InitFailsAfterSuccess(env: Services, pathId: string, problemId: string,
                              uidAtStart: Value, uidAfterLogin: Value, gapiAuthorized: bool,
                              problem: PathProblem, m: string)
    requires env.fetchPathProblem(pathId, problemId) == Ok(Some(problem))
    requires env.fetchSolutionFile(problemId, InitUid(uidAtStart, uidAfterLogin)) == Err(m)
    ensures var t := InitTrace(env, pathId, problemId, uidAtStart, uidAfterLogin, gapiAuthorized);
            var tail := [Put(ProblemInitSuccess(pathId, problemId, Some(problem))),
                         Call(FetchSolutionFile(problemId, InitUid(uidAtStart, uidAfterLogin))),
                         Put(ProblemInitFail(pathId, problemId, m)), Put(NotificationShow(m))];
            |t| >= 4 && t[|t| - 4..] == tail
  {
  }

  /** Every init trace reports a failure only as its last dispatch but one,
      followed by the notification of its message. */
  lemma InitFailureNotified(env: Services, pathId: string, problemId: string,
                            uidAtStart: Value, uidAfterLogin: Value, gapiAuthorized: bool)
    ensures FailureNotifiedLast(InitTrace(env, pathId, problemId, uidAtStart, uidAfterLogin, gapiAuthorized))
  {
    var uid := InitUid(uidAtStart, uidAfterLogin);
    var prelude := InitPrelude(pathId, problemId, uidAtStart, gapiAuthorized);
    var t := InitTrace(env, pathId, problemId, uidAtStart, uidAfterLogin, gapiAuthorized);
    assert NoFailures(prelude);
    match env.fetchPathProblem(pathId, problemId)
    case Err(m) =>
      NotifiedFailureAtEnd(prelude, ProblemInitFail(pathId, problemId, m));
    case Ok(None) =>
      NotifiedFailureAtEnd(prelude, ProblemInitFail(pathId, problemId, MissingProblemMessage));
    case Ok(Some(problem)) =>
      var loaded := [Put(ProblemInitSuccess(pathId, problemId, Some(problem))), Call(FetchSolutionFile(problemId, uid))];
      NoFailuresAppend(prelude, loaded);
      assert t == prelude + (loaded + match env.fetchSolutionFile(problemId, uid)
                                      case Err(m) => InitFailure(pathId, problemId, m)
                                      case Ok(None) => []
                                      case Ok(Some(file)) => [Put(ProblemSolutionRefreshSuccess(problemId, StoredSolution(file)))]);
      match env.fetchSolutionFile(problemId, uid)
      case Err(m) =>
        AppendAssoc(prelude, loaded, InitFailure(pathId, problemId, m));
        NotifiedFailureAtEnd(prelude + loaded, ProblemInitFail(pathId, problemId, m));
      case Ok(None) =>
      case Ok(Some(file)) =>
        AppendAssoc(prelude, loaded, [Put(ProblemSolutionRefreshSuccess(problemId, StoredSolution(file)))]);
        NoFailuresAppend(prelude + loaded, [Put(ProblemSolutionRefreshSuccess(problemId, StoredSolution(file)))]);
  }

  // ---------------------------------------------------------------------
  // problemSolveUpdateHandler

  /** Lines 89-93: the solve-update trace by cases on `getFileId`. The
      resolved file id is what the refresh request carries; when resolving
      throws nothing is dispatched. */
  lemma SolveUpdateRequestsRefresh(env: Services, problemId: string, fileRef: Value)
    ensures env.getFileId(fileRef).Ok? ==>
              SolveUpdateTrace(env, problemId, fileRef) ==
                [Call(GetFileId(fileRef)), Put(ProblemSolutionRefreshRequest(problemId, env.getFileId(fileRef).value))]
    ensures env.getFileId(fileRef).Err? ==> SolveUpdateTrace(env, problemId, fileRef) == [Call(GetFileId(fileRef))]
  {
  }

  // ---------------------------------------------------------------------
  // problemCheckSolutionRequestHandler

  /** Lines 188-208: a check notifies "Checking solution", calls the
      validator, and then either notifies "Solution is valid" or dispatches
      `problemCheckSolutionFail` with the ids, the solution and the message,
      followed by a notification of that message. The fail is dispatched
      exactly when the validator throws, so success and fail never meet. */
  lemma CheckOutcome(env: Services, uid: Value, problem: PathProblem, problemId: string,
                     fileId: Value, solution: Value)
    ensures var t := CheckTrace(env, uid, problem, problemId, fileId, solution);
            var v := env.validateSolution(uid, problem, fileId, solution);
            && (v.Ok? ==> t == [Put(NotificationShow(CheckSolutionMessage)),
                                 Call(ValidateSolution(uid, problem, fileId, solution)),
                                 Put(NotificationShow(ValidMessage))])
            && (v.Err? ==> t == [Put(NotificationShow(CheckSolutionMessage)),
                                  Call(ValidateSolution(uid, problem, fileId, solution)),
                                  Put(ProblemCheckSolutionFail(problemId, fileId, solution, v.message)),
                                  Put(NotificationShow(v.message))])
            && ((exists i :: 0 <= i < |t| && t[i].Put? && t[i].action.ProblemCheckSolutionFail?) <==> v.Err?)
            && FailureNotifiedLast(t)
  {
    var t := CheckTrace(env, uid, problem, problemId, fileId, solution);
    var v := env.validateSolution(uid, problem, fileId, solution);
    var head := [Put(NotificationShow(CheckSolutionMessage)), Call(ValidateSolution(uid, problem, fileId, solution))];
    if v.Err? {
      assert t[2].Put? && t[2].action.ProblemCheckSolutionFail?;
      NotifiedFailureAtEnd(head, ProblemCheckSolutionFail(problemId, fileId, solution, v.message));
    }
  }

  /** Lines 190-197: the check ignores what the validator returns; only
      whether it throws matters. */
  lemma CheckIgnoresResult(env: Services, env': Services, uid: Value, problem: PathProblem, problemId: string,
                           fileId: Value, solution: Value)
    requires env.validateSolution(uid, problem, fileId, solution).Ok?
    requires env'.validateSolution(uid, problem, fileId, solution).Ok?
    ensures CheckTrace(env, uid, problem, problemId, fileId, solution) == CheckTrace(env', uid, problem, problemId, fileId, solution)
  {
  }

  // ---------------------------------------------------------------------
  // problemSolutionSubmitRequestHandler

  /** Lines 213-242: a submission calls `submitSolution` and then either
      dispatches `problemSolutionSubmitSuccess(pathId, problemId, payload)`
      followed by "Solution is valid!", or `problemSolutionSubmitFail` with
      the same ids, the payload and the message, followed by a notification
      of that message; exactly one of the two is dispatched. */
  lemma SubmitOutcome(env: Services, uid: Value, problem: PathProblem, pathId: string,
                      problemId: string, payload: Value)
    ensures var t := SubmitTrace(env, uid, problem, pathId, problemId, payload);
            var r := env.submitSolution(uid, problem, payload);
            && (r.Ok? ==> t == [Call(SubmitSolution(uid, problem, payload)),
                                 Put(ProblemSolutionSubmitSuccess(pathId, problemId, payload)),
                                 Put(NotificationShow(SubmittedMessage))])
            && (r.Err? ==> t == [Call(SubmitSolution(uid, problem, payload)),
                                  Put(ProblemSolutionSubmitFail(pathId, problemId, payload, r.message)),
                                  Put(NotificationShow(r.message))])
            && (Put(ProblemSolutionSubmitSuccess(pathId, problemId, payload)) in t <==> r.Ok?)
            && ((exists i :: 0 <= i < |t| && t[i].Put? && t[i].action.ProblemSolutionSubmitFail?) <==> r.Err?)
            && FailureNotifiedLast(t)
  {
    var t := SubmitTrace(env, uid, problem, pathId, problemId, payload);
    var r := env.submitSolution(uid, problem, payload);
    if r.Err? {
      assert t[1].Put? && t[1].action.ProblemSolutionSubmitFail?;
      NotifiedFailureAtEnd([Call(SubmitSolution(uid, problem, payload))],
                           ProblemSolutionSubmitFail(pathId, problemId, payload, r.message));
    } else {
      assert t[1].Put? && t[1].action.ProblemSolutionSubmitSuccess?;
    }
  }
}
