/**
 One step of a workflow: the shared result map, the resume rules, the `when`
 condition and the error policies.  What the expression evaluator and the action
 answer is a parameter; everything the engine does with the answers is modelled.
 */
module StepNode {
  import opened Graph
  import opened Wrappers

  datatype Value = Null | Text(text: string) | Object(fields: map<string, Value>)

  datatype Status = StatusRunning | StatusWaiting | StatusSuccess | StatusFailed | StatusSkipped

  datatype StepError = StepError(message: string, code: string, step: Id)

  datatype StepResult = StepResult(status: Status, output: Value, error: Option<StepError>)

  datatype ErrorPolicy = Stop | Continue | Ignore

  datatype Recovery = Retry | Skip | Fail

  /** The parts of a step's declaration the engine branches on. */
  datatype StepSpec = StepSpec(hasWhen: bool, policy: ErrorPolicy, onRecovery: Recovery)

  datatype WhenAnswer = WhenTrue | WhenFalse | WhenError

  /** `Unprepared` is an error before the action ran: config, registry or validation. */
  datatype ActionAnswer = Unprepared | Succeeded(output: Value) | Errored(output: Value, message: string, code: string)

  datatype Answers = Answers(condition: WhenAnswer, action: ActionAnswer)

  type Results = map<Id, StepResult>

  /** `failed`: an error was returned.  `acted`: the action was executed. */
  datatype Effect = Effect(results: Results, failed: bool, acted: bool)

  datatype RunStatus = RunSuccess | RunFailed | RunCancelled | RunCompletedWithErrors

  const SKIPPED := StepResult(StatusSkipped, Null, None)

  function Terminal(status: Status): bool {
    status == StatusSuccess || status == StatusFailed || status == StatusSkipped
  }

  // ---- the rules, as functions of the result map ----

  datatype Recovered = Recovered(results: Results, settled: bool, failed: bool)

  function RecoveryRule(spec: StepSpec, resumed: bool, results: Results, id: Id): Recovered {
    if !resumed || id !in results then Recovered(results, false, false)
    else if results[id].status == StatusSuccess || results[id].status == StatusSkipped then Recovered(results, true, false)
    else if results[id].status != StatusRunning then Recovered(results, false, false)
    else match spec.onRecovery
         case Skip => Recovered(results[id := StepResult(StatusSuccess, Null, None)], true, false)
         case Fail => Recovered(results[id := StepResult(StatusFailed, Null, Some(RecoveryError(id)))], true, true)
         case Retry => Recovered(results - {id}, false, false)
  }

  function RecoveryError(id: Id): StepError {
    StepError("step was running at crash time and on_recovery=fail", "recovery_failed", id)
  }

  /** The output an ignored error leaves: the action's own fields win over the note. */
  function Suppressed(output: Value, message: string): Value {
    var note := map["_suppressed_error" := Text(message)];
    Object(if output.Object? then note + output.fields else note)
  }

  function ActionRule(spec: StepSpec, id: Id, answer: ActionAnswer): Option<StepResult> {
    match answer
    case Unprepared => None
    case Succeeded(output) => Some(StepResult(StatusSuccess, output, None))
    case Errored(output, message, code) =>
      if spec.policy == Ignore then Some(StepResult(StatusSuccess, Suppressed(output, message), None))
      else Some(StepResult(StatusFailed, output, Some(StepError(message, code, id))))
  }

  predicate ActionFails(spec: StepSpec, answer: ActionAnswer) {
    answer.Unprepared? || (answer.Errored? && spec.policy == Stop)
  }

  function NodeRule(spec: StepSpec, resumed: bool, results: Results, id: Id, answers: Answers): Effect {
    var r := RecoveryRule(spec, resumed, results, id);
    if r.settled then Effect(r.results, r.failed, false)
    else if spec.hasWhen && answers.condition == WhenError then Effect(r.results, true, false)
    else if spec.hasWhen && answers.condition == WhenFalse then Effect(r.results[id := SKIPPED], false, false)
    else
      var recorded := ActionRule(spec, id, answers.action);
      Effect(
        if recorded.Some? then r.results[id := recorded.value] else r.results,
        ActionFails(spec, answers.action),
        !answers.action.Unprepared?)
  }

  predicate AnyFailed(results: Results) {
    exists n | n in results :: results[n].status == StatusFailed
  }

  function StatusRule(returnedError: bool, cancelled: bool, results: Results): RunStatus {
    if returnedError && cancelled then RunCancelled
    else if returnedError then RunFailed
    else if AnyFailed(results) then RunCompletedWithErrors
    else RunSuccess
  }

  /**
   The status of a whole execution.  A workflow with recovery is cancelled whenever its
   context is done right after the run; otherwise the context is looked at once more.
   */
  function ResultStatus(recovery: bool, early: bool, late: bool, returnedError: bool, results: Results): RunStatus {
    if early && recovery then RunCancelled else StatusRule(returnedError, late, results)
  }

  // ---- what the rules guarantee ----

  /**
   A step that returns no error leaves a result, and it is final; only
   `error_policy: continue` leaves a failed one.  No other step's result is touched.
   */
  lemma NodeLeavesResult(spec: StepSpec, resumed: bool, results: Results, id: Id, answers: Answers)
    ensures var e := NodeRule(spec, resumed, results, id, answers);
            && (!e.failed ==> id in e.results && Terminal(e.results[id].status))
            && (!e.failed && e.results[id].status == StatusFailed ==> spec.policy == Continue && answers.action.Errored?)
            && (forall n | n != id :: n in e.results <==> n in results)
            && (forall n | n != id && n in results :: e.results[n] == results[n])
            && (e.acted ==> !resumed || id !in results || (results[id].status != StatusSuccess && results[id].status != StatusSkipped))
  {
  }

  /** No recorded result keeps the step from being executed. */
  predicate Executable(spec: StepSpec, resumed: bool, results: Results, id: Id) {
    resumed && id in results ==>
      && results[id].status != StatusSuccess && results[id].status != StatusSkipped
      && (results[id].status == StatusRunning ==> spec.onRecovery == Retry)
  }

  /** The `when` condition lets the step run. */
  predicate Goes(spec: StepSpec, answers: Answers) {
    !spec.hasWhen || answers.condition == WhenTrue
  }

  /** The ignored error is noted, but never over a field of the action's own. */
  lemma OwnFieldsWin(output: Value, message: string)
    ensures var r, own := Suppressed(output, message), if output.Object? then output.fields else map[];
            && r.Object? && r.fields.Keys == own.Keys + {"_suppressed_error"}
            && (forall k | k in own :: r.fields[k] == own[k])
            && ("_suppressed_error" !in own ==> r.fields["_suppressed_error"] == Text(message))
  {
  }

  /** What a step that goes ahead records and returns, for each answer of its action and each policy. */
  lemma ActionOutcome(spec: StepSpec, resumed: bool, results: Results, id: Id, answers: Answers)
    requires Executable(spec, resumed, results, id) && Goes(spec, answers)
    ensures var e := NodeRule(spec, resumed, results, id, answers);
            match answers.action
            case Unprepared =>
              && e.failed && !e.acted
              && (id in e.results <==> id in results && (resumed ==> results[id].status != StatusRunning))
              && (id in e.results ==> e.results[id] == results[id])
            case Succeeded(output) =>
              !e.failed && e.acted && id in e.results && e.results[id] == StepResult(StatusSuccess, output, None)
            case Errored(output, message, code) =>
              && e.acted && id in e.results
              && match spec.policy
                 case Ignore =>
                   !e.failed && e.results[id] == StepResult(StatusSuccess, Suppressed(output, message), None)
                 case Continue =>
                   !e.failed && e.results[id] == StepResult(StatusFailed, output, Some(StepError(message, code, id)))
                 case Stop =>
                   e.failed && e.results[id] == StepResult(StatusFailed, output, Some(StepError(message, code, id)))
  {
  }

  /** A step whose condition is false is recorded as skipped; one whose condition cannot be evaluated returns the error. */
  lemma ConditionOutcome(spec: StepSpec, resumed: bool, results: Results, id: Id, answers: Answers)
    requires Executable(spec, resumed, results, id) && !Goes(spec, answers)
    ensures var e := NodeRule(spec, resumed, results, id, answers);
            && !e.acted && (e.failed <==> answers.condition == WhenError)
            && (e.failed ==>
                  && (id in e.results <==> id in results && (resumed ==> results[id].status != StatusRunning))
                  && (id in e.results ==> e.results[id] == results[id]))
            && (!e.failed ==> id in e.results && e.results[id] == StepResult(StatusSkipped, Null, None))
  {
  }

  /**
   A step that was running when the process died: `skip` records a success without output,
   `fail` records the failure and returns an error, and neither executes the step.
   */
  lemma RecoveryOutcome(spec: StepSpec, results: Results, id: Id, answers: Answers)
    requires id in results && results[id].status == StatusRunning && spec.onRecovery != Retry
    ensures var e := NodeRule(spec, true, results, id, answers);
            && !e.acted && id in e.results && (e.failed <==> spec.onRecovery == Fail)
            && (spec.onRecovery == Skip ==> e.results[id] == StepResult(StatusSuccess, Null, None))
            && (spec.onRecovery == Fail ==>
                  && e.results[id].status == StatusFailed && e.results[id].output == Null
                  && e.results[id].error.Some?
                  && e.results[id].error.value.code == "recovery_failed" && e.results[id].error.value.step == id)
  {
  }

  /** In a fresh run the outcome is a function of the answers alone. */
  lemma FreshNode(spec: StepSpec, results: Results, results': Results, id: Id, answers: Answers)
    requires id !in results && id !in results'
    ensures var e, e' := NodeRule(spec, false, results, id, answers), NodeRule(spec, false, results', id, answers);
            e.failed == e'.failed && e.acted == e'.acted
            && (id in e.results <==> id in e'.results)
            && (id in e.results ==> e.results[id] == e'.results[id])
  {
  }

  /**
   Resuming with the default strategy: a success or a skip is kept, anything else is
   executed as if the result had never been there.
   */
  lemma ResumedNode(spec: StepSpec, results: Results, id: Id, answers: Answers)
    requires spec.onRecovery == Retry
    ensures var e := NodeRule(spec, true, results, id, answers);
            if id in results && (results[id].status == StatusSuccess || results[id].status == StatusSkipped)
            then e == Effect(results, false, false)
            else !e.failed ==> e == NodeRule(spec, false, results - {id}, id, answers)
  {
    var e := NodeRule(spec, true, results, id, answers);
    var kept := id in results && (results[id].status == StatusSuccess || results[id].status == StatusSkipped);
    if !kept && !e.failed {
      var r := (results - {id})[id := e.results[id]];
      assert e.results == r;
      assert id !in results - {id};
    }
  }

  // ---- the engine's own objects and methods ----

  class ExecutionContext {
    var steps: Results
    const resumed: bool

    constructor (resumed: bool, recovered: Results)
      ensures this.resumed == resumed && steps == if resumed then recovered else map[]
    {
      this.resumed := resumed;
      steps := if resumed then recovered else map[];
    }

    method SetStepResult(id: Id, result: StepResult)
      modifies this
      ensures steps == old(steps)[id := result]
    {
      steps := steps[id := result];
    }

    method GetStepResult(id: Id) returns (result: Option<StepResult>)
      ensures result == if id in steps then Some(steps[id]) else None
    {
      result := if id in steps then Some(steps[id]) else None;
    }

    method ClearStepResult(id: Id)
      modifies this
      ensures steps == old(steps) - {id}
    {
      steps := steps - {id};
    }

    /** Looks at the results one by one and stops at the first failed one. */
    method HasFailedSteps() returns (found: bool)
      ensures found <==> AnyFailed(steps)
    {
      var rest := steps.Keys;
      while rest != {}
        invariant rest <= steps.Keys
        invariant forall n | n in steps && n !in rest :: steps[n].status != StatusFailed
        decreases rest
      {
        var n :| n in rest;
        if steps[n].status == StatusFailed {
          return true;
        }
        rest := rest - {n};
      }
      found := false;
    }

    method HandleRecovery(id: Id, spec: StepSpec) returns (settled: bool, failed: bool)
      modifies this
      ensures Recovered(steps, settled, failed) == RecoveryRule(spec, resumed, old(steps), id)
      ensures !settled <==> Executable(spec, resumed, old(steps), id)
      ensures !settled ==>
                steps == if resumed && id in old(steps) && old(steps)[id].status == StatusRunning then old(steps) - {id}
                         else old(steps)
      ensures settled && old(steps)[id].status != StatusRunning ==> !failed && steps == old(steps)
      ensures settled && old(steps)[id].status == StatusRunning ==>
                if spec.onRecovery == Skip then !failed && steps[id] == StepResult(StatusSuccess, Null, None)
                else failed && steps[id].status == StatusFailed && steps[id].error.Some?
                     && steps[id].error.value.code == "recovery_failed" && steps[id].error.value.step == id
    {
      if !resumed {
        return false, false;
      }
      var sr := GetStepResult(id);
      if sr.None? {
        return false, false;
      }
      if sr.value.status == StatusSuccess || sr.value.status == StatusSkipped {
        return true, false;
      }
      if sr.value.status != StatusRunning {
        return false, false;
      }
      match spec.onRecovery {
        case Skip =>
          SetStepResult(id, StepResult(StatusSuccess, Null, None));
          return true, false;
        case Fail =>
          SetStepResult(id, StepResult(StatusFailed, Null, Some(RecoveryError(id))));
          return true, true;
        case Retry =>
          ClearStepResult(id);
          return false, false;
      }
    }

    method EvaluateWhenCondition(id: Id, spec: StepSpec, answer: WhenAnswer) returns (skipped: bool, failed: bool)
      modifies this
      ensures failed <==> spec.hasWhen && answer == WhenError
      ensures skipped <==> spec.hasWhen && answer == WhenFalse
      ensures steps == if skipped then old(steps)[id := StepResult(StatusSkipped, Null, None)] else old(steps)
    {
      if !spec.hasWhen {
        return false, false;
      }
      if answer == WhenError {
        return false, true;
      }
      if answer == WhenFalse {
        SetStepResult(id, SKIPPED);
        return true, false;
      }
      return false, false;
    }

    /** The three error policies; `failed` is whether the error is returned. */
    method HandleStepError(id: Id, spec: StepSpec, output: Value, message: string, code: string) returns (failed: bool)
      modifies this
      ensures failed <==> spec.policy == Stop
      ensures steps == old(steps)[id :=
                if spec.policy == Ignore then StepResult(StatusSuccess, Suppressed(output, message), None)
                else StepResult(StatusFailed, output, Some(StepError(message, code, id)))]
    {
      if spec.policy == Ignore {
        var fields := map["_suppressed_error" := Text(message)];
        if output.Object? {
          fields := fields + output.fields;
        }
        SetStepResult(id, StepResult(StatusSuccess, Object(fields), None));
        return false;
      }
      SetStepResult(id, StepResult(StatusFailed, output, Some(StepError(message, code, id))));
      failed := spec.policy != Continue;
    }

    /** One step outside test mode; follows `NodeRule`. */
    method ExecuteNode(id: Id, spec: StepSpec, answers: Answers) returns (failed: bool, acted: bool)
      modifies this
      ensures Effect(steps, failed, acted) == NodeRule(spec, resumed, old(steps), id, answers)
      ensures acted <==> Executable(spec, resumed, old(steps), id) && Goes(spec, answers) && !answers.action.Unprepared?
      ensures acted ==> id in steps
      ensures acted && answers.action.Succeeded? ==>
                !failed && steps[id] == StepResult(StatusSuccess, answers.action.output, None)
      ensures acted && answers.action.Errored? ==> (failed <==> spec.policy == Stop)
      ensures acted && answers.action.Errored? && spec.policy == Ignore ==>
                steps[id] == StepResult(StatusSuccess, Suppressed(answers.action.output, answers.action.message), None)
      ensures acted && answers.action.Errored? && spec.policy != Ignore ==>
                steps[id] == StepResult(StatusFailed, answers.action.output,
                                        Some(StepError(answers.action.message, answers.action.code, id)))
    {
      var settled, recoveryFailed := HandleRecovery(id, spec);
      if settled {
        return recoveryFailed, false;
      }
      var skipped, whenFailed := EvaluateWhenCondition(id, spec, answers.condition);
      if skipped || whenFailed {
        return whenFailed, false;
      }
      match answers.action {
        case Unprepared =>
          return true, false;
        case Succeeded(output) =>
          SetStepResult(id, StepResult(StatusSuccess, output, None));
          return false, true;
        case Errored(output, message, code) =>
          failed := HandleStepError(id, spec, output, message, code);
          return failed, true;
      }
    }

    method DetermineStatus(returnedError: bool, cancelled: bool) returns (status: RunStatus, hasErrors: bool)
      ensures status == StatusRule(returnedError, cancelled, steps)
      ensures hasErrors <==> status == RunCompletedWithErrors
    {
      if returnedError && cancelled {
        return RunCancelled, false;
      }
      if returnedError {
        return RunFailed, false;
      }
      var anyFailed := HasFailedSteps();
      if anyFailed {
        return RunCompletedWithErrors, true;
      }
      return RunSuccess, false;
    }

    /** How Execute ends: `early` and `late` are the context's state at its two checks. */
    method FinishExecution(recovery: bool, early: bool, late: bool, returnedError: bool)
      returns (status: RunStatus, hasErrors: bool)
      ensures status == ResultStatus(recovery, early, late, returnedError, steps)
      ensures hasErrors <==> status == RunCompletedWithErrors
    {
      if early && recovery {
        return RunCancelled, false;
      }
      status, hasErrors := DetermineStatus(returnedError, late);
    }
  }
}
