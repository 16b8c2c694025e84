/**
 Where results come from.  Along a whole run every recorded result is traced back to the
 last execution or refusal of its step, and what the action answered then says what is
 recorded and how the execution ends.  A resumed run keeps what it recovered.
 */
module SchedulerHistory {
  import opened Graph
  import opened Ledger
  import opened LoopBody
  import opened StepNode
  import opened Wrappers
  import opened Scheduler
  import opened SchedulerInvariant
  import opened SchedulerRewind
  import opened SchedulerSafety
  import opened SchedulerRounds
  import opened SchedulerOutcome

  // ---- what touches the result of a step ----

  predicate Executes(s: State, a: Action, n: Id) {
    a.Execute? && a.worker < |s.workers| && s.workers[a.worker] == Run(n)
  }

  /** Recorded as skipped because of an earlier error. */
  predicate Refuses(s: State, a: Action, n: Id) {
    a == Skip1 && s.dispatcher == Refuse(n)
  }

  /** A goto is taken whose region `n` belongs to. */
  predicate Clears(c: Config, s: State, a: Action, n: Id) {
    && a.Complete? && a.wanted && a.worker < |s.workers| && s.workers[a.worker].Ran? && !s.workers[a.worker].failed
    && var m := s.workers[a.worker].step;
       m in c.loops && n in c.loops[m].body && Get(s.iterations, m) < c.loops[m].maxIterations
  }

  predicate Touches(c: Config, s: State, a: Action, n: Id) {
    Executes(s, a, n) || Refuses(s, a, n) || Clears(c, s, a, n)
  }

  lemma ExecutedResult(c: Config, s: State, a: Action, n: Id)
    requires Enabled(c, s, a) && Executes(s, a, n)
    ensures var e := NodeRule(Spec(c, n), c.resumed, s.results, n, a.answers);
            Do(c, s, a).results == e.results && Do(c, s, a).workers == s.workers[a.worker := Ran(n, e.failed)]
  {
    hide NodeRule;
  }

  lemma RefusedResult(c: Config, s: State, a: Action, n: Id)
    requires Enabled(c, s, a) && Refuses(s, a, n)
    ensures Do(c, s, a).results == s.results[n := StepResult(StatusSkipped, Null, None)]
  {
  }

  lemma ClearedResult(c: Config, s: State, a: Action, n: Id)
    requires Enabled(c, s, a) && Clears(c, s, a, n)
    ensures n !in Do(c, s, a).results
  {
    hide Rewound, ReadySteps;
  }

  predicate SameResult(r: Results, r': Results, n: Id) {
    (n in r' <==> n in r) && (n in r ==> r'[n] == r[n])
  }

  /** Nothing else changes what is recorded for a step. */
  lemma UntouchedResult(c: Config, s: State, a: Action, n: Id)
    requires Enabled(c, s, a) && !Touches(c, s, a, n)
    ensures SameResult(s.results, Do(c, s, a).results, n)
  {
    hide Rewound, ReadySteps, NodeRule, WithTask;
    if a.Execute? {
      var m := s.workers[a.worker].step;
      NodeLeavesResult(Spec(c, m), c.resumed, s.results, m, a.answers);
    }
  }

  ghost predicate Untouched(c: Config, states: seq<State>, actions: seq<Action>, i: nat, j: nat, n: Id)
    requires |states| == |actions| + 1 && j <= |actions|
  {
    forall k {:trigger actions[k]} | i <= k < j :: !Touches(c, states[k], actions[k], n)
  }

  lemma {:induction false} ResultStays(c: Config, states: seq<State>, actions: seq<Action>, i: nat, j: nat, n: Id)
    requires IsRun(c, states, actions) && i <= j <= |actions| && Untouched(c, states, actions, i, j, n)
    ensures SameResult(states[i].results, states[j].results, n)
  {
    hide Do, Enabled, Touches;
    if i < j {
      ResultStays(c, states, actions, i, j - 1, n);
      assert !Touches(c, states[j - 1], actions[j - 1], n);
      UntouchedResult(c, states[j - 1], actions[j - 1], n);
    }
  }

  /** In a fresh run a recorded result was left by an execution or a refusal, and nothing has touched it since. */
  lemma {:induction false} Origin(c: Config, states: seq<State>, actions: seq<Action>, m: nat, n: Id) returns (k: nat)
    requires !c.resumed && IsRun(c, states, actions) && states[0] == Init(c) && m <= |actions| && n in states[m].results
    ensures k < m && (Executes(states[k], actions[k], n) || Refuses(states[k], actions[k], n))
    ensures Untouched(c, states, actions, k + 1, m, n) && SameResult(states[k + 1].results, states[m].results, n)
  {
    hide Do, Enabled, Executes, Refuses, Clears;
    if m == 0 {
      assert false;
    }
    k := m - 1;
    if Clears(c, states[k], actions[k], n) {
      ClearedResult(c, states[k], actions[k], n);
      assert false;
    } else if !Touches(c, states[k], actions[k], n) {
      UntouchedResult(c, states[k], actions[k], n);
      k := Origin(c, states, actions, m - 1, n);
    }
  }

  // ---- the ready channel ----

  /** The steps an action sends to the ready channel. */
  function SentBy(c: Config, s: State, a: Action): seq<Id> {
    match a
    case SendChild(ag) =>
      var t := TaskOf(s, ag);
      if t.Send? && t.sent < |Children(c.g, t.step)| then [Children(c.g, t.step)[t.sent]] else []
    case SendTarget(i) =>
      if i < |s.workers| && s.workers[i].Jump? && s.workers[i].rest != [] then [s.workers[i].rest[0]] else []
    case _ => []
  }

  /** Everything sent to ready by the first `k` actions. */
  function AllSent(c: Config, states: seq<State>, actions: seq<Action>, k: nat): seq<Id>
    requires k <= |actions| && k <= |states|
  {
    if k == 0 then [] else AllSent(c, states, actions, k - 1) + SentBy(c, states[k - 1], actions[k - 1])
  }

  /** Everything the dispatcher took from it: after a receive it holds the step. */
  function AllReceived(states: seq<State>, actions: seq<Action>, k: nat): seq<Id>
    requires k <= |actions| && k < |states|
  {
    if k == 0 then []
    else AllReceived(states, actions, k - 1)
         + if actions[k - 1] == Receive && states[k].dispatcher.Check? then [states[k].dispatcher.step] else []
  }

  lemma ReadyStep(c: Config, s: State, a: Action)
    requires Enabled(c, s, a)
    ensures a == Receive ==> Do(c, s, a).dispatcher.Check? && s.ready == [Do(c, s, a).dispatcher.step] + Do(c, s, a).ready
    ensures a != Receive ==> Do(c, s, a).ready == s.ready + SentBy(c, s, a)
  {
    match a {
      case SendChild(_) => hide Counted, Finish, Signalled, NodeRule, WithTask;
      case SendTarget(_) => hide Counted, Finish, Signalled, NodeRule, WithTask;
      case _ => NothingSent(c, s, a);
    }
  }

  lemma NothingSent(c: Config, s: State, a: Action)
    requires Enabled(c, s, a) && !a.SendChild? && !a.SendTarget?
    ensures SentBy(c, s, a) == [] && (a != Receive ==> Do(c, s, a).ready == s.ready)
  {
    hide Rewound, ReadySteps, NodeRule, WithTask, TaskOf;
  }

  lemma Regroup(a: seq<Id>, b: seq<Id>, x: seq<Id>)
    ensures a + (b + x) == (a + b) + x
  {
  }

  /** Steps are dispatched in the order in which they became ready, the roots first. */
  lemma {:induction false} ReadyIsFifo(c: Config, states: seq<State>, actions: seq<Action>, k: nat)
    requires IsRun(c, states, actions) && states[0] == Init(c) && k <= |actions|
    ensures RootList(c.g, c.g.ids) + AllSent(c, states, actions, k) == AllReceived(states, actions, k) + states[k].ready
  {
    hide Do, Enabled, SentBy;
    if k > 0 {
      var s, a := states[k - 1], actions[k - 1];
      var sent, before := AllSent(c, states, actions, k - 1), AllReceived(states, actions, k - 1);
      var roots := RootList(c.g, c.g.ids);
      ReadyIsFifo(c, states, actions, k - 1);
      ReadyStep(c, s, a);
      hide AllSent, AllReceived, RootList, IsRun;
      if a == Receive {
        NothingSent(c, s, a);
        Regroup(before, [states[k].dispatcher.step], states[k].ready);
        assert sent + [] == sent;
      } else {
        Regroup(roots, sent, SentBy(c, s, a));
        Regroup(before, s.ready, SentBy(c, s, a));
      }
    }
  }

  // ---- no result is left from an earlier round ----

  /** Only a step that has been executed or refused in its current round has a result. */
  ghost predicate NoneStale(c: Config, s: State, ph: Phases) {
    && (forall n | n in s.results :: n in Nodes(c.g) && n in ph && (ph[n].Running? || ph[n].Done?))
    && (forall i | 0 <= i < |s.workers| && s.workers[i].Run? :: s.workers[i].step !in s.results)
  }

  lemma RunRuns(c: Config, s: State, ph: Phases, i: nat)
    requires Inv(c, s, ph) && i < |s.workers| && s.workers[i].Run?
    ensures PhaseIs(c.g, ph, s.workers[i].step, Running)
  {
    hide WaitAll, WaitingIsDue, DegreesDue, CountsMatch;
    AllTokensUpdate(c, s.workers, i, Gone, Act(s.workers[i].step));
    assert Tokens(c, s, Act(s.workers[i].step)) == Want(c, s, ph, Act(s.workers[i].step));
  }

  lemma StaleTake(c: Config, s: State, ph: Phases, a: Action)
    requires WellFormed(c.g) && Inv(c, s, ph) && Enabled(c, s, a) && NoneStale(c, s, ph) && (a == Take || a == Skip1)
    ensures NoneStale(c, Do(c, s, a), NextPhases(c, s, ph, a))
  {
    hide Inv, WellFormed;
    if a == Take {
      TakeKeeps(c, s, ph);
    } else {
      SkipKeeps(c, s, ph);
      forall i | 0 <= i < |s.workers| && s.workers[i].Run?
        ensures s.workers[i].step != s.dispatcher.step
      {
        RunRuns(c, s, ph, i);
      }
    }
  }

  lemma StaleExecute(c: Config, s: State, ph: Phases, i: nat, answers: Answers)
    requires Inv(c, s, ph) && Enabled(c, s, Execute(i, answers)) && NoneStale(c, s, ph)
    ensures NoneStale(c, Do(c, s, Execute(i, answers)), ph)
  {
    hide Inv, Do, NodeRule;
    var n, s' := s.workers[i].step, Do(c, s, Execute(i, answers));
    ExecuteKeeps(c, s, ph, i, answers);
    ExecutedResult(c, s, Execute(i, answers), n);
    NodeLeavesResult(Spec(c, n), c.resumed, s.results, n, answers);
    forall j | 0 <= j < |s'.workers| && s'.workers[j].Run?
      ensures s'.workers[j].step !in s'.results
    {
      OneWorkerEach(c, s, ph, i, j);
    }
  }

  lemma StaleCounted(c: Config, s: State, ph: Phases, a: Agent, n: Id, e: Option<Id>)
    requires NoneStale(c, s, ph) && PhaseIs(c.g, ph, n, Running)
    ensures NoneStale(c, CountedState(c, s, a, n, e), ph[n := Done(0)])
  {
  }

  lemma StaleRewind(c: Config, s: State, ph: Phases, i: nat, n: Id)
    requires NoneStale(c, s, ph) && n in c.loops
    ensures NoneStale(c, RewindState(c, s, i, n), RewindPhases(ph, Elements(c.loops[n].body), c.loops[n].target))
  {
    hide Rewound, ReadySteps, Elements;
  }

  lemma StaleComplete(c: Config, s: State, ph: Phases, i: nat, wanted: bool)
    requires ValidConfig(c) && Inv(c, s, ph) && Enabled(c, s, Complete(i, wanted)) && NoneStale(c, s, ph)
    ensures NoneStale(c, Do(c, s, Complete(i, wanted)), NextPhases(c, s, ph, Complete(i, wanted)))
  {
    hide Inv, ValidConfig, NoneStale, Do;
    var n, failed := s.workers[i].step, s.workers[i].failed;
    if JumpTaken(c, s, n, failed, wanted) {
      JumpIsRewind(c, s, Complete(i, wanted));
      StaleRewind(c, s, ph, i, n);
    } else {
      RanRuns(c, s, ph, i);
      CompleteIsCounted(c, s, i, wanted);
      StaleCounted(c, s, ph, Worker(i), n, ErrorAfter(s, n, failed));
    }
  }

  lemma StaleSignal(c: Config, s: State, ph: Phases, a: Agent)
    requires ValidConfig(c) && Inv(c, s, ph) && Enabled(c, s, SignalChild(a)) && NoneStale(c, s, ph)
    ensures NoneStale(c, Do(c, s, SignalChild(a)), SignalPhases(c, s, ph, TaskOf(s, a).step, TaskOf(s, a).next))
  {
    hide Due, Tokens, Want, Acyclic, DoneSet, AllDone;
    SignalHeld(c, s, ph, a, TaskOf(s, a).step, TaskOf(s, a).next);
    SignalLedger(c, s, ph, a, TaskOf(s, a).step, TaskOf(s, a).next);
  }

  lemma StaleQuiet(c: Config, s: State, ph: Phases, a: Action)
    requires Enabled(c, s, a) && NoneStale(c, s, ph)
    requires !a.Take? && !a.Skip1? && !a.Skip2? && !a.Execute? && !a.Complete? && !a.SignalChild?
    ensures NoneStale(c, Do(c, s, a), ph)
  {
    hide Counted, Finish, Signalled, NodeRule;
  }

  lemma StepNoneStale(c: Config, s: State, ph: Phases, a: Action)
    requires ValidConfig(c) && Inv(c, s, ph) && Enabled(c, s, a) && NoneStale(c, s, ph)
    ensures NoneStale(c, Do(c, s, a), NextPhases(c, s, ph, a))
  {
    hide Inv, ValidConfig, NoneStale, Do;
    match a {
      case Execute(i, answers) => StaleExecute(c, s, ph, i, answers);
      case Complete(i, wanted) => StaleComplete(c, s, ph, i, wanted);
      case SignalChild(ag) => StaleSignal(c, s, ph, ag);
      case Take => ValidGraph(c); StaleTake(c, s, ph, a);
      case Skip1 => ValidGraph(c); StaleTake(c, s, ph, a);
      case Skip2 =>
        SkipIsCounted(c, s);
        RefusedRuns(c, s, ph);
        StaleCounted(c, s, ph, TheDispatcher, s.dispatcher.step, s.firstErr);
      case _ => StaleQuiet(c, s, ph, a);
    }
  }

  lemma {:induction false} RunNoneStale(c: Config, states: seq<State>, actions: seq<Action>, k: nat)
    requires ValidConfig(c) && WellFormedLoops(c) && !c.resumed
    requires IsRun(c, states, actions) && states[0] == Init(c) && k <= |actions|
    ensures NoneStale(c, states[k], PhasesAt(c, states, actions, k))
  {
    hide Inv, ValidConfig, WellFormedLoops, NextPhases, Do;
    if k > 0 {
      hide NoneStale;
      RunNoneStale(c, states, actions, k - 1);
      RunKeeps(c, states, actions, k - 1);
      StepNoneStale(c, states[k - 1], PhasesAt(c, states, actions, k - 1), actions[k - 1]);
    }
  }

  // ---- what a result says about the run ----

  /** Executing a step in a fresh run: what is recorded afterwards was recorded by that execution. */
  lemma FreshExecution(c: Config, states: seq<State>, actions: seq<Action>, k: nat, n: Id)
    requires ValidConfig(c) && WellFormedLoops(c) && !c.resumed
    requires IsRun(c, states, actions) && states[0] == Init(c) && k < |actions| && Executes(states[k], actions[k], n)
    ensures n !in states[k].results
    ensures states[k + 1].results == NodeRule(Spec(c, n), false, states[k].results, n, actions[k].answers).results
  {
    hide ValidConfig, WellFormedLoops, NextPhases, Do, NodeRule;
    RunNoneStale(c, states, actions, k);
    ExecutedResult(c, states[k], actions[k], n);
  }

  /**
   A recorded result of a fresh run tells what happened last to its step, and that it has
   not been reset since.  Skipped: it was refused, or its condition was false.  Success:
   its action was executed and succeeded with that output, or its error was ignored.
   Failed: its action was executed and answered that error.
   */
  lemma ResultTellsOrigin(c: Config, states: seq<State>, actions: seq<Action>, m: nat, n: Id) returns (k: nat)
    requires ValidConfig(c) && WellFormedLoops(c) && !c.resumed
    requires IsRun(c, states, actions) && states[0] == Init(c) && m <= |actions| && n in states[m].results
    ensures k < m && Untouched(c, states, actions, k + 1, m, n)
    ensures Executes(states[k], actions[k], n) || Refuses(states[k], actions[k], n)
    ensures var r, spec := states[m].results[n], Spec(c, n);
            match r.status
            case StatusSkipped =>
              && r.output == Null && r.error == None
              && (Executes(states[k], actions[k], n) ==> spec.hasWhen && actions[k].answers.condition == WhenFalse)
            case StatusSuccess =>
              && Executes(states[k], actions[k], n) && (!spec.hasWhen || actions[k].answers.condition == WhenTrue)
              && r.error == None
              && (actions[k].answers.action == Succeeded(r.output)
                  || (actions[k].answers.action.Errored? && spec.policy == Ignore
                      && r.output == Suppressed(actions[k].answers.action.output, actions[k].answers.action.message)))
            case StatusFailed =>
              && Executes(states[k], actions[k], n) && (!spec.hasWhen || actions[k].answers.condition == WhenTrue)
              && r.error.Some? && r.error.value.step == n && spec.policy != Ignore
              && actions[k].answers.action == Errored(r.output, r.error.value.message, r.error.value.code)
            case _ => false
  {
    hide Init, Refuses, Clears, ValidConfig, WellFormedLoops, NodeRule, Do, Enabled;
    k := Origin(c, states, actions, m, n);
    if Executes(states[k], actions[k], n) {
      FreshExecution(c, states, actions, k, n);
      FreshResult(Spec(c, n), states[k].results, n, actions[k].answers);
    } else {
      RefusedResult(c, states[k], actions[k], n);
    }
  }

  lemma FreshResult(spec: StepSpec, results: Results, n: Id, answers: Answers)
    requires n !in results && n in NodeRule(spec, false, results, n, answers).results
    ensures var r := NodeRule(spec, false, results, n, answers).results[n];
            match r.status
            case StatusSkipped => r.output == Null && r.error == None && spec.hasWhen && answers.condition == WhenFalse
            case StatusSuccess =>
              && (!spec.hasWhen || answers.condition == WhenTrue) && r.error == None
              && (answers.action == Succeeded(r.output)
                  || (answers.action.Errored? && spec.policy == Ignore
                      && r.output == Suppressed(answers.action.output, answers.action.message)))
            case StatusFailed =>
              && (!spec.hasWhen || answers.condition == WhenTrue)
              && r.error.Some? && r.error.value.step == n && spec.policy != Ignore
              && answers.action == Errored(r.output, r.error.value.message, r.error.value.code)
            case _ => false
  {
    if Goes(spec, answers) {
      ActionOutcome(spec, false, results, n, answers);
    } else {
      ConditionOutcome(spec, false, results, n, answers);
    }
    hide NodeRule;
  }

  // ---- how an execution ends ----

  /** The last thing that happened to `n`: an execution, never repeated, refused or reset afterwards. */
  ghost predicate LastExecution(c: Config, states: seq<State>, actions: seq<Action>, k: nat, n: Id)
    requires |states| == |actions| + 1
  {
    k < |actions| && Executes(states[k], actions[k], n) && Untouched(c, states, actions, k + 1, |actions|, n)
  }

  /** When the call has returned, what is recorded as a success was executed in its last round. */
  lemma SuccessWasExecuted(c: Config, states: seq<State>, actions: seq<Action>, n: Id) returns (k: nat)
    requires ValidConfig(c) && WellFormedLoops(c) && !c.resumed
    requires IsRun(c, states, actions) && states[0] == Init(c) && states[|actions|].caller.Returned?
    requires n in states[|actions|].results && states[|actions|].results[n].status == StatusSuccess
    ensures LastExecution(c, states, actions, k, n)
    ensures actions[k].answers.action.Succeeded? || (actions[k].answers.action.Errored? && Spec(c, n).policy == Ignore)
  {
    hide ValidConfig, WellFormedLoops, Do, Init, Executes, Refuses, Clears;
    k := ResultTellsOrigin(c, states, actions, |actions|, n);
  }

  /** An error tolerated by `error_policy: continue` in the last execution of a step. */
  ghost predicate Tolerated(c: Config, states: seq<State>, actions: seq<Action>, k: nat, n: Id)
    requires |states| == |actions| + 1
  {
    && LastExecution(c, states, actions, k, n)
    && (!Spec(c, n).hasWhen || actions[k].answers.condition == WhenTrue)
    && actions[k].answers.action.Errored? && Spec(c, n).policy == Continue
  }

  /** A tolerated error is still recorded when the run ends. */
  lemma ToleratedIsRecorded(c: Config, states: seq<State>, actions: seq<Action>, k: nat, n: Id)
    requires ValidConfig(c) && WellFormedLoops(c) && !c.resumed
    requires IsRun(c, states, actions) && states[0] == Init(c) && Tolerated(c, states, actions, k, n)
    ensures n in states[|actions|].results
    ensures var x := actions[k].answers.action;
            states[|actions|].results[n] == StepResult(StatusFailed, x.output, Some(StepError(x.message, x.code, n)))
  {
    hide ValidConfig, WellFormedLoops, Do, Init, NodeRule, Enabled;
    FreshExecution(c, states, actions, k, n);
    ActionOutcome(Spec(c, n), false, states[k].results, n, actions[k].answers);
    ResultStays(c, states, actions, k + 1, |actions|, n);
  }

  /**
   A fresh run that returns no error ends completed with errors exactly if the last
   execution of some step answered an error under `error_policy: continue`.
   */
  lemma CompletedWithErrorsExactly(c: Config, states: seq<State>, actions: seq<Action>, recovery: bool, early: bool, late: bool)
    requires ValidConfig(c) && WellFormedLoops(c) && !c.resumed
    requires IsRun(c, states, actions) && states[0] == Init(c) && states[|actions|].caller == Returned(None)
    ensures ResultStatus(recovery, early, late, false, states[|actions|].results) == RunCompletedWithErrors <==>
            !(recovery && early) && exists k, n :: Tolerated(c, states, actions, k, n)
  {
    hide ValidConfig, WellFormedLoops, Do, Init, Tolerated;
    var r := states[|actions|].results;
    if k, n :| Tolerated(c, states, actions, k, n) {
      ToleratedIsRecorded(c, states, actions, k, n);
      assert AnyFailed(r);
    }
    if AnyFailed(r) {
      var n :| n in r && r[n].status == StatusFailed;
      FailedIsTolerated(c, states, actions, n);
    }
  }

  lemma FailedIsTolerated(c: Config, states: seq<State>, actions: seq<Action>, n: Id)
    requires ValidConfig(c) && WellFormedLoops(c) && !c.resumed
    requires IsRun(c, states, actions) && states[0] == Init(c) && states[|actions|].caller == Returned(None)
    requires n in states[|actions|].results && states[|actions|].results[n].status == StatusFailed
    ensures exists k :: Tolerated(c, states, actions, k, n)
  {
    hide ValidConfig, WellFormedLoops, Do, Init, Executes, Refuses, Clears;
    var k := ResultTellsOrigin(c, states, actions, |actions|, n);
    assert Reachable(c, states[|actions|]);
    NoErrorMeansRecorded(c, states[|actions|]);
    ResultInGraph(c, states, actions, n);
    assert Recorded(c, states[|actions|].results, n);
    assert Tolerated(c, states, actions, k, n);
  }

  lemma ResultInGraph(c: Config, states: seq<State>, actions: seq<Action>, n: Id)
    requires ValidConfig(c) && WellFormedLoops(c) && !c.resumed
    requires IsRun(c, states, actions) && states[0] == Init(c) && n in states[|actions|].results
    ensures n in Nodes(c.g)
  {
    hide ValidConfig, WellFormedLoops, Do, Init, NextPhases;
    RunNoneStale(c, states, actions, |actions|);
  }

  /** An execution of a fresh run that returns an error: the condition or the preparation failed, or the action did under stop. */
  predicate Breaks(c: Config, s: State, a: Action) {
    && a.Execute? && a.worker < |s.workers| && s.workers[a.worker].Run?
    && var spec := Spec(c, s.workers[a.worker].step);
       || (spec.hasWhen && a.answers.condition == WhenError)
       || ((!spec.hasWhen || a.answers.condition == WhenTrue)
           && (a.answers.action.Unprepared? || (a.answers.action.Errored? && spec.policy == Stop)))
  }

  /** An error has been kept or is about to be. */
  ghost predicate Broken(s: State) {
    s.firstErr.Some? || exists i :: 0 <= i < |s.workers| && s.workers[i].Ran? && s.workers[i].failed
  }

  lemma BreaksRun(c: Config, s: State, a: Action)
    requires !c.resumed && Enabled(c, s, a) && a.Execute?
    ensures Broken(Do(c, s, a)) <==> Broken(s) || Breaks(c, s, a)
  {
    var n := s.workers[a.worker].step;
    var e, s' := NodeRule(Spec(c, n), false, s.results, n, a.answers), Do(c, s, a);
    assert e.failed <==> Breaks(c, s, a);
    hide NodeRule, Breaks;
    assert s'.workers == s.workers[a.worker := Ran(n, e.failed)] && s'.firstErr == s.firstErr;
    if e.failed {
      assert s'.workers[a.worker].Ran? && s'.workers[a.worker].failed;
    }
    forall i | 0 <= i < |s.workers| && s.workers[i].Ran? && s.workers[i].failed
      ensures s'.workers[i] == s.workers[i]
    {
    }
  }

  /** An agent moves on: nobody but it could have been about to report an error. */
  lemma BrokenTask(s: State, s1: State, a: Agent, t: Task)
    requires s1.workers == s.workers && !t.Ran?
    requires s1.firstErr ==
             if a.Worker? && TaskOf(s, a).Ran? && TaskOf(s, a).failed && s.firstErr == None then Some(TaskOf(s, a).step)
             else s.firstErr
    ensures Broken(WithTask(s1, a, t)) <==> Broken(s)
  {
    var s' := WithTask(s1, a, t);
    forall i | 0 <= i < |s.workers| && a != Worker(i)
      ensures s'.workers[i] == s.workers[i]
    {
    }
    if i :| 0 <= i < |s.workers| && s.workers[i].Ran? && s.workers[i].failed {
      if a != Worker(i) {
        assert s'.workers[i] == s.workers[i];
      }
    }
  }

  lemma BrokenComplete(c: Config, s: State, i: nat, wanted: bool)
    requires Enabled(c, s, Complete(i, wanted))
    ensures Broken(Do(c, s, Complete(i, wanted))) <==> Broken(s)
  {
    hide Rewound, ReadySteps, Broken, WithTask;
    var (s1, t) := Finish(c, s, s.workers[i].step, s.workers[i].failed, wanted);
    BrokenTask(s, s1, Worker(i), t);
  }

  lemma BrokenSkip(c: Config, s: State)
    requires Enabled(c, s, Skip2)
    ensures Broken(Do(c, s, Skip2)) <==> Broken(s)
  {
    hide Broken, WithTask;
    var (s1, t) := Counted(c, s, s.dispatcher.step);
    BrokenTask(s, s1, TheDispatcher, t);
  }

  lemma BrokenStays(c: Config, s: State, a: Action)
    requires Enabled(c, s, a) && !a.Execute?
    ensures Broken(Do(c, s, a)) <==> Broken(s)
  {
    hide Broken, Counted, Finish, NodeRule, WithTask;
    match a {
      case Complete(i, wanted) => BrokenComplete(c, s, i, wanted);
      case Skip2 => BrokenSkip(c, s);
      case SignalChild(ag) =>
        var (s1, t) := Signalled(c, s, TaskOf(s, ag).step, TaskOf(s, ag).next);
        BrokenTask(s, s1, ag, t);
      case SendChild(ag) =>
        var n, k := TaskOf(s, ag).step, TaskOf(s, ag).sent;
        BrokenTask(s, s.(ready := s.ready + [Children(c.g, n)[k]]), ag, NextSignal(c, n, k + 1));
      case CloseDone(ag) => BrokenTask(s, s.(closes := s.closes + 1), ag, Leave);
      case SendTarget(i) =>
        var n, rest := s.workers[i].step, s.workers[i].rest;
        BrokenTask(s, s.(ready := s.ready + [rest[0]]), Worker(i), NextJump(n, rest[1..]));
      case Release(i) => BrokenTask(s, s.(sem := s.sem - 1), Worker(i), Detach);
      case WgDone(i) => BrokenTask(s, s.(wg := s.wg - 1), Worker(i), Gone);
      case _ => BrokenPlain(c, s, a);
    }
  }

  lemma BrokenPlain(c: Config, s: State, a: Action)
    requires Enabled(c, s, a)
    requires a == Receive || a == Inspect || a == Add || a == Take || a == Skip1 || a == SeeDone || a == Return
    ensures Broken(Do(c, s, a)) <==> Broken(s)
  {
    hide Counted, Finish, Signalled, NodeRule;
    var s' := Do(c, s, a);
    forall i | 0 <= i < |s.workers|
      ensures s'.workers[i] == s.workers[i]
    {
    }
  }

  lemma {:induction false} BrokenExactly(c: Config, states: seq<State>, actions: seq<Action>, m: nat)
    requires !c.resumed && IsRun(c, states, actions) && states[0] == Init(c) && m <= |actions|
    ensures Broken(states[m]) <==> exists k :: 0 <= k < m && Breaks(c, states[k], actions[k])
  {
    hide Do, Enabled, Breaks;
    if m > 0 {
      hide Broken;
      BrokenExactly(c, states, actions, m - 1);
      if actions[m - 1].Execute? {
        BreaksRun(c, states[m - 1], actions[m - 1]);
      } else {
        BrokenStays(c, states[m - 1], actions[m - 1]);
        NotBreaking(c, states[m - 1], actions[m - 1]);
      }
    }
  }

  lemma NotBreaking(c: Config, s: State, a: Action)
    requires !a.Execute?
    ensures !Breaks(c, s, a)
  {
  }

  /** A fresh run returns an error exactly if some execution in it returned one. */
  lemma RunFailsExactly(c: Config, states: seq<State>, actions: seq<Action>)
    requires ValidConfig(c) && WellFormedLoops(c) && !c.resumed
    requires IsRun(c, states, actions) && states[0] == Init(c) && states[|actions|].caller.Returned?
    ensures states[|actions|].caller.error.Some? <==> exists k :: 0 <= k < |actions| && Breaks(c, states[k], actions[k])
  {
    hide ValidConfig, WellFormedLoops, Do, Enabled, Init, Breaks;
    assert Reachable(c, states[|actions|]);
    ReturnedIsComplete(c, states[|actions|]);
    BrokenExactly(c, states, actions, |actions|);
  }

  predicate Launches(s: State, a: Action, n: Id) {
    a == Take && s.dispatcher == Acquire(n)
  }

  /** Once the error of a step is counted, no proper descendant is given a goroutine or executed any more. */
  lemma DescendantsNeverExecuted(c: Config, states: seq<State>, actions: seq<Action>, i: nat, k: nat, d: Id)
    requires ValidConfig(c) && WellFormedLoops(c) && IsRun(c, states, actions) && states[0] == Init(c)
    requires i < k < |actions| && ReportsError(states[i], actions[i])
    requires Ancestor(c.g, states[i].workers[actions[i].worker].step, d)
    ensures !Launches(states[k], actions[k], d) && !Executes(states[k], actions[k], d)
  {
    hide ValidConfig, WellFormedLoops, WaitingIsDue, DegreesDue, TokensMatch, NextPhases, Do, Enabled;
    var s := states[k];
    RunKeeps(c, states, actions, i);
    assert actions[i] == Complete(actions[i].worker, actions[i].wanted);
    DescendantsDoomed(c, states[i], PhasesAt(c, states, actions, i), actions[i].worker, actions[i].wanted, d);
    DoomedRun(c, states, actions, i + 1, k, d);
    RunKeeps(c, states, actions, k);
    if Executes(s, actions[k], d) {
      NoWorkerOn(c, s, PhasesAt(c, states, actions, k), d, actions[k].worker);
    }
  }

  /** How many of the first `k` actions started a goroutine for `n`. */
  function LaunchCount(states: seq<State>, actions: seq<Action>, k: nat, n: Id): nat
    requires k <= |actions| && k <= |states|
  {
    if k == 0 then 0
    else LaunchCount(states, actions, k - 1, n) + if Launches(states[k - 1], actions[k - 1], n) then 1 else 0
  }

  lemma LaunchedBy(c: Config, s: State, a: Action, n: Id)
    requires Enabled(c, s, a)
    ensures Get(Do(c, s, a).launched, n) == Get(s.launched, n) + if Launches(s, a, n) then 1 else 0
  {
    hide Rewound, ReadySteps, NodeRule, WithTask, TaskOf;
  }

  /** The history counts the goroutines started for each step. */
  lemma {:induction false} LaunchedExactly(c: Config, states: seq<State>, actions: seq<Action>, k: nat, n: Id)
    requires IsRun(c, states, actions) && states[0] == Init(c) && k <= |actions|
    ensures Get(states[k].launched, n) == LaunchCount(states, actions, k, n)
  {
    hide Do, Enabled, Launches, Get;
    if k > 0 {
      LaunchedExactly(c, states, actions, k - 1, n);
      LaunchedBy(c, states[k - 1], actions[k - 1], n);
    } else {
      NoneLaunched(c, n);
    }
  }

  lemma NoneLaunched(c: Config, n: Id)
    ensures Get(Init(c).launched, n) == 0
  {
  }

  // ---- resumed runs ----

  /** The action of the step is executed, not just its goroutine. */
  predicate Acted(c: Config, s: State, a: Action) {
    a.Execute? && a.worker < |s.workers| && s.workers[a.worker].Run?
    && NodeRule(Spec(c, s.workers[a.worker].step), c.resumed, s.results, s.workers[a.worker].step, a.answers).acted
  }

  ghost predicate Finished(r: Results, n: Id) {
    n in r && (r[n].status == StatusSuccess || r[n].status == StatusSkipped)
  }

  lemma FinishedStep(c: Config, s: State, a: Action, n: Id)
    requires c.resumed && Enabled(c, s, a) && Finished(s.results, n) && !Clears(c, s, a, n)
    ensures Finished(Do(c, s, a).results, n)
    ensures !Refuses(s, a, n) ==> Do(c, s, a).results[n] == s.results[n]
    ensures Executes(s, a, n) ==> !Acted(c, s, a) && Do(c, s, a).workers[a.worker] == Ran(n, false)
  {
    hide Do, Clears, Enabled;
    if Executes(s, a, n) {
      ExecutedResult(c, s, a, n);
      ResumedFinished(Spec(c, n), s.results, n, a.answers);
    } else if Refuses(s, a, n) {
      RefusedResult(c, s, a, n);
    } else {
      UntouchedResult(c, s, a, n);
    }
    hide NodeRule;
  }

  lemma ResumedFinished(spec: StepSpec, results: Results, n: Id, answers: Answers)
    requires Finished(results, n)
    ensures NodeRule(spec, true, results, n, answers) == Effect(results, false, false)
  {
  }

  /**
   In a resumed run the action of a step recovered as success or skipped is not executed
   again unless a goto resets the step, and its result stays unless it is refused.
   */
  lemma {:induction false} KeptNeverExecuted(c: Config, states: seq<State>, actions: seq<Action>, m: nat, n: Id)
    requires c.resumed && IsRun(c, states, actions) && states[0] == Init(c) && m <= |actions|
    requires n in c.recovered && (c.recovered[n].status == StatusSuccess || c.recovered[n].status == StatusSkipped)
    requires forall k {:trigger actions[k]} | 0 <= k < m :: !Clears(c, states[k], actions[k], n)
    ensures Finished(states[m].results, n)
    ensures (forall k {:trigger actions[k]} | 0 <= k < m :: !Refuses(states[k], actions[k], n)) ==>
              states[m].results[n] == c.recovered[n]
    ensures forall k {:trigger actions[k]} | 0 <= k < m && Executes(states[k], actions[k], n) ::
              !Acted(c, states[k], actions[k]) && states[k + 1].workers[actions[k].worker] == Ran(n, false)
  {
    hide Do, Enabled, Executes, Refuses, Clears, Acted;
    if m > 0 {
      KeptNeverExecuted(c, states, actions, m - 1, n);
      assert !Clears(c, states[m - 1], actions[m - 1], n);
      FinishedStep(c, states[m - 1], actions[m - 1], n);
    }
  }

  /**
   The first execution of a step goes by what was recovered: anything but a success, a skip
   or, without retry, a step that was running is executed; a step that was running is
   recorded as its strategy says.
   */
  lemma FirstExecution(c: Config, states: seq<State>, actions: seq<Action>, k: nat, n: Id)
    requires IsRun(c, states, actions) && states[0] == Init(c) && k < |actions|
    requires Executes(states[k], actions[k], n) && Untouched(c, states, actions, 0, k, n)
    ensures var spec, answers, was := Spec(c, n), actions[k].answers, if c.resumed then c.recovered else map[];
            var s' := states[k + 1];
            && (Acted(c, states[k], actions[k]) <==>
                  && (n in was ==> was[n].status == StatusFailed || was[n].status == StatusWaiting
                                   || (was[n].status == StatusRunning && spec.onRecovery == Retry))
                  && (!spec.hasWhen || answers.condition == WhenTrue) && !answers.action.Unprepared?)
            && (n in was && was[n].status == StatusRunning && spec.onRecovery == Skip ==>
                  SameResult(map[n := StepResult(StatusSuccess, Null, None)], s'.results, n)
                  && s'.workers[actions[k].worker] == Ran(n, false))
            && (n in was && was[n].status == StatusRunning && spec.onRecovery == Fail ==>
                  n in s'.results && s'.results[n].status == StatusFailed
                  && s'.workers[actions[k].worker] == Ran(n, true))
  {
    hide Do;
    ResultStays(c, states, actions, 0, k, n);
    ExecutedResult(c, states[k], actions[k], n);
    FirstAttempt(Spec(c, n), c.resumed, states[k].results, n, actions[k].answers);
    hide NodeRule;
  }

  lemma FirstAttempt(spec: StepSpec, resumed: bool, results: Results, n: Id, answers: Answers)
    ensures var e := NodeRule(spec, resumed, results, n, answers);
            && (e.acted <==> Executable(spec, resumed, results, n) && Goes(spec, answers) && !answers.action.Unprepared?)
            && (resumed && n in results && results[n].status == StatusRunning && spec.onRecovery == Skip ==>
                  !e.failed && n in e.results && e.results[n] == StepResult(StatusSuccess, Null, None))
            && (resumed && n in results && results[n].status == StatusRunning && spec.onRecovery == Fail ==>
                  e.failed && n in e.results && e.results[n].status == StatusFailed)
  {
  }
}
