/**
 What a run returns: the first error stays, descendants of a failed step are skipped
 without being executed, and the final status says what the recorded results say.
 */
module SchedulerOutcome {
  import opened Graph
  import opened Ledger
  import opened LoopBody
  import opened StepNode
  import opened Wrappers
  import opened Scheduler
  import opened SchedulerInvariant
  import opened SchedulerRewind
  import opened SchedulerSafety
  import opened SchedulerRounds

  // ---- the first error ----

  lemma StepFirstError(c: Config, s: State, a: Action)
    requires Enabled(c, s, a)
    ensures s.firstErr.Some? ==> Do(c, s, a).firstErr == s.firstErr
    ensures s.firstErr == None ==>
              Do(c, s, a).firstErr == if ReportsError(s, a) then Some(s.workers[a.worker].step) else None
  {
    hide Rewound, ReadySteps, NodeRule, WithTask;
  }

  lemma {:induction false} FirstErrorStays(c: Config, states: seq<State>, actions: seq<Action>, i: nat, j: nat)
    requires IsRun(c, states, actions) && i <= j <= |actions| && states[i].firstErr.Some?
    ensures states[j].firstErr == states[i].firstErr
  {
    hide Do;
    if i < j {
      FirstErrorStays(c, states, actions, i, j - 1);
      StepFirstError(c, states[j - 1], actions[j - 1]);
    }
  }

  ghost predicate ReportsError(s: State, a: Action) {
    a.Complete? && a.worker < |s.workers| && s.workers[a.worker].Ran? && s.workers[a.worker].failed
  }

  /** The error that is kept is the one counted first; without one no step has returned an error. */
  lemma FirstErrorIsFirst(c: Config, states: seq<State>, actions: seq<Action>, i: nat)
    requires IsRun(c, states, actions) && states[0] == Init(c) && i < |actions| && ReportsError(states[i], actions[i])
    ensures states[|actions|].firstErr.Some?
    ensures (forall j | 0 <= j < i :: !ReportsError(states[j], actions[j]))
            ==> states[|actions|].firstErr == Some(states[i].workers[actions[i].worker].step)
  {
    hide Do, Init;
    StepFirstError(c, states[i], actions[i]);
    if forall j | 0 <= j < i :: !ReportsError(states[j], actions[j]) {
      NoErrorYet(c, states, actions, i);
    }
    FirstErrorStays(c, states, actions, i + 1, |actions|);
  }

  lemma {:induction false} NoErrorYet(c: Config, states: seq<State>, actions: seq<Action>, i: nat)
    requires IsRun(c, states, actions) && states[0] == Init(c) && i <= |actions|
    requires forall j | 0 <= j < i :: !ReportsError(states[j], actions[j])
    ensures states[i].firstErr == None
  {
    hide Do;
    if i > 0 {
      NoErrorYet(c, states, actions, i - 1);
      StepFirstError(c, states[i - 1], actions[i - 1]);
    }
  }

  // ---- descendants of a failed step ----

  predicate Chosen(s: State, d: Id) {
    s.dispatcher == Admit(d) || s.dispatcher == Acquire(d)
  }

  /** After the error `d` waits, is on its way to be refused, or has been skipped. */
  ghost predicate Doomed(c: Config, s: State, ph: Phases, d: Id) {
    && d in Nodes(c.g) && d in ph && s.firstErr.Some? && !Chosen(s, d)
    && (ph[d].Running? ==> s.dispatcher == Refused(d))
    && (ph[d].Running? || ph[d].Done? ==> d in s.results && s.results[d] == SKIPPED)
  }

  lemma NoWorkerOn(c: Config, s: State, ph: Phases, d: Id, i: nat)
    requires TokensMatch(c, s, ph) && Doomed(c, s, ph, d) && i < |s.workers|
    ensures !(s.workers[i].Run? && s.workers[i].step == d) && !(s.workers[i].Ran? && s.workers[i].step == d)
  {
    hide WaitAll;
    AllTokensUpdate(c, s.workers, i, Gone, Act(d));
    assert Tokens(c, s, Act(d)) == Want(c, s, ph, Act(d));
  }

  lemma DoomedStays(c: Config, s: State, ph: Phases, a: Action, d: Id)
    requires ValidConfig(c) && WellFormedLoops(c) && Inv(c, s, ph) && Enabled(c, s, a) && Doomed(c, s, ph, d)
    ensures Doomed(c, Do(c, s, a), NextPhases(c, s, ph, a), d)
    ensures Get(Do(c, s, a).launched, d) == Get(s.launched, d)
  {
    hide Inv, ValidConfig, WellFormedLoops, Do, RewindPhases, Doomed;
    match a {
      case Execute(i, answers) => DoomedExecute(c, s, ph, i, answers, d);
      case Complete(i, wanted) => DoomedComplete(c, s, ph, i, wanted, d);
      case SignalChild(ag) => DoomedSignal(c, s, ph, ag, d);
      case Skip2 => DoomedSkip(c, s, ph, d);
      case SendChild(ag) => DoomedAgent(c, s, ph, a, ag, d);
      case CloseDone(ag) => DoomedAgent(c, s, ph, a, ag, d);
      case _ => DoomedPlain(c, s, ph, a, d);
    }
  }

  lemma DoomedExecute(c: Config, s: State, ph: Phases, i: nat, answers: Answers, d: Id)
    requires Inv(c, s, ph) && Enabled(c, s, Execute(i, answers)) && Doomed(c, s, ph, d)
    ensures Doomed(c, Do(c, s, Execute(i, answers)), ph, d)
    ensures Get(Do(c, s, Execute(i, answers)).launched, d) == Get(s.launched, d)
  {
    hide Inv, NodeRule;
    InvTokens(c, s, ph);
    NoWorkerOn(c, s, ph, d, i);
    OtherResult(c, s, i, answers, d);
  }

  lemma DoomedSkip(c: Config, s: State, ph: Phases, d: Id)
    requires Inv(c, s, ph) && Enabled(c, s, Skip2) && Doomed(c, s, ph, d)
    ensures Doomed(c, Do(c, s, Skip2), ph[s.dispatcher.step := Done(0)], d)
    ensures Get(Do(c, s, Skip2).launched, d) == Get(s.launched, d)
  {
    hide Inv;
    SkipIsCounted(c, s);
    RefusedRuns(c, s, ph);
  }

  lemma DoomedPlain(c: Config, s: State, ph: Phases, a: Action, d: Id)
    requires Enabled(c, s, a) && Doomed(c, s, ph, d)
    requires !a.Execute? && !a.Complete? && !a.SignalChild? && !a.Skip2? && !a.SendChild? && !a.CloseDone?
    ensures Doomed(c, Do(c, s, a), NextPhases(c, s, ph, a), d)
    ensures Get(Do(c, s, a).launched, d) == Get(s.launched, d)
  {
    hide Counted, Finish, Signalled, NodeRule, RewindPhases, SignalPhases;
  }

  lemma RefusedRuns(c: Config, s: State, ph: Phases)
    requires Inv(c, s, ph) && s.dispatcher.Refused?
    ensures PhaseIs(c.g, ph, s.dispatcher.step, Running)
  {
    hide AllTokens, WaitAll, WaitingIsDue, DegreesDue, CountsMatch;
    assert Tokens(c, s, Act(s.dispatcher.step)) > 0;
    HoldsAct(c, s, ph, s.dispatcher.step);
  }

  lemma DoomedAgent(c: Config, s: State, ph: Phases, a: Action, ag: Agent, d: Id)
    requires Enabled(c, s, a) && Doomed(c, s, ph, d) && (a == SendChild(ag) || a == CloseDone(ag))
    ensures Doomed(c, Do(c, s, a), ph, d) && Do(c, s, a).launched == s.launched
  {
  }

  lemma InvTokens(c: Config, s: State, ph: Phases)
    requires Inv(c, s, ph)
    ensures TokensMatch(c, s, ph)
  {
  }

  lemma OtherResult(c: Config, s: State, i: nat, answers: Answers, d: Id)
    requires Enabled(c, s, Execute(i, answers)) && s.workers[i].step != d
    ensures var r := Do(c, s, Execute(i, answers)).results;
            (d in r <==> d in s.results) && (d in r ==> r[d] == s.results[d])
  {
    NodeLeavesResult(Spec(c, s.workers[i].step), c.resumed, s.results, s.workers[i].step, answers);
    hide NodeRule;
  }

  lemma DoomedSignal(c: Config, s: State, ph: Phases, a: Agent, d: Id)
    requires ValidConfig(c) && Inv(c, s, ph) && Enabled(c, s, SignalChild(a)) && Doomed(c, s, ph, d)
    ensures Doomed(c, Do(c, s, SignalChild(a)), SignalPhases(c, s, ph, TaskOf(s, a).step, TaskOf(s, a).next), d)
    ensures Get(Do(c, s, SignalChild(a)).launched, d) == Get(s.launched, d)
  {
    hide Due, Tokens, Want, Acyclic, DoneSet, AllDone;
    SignalHeld(c, s, ph, a, TaskOf(s, a).step, TaskOf(s, a).next);
    SignalLedger(c, s, ph, a, TaskOf(s, a).step, TaskOf(s, a).next);
  }

  lemma DoomedComplete(c: Config, s: State, ph: Phases, i: nat, wanted: bool, d: Id)
    requires ValidConfig(c) && WellFormedLoops(c) && Inv(c, s, ph) && Enabled(c, s, Complete(i, wanted)) && Doomed(c, s, ph, d)
    ensures Doomed(c, Do(c, s, Complete(i, wanted)), NextPhases(c, s, ph, Complete(i, wanted)), d)
    ensures Get(Do(c, s, Complete(i, wanted)).launched, d) == Get(s.launched, d)
  {
    hide Inv, ValidConfig, WellFormedLoops, Rewound, ReadySteps;
    var n, failed := s.workers[i].step, s.workers[i].failed;
    InvTokens(c, s, ph);
    NoWorkerOn(c, s, ph, d, i);
    if JumpTaken(c, s, n, failed, wanted) {
      LoopOf(c, n);
      RewindKeeps(c, s, ph, i);
      assert d in Elements(c.loops[n].body) <==> d in c.loops[n].body;
    }
  }

  /** At the moment a step's error is counted, its descendants have not been started in their current round. */
  lemma DescendantsDoomed(c: Config, s: State, ph: Phases, i: nat, wanted: bool, d: Id)
    requires ValidConfig(c) && WellFormedLoops(c) && Inv(c, s, ph) && Enabled(c, s, Complete(i, wanted))
    requires s.workers[i].failed && Ancestor(c.g, s.workers[i].step, d)
    ensures Doomed(c, Do(c, s, Complete(i, wanted)), NextPhases(c, s, ph, Complete(i, wanted)), d)
    ensures Get(Do(c, s, Complete(i, wanted)).launched, d) == Get(s.launched, d)
  {
    hide ValidConfig, Inv, Do, WellFormedLoops;
    DescendantIdle(c, s, ph, i, d);
    ChosenWaits(c, s, ph, d);
    assert !JumpTaken(c, s, s.workers[i].step, true, wanted);
    CompleteIsCounted(c, s, i, wanted);
  }

  lemma ChosenWaits(c: Config, s: State, ph: Phases, d: Id)
    requires Inv(c, s, ph)
    ensures Chosen(s, d) ==> PhaseIs(c.g, ph, d, Pending)
  {
    hide WaitingIsDue, DegreesDue, CountsMatch;
    if Chosen(s, d) {
      HoldsWait(c, s, ph, d);
    }
  }

  lemma DescendantIdle(c: Config, s: State, ph: Phases, i: nat, d: Id)
    requires ValidConfig(c) && Inv(c, s, ph) && i < |s.workers| && s.workers[i].Ran?
    requires Ancestor(c.g, s.workers[i].step, d)
    ensures PhaseIs(c.g, ph, d, Idle) && d != s.workers[i].step
  {
    hide Due, Tokens, CountsMatch, DegreesDue, Acyclic;
    var n := s.workers[i].step;
    AncestorInGraph(c.g, n, d);
    AncestorReach(c.g, n, d);
    TaskChange(c, s, Worker(i), Gone, Act(n));
    HoldsAct(c, s, ph, n);
    if !ph[d].Idle? {
      AncestorDone(c.g, ph, n, d);
      assert false;
    }
  }

  lemma AncestorInGraph(g: Graph, a: Id, b: Id)
    requires Ancestor(g, a, b)
    ensures b in Nodes(g)
  {
    var p :| PathBetween(g, p, a, b) && 2 <= |p|;
  }

  lemma {:induction false} DoomedRun(c: Config, states: seq<State>, actions: seq<Action>, i: nat, j: nat, d: Id)
    requires ValidConfig(c) && WellFormedLoops(c) && IsRun(c, states, actions) && states[0] == Init(c)
    requires i <= j <= |actions| && Doomed(c, states[i], PhasesAt(c, states, actions, i), d)
    ensures Doomed(c, states[j], PhasesAt(c, states, actions, j), d)
    ensures Get(states[j].launched, d) == Get(states[i].launched, d)
  {
    hide Inv, ValidConfig, WellFormedLoops, Doomed, NextPhases, Do;
    if i < j {
      DoomedRun(c, states, actions, i, j - 1, d);
      RunKeeps(c, states, actions, j - 1);
      DoomedStays(c, states[j - 1], PhasesAt(c, states, actions, j - 1), actions[j - 1], d);
    }
  }

  /**
   Once the error of a step is counted no proper descendant is ever started again, in
   any continuation, and when the call returns every one of them is recorded as skipped.
   */
  lemma FailurePropagates(c: Config, states: seq<State>, actions: seq<Action>, i: nat, j: nat, d: Id)
    requires ValidConfig(c) && WellFormedLoops(c) && IsRun(c, states, actions) && states[0] == Init(c)
    requires i < j <= |actions| && ReportsError(states[i], actions[i])
    requires Ancestor(c.g, states[i].workers[actions[i].worker].step, d)
    ensures Get(states[j].launched, d) == Get(states[i].launched, d)
    ensures states[j].caller.Returned? ==>
              d in states[j].results && states[j].results[d] == StepResult(StatusSkipped, Null, None)
    ensures states[j].caller.Returned? ==> states[j].caller.error.Some?
  {
    hide ValidConfig, WellFormedLoops, WaitingIsDue, DegreesDue, TokensMatch, NextPhases, Do;
    RunKeeps(c, states, actions, i);
    DescendantsDoomed(c, states[i], PhasesAt(c, states, actions, i), actions[i].worker, actions[i].wanted, d);
    assert actions[i] == Complete(actions[i].worker, actions[i].wanted);
    DoomedRun(c, states, actions, i + 1, j, d);
    RunKeeps(c, states, actions, j);
    RunRounds(c, states, actions, j);
  }

  // ---- recorded results and final status ----

  ghost predicate Recorded(c: Config, results: Results, n: Id) {
    n in results && Terminal(results[n].status) && (results[n].status == StatusFailed ==> Spec(c, n).policy == Continue)
  }

  /** As long as no error was reported, every counted or executed step has a final result. */
  ghost predicate ResultsRecorded(c: Config, s: State, ph: Phases) {
    s.firstErr == None ==>
      && (forall n | n in Nodes(c.g) && n in ph && ph[n].Done? :: Recorded(c, s.results, n))
      && (forall i | 0 <= i < |s.workers| && s.workers[i].Ran? && !s.workers[i].failed :: Recorded(c, s.results, s.workers[i].step))
      && !s.dispatcher.Refuse? && !s.dispatcher.Refused?
  }

  lemma ExecuteRecords(c: Config, s: State, i: nat, answers: Answers, n: Id)
    requires Enabled(c, s, Execute(i, answers))
    ensures var s' := Do(c, s, Execute(i, answers));
            && (n == s.workers[i].step && !s'.workers[i].failed ==>
                  n in s'.results && Terminal(s'.results[n].status)
                  && (s'.results[n].status == StatusFailed ==> Spec(c, n).policy == Continue))
            && (n != s.workers[i].step && Recorded(c, s.results, n) ==> Recorded(c, s'.results, n))
            && s'.workers[i].Ran? && s'.workers[i].step == s.workers[i].step
            && s'.workers == s.workers[i := s'.workers[i]]
            && s'.dispatcher == s.dispatcher && s'.firstErr == s.firstErr
  {
    NodeLeavesResult(Spec(c, s.workers[i].step), c.resumed, s.results, s.workers[i].step, answers);
    hide NodeRule;
  }

  lemma RecordsExecute(c: Config, s: State, ph: Phases, i: nat, answers: Answers)
    requires Inv(c, s, ph) && Enabled(c, s, Execute(i, answers)) && ResultsRecorded(c, s, ph)
    ensures ResultsRecorded(c, Do(c, s, Execute(i, answers)), ph)
  {
    hide Do, Inv, Recorded;
    var n, s' := s.workers[i].step, Do(c, s, Execute(i, answers));
    ExecuteKeeps(c, s, ph, i, answers);
    RecordedDef(c, s'.results, n);
    ExecuteRecords(c, s, i, answers, n);
    if s.firstErr == None {
      forall m | m in Nodes(c.g) && m in ph && ph[m].Done?
        ensures Recorded(c, s'.results, m)
      {
        ExecuteRecords(c, s, i, answers, m);
      }
      forall j | 0 <= j < |s'.workers| && s'.workers[j].Ran? && !s'.workers[j].failed
        ensures Recorded(c, s'.results, s'.workers[j].step)
      {
        if j != i {
          OneWorkerEach(c, s, ph, i, j);
          ExecuteRecords(c, s, i, answers, s.workers[j].step);
        }
      }
    }
  }

  lemma RecordedDef(c: Config, results: Results, n: Id)
    ensures Recorded(c, results, n) <==>
            n in results && Terminal(results[n].status) && (results[n].status == StatusFailed ==> Spec(c, n).policy == Continue)
  {
  }

  predicate Executing(t: Task) {
    t.Run? || t.Ran?
  }

  /** Two goroutines never execute the same step. */
  lemma OneWorkerEach(c: Config, s: State, ph: Phases, i: nat, j: nat)
    requires Inv(c, s, ph) && i < |s.workers| && j < |s.workers| && i != j
    requires Executing(s.workers[i]) && Executing(s.workers[j])
    ensures s.workers[i].step != s.workers[j].step
  {
    hide WaitAll, WaitingIsDue, DegreesDue, CountsMatch;
    var n := s.workers[i].step;
    ActOnce(c, s, ph, n);
    AllTokensUpdate(c, s.workers, i, Gone, Act(n));
    AllTokensUpdate(c, s.workers[i := Gone], j, Gone, Act(n));
  }

  lemma RecordsComplete(c: Config, s: State, ph: Phases, i: nat, wanted: bool)
    requires ValidConfig(c) && WellFormedLoops(c) && Inv(c, s, ph) && Enabled(c, s, Complete(i, wanted)) && ResultsRecorded(c, s, ph)
    ensures ResultsRecorded(c, Do(c, s, Complete(i, wanted)), NextPhases(c, s, ph, Complete(i, wanted)))
  {
    hide Inv, ValidConfig, WellFormedLoops, ResultsRecorded, Do;
    var n, failed := s.workers[i].step, s.workers[i].failed;
    if JumpTaken(c, s, n, failed, wanted) {
      if s.firstErr == None {
        RecordsRewind(c, s, ph, i);
      }
      CompleteIsRewind(c, s, ph, i, wanted);
    } else {
      CompleteIsCounted(c, s, i, wanted);
      RecordsCounted(c, s, ph, i);
    }
  }

  lemma CompleteIsRewind(c: Config, s: State, ph: Phases, i: nat, wanted: bool)
    requires Enabled(c, s, Complete(i, wanted)) && JumpTaken(c, s, s.workers[i].step, s.workers[i].failed, wanted)
    ensures Do(c, s, Complete(i, wanted)) == RewindState(c, s, i, s.workers[i].step)
    ensures s.firstErr.Some? ==> ResultsRecorded(c, Do(c, s, Complete(i, wanted)), NextPhases(c, s, ph, Complete(i, wanted)))
  {
    hide Recorded, Rewound, ReadySteps;
  }

  lemma RecordsCounted(c: Config, s: State, ph: Phases, i: nat)
    requires ResultsRecorded(c, s, ph) && i < |s.workers| && s.workers[i].Ran?
    ensures var n := s.workers[i].step;
            ResultsRecorded(c, CountedState(c, s, Worker(i), n, ErrorAfter(s, n, s.workers[i].failed)), ph[n := Done(0)])
  {
    hide Recorded;
  }

  lemma RecordsRewind(c: Config, s: State, ph: Phases, i: nat)
    requires ValidConfig(c) && WellFormedLoops(c) && Inv(c, s, ph) && ResultsRecorded(c, s, ph)
    requires i < |s.workers| && s.workers[i].Ran? && JumpTaken(c, s, s.workers[i].step, false, true) && s.firstErr == None
    ensures var n := s.workers[i].step;
            ResultsRecorded(c, RewindState(c, s, i, n), RewindPhases(ph, Elements(c.loops[n].body), c.loops[n].target))
  {
    hide Inv, ValidConfig, WellFormedLoops, Rewound, ReadySteps;
    var n := s.workers[i].step;
    var body := Elements(c.loops[n].body);
    var s' := RewindState(c, s, i, n);
    LoopOf(c, n);
    RewindKeeps(c, s, ph, i);
    forall j | 0 <= j < |s'.workers| && s'.workers[j].Ran? && !s'.workers[j].failed
      ensures Recorded(c, s'.results, s'.workers[j].step)
    {
      var m := s.workers[j].step;
      OneWorkerEach(c, s, ph, i, j);
      RanRuns(c, s, ph, j);
      assert m in body <==> m in c.loops[n].body;
    }
    forall m | m in Nodes(c.g) && m in RewindPhases(ph, body, c.loops[n].target)
              && RewindPhases(ph, body, c.loops[n].target)[m].Done?
      ensures Recorded(c, s'.results, m)
    {
      assert m !in body;
    }
  }

  lemma RanRuns(c: Config, s: State, ph: Phases, i: nat)
    requires Inv(c, s, ph) && i < |s.workers| && s.workers[i].Ran?
    ensures PhaseIs(c.g, ph, s.workers[i].step, Running)
  {
    hide WaitAll, WaitingIsDue, DegreesDue, CountsMatch;
    AllTokensUpdate(c, s.workers, i, Gone, Act(s.workers[i].step));
    assert Tokens(c, s, Act(s.workers[i].step)) == Want(c, s, ph, Act(s.workers[i].step));
  }

  lemma RecordsSignal(c: Config, s: State, ph: Phases, a: Agent)
    requires ValidConfig(c) && Inv(c, s, ph) && Enabled(c, s, SignalChild(a)) && ResultsRecorded(c, s, ph)
    ensures ResultsRecorded(c, Do(c, s, SignalChild(a)), SignalPhases(c, s, ph, TaskOf(s, a).step, TaskOf(s, a).next))
  {
    hide Due, Tokens, Want, Acyclic, DoneSet, AllDone, Recorded;
    SignalHeld(c, s, ph, a, TaskOf(s, a).step, TaskOf(s, a).next);
    SignalLedger(c, s, ph, a, TaskOf(s, a).step, TaskOf(s, a).next);
  }

  lemma RecordsDispatcher(c: Config, s: State, ph: Phases, a: Action)
    requires ValidConfig(c) && Inv(c, s, ph) && Enabled(c, s, a) && ResultsRecorded(c, s, ph)
    requires a == Take || a == Skip1 || a == Skip2
    ensures ResultsRecorded(c, Do(c, s, a), NextPhases(c, s, ph, a))
  {
    hide Inv, Recorded, ValidConfig;
    if a == Skip2 {
      SkipIsCounted(c, s);
    }
  }

  /** Handing an agent a task other than a finished execution changes nothing recorded. */
  lemma RecordsTask(c: Config, s: State, ph: Phases, s1: State, a: Agent, t: Task)
    requires ResultsRecorded(c, s, ph) && s1.firstErr == s.firstErr && s1.results == s.results
    requires s1.workers == s.workers && s1.dispatcher == s.dispatcher && !t.Ran?
    ensures ResultsRecorded(c, WithTask(s1, a, t), ph)
  {
    hide Recorded;
  }

  lemma RecordsQuiet(c: Config, s: State, ph: Phases, a: Action)
    requires Enabled(c, s, a) && ResultsRecorded(c, s, ph)
    requires !a.Take? && !a.Skip1? && !a.Skip2? && !a.Execute? && !a.Complete? && !a.SignalChild?
    ensures ResultsRecorded(c, Do(c, s, a), ph)
  {
    hide Recorded;
    match a {
      case SendChild(ag) =>
        var n, k := TaskOf(s, ag).step, TaskOf(s, ag).sent;
        RecordsTask(c, s, ph, s.(ready := s.ready + [Children(c.g, n)[k]]), ag, NextSignal(c, n, k + 1));
      case CloseDone(ag) => RecordsTask(c, s, ph, s.(closes := s.closes + 1), ag, Leave);
      case SendTarget(i) =>
        var n, rest := s.workers[i].step, s.workers[i].rest;
        RecordsTask(c, s, ph, s.(ready := s.ready + [rest[0]]), Worker(i), NextJump(n, rest[1..]));
      case Release(i) => RecordsTask(c, s, ph, s.(sem := s.sem - 1), Worker(i), Detach);
      case WgDone(i) => RecordsTask(c, s, ph, s.(wg := s.wg - 1), Worker(i), Gone);
      case _ =>
    }
  }

  lemma StepRecords(c: Config, s: State, ph: Phases, a: Action)
    requires ValidConfig(c) && WellFormedLoops(c) && Inv(c, s, ph) && Enabled(c, s, a) && ResultsRecorded(c, s, ph)
    ensures ResultsRecorded(c, Do(c, s, a), NextPhases(c, s, ph, a))
  {
    hide Inv, ValidConfig, WellFormedLoops, ResultsRecorded, Do;
    match a {
      case Execute(i, answers) => RecordsExecute(c, s, ph, i, answers);
      case Complete(i, wanted) => RecordsComplete(c, s, ph, i, wanted);
      case SignalChild(ag) => RecordsSignal(c, s, ph, ag);
      case Take => RecordsDispatcher(c, s, ph, a);
      case Skip1 => RecordsDispatcher(c, s, ph, a);
      case Skip2 => RecordsDispatcher(c, s, ph, a);
      case _ => RecordsQuiet(c, s, ph, a);
    }
  }

  lemma {:induction false} RunRecords(c: Config, states: seq<State>, actions: seq<Action>, k: nat)
    requires ValidConfig(c) && WellFormedLoops(c) && IsRun(c, states, actions) && states[0] == Init(c) && k <= |actions|
    ensures ResultsRecorded(c, states[k], PhasesAt(c, states, actions, k))
  {
    hide Inv, ValidConfig, WellFormedLoops, NextPhases, Do;
    if k > 0 {
      hide ResultsRecorded;
      RunRecords(c, states, actions, k - 1);
      RunKeeps(c, states, actions, k - 1);
      StepRecords(c, states[k - 1], PhasesAt(c, states, actions, k - 1), actions[k - 1]);
    }
  }

  /**
   A run that returns no error has a final result for every step, failed only under
   `error_policy: continue`.
   */
  lemma NoErrorMeansRecorded(c: Config, s: State)
    requires ValidConfig(c) && WellFormedLoops(c) && Reachable(c, s) && s.caller == Returned(None)
    ensures forall n | n in Nodes(c.g) :: Recorded(c, s.results, n)
  {
    hide ValidConfig, WellFormedLoops, Inv, ResultsRecorded, ReturnedClean, NextPhases, Do, Enabled, Init, Recorded;
    var states, actions :| IsRun(c, states, actions) && states[0] == Init(c) && states[|states| - 1] == s;
    RunKeeps(c, states, actions, |actions|);
    RunRounds(c, states, actions, |actions|);
    RunRecords(c, states, actions, |actions|);
    AllRecorded(c, s, PhasesAt(c, states, actions, |actions|));
  }

  lemma AllRecorded(c: Config, s: State, ph: Phases)
    requires Inv(c, s, ph) && ReturnedClean(s) && ResultsRecorded(c, s, ph) && s.caller == Returned(None)
    ensures forall n | n in Nodes(c.g) :: Recorded(c, s.results, n)
  {
    hide WaitingIsDue, DegreesDue, TokensMatch, Recorded;
  }

  /**
   What the status of an execution says.  Success: no error was returned and every step has
   a recorded result that is a success or a skip.  Completed with errors: no error was
   returned and some result is failed.  Failed: an error was returned and the context was
   not done.  Cancelled: an error was returned and the context was done, or, whatever was
   returned, the workflow has recovery and its context was done right after the run.
   */
  lemma StatusMeans(c: Config, s: State, recovery: bool, early: bool, late: bool)
    requires ValidConfig(c) && WellFormedLoops(c) && Reachable(c, s) && s.caller.Returned?
    ensures var status, cut := ResultStatus(recovery, early, late, s.caller.error.Some?, s.results), recovery && early;
            && s.caller.error == s.firstErr
            && (status == RunCancelled <==> cut || (s.firstErr.Some? && late))
            && (status == RunFailed <==> !cut && s.firstErr.Some? && !late)
            && (status == RunCompletedWithErrors <==> !cut && s.firstErr == None && AnyFailed(s.results))
            && (status == RunSuccess <==> !cut && s.firstErr == None && !AnyFailed(s.results))
            && (status == RunSuccess ==> forall n | n in Nodes(c.g) ::
                  n in s.results && (s.results[n].status == StatusSuccess || s.results[n].status == StatusSkipped))
            && (status == RunCompletedWithErrors ==> forall n | n in Nodes(c.g) ::
                  n in s.results && Terminal(s.results[n].status))
  {
    ReturnedIsComplete(c, s);
    hide ValidConfig, WellFormedLoops, Reachable;
    if s.caller == Returned(None) {
      NoErrorMeansRecorded(c, s);
    }
  }
}
